/** Client runs of the manager, each driving its events in a fixed order and returning
    what a caller can observe. They show what the specifications of the events let a
    client conclude about the orchestration, including its quirks. */
module Scenarios {

  import opened Wrappers
  import opened Errors
  import opened OAuth
  import opened Requests
  import opened WaitingQueue
  import opened Assembly
  import opened Manager

  const TokenKey := "access-token"

  /** A token getter that reads the stored access token. */
  function StoredToken(c: Credentials): Option<string>
  {
    if TokenKey in c then Some(c[TokenKey]) else None
  }

  function NoCache(response: Response, data: Bytes): Option<Bytes>
  {
    None
  }

  /** A GET that needs authentication and whose refresh calls back. */
  function AuthenticatedGet(url: string): NetworkRequest
  {
    NetworkRequest(url, Get, None, None, None, NoCache, _ => true, OAuthHandler(true, StoredToken, Replies))
  }

  /** A new manager with budget `budget` on a new queue, after `fire` of an authenticated
      GET while no token is stored: the task runs without an Authorization header, the
      caller is queued and one refresh is started. */
  method FiredWithoutToken(budget: int) returns (m: NetworkManager, request: NetworkRequest)
    requires budget > 0
    ensures fresh(m) && fresh(m.queue) && m.Valid()
    ensures request == AuthenticatedGet("https://example.org/a")
    ensures m.maxAttempts == budget && m.attempts == budget
    ensures m.tasks == [DataTask(request, 1, AssembledRequest(request, map[]), Running)] && m.currentTask == Some(0)
    ensures AuthorizationField !in m.tasks[0].sent.headers
    ensures m.queue.elements == [Entry(request, 1)] && m.refreshCalls == [Entry(request, 1)] && m.delivered == []
  {
    var q := new WaitingRequestQueue();
    m := new NetworkManager(budget, q);
    request := AuthenticatedGet("https://example.org/a");
    m.Fire(request, 1, map[]);
    FireHeaders(request, map[]);
  }

  /** The `refreshed` outcome of that refresh, once the token "fresh" is stored: the first
      task is cancelled and the replay runs with the new bearer token. */
  method RefreshedWithToken(m: NetworkManager, request: NetworkRequest)
    requires m.Valid() && request == AuthenticatedGet("https://example.org/a")
    requires m.tasks == [DataTask(request, 1, AssembledRequest(request, map[]), Running)] && m.currentTask == Some(0)
    requires m.queue.elements == [Entry(request, 1)] && m.refreshCalls == [Entry(request, 1)]
    modifies m, m.queue
    ensures m.Valid()
    ensures m.attempts == old(m.attempts) - 1 && m.maxAttempts == old(m.maxAttempts)
    ensures m.tasks == [old(m.tasks[0]).(state := Cancelled), DataTask(request, 1, AssembledRequest(request, FreshToken), Running)]
    ensures m.currentTask == Some(1)
    ensures m.queue.elements == [] && m.refreshCalls == old(m.refreshCalls) && m.delivered == old(m.delivered)
  {
    m.OnRefreshOutcome(0, Refreshed, FreshToken);
    assert [Entry(request, 1)][0] == Entry(request, 1);
  }

  const FreshToken: Credentials := map[TokenKey := "fresh"]

  /** A request without a token takes the refresh path and is still sent, without an
      Authorization header; after `refreshed` its replay carries the new bearer token. */
  method MissingTokenThenReplay() returns (firstSentAuthorization: bool, replayAuthorization: Option<string>,
                                           stillQueued: nat, runningTask: Option<nat>)
    ensures !firstSentAuthorization
    ensures replayAuthorization == Some("Bearer fresh")
    ensures stillQueued == 0
    ensures runningTask == Some(1)
  {
    var m, request := FiredWithoutToken(DefaultMaxAttempts);
    firstSentAuthorization := AuthorizationField in m.tasks[0].sent.headers;
    RefreshedWithToken(m, request);
    assert BearerToken(request.auth, FreshToken) == Some("fresh");
    FireHeaders(request, FreshToken);
    var replay := m.tasks[1].sent.headers;
    assert BearerPrefix + "fresh" == "Bearer fresh";
    replayAuthorization := if AuthorizationField in replay then Some(replay[AuthorizationField]) else None;
    stillQueued := |m.queue.elements|;
    runningTask := m.currentTask;
  }

  /** One turn of the drain loop on an entry that still has no token: dequeuing it and
      re-firing it puts it straight back, so the queue after the turn is the queue before
      it and `dequeue` never returns nil. */
  method TokenlessReplayRequeues() returns (queuedBefore: nat, queuedAfter: nat, requeued: bool,
                                            ghost before: seq<Entry>, ghost after: seq<Entry>)
    ensures queuedBefore == 1 && queuedAfter == 1
    ensures requeued
    ensures after == before
  {
    var m, _ := FiredWithoutToken(DefaultMaxAttempts);
    before := m.queue.elements;
    queuedBefore := |m.queue.elements|;
    var next := m.queue.Dequeue();
    m.Fire(next.value.request, next.value.completion, map[]);
    after := m.queue.elements;
    queuedAfter := |m.queue.elements|;
    requeued := |m.queue.elements| == 1 && m.queue.elements[0].completion == 1;
  }

  /** The drain that ends, on the same input: re-firing the one waiting entry while its
      token is still missing puts it back once and starts one more refresh, then stops. */
  method SnapshotReplayStops() returns (queued: nat, refreshes: nat, running: Option<nat>)
    ensures queued == 1 && refreshes == 2 && running == Some(1)
  {
    var m, request := FiredWithoutToken(DefaultMaxAttempts);
    m.ReplaySnapshot(map[]);
    assert Tokenless([Entry(request, 1)], map[]) == [Entry(request, 1)];
    queued := |m.queue.elements|;
    refreshes := |m.refreshCalls|;
    running := m.currentTask;
  }

  /** Budget 1, a 401 on a request with the default (silent) refresh: the caller is
      queued, a refresh is started, and nothing is delivered. The silent refresh itself
      never answers; only a refreshed outcome of another descriptor's refresh, draining the
      shared queue, would re-fire the caller. The 401 takes the refresh path although the
      request does not need authentication. */
  method SilentRefreshLeavesCallerWaiting() returns (deliveries: nat, stillQueued: nat, refreshesStarted: nat)
    ensures deliveries == 0 && stillQueued == 1 && refreshesStarted == 1
  {
    var q := new WaitingRequestQueue();
    var m := new NetworkManager(1, q);
    var request := DefaultedRequest("https://example.org/feed", Get, None, NoCache);
    m.Fire(request, 1, map[]);
    m.OnResponse(0, Http(Response(401, map[]), []));
    deliveries := |m.delivered|;
    stillQueued := |q.elements|;
    refreshesStarted := |m.refreshCalls|;
  }

  /** Budget 1, two authenticated GETs fired while no token is stored: both callers are
      queued and each starts its own refresh, as nothing guards a refresh in progress. */
  method TwoFiredWithoutToken() returns (m: NetworkManager)
    ensures fresh(m) && fresh(m.queue) && m.Valid()
    ensures m.attempts == 1
    ensures |m.refreshCalls| == 2 && m.refreshCalls == m.queue.elements
    ensures forall i :: 0 <= i < 2 ==> m.refreshCalls[i].request.auth == AuthenticatedGet("").auth
  {
    var q := new WaitingRequestQueue();
    m := new NetworkManager(1, q);
    m.Fire(AuthenticatedGet("https://example.org/a"), 1, map[]);
    m.Fire(AuthenticatedGet("https://example.org/b"), 2, map[]);
  }

  /** No refresh-in-progress guard: two `refreshed` outcomes spend a budget of one twice. */
  method TwoRefreshesOverdrawBudget() returns (refreshesStarted: nat, attemptsLeft: int)
    ensures refreshesStarted == 2
    ensures attemptsLeft == -1
  {
    var m := TwoFiredWithoutToken();
    refreshesStarted := |m.refreshCalls|;
    m.OnRefreshOutcome(0, Refreshed, FreshToken);
    m.OnRefreshOutcome(1, Refreshed, FreshToken);
    attemptsLeft := m.attempts;
  }

  /** Budget 1: the refresh spends it, and the replay's 401 then meets an empty budget:
      the caller gets maxAttemptsExceeded and stays queued. */
  method ExhaustedBudget() returns (results: seq<Delivery>, stillQueued: nat, refreshesStarted: nat)
    ensures results == [Delivery(1, Failure(MaxAttemptsExceeded))]
    ensures stillQueued == 1
    ensures refreshesStarted == 1
  {
    var m, request := FiredWithoutToken(1);
    RefreshedWithToken(m, request);
    m.OnResponse(1, Http(Response(401, map[]), []));
    results := m.delivered;
    stillQueued := |m.queue.elements|;
    refreshesStarted := |m.refreshCalls|;
  }

  /** A success after a refresh refills the budget to maxAttempts. */
  method SuccessRefillsBudget() returns (attemptsAfterRefresh: int, attemptsAfterSuccess: int, results: seq<Delivery>)
    ensures attemptsAfterRefresh == 1
    ensures attemptsAfterSuccess == 2
    ensures results == [Delivery(1, Success([42]))]
  {
    var m, request := FiredWithoutToken(DefaultMaxAttempts);
    RefreshedWithToken(m, request);
    attemptsAfterRefresh := m.attempts;
    m.OnResponse(1, Http(Response(200, map[]), [42]));
    attemptsAfterSuccess := m.attempts;
    results := m.delivered;
  }

  /** Two new managers sharing one new queue, each firing an authenticated GET while no
      token is stored: both callers wait in the shared queue in fire order. */
  method TwoManagersQueued() returns (second: NetworkManager, a: NetworkRequest, b: NetworkRequest)
    ensures fresh(second) && fresh(second.queue) && second.Valid()
    ensures a == AuthenticatedGet("https://example.org/a") && b == AuthenticatedGet("https://example.org/b")
    ensures |second.tasks| == 1 && second.currentTask == Some(0) && |second.refreshCalls| == 1
    ensures second.refreshCalls[0].request.auth.refresh == Replies
    ensures second.queue.elements == [Entry(a, 1), Entry(b, 2)]
  {
    var q := new WaitingRequestQueue();
    var first := new NetworkManager.WithDefaultBudget(q);
    second := new NetworkManager.WithDefaultBudget(q);
    a, b := AuthenticatedGet("https://example.org/a"), AuthenticatedGet("https://example.org/b");
    first.Fire(a, 1, map[]);
    second.Fire(b, 2, map[]);
  }

  /** One queue shared by two managers: a refresh on the second manager replays, in
      enqueue order, the caller the first manager queued as well as its own; the first
      replay is cancelled by the second. */
  method SharedQueueReplaysEveryManagersCallers() returns (replayed: seq<CallbackId>, states: seq<TaskState>)
    ensures replayed == [1, 2]
    ensures states == [Cancelled, Running]
  {
    var second, a, b := TwoManagersQueued();
    second.OnRefreshOutcome(0, Refreshed, FreshToken);
    assert second.tasks[1 + 0].completion == [Entry(a, 1), Entry(b, 2)][0].completion;
    assert second.tasks[1 + 1].completion == [Entry(a, 1), Entry(b, 2)][1].completion;
    replayed := [second.tasks[1].completion, second.tasks[2].completion];
    states := [second.tasks[1].state, second.tasks[2].state];
  }

  /** A failed refresh tells only the caller that started it; the queue is left as it was. */
  method FailedRefreshTellsOnlyItsCaller() returns (results: seq<Delivery>, stillQueued: nat)
    ensures results == [Delivery(2, Failure(FailedToRefreshToken))]
    ensures stillQueued == 2
  {
    var q := new WaitingRequestQueue();
    var m := new NetworkManager.WithDefaultBudget(q);
    m.Fire(AuthenticatedGet("https://example.org/a"), 1, map[]);
    m.Fire(AuthenticatedGet("https://example.org/b"), 2, map[]);
    m.OnRefreshOutcome(1, Failed, map[]);
    results := m.delivered;
    stillQueued := |q.elements|;
  }
}
