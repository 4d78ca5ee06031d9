/** The request manager (NetworkManager): it fires requests, classifies each transport
    reply into one outcome, and on a 401 or a missing token runs the refresh routine
    that queues the caller, checks the attempt budget and, once refreshed, replays
    every waiting entry. The transport and the descriptor hooks are inputs: each
    method below is one event (a call by the client, a reply of the transport, a
    call-back of a refresh). */
module Manager {

  import opened Wrappers
  import opened Errors
  import opened OAuth
  import opened Requests
  import opened WaitingQueue
  import opened Assembly

  const DefaultMaxAttempts := 2

  /** What the transport hands a data task's completion handler. */
  datatype Reply =
    | ReplyCancelled                      // the error NSURLErrorCancelled: the task was cancelled
    | ReplyWithoutData                    // no data, no HTTP response, or another error
    | Http(response: Response, data: Bytes)

  /** The one branch a reply takes through the completion handler's chain of guards. */
  datatype Verdict =
    | Ignored                  // cancelled: nothing is delivered
    | Deliver(result: NetResult)  // noData, serverFailure, or data from the ETag cache
    | Unauthorized             // status 401: the refresh path
    | Vetoed                   // isResponseValid said no: nothing is delivered
    | Fresh(data: Bytes)       // success: the budget is reset and the data delivered

  predicate AcceptableStatus(code: int) {
    200 <= code <= 299 || code == 304
  }

  /** The completion handler's guards, in order: cancellation, missing data, 401, status
      outside 200...299 and not 304, ETag cache hit, isResponseValid, success. */
  function Classify(request: NetworkRequest, reply: Reply): (v: Verdict)
    ensures v.Ignored? <==> reply.ReplyCancelled?
    ensures reply.ReplyWithoutData? <==> v == Deliver(Failure(NoData))
    ensures v.Unauthorized? <==> reply.Http? && reply.response.statusCode == 401
    ensures v.Deliver? && v.result.Failure? ==> RaisedByManager(v.result.error)
    ensures reply.Http? ==>
      var code, cached := reply.response.statusCode, request.getETagDataIfAvailable(reply.response, reply.data);
      && (v == Deliver(Failure(ServerFailure(code))) <==> code != 401 && !AcceptableStatus(code))
      && (v.Deliver? && v.result.Success? <==> AcceptableStatus(code) && cached.Some?)
      && (v.Deliver? && v.result.Success? ==> v.result.data == cached.value)
      && (v.Vetoed? <==> AcceptableStatus(code) && cached.None? && !request.isResponseValid(reply.response))
      && (v.Fresh? <==> AcceptableStatus(code) && cached.None? && request.isResponseValid(reply.response))
      && (v.Fresh? ==> v.data == reply.data)
  {
    match reply
    case ReplyCancelled => Ignored
    case ReplyWithoutData => Deliver(Failure(NoData))
    case Http(response, data) =>
      if response.statusCode == 401 then Unauthorized
      else if !AcceptableStatus(response.statusCode) then Deliver(Failure(ServerFailure(response.statusCode)))
      else match request.getETagDataIfAvailable(response, data)
        case Some(cachedData) => Deliver(Success(cachedData))
        case None => if request.isResponseValid(response) then Fresh(data) else Vetoed
  }

  /** With the default isResponseValid, an acceptable reply that misses the ETag cache
      always reaches the success branch. */
  lemma DefaultValidityReachesSuccess(url: string, m: HTTPMethod, eTag: Option<string>,
                                      eTagData: (Response, Bytes) -> Option<Bytes>,
                                      response: Response, data: Bytes)
    requires AcceptableStatus(response.statusCode)
    requires eTagData(response, data).None?
    ensures Classify(DefaultedRequest(url, m, eTag, eTagData), Http(response, data)) == Fresh(data)
  {
  }

  datatype TaskState = Running | Cancelled | Completed

  /** A data task the manager created: what it was fired for, what it sent, and its state. */
  datatype DataTask = DataTask(request: NetworkRequest, completion: CallbackId, sent: URLRequest, state: TaskState)

  /** One call of a caller's completion closure. */
  datatype Delivery = Delivery(completion: CallbackId, result: NetResult)

  /** The tasks after cancelling the current one if it is running: it becomes cancelled,
      and no other task changes. */
  function CancelRunning(tasks: seq<DataTask>, current: Option<nat>): (r: seq<DataTask>)
    ensures |r| == |tasks|
    ensures forall i :: 0 <= i < |tasks| && current != Some(i) ==> r[i] == tasks[i]
    ensures forall i :: 0 <= i < |tasks| && current == Some(i) ==>
              r[i] == tasks[i].(state := if tasks[i].state == Running then Cancelled else tasks[i].state)
  {
    if current.Some? && current.value < |tasks| && tasks[current.value].state.Running?
    then tasks[current.value := tasks[current.value].(state := Cancelled)]
    else tasks
  }

  /** Cancelling twice is cancelling once. */
  lemma CancelRunningIdempotent(tasks: seq<DataTask>, current: Option<nat>)
    ensures CancelRunning(CancelRunning(tasks, current), current) == CancelRunning(tasks, current)
  {
  }

  /** `after` is `before` with every entry of `q` re-fired in order, each fire cancelling
      the task that was current, so that only the last replay is still running. */
  ghost predicate Replayed(before: seq<DataTask>, current: Option<nat>, q: seq<Entry>, creds: Credentials,
                           after: seq<DataTask>, current': Option<nat>)
  {
    if |q| == 0 then after == before && current' == current
    else
      && |after| == |before| + |q|
      && after[..|before|] == CancelRunning(before, current)
      && current' == Some(|after| - 1)
      && forall i :: 0 <= i < |q| ==>
           after[|before| + i] == DataTask(q[i].request, q[i].completion, AssembledRequest(q[i].request, creds),
                                           if i == |q| - 1 then Running else Cancelled)
  }

  /** Firing one more entry extends a replay by that entry. */
  lemma ReplayedStep(before: seq<DataTask>, current: Option<nat>, q: seq<Entry>, creds: Credentials,
                     tasks: seq<DataTask>, current': Option<nat>, e: Entry)
    requires current.Some? ==> current.value < |before|
    requires Replayed(before, current, q, creds, tasks, current')
    ensures Replayed(before, current, q + [e], creds,
                     CancelRunning(tasks, current') + [DataTask(e.request, e.completion, AssembledRequest(e.request, creds), Running)],
                     Some(|tasks|))
  {
    var after := CancelRunning(tasks, current') + [DataTask(e.request, e.completion, AssembledRequest(e.request, creds), Running)];
    var q' := q + [e];
    if |q| > 0 {
      assert after[..|before|] == tasks[..|before|];
      forall i | 0 <= i < |q'|
        ensures after[|before| + i] == DataTask(q'[i].request, q'[i].completion, AssembledRequest(q'[i].request, creds),
                                                if i == |q'| - 1 then Running else Cancelled)
      {
        if i < |q| - 1 {
          assert after[|before| + i] == tasks[|before| + i];
        } else if i == |q| - 1 {
          assert current' == Some(|before| + i);
          assert tasks[|before| + i] == DataTask(q[i].request, q[i].completion, AssembledRequest(q[i].request, creds), Running);
          assert after[|before| + i] == tasks[|before| + i].(state := Cancelled);
        } else {
          assert after[|before| + i] == after[|tasks|];
        }
      }
    }
  }

  /** After a non-empty replay, exactly one task is running: the last replay. Every
      earlier replay was cancelled by the fire that followed it. */
  lemma OnlyLastReplayRuns(before: seq<DataTask>, current: Option<nat>, q: seq<Entry>, creds: Credentials,
                           after: seq<DataTask>, current': Option<nat>)
    requires |q| > 0
    requires forall i :: 0 <= i < |before| && before[i].state == Running ==> current == Some(i)
    requires Replayed(before, current, q, creds, after, current')
    ensures forall i :: 0 <= i < |after| ==> (after[i].state == Running <==> i == |after| - 1)
  {
    forall i | 0 <= i < |after|
      ensures after[i].state == Running <==> i == |after| - 1
    {
      if i < |before| {
        var cancelled := CancelRunning(before, current);
        assert after[i] == cancelled[i];
        if before[i].state == Running {
          assert current == Some(i);
        }
      } else {
        var k := i - |before|;
        assert after[|before| + k] == DataTask(q[k].request, q[k].completion, AssembledRequest(q[k].request, creds),
                                               if k == |q| - 1 then Running else Cancelled);
      }
    }
  }

  /** The entries of `q` that still lack a token under `creds`, in order: those a drain
      of `q` puts back on the queue. */
  function Tokenless(q: seq<Entry>, creds: Credentials): seq<Entry>
  {
    if |q| == 0 then []
    else
      var last := q[|q| - 1];
      Tokenless(q[..|q| - 1], creds) + (if LacksToken(last.request.auth, creds) then [last] else [])
  }

  /** What a drain puts back lacks a token and is no longer than the snapshot; it is
      empty exactly when every entry has a token, and the whole snapshot when none has. */
  lemma {:induction false} TokenlessProperties(q: seq<Entry>, creds: Credentials)
    ensures var r := Tokenless(q, creds);
            && |r| <= |q|
            && (forall i :: 0 <= i < |r| ==> LacksToken(r[i].request.auth, creds))
            && ((forall i :: 0 <= i < |q| ==> !LacksToken(q[i].request.auth, creds)) <==> r == [])
            && ((forall i :: 0 <= i < |q| ==> LacksToken(q[i].request.auth, creds)) ==> |r| == |q|)
  {
    if |q| > 0 {
      var init := q[..|q| - 1];
      TokenlessProperties(init, creds);
      assert forall i :: 0 <= i < |init| ==> init[i] == q[i];
    }
  }

  /** One `maxAttemptsExceeded` delivery to each caller of `es`, in order. */
  function Exhausted(es: seq<Entry>): seq<Delivery>
  {
    if |es| == 0 then []
    else Exhausted(es[..|es| - 1]) + [Delivery(es[|es| - 1].completion, Failure(MaxAttemptsExceeded))]
  }

  /** Extending a drained prefix by one entry extends what goes back on the queue by that
      entry when it lacks a token. */
  lemma TokenlessStep(q: seq<Entry>, i: nat, creds: Credentials)
    requires i < |q|
    ensures var extra := if LacksToken(q[i].request.auth, creds) then [q[i]] else [];
            && Tokenless(q[..i + 1], creds) == Tokenless(q[..i], creds) + extra
            && Exhausted(Tokenless(q[..i + 1], creds)) ==
                 Exhausted(Tokenless(q[..i], creds)) + Exhausted(extra)
            && Exhausted(extra) == (if extra == [] then [] else [Delivery(q[i].completion, Failure(MaxAttemptsExceeded))])
  {
    assert q[..i + 1][..i] == q[..i];
    var rest := Tokenless(q[..i], creds);
    if LacksToken(q[i].request.auth, creds) {
      assert (rest + [q[i]])[..|rest|] == rest;
      assert [q[i]][..0] == [];
    } else {
      assert rest + [] == rest;
    }
  }

  /** One turn of a snapshot drain on the queue: dequeuing `q[i]` and putting it back
      when it lacks a token leaves the rest of the snapshot followed by what `i + 1`
      turns put back. */
  lemma QueuedTurn(q: seq<Entry>, i: nat, creds: Credentials, queued: seq<Entry>, queued': seq<Entry>)
    requires i < |q|
    requires queued == q[i..] + Tokenless(q[..i], creds)
    requires queued' == queued[1..] + (if LacksToken(q[i].request.auth, creds) then [q[i]] else [])
    ensures queued' == q[i + 1..] + Tokenless(q[..i + 1], creds)
  {
    TokenlessStep(q, i, creds);
    QueueTurn(q, i, Tokenless(q[..i], creds), if LacksToken(q[i].request.auth, creds) then [q[i]] else [], queued, queued');
  }

  /** Dequeuing from the rest of a snapshot followed by `rest`, then appending `extra`. */
  lemma QueueTurn<T>(q: seq<T>, i: nat, rest: seq<T>, extra: seq<T>, queued: seq<T>, queued': seq<T>)
    requires i < |q| && queued == q[i..] + rest && queued' == queued[1..] + extra
    ensures queued' == q[i + 1..] + (rest + extra)
  {
    assert queued[1..] == q[i + 1..] + rest;
  }

  /** One turn of a snapshot drain on the refresh calls: with budget left, each turn that
      puts an entry back also starts a refresh for it. */
  lemma CalledTurn(q: seq<Entry>, i: nat, creds: Credentials, budgetLeft: bool, calls: seq<Entry>,
                   called: seq<Entry>, called': seq<Entry>)
    requires i < |q|
    requires called == calls + (if budgetLeft then Tokenless(q[..i], creds) else [])
    requires called' == called + (if LacksToken(q[i].request.auth, creds) && budgetLeft then [q[i]] else [])
    ensures called' == calls + (if budgetLeft then Tokenless(q[..i + 1], creds) else [])
  {
    TokenlessStep(q, i, creds);
  }

  /** One turn of a snapshot drain on the deliveries: with the budget spent, each turn that
      puts an entry back also tells its caller `maxAttemptsExceeded`. */
  lemma DeliveredTurn(q: seq<Entry>, i: nat, creds: Credentials, budgetLeft: bool, told: seq<Delivery>,
                      delivered: seq<Delivery>, delivered': seq<Delivery>)
    requires i < |q|
    requires delivered == told + (if budgetLeft then [] else Exhausted(Tokenless(q[..i], creds)))
    requires delivered' == delivered + (if LacksToken(q[i].request.auth, creds) && !budgetLeft
                                        then [Delivery(q[i].completion, Failure(MaxAttemptsExceeded))] else [])
    ensures delivered' == told + (if budgetLeft then [] else Exhausted(Tokenless(q[..i + 1], creds)))
  {
    TokenlessStep(q, i, creds);
  }

  /** The sequence facts of one turn of a snapshot drain, whose queue is the rest of
      the snapshot `q[i..]` followed by the entries `rest` put back so far. */
  lemma SnapshotTurn<T>(q: seq<T>, i: nat, rest: seq<T>)
    requires i < |q|
    ensures (q[i..] + rest)[0] == q[i] && (q[i..] + rest)[1..] == q[i + 1..] + rest
    ensures q[..i] + [q[i]] == q[..i + 1]
    ensures forall extra: seq<T> :: (q[i + 1..] + rest) + extra == q[i + 1..] + (rest + extra)
  {
    assert (q[i..] + rest)[1..] == q[i + 1..] + rest;
  }

  class NetworkManager {

    /** The data task fired last, if any (an index into `tasks`). */
    var currentTask: Option<nat>
    var maxAttempts: int
    /** The refresh budget left: reset to maxAttempts on success, decremented on `refreshed`. */
    var attempts: int
    /** The waiting queue, shared by every manager given the same one. */
    const queue: WaitingRequestQueue

    /** Every data task created so far; its index is its identity. */
    var tasks: seq<DataTask>
    /** Every call of a descriptor's refreshToken, with the caller its callback closes over. */
    var refreshCalls: seq<Entry>
    /** Every call of a completion closure, in order. */
    var delivered: seq<Delivery>

    /** At most one task is running, and it is the current one. */
    ghost predicate Valid()
      reads this
    {
      && (currentTask.Some? ==> currentTask.value < |tasks|)
      && (forall i :: 0 <= i < |tasks| && tasks[i].state == Running ==> currentTask == Some(i))
    }

    /** Every failure delivered so far is one the manager raises itself. Each event keeps it. */
    ghost predicate OwnErrorsOnly()
      reads this
    {
      forall i :: 0 <= i < |delivered| && delivered[i].result.Failure? ==> RaisedByManager(delivered[i].result.error)
    }

    /** `init(maxAttempts:)`: the budget starts full. */
    constructor (maxAttempts: int, queue: WaitingRequestQueue)
      ensures Valid()
      ensures this.maxAttempts == maxAttempts && attempts == maxAttempts
      ensures this.queue == queue
      ensures currentTask == None && tasks == [] && refreshCalls == [] && delivered == []
      ensures OwnErrorsOnly()
    {
      this.maxAttempts := maxAttempts;
      this.attempts := maxAttempts;
      this.queue := queue;
      currentTask := None;
      tasks := [];
      refreshCalls := [];
      delivered := [];
    }

    /** `init()`: the default budget of two refreshes. */
    constructor WithDefaultBudget(queue: WaitingRequestQueue)
      ensures Valid()
      ensures maxAttempts == DefaultMaxAttempts && attempts == maxAttempts
      ensures this.queue == queue
      ensures currentTask == None && tasks == [] && refreshCalls == [] && delivered == []
      ensures OwnErrorsOnly()
    {
      maxAttempts := DefaultMaxAttempts;
      attempts := DefaultMaxAttempts;
      this.queue := queue;
      currentTask := None;
      tasks := [];
      refreshCalls := [];
      delivered := [];
    }

    /** `cancelCurrentTaskIfRunning`: cancels the current task only if it is running;
        afterwards no task is running. */
    method CancelCurrentTaskIfRunning()
      requires Valid()
      modifies this`tasks
      ensures Valid()
      ensures tasks == CancelRunning(old(tasks), currentTask)
      ensures forall i :: 0 <= i < |tasks| ==> tasks[i].state != Running
    {
      if currentTask.Some? && tasks[currentTask.value].state.Running? {
        tasks := tasks[currentTask.value := tasks[currentTask.value].(state := Cancelled)];
      }
    }

    /** `handleTokenRefresh`: queue the caller first, then either start a refresh (budget
        left) or tell the caller the budget is spent, leaving it queued. */
    method HandleTokenRefresh(request: NetworkRequest, completion: CallbackId)
      requires Valid()
      modifies queue, this`refreshCalls, this`delivered
      ensures Valid()
      ensures old(OwnErrorsOnly()) ==> OwnErrorsOnly()
      ensures queue.elements == old(queue.elements) + [Entry(request, completion)]
      ensures attempts > 0 ==> refreshCalls == old(refreshCalls) + [Entry(request, completion)] && delivered == old(delivered)
      ensures attempts <= 0 ==> refreshCalls == old(refreshCalls) &&
                                delivered == old(delivered) + [Delivery(completion, Failure(MaxAttemptsExceeded))]
    {
      queue.Enqueue(request, completion);
      if attempts > 0 {
        refreshCalls := refreshCalls + [Entry(request, completion)];
      } else {
        delivered := delivered + [Delivery(completion, Failure(MaxAttemptsExceeded))];
      }
    }

    /** `handleAuthentication`: with a token, add the bearer header; when authentication is
        needed and there is no token, cancel the running task and take the refresh path,
        leaving the request without an Authorization header. */
    method HandleAuthentication(request: NetworkRequest, completion: CallbackId, creds: Credentials, urlRequest: URLRequest)
      returns (urlRequest': URLRequest)
      requires Valid()
      modifies queue, this`tasks, this`refreshCalls, this`delivered
      ensures Valid()
      ensures old(OwnErrorsOnly()) ==> OwnErrorsOnly()
      ensures urlRequest' == WithAuthorization(request, creds, urlRequest)
      ensures var e, refresh := Entry(request, completion), LacksToken(request.auth, creds);
              && tasks == (if refresh then CancelRunning(old(tasks), currentTask) else old(tasks))
              && queue.elements == old(queue.elements) + (if refresh then [e] else [])
              && refreshCalls == old(refreshCalls) + (if refresh && attempts > 0 then [e] else [])
              && delivered == old(delivered) +
                   (if refresh && attempts <= 0 then [Delivery(completion, Failure(MaxAttemptsExceeded))] else [])
    {
      urlRequest' := urlRequest;
      if request.auth.needAuthentication {
        var token := request.auth.token(creds);
        if token.None? {
          CancelCurrentTaskIfRunning();
          HandleTokenRefresh(request, completion);
          return;
        }
        urlRequest' := SetValue(urlRequest', BearerPrefix + token.value, AuthorizationField);
      }
    }

    /** `fire`: build the request, cancel the running task, and start a new one, which
        becomes the only running task. A missing token takes the refresh path first and
        the request is still sent. */
    method Fire(request: NetworkRequest, completion: CallbackId, creds: Credentials)
      requires Valid()
      modifies queue, this`tasks, this`currentTask, this`refreshCalls, this`delivered
      ensures Valid()
      ensures old(OwnErrorsOnly()) ==> OwnErrorsOnly()
      ensures tasks == CancelRunning(old(tasks), old(currentTask)) +
                       [DataTask(request, completion, AssembledRequest(request, creds), Running)]
      ensures currentTask == Some(|old(tasks)|)
      ensures var e, refresh := Entry(request, completion), LacksToken(request.auth, creds);
              && queue.elements == old(queue.elements) + (if refresh then [e] else [])
              && refreshCalls == old(refreshCalls) + (if refresh && attempts > 0 then [e] else [])
              && delivered == old(delivered) +
                   (if refresh && attempts <= 0 then [Delivery(completion, Failure(MaxAttemptsExceeded))] else [])
    {
      var urlRequest := NewURLRequest(request.url);
      urlRequest := HandleAuthentication(request, completion, creds, urlRequest);
      urlRequest := ApplyRequestFields(request, urlRequest);
      assert urlRequest == AssembledRequest(request, creds);
      CancelRunningIdempotent(old(tasks), currentTask);
      CancelCurrentTaskIfRunning();
      assert tasks == CancelRunning(old(tasks), old(currentTask));
      tasks := tasks + [DataTask(request, completion, urlRequest, Running)];
      currentTask := Some(|tasks| - 1);
    }

    /** The transport's reply to task `taskId` runs the completion handler once: the task is
        completed and the reply's verdict decides what happens; at most one result is
        delivered, and only the success branch resets the budget. */
    method OnResponse(taskId: nat, reply: Reply)
      requires Valid()
      requires taskId < |tasks| && tasks[taskId].state != Completed
      modifies queue, this`tasks, this`attempts, this`refreshCalls, this`delivered
      ensures Valid()
      ensures old(OwnErrorsOnly()) ==> OwnErrorsOnly()
      ensures |delivered| <= |old(delivered)| + 1
      ensures var t := old(tasks[taskId]);
              var v, e := Classify(t.request, reply), Entry(t.request, t.completion);
              && (v.Unauthorized? ==>
                    && tasks == CancelRunning(old(tasks)[taskId := t.(state := Completed)], currentTask)
                    && queue.elements == old(queue.elements) + [e]
                    && refreshCalls == old(refreshCalls) + (if attempts > 0 then [e] else [])
                    && delivered == old(delivered) +
                         (if attempts > 0 then [] else [Delivery(t.completion, Failure(MaxAttemptsExceeded))]))
              && (!v.Unauthorized? ==>
                    && tasks == old(tasks)[taskId := t.(state := Completed)]
                    && queue.elements == old(queue.elements)
                    && refreshCalls == old(refreshCalls))
              && (v.Deliver? ==> delivered == old(delivered) + [Delivery(t.completion, v.result)])
              && (v.Fresh? ==> delivered == old(delivered) + [Delivery(t.completion, Success(v.data))])
              && (v.Ignored? || v.Vetoed? ==> delivered == old(delivered))
              && attempts == (if v.Fresh? then maxAttempts else old(attempts))
    {
      var t := tasks[taskId];
      tasks := tasks[taskId := t.(state := Completed)];
      var verdict := Classify(t.request, reply);
      match verdict
      case Ignored =>
      case Deliver(result) =>
        delivered := delivered + [Delivery(t.completion, result)];
      case Unauthorized =>
        CancelCurrentTaskIfRunning();
        HandleTokenRefresh(t.request, t.completion);
      case Vetoed =>
      case Fresh(data) =>
        attempts := maxAttempts;
        delivered := delivered + [Delivery(t.completion, Success(data))];
    }

    /** The callback of refresh call `call` reports `outcome`. Refreshed: one unit of budget
        is spent and every waiting entry is dequeued and re-fired in order. Aborted:
        nothing happens. Failed: only the caller that started this refresh is told. */
    method OnRefreshOutcome(call: nat, outcome: RefreshOutcome, creds: Credentials)
      requires Valid()
      requires call < |refreshCalls| && refreshCalls[call].request.auth.refresh == Replies
      requires outcome.Refreshed? ==>
                 forall i :: 0 <= i < |queue.elements| ==> !LacksToken(queue.elements[i].request.auth, creds)
      modifies queue, this`tasks, this`currentTask, this`attempts, this`refreshCalls, this`delivered
      ensures Valid()
      ensures old(OwnErrorsOnly()) ==> OwnErrorsOnly()
      ensures refreshCalls == old(refreshCalls)
      ensures outcome.Aborted? ==>
                && tasks == old(tasks) && currentTask == old(currentTask) && attempts == old(attempts)
                && queue.elements == old(queue.elements) && delivered == old(delivered)
      ensures outcome.Failed? ==>
                && tasks == old(tasks) && currentTask == old(currentTask) && attempts == old(attempts)
                && queue.elements == old(queue.elements)
                && delivered == old(delivered) + [Delivery(refreshCalls[call].completion, Failure(FailedToRefreshToken))]
      ensures outcome.Refreshed? ==>
                && attempts == old(attempts) - 1
                && queue.elements == []
                && delivered == old(delivered)
                && Replayed(old(tasks), old(currentTask), old(queue.elements), creds, tasks, currentTask)
    {
      match outcome
      case Aborted =>
      case Failed =>
        delivered := delivered + [Delivery(refreshCalls[call].completion, Failure(FailedToRefreshToken))];
      case Refreshed =>
        attempts := attempts - 1;
        ReplayWaitingRequests(creds);
    }

    /** The drain loop of a `refreshed` outcome: dequeue until nil, re-firing each entry. */
    method ReplayWaitingRequests(creds: Credentials)
      requires Valid()
      requires forall i :: 0 <= i < |queue.elements| ==> !LacksToken(queue.elements[i].request.auth, creds)
      modifies queue, this`tasks, this`currentTask, this`refreshCalls, this`delivered
      ensures Valid()
      ensures queue.elements == []
      ensures delivered == old(delivered) && refreshCalls == old(refreshCalls)
      ensures Replayed(old(tasks), old(currentTask), old(queue.elements), creds, tasks, currentTask)
    {
      ghost var q, before, current := queue.elements, tasks, currentTask;
      ghost var done := 0;
      var next := queue.Dequeue();
      while next.Some?
        invariant Valid()
        invariant 0 <= done <= |q|
        invariant next.Some? ==> done < |q| && next.value == q[done] && queue.elements == q[done + 1..]
        invariant next.None? ==> done == |q| && queue.elements == []
        invariant Replayed(before, current, q[..done], creds, tasks, currentTask)
        invariant delivered == old(delivered) && refreshCalls == old(refreshCalls)
        decreases |queue.elements| + (if next.Some? then 1 else 0)
      {
        assert !LacksToken(next.value.request.auth, creds);
        ghost var kept := queue.elements;
        ReplayEntry(next.value, creds, before, current, q[..done]);
        assert queue.elements == kept;
        assert q[..done + 1] == q[..done] + [next.value];
        done := done + 1;
        next := queue.Dequeue();
      }
      assert q[..done] == q;
    }

    /** After `i` turns of a snapshot drain of `q`: the first `i` entries have been
        re-fired; the rest of the snapshot is still queued, followed by the re-fired
        entries that lack a token, each of which has also taken the refresh path. */
    ghost predicate Draining(q: seq<Entry>, i: nat, creds: Credentials, before: seq<DataTask>, current: Option<nat>,
                             calls: seq<Entry>, told: seq<Delivery>)
      reads this, queue
    {
      && i <= |q|
      && queue.elements == q[i..] + Tokenless(q[..i], creds)
      && Replayed(before, current, q[..i], creds, tasks, currentTask)
      && refreshCalls == calls + (if attempts > 0 then Tokenless(q[..i], creds) else [])
      && delivered == told + (if attempts > 0 then [] else Exhausted(Tokenless(q[..i], creds)))
    }

    /** A drain that ends: re-fire exactly the entries that were waiting when it starts,
        dequeuing each once. An entry that still lacks a token goes back on the queue
        behind the snapshot and takes the refresh path again, so afterwards the queue
        holds exactly those entries, in order. */
    method ReplaySnapshot(creds: Credentials)
      requires Valid()
      modifies queue, this`tasks, this`currentTask, this`refreshCalls, this`delivered
      ensures Valid()
      ensures old(OwnErrorsOnly()) ==> OwnErrorsOnly()
      ensures Replayed(old(tasks), old(currentTask), old(queue.elements), creds, tasks, currentTask)
      ensures queue.elements == Tokenless(old(queue.elements), creds)
      ensures refreshCalls == old(refreshCalls) + (if attempts > 0 then Tokenless(old(queue.elements), creds) else [])
      ensures delivered == old(delivered) + (if attempts > 0 then [] else Exhausted(Tokenless(old(queue.elements), creds)))
    {
      ghost var q, before, current := queue.elements, tasks, currentTask;
      var n := |queue.elements|;
      var i := 0;
      assert q[..0] == [] && q[0..] == q;
      while i < n
        invariant Valid()
        invariant old(OwnErrorsOnly()) ==> OwnErrorsOnly()
        invariant i <= n == |q|
        invariant Draining(q, i, creds, before, current, old(refreshCalls), old(delivered))
      {
        DrainTurn(q, i, creds, before, current, old(refreshCalls), old(delivered));
        i := i + 1;
      }
      assert q[..i] == q && q[i..] == [];
    }

    /** One turn of a snapshot drain: dequeue the next snapshot entry and re-fire it. */
    method DrainTurn(ghost q: seq<Entry>, ghost i: nat, creds: Credentials, ghost before: seq<DataTask>, ghost current: Option<nat>,
                     ghost calls: seq<Entry>, ghost told: seq<Delivery>)
      requires Valid() && i < |q|
      requires current.Some? ==> current.value < |before|
      requires Draining(q, i, creds, before, current, calls, told)
      modifies queue, this`tasks, this`currentTask, this`refreshCalls, this`delivered
      ensures Valid()
      ensures old(OwnErrorsOnly()) ==> OwnErrorsOnly()
      ensures Draining(q, i + 1, creds, before, current, calls, told)
    {
      SnapshotTurn(q, i, Tokenless(q[..i], creds));
      ghost var queued, called, told' := queue.elements, refreshCalls, delivered;
      var next := queue.Dequeue();
      ReplayEntry(next.value, creds, before, current, q[..i]);
      QueuedTurn(q, i, creds, queued, queue.elements);
      CalledTurn(q, i, creds, attempts > 0, calls, called, refreshCalls);
      DeliveredTurn(q, i, creds, attempts > 0, told, told', delivered);
    }

    /** One turn of a drain: re-firing an entry extends the replay by that entry; an entry
        with a token leaves the queue, the refresh calls and the deliveries alone, and one
        without a token goes back on the queue and takes the refresh path. */
    method ReplayEntry(e: Entry, creds: Credentials, ghost before: seq<DataTask>, ghost current: Option<nat>,
                       ghost q: seq<Entry>)
      requires Valid()
      requires current.Some? ==> current.value < |before|
      requires Replayed(before, current, q, creds, tasks, currentTask)
      modifies queue, this`tasks, this`currentTask, this`refreshCalls, this`delivered
      ensures Valid()
      ensures old(OwnErrorsOnly()) ==> OwnErrorsOnly()
      ensures Replayed(before, current, q + [e], creds, tasks, currentTask)
      ensures var refresh := LacksToken(e.request.auth, creds);
              && queue.elements == old(queue.elements) + (if refresh then [e] else [])
              && refreshCalls == old(refreshCalls) + (if refresh && attempts > 0 then [e] else [])
              && delivered == old(delivered) +
                   (if refresh && attempts <= 0 then [Delivery(e.completion, Failure(MaxAttemptsExceeded))] else [])
    {
      ReplayedStep(before, current, q, creds, tasks, currentTask, e);
      Fire(e.request, e.completion, creds);
    }
  }
}
