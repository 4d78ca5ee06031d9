# FSCNetwork request orchestration, modelled in Dafny

FSCNetwork is a small Swift networking layer. A caller describes a request (a
`NetworkRequest`: url, HTTP method, body, ETag, custom headers, response hooks and an
OAuth capability) and hands it to a `NetworkManager` together with a completion
closure. The manager builds the outgoing `URLRequest` and starts a data task. It cancels
the task that was running before. It then classifies the transport's reply into exactly
one outcome for the caller. On a 401, or when authentication is needed and no token is
available, it runs a refresh routine. That routine puts the caller in a process-wide FIFO
of waiting requests and checks an attempt budget. Once the descriptor's
`refreshToken` reports success, it re-fires every waiting request in order.

This project models that core:

- `errors.dfy`: the `NetworkError` taxonomy and its `errorDescription` texts. It
  includes the decimal rendering of the HTTP code, proved to read back to the code.
- `oauth.dfy`: the `OAuthHandler` capability and the protocol extension's defaults.
- `requests.dfy`: the `NetworkRequest` descriptor, its defaults, and `HTTPMethod` with
  its raw values.
- `waiting_queue.dfy`: `WaitingRequestQueue` as a class with `Enqueue` and `Dequeue`,
  and a trace semantics of runs of calls on it. FIFO order, draining and the absence of
  deduplication are proved over that trace.
- `assembly.dfy`: how `fire` builds the `URLRequest`, including
  `URLRequest.setCustomHeaders` as a loop over the custom map. It states which headers
  are sent and with which values.
- `manager.dfy`: the reply classifier and the `NetworkManager` class. The class has one
  method per event:
  - the client calls `fire` or `cancelCurrentTaskIfRunning`;
  - the transport replies to a task;
  - a refresh calls back with refreshed, aborted or failed.

  The manager keeps a log of data tasks, of refresh calls and of completion calls. Its
  invariant is that at most one task is running, and it is the current one.
- `scenarios.dfy`: client runs that drive several events. Each one proves an
  observable consequence of the event contracts, including the quirks of the code.

The transport, the token store and the descriptor hooks are parameters of the model:
- A reply to a data task is an input to `OnResponse`.
- The token getter is a function of a `Credentials` map passed with each event. This is
  how a refresh can make a token appear.
- The refresh call-back is the `OnRefreshOutcome` event.

The model keeps the following behaviours of the code:
- There is no guard against a refresh in progress. Every request without a token starts
  its own refresh.
- The budget is spent only by a refreshed outcome and may go negative.
- A caller whose budget is spent gets `maxAttemptsExceeded` and stays queued.
- A request without a token is still sent, without an Authorization header.
- Each replayed request cancels the one replayed before it, so only the last replay runs.
- A 401 takes the refresh path even for a request that does not need authentication.
- The default `refreshToken` never calls back, so a caller queued behind it waits
  until some other descriptor's refresh reports refreshed and drains the shared queue.

In one place the declared types and the code disagree, and the model follows the code.
`OAuthHandler.refreshToken` is declared with a `(Bool)->()` callback, but the manager
switches over three outcomes (`.refreshed`, `.aborted`, `.failed`). The model uses the
three outcomes.

## Model

| member | source | states |
|---|---|---|
| Errors.NatDecimalDenotes | Sources/FSCNetwork/APIError.swift:27 | the digits rendered for a natural number read back as that number |
| Errors.DecimalRoundTrip | Sources/FSCNetwork/APIError.swift:27 | interpolating an Int, sign included, and reading the text back gives the Int |
| Errors.DecimalInjective | Sources/FSCNetwork/APIError.swift:27 | distinct HTTP codes are rendered as distinct texts |
| Errors.NatDecimal | Sources/FSCNetwork/APIError.swift:27 | the rendering of a natural number is a non-empty digit string with no leading zero |
| Errors.Decimal | Sources/FSCNetwork/APIError.swift:27 | the rendering of an Int starts with '-' exactly when it is negative, and the rest is digits |
| Errors.ErrorDescription | Sources/FSCNetwork/APIError.swift:22-33 | every error has a description; custom gives its message; serverFailure gives the fixed prefix and the code; failedToParse gives the prefix and the body |
| Errors.PayloadFreeMessagesDistinct | Sources/FSCNetwork/APIError.swift:25-30 | the four errors without payload have pairwise different descriptions |
| Errors.ServerFailureDescriptionDeterminesCode | Sources/FSCNetwork/APIError.swift:27 | equal serverFailure descriptions mean equal HTTP codes |
| OAuth.DefaultOAuthHandler | Sources/FSCNetwork/OauthHandler.swift:16-21 | the defaults: authentication not needed, no token, a refresh that never calls back |
| OAuth.BearerToken | Sources/FSCNetwork/NetworkManager.swift:29-37 | a bearer token is attached exactly when authentication is needed and the getter yields one, and it is that token |
| OAuth.DefaultNeverAuthenticates | Sources/FSCNetwork/OauthHandler.swift:16-21 | a default handler never takes the refresh path before sending and never yields a bearer token |
| Requests.HTTPMethod.RawValue | Sources/FSCNetwork/NetworkRequest.swift:33-39 | every raw value is one of "GET", "POST", "PUT", "PATCH" and "DELETE"; which case has which is fixed by HTTPMethodFromRawValue and RawValueIdentifiesMethod |
| Requests.HTTPMethodFromRawValue | Sources/FSCNetwork/NetworkRequest.swift:33-39 | a raw value is accepted only if it is the raw value of the method returned; the five raw values are the only ones accepted |
| Requests.RawValueIdentifiesMethod | Sources/FSCNetwork/NetworkRequest.swift:33-39 | reading a method's raw value back gives that method, so the five raw values are distinct |
| Requests.DefaultedRequest | Sources/FSCNetwork/NetworkRequest.swift:22-31 | a descriptor that takes the defaults has no body and no custom headers, accepts every response, and uses the default authentication |
| WaitingQueue.WaitingRequestQueue.constructor | Sources/FSCNetwork/WaitingRequestQueue.swift:14-16 | a new queue is empty |
| WaitingQueue.WaitingRequestQueue.Enqueue | Sources/FSCNetwork/WaitingRequestQueue.swift:18-23 | the entry is appended at the back and the waiting entries keep their order |
| WaitingQueue.WaitingRequestQueue.Dequeue | Sources/FSCNetwork/WaitingRequestQueue.swift:25-35 | an empty queue gives nil and stays empty; otherwise the front entry is removed and returned |
| WaitingQueue.WaitingRequestQueue.Perform | Sources/FSCNetwork/WaitingRequestQueue.swift:18-35 | performing a run of calls with Enqueue and Dequeue leaves the contents and returns the dequeued entries that Run describes, so the lemmas about Run hold for the class |
| WaitingQueue.RunIsFifo | Sources/FSCNetwork/WaitingRequestQueue.swift:18-35 | over any run of calls, the entries dequeued followed by those left equal the entries waiting followed by those enqueued, in order |
| WaitingQueue.OutputIsPrefixOfInput | Sources/FSCNetwork/WaitingRequestQueue.swift:18-35 | from an empty queue, the entries dequeued are a prefix of the entries enqueued |
| WaitingQueue.DrainYieldsAll | Sources/FSCNetwork/WaitingRequestQueue.swift:25-35 | as many dequeues as entries return every entry once, in order, and leave the queue empty |
| WaitingQueue.NoDeduplication | Sources/FSCNetwork/WaitingRequestQueue.swift:18-23 | enqueuing the same entry twice leaves it waiting twice |
| Assembly.NewURLRequest | Sources/FSCNetwork/NetworkManager.swift:45 | a new request has the url, Foundation's default method GET, no headers and no body |
| Assembly.SetValue | Sources/FSCNetwork/NetworkManager.swift:36 | setting a header field adds that field with the value and keeps every other field, the url, the method and the body |
| Assembly.WithCustom | Sources/FSCNetwork/NetworkManager.swift:141-146 | nil custom headers change nothing; otherwise every custom field is present with its custom value, and every other field is kept |
| Assembly.SetCustomHeaders | Sources/FSCNetwork/NetworkManager.swift:141-146 | setting each custom field in turn, in any order, gives the headers WithCustom describes |
| Assembly.AssembledRequest | Sources/FSCNetwork/NetworkManager.swift:40-62 | the request fire sends has the descriptor's url, the method's raw value and the descriptor's body |
| Assembly.FireHeaders | Sources/FSCNetwork/NetworkManager.swift:29-62 | Accept is always JSON; If-None-Match carries the ETag; Content-Type is present iff POST or custom, and POST wins; Authorization is present iff a bearer token or a custom one exists, and a custom value overrides the bearer value; other custom fields are sent as given; and the sent fields are exactly those of SentFields, so If-None-Match is absent without an ETag and nothing else is sent |
| Assembly.SentFieldsAreExactlyThese | Sources/FSCNetwork/NetworkManager.swift:29-62 | the request fire sends has exactly the fields Accept, If-None-Match for an ETag, Content-Type for POST, Authorization for a bearer token, and the custom fields |
| Assembly.WithAuthorization | Sources/FSCNetwork/NetworkManager.swift:30-37 | the header write of handleAuthentication keeps the url, the method and the body |
| Assembly.AuthorizationHeader | Sources/FSCNetwork/NetworkManager.swift:30-37 | authentication adds Authorization, holding "Bearer " and the token, exactly when there is a bearer token; without one the request is unchanged; no other field changes |
| Assembly.WithRequestFields | Sources/FSCNetwork/NetworkManager.swift:48-62 | the writes after authentication set the method's raw value and the body and keep the url |
| Assembly.RequestFieldsHeaders | Sources/FSCNetwork/NetworkManager.swift:48-62 | the writes after authentication add exactly the custom fields, Accept, If-None-Match for an ETag and Content-Type for POST; later writes win over custom values; every other field keeps its value |
| Assembly.WithFixedFields | Sources/FSCNetwork/NetworkManager.swift:53-62 | the closing writes add If-None-Match for an ETag, Accept, and Content-Type for POST, with their values, and keep every other field, the url, the method and the body |
| Assembly.ApplyRequestFields | Sources/FSCNetwork/NetworkManager.swift:48-62 | the statements of fire after authentication produce the request WithRequestFields describes |
| Assembly.DefaultAuthSendsNoAuthorization | Sources/FSCNetwork/OauthHandler.swift:16-21 | with the default authentication and no custom headers, no Authorization header is sent |
| Manager.Classify | Sources/FSCNetwork/NetworkManager.swift:67-107 | each reply takes exactly one branch: cancelled is ignored; a reply without data gives noData; 401 takes the refresh path; a status outside 200...299 and not 304 gives serverFailure with that code; an ETag hit delivers the cached data; otherwise isResponseValid decides between veto and success. Only the manager's own errors are delivered |
| Manager.DefaultValidityReachesSuccess | Sources/FSCNetwork/NetworkRequest.swift:27-29 | with the default isResponseValid, an acceptable reply that misses the ETag cache always succeeds with the reply's data |
| Manager.CancelRunning | Sources/FSCNetwork/NetworkManager.swift:112-116 | only the current task changes, and only from running to cancelled |
| Manager.CancelRunningIdempotent | Sources/FSCNetwork/NetworkManager.swift:112-116 | cancelling twice is cancelling once |
| Manager.ReplayedStep | Sources/FSCNetwork/NetworkManager.swift:126-129 | re-firing one more dequeued entry extends the replay by that entry |
| Manager.OnlyLastReplayRuns | Sources/FSCNetwork/NetworkManager.swift:126-129 | after a non-empty replay exactly one task runs, the last one re-fired |
| Manager.NetworkManager.constructor | Sources/FSCNetwork/NetworkManager.swift:20-23 | the budget starts at maxAttempts; no task, no refresh, no delivery |
| Manager.NetworkManager.WithDefaultBudget | Sources/FSCNetwork/NetworkManager.swift:20-23 | the default budget is two |
| Manager.NetworkManager.CancelCurrentTaskIfRunning | Sources/FSCNetwork/NetworkManager.swift:112-116 | the current task is cancelled if it runs; afterwards no task runs |
| Manager.NetworkManager.HandleTokenRefresh | Sources/FSCNetwork/NetworkManager.swift:118-137 | the caller is queued first; with budget left a refresh is started, otherwise the caller gets maxAttemptsExceeded |
| Manager.NetworkManager.HandleAuthentication | Sources/FSCNetwork/NetworkManager.swift:29-38 | with a token the bearer header is set; when a token is needed and missing, the running task is cancelled and the refresh path taken, and no header is set |
| Manager.NetworkManager.Fire | Sources/FSCNetwork/NetworkManager.swift:40-110 | the previous task is cancelled if running; a new running task carries the assembled request and becomes current; a missing token first queues the caller and starts a refresh or reports an exhausted budget |
| Manager.NetworkManager.OnResponse | Sources/FSCNetwork/NetworkManager.swift:67-107 | any reply to a task that has not completed completes it; a cancelled reply delivers nothing; the caller gets at most one result, the one its verdict names; a 401 cancels the running task and takes the refresh path; only success refills the budget |
| Manager.NetworkManager.OnRefreshOutcome | Sources/FSCNetwork/NetworkManager.swift:122-133 | refreshed spends one attempt and replays every waiting entry in order, leaving the queue empty; aborted changes nothing; failed tells only the caller that started the refresh |
| Manager.NetworkManager.ReplayWaitingRequests | Sources/FSCNetwork/NetworkManager.swift:126-129 | dequeuing until nil and re-firing each entry replays exactly the waiting entries, in order, and empties the queue |
| Manager.NetworkManager.ReplayEntry | Sources/FSCNetwork/NetworkManager.swift:128 | re-firing any entry extends the replay by that entry; an entry with a token touches neither the queue nor the deliveries, and one without goes back on the queue and takes the refresh path |
| Manager.TokenlessProperties | Sources/FSCNetwork/NetworkManager.swift:29-33 | the entries a drain puts back are those that still lack a token: none exactly when every entry has one, all of them when none has |
| Manager.QueuedTurn | Sources/FSCNetwork/NetworkManager.swift:126-128 | one turn of the corrected drain leaves the rest of the snapshot queued, followed by every re-fired entry that lacks a token |
| Manager.CalledTurn | Sources/FSCNetwork/NetworkManager.swift:121-123 | with budget left, each re-fired entry that lacks a token starts one more refresh |
| Manager.DeliveredTurn | Sources/FSCNetwork/NetworkManager.swift:134-136 | with the budget spent, each re-fired entry that lacks a token tells its caller maxAttemptsExceeded |
| Manager.NetworkManager.ReplaySnapshot | Sources/FSCNetwork/NetworkManager.swift:126-129 | the corrected drain replays exactly the entries waiting when it starts, in order, and ends; the queue then holds exactly those that still lack a token, each of which has started a refresh or been told the budget is spent |
| Scenarios.FiredWithoutToken | Sources/FSCNetwork/NetworkManager.swift:29-46 | firing an authenticated request with no token stored sends it without Authorization, queues the caller and starts one refresh |
| Scenarios.RefreshedWithToken | Sources/FSCNetwork/NetworkManager.swift:122-129 | a refreshed outcome cancels the first task and replays the caller with the new token |
| Scenarios.MissingTokenThenReplay | Sources/FSCNetwork/NetworkManager.swift:29-46 | the first send has no Authorization header; the replay sends "Bearer fresh"; the queue is empty and the replay is current |
| Scenarios.SilentRefreshLeavesCallerWaiting | Sources/FSCNetwork/OauthHandler.swift:20 | with the default refresh a 401 queues the caller and starts a refresh, and nothing is delivered: right after the 401 the caller waits in the queue with no answer, until another refresh drains the shared queue |
| Scenarios.TwoFiredWithoutToken | Sources/FSCNetwork/NetworkManager.swift:118-137 | two requests without a token start two refreshes while the first is pending |
| Scenarios.TwoRefreshesOverdrawBudget | Sources/FSCNetwork/NetworkManager.swift:121-125 | two refreshed outcomes spend a budget of one twice, leaving -1 |
| Scenarios.ExhaustedBudget | Sources/FSCNetwork/NetworkManager.swift:134-136 | with the budget spent, a 401 gives maxAttemptsExceeded and the caller stays queued |
| Scenarios.SuccessRefillsBudget | Sources/FSCNetwork/NetworkManager.swift:103-106 | a success after a refresh refills the budget to maxAttempts and delivers the data |
| Scenarios.TwoManagersQueued | Sources/FSCNetwork/WaitingRequestQueue.swift:12 | callers of two managers wait in one shared queue, in fire order |
| Scenarios.SharedQueueReplaysEveryManagersCallers | Sources/FSCNetwork/NetworkManager.swift:119-129 | a refresh on one manager replays the callers of every manager, in order; only the last replay runs |
| Scenarios.FailedRefreshTellsOnlyItsCaller | Sources/FSCNetwork/NetworkManager.swift:131 | a failed refresh delivers failedtoRefreshToken only to the caller that started it and leaves the queue as it was |
| Scenarios.TokenlessReplayRequeues | Sources/FSCNetwork/NetworkManager.swift:126-128 | one turn of the drain loop on an entry whose token is still missing dequeues it and re-fires it, which queues the same caller again: the queue after the turn equals the queue before it, so `dequeue` never returns nil |
| Scenarios.SnapshotReplayStops | Sources/FSCNetwork/NetworkManager.swift:126-129 | on the same input the corrected drain re-fires the entry once, puts it back once, starts one more refresh, and ends with the replay running |

## Left out

- The transport (URLSession, its configuration and session delegate) is not modelled. A task's reply is an input event. The cache policy and `resume()` are left out.
- Logging (`NetworkLogs.swift`), the `print` calls of the queue, and `DataDecoder.swift` are not part of this model.
- The queue's concurrent DispatchQueue with barriers is not modelled. Every enqueue and dequeue is one atomic step in call order, so the asynchronous enqueue is treated as completed before the next call.
- Concurrency between replies, refresh callbacks and client calls is not modelled. Each is a separate event run to completion.
- A refresh implementation that calls back synchronously is modelled as a later `OnRefreshOutcome` event. What is lost: when `refreshToken` answers `.refreshed` inside `fire`'s missing-token path (NetworkManager.swift:33, then 122-129), the drain fires the replay, with its token, before the outer `fire` reaches line 66; that line then cancels the replay, and the request without a token is the one left running. The model's later event ends with the replay running.
- `URL(string:)!` crashing on an unparsable url is not modelled. Every url string is taken as valid.
- HTTP header names are compared exactly. Foundation's case-insensitive header names are not modelled.
- `isResponseValid` and `getETagDataIfAvailable` are pure functions of the reply. The side effects a real `isResponseValid` may have, such as calling the completion itself, are not modelled.
- Manager.NetworkManager.OnRefreshOutcome: it requires that every waiting entry have a token under the credentials of a refreshed outcome. As written, the drain loop does not terminate when a replayed request still lacks a token, because re-firing it enqueues it again. `Manager.NetworkManager.ReplaySnapshot` is the corrected drain and has no such requirement; when every entry has a token, it also ends with an empty queue (`Manager.TokenlessProperties`).
- Manager.NetworkManager.ReplayWaitingRequests: it has the same requirement, for the same reason.
- Manager.NetworkManager.OnRefreshOutcome: `attempts` is an unbounded integer. The trap that Swift's `Int` would raise when `attempts -= 1` runs at the minimum value is not modelled.
- The process-wide `WaitingRequestQueue.instance` is modelled as a queue object passed to each manager, so the scenarios can share one between managers.
- The completion closures are identified by a number. Their code is not modelled; a call of one is a logged delivery.

## Findings

| source | as written | input that shows it | evidently intended | confidence | as-written member | corrected member |
|---|---|---|---|---|---|---|
| Sources/FSCNetwork/NetworkManager.swift:126-128 | after a refresh the loop dequeues until nil and re-fires each entry; re-firing an entry whose token is still missing enqueues it again before the next dequeue | a `.refreshed` outcome while a queued request has `needAuthentication` true and its `token` still nil | the loop ends once the entries that were waiting have been replayed | not executed | Scenarios.TokenlessReplayRequeues | Manager.NetworkManager.ReplaySnapshot |
