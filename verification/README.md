# Verified model of the support platform's concurrent protocols

A Dafny 4.11 model of the state machines behind this support backend, with proofs about every run of them.
`dafny verify dfyconfig.toml` checks the whole project.

The code under study is asynchronous. Everything between two awaits is one step; a step of one request may be
followed by a step of any other, and by any passage of time. Where the repository keeps state in objects, the
model is a class whose methods are those steps, proved against a function on values; the theorems are about runs
of that function, and a ghost history in most classes ties their objects to them. A health sweep, the
handling of an incident job, a delivery and a dispatch are methods of several steps with awaits in between; at each
await anybody else may take any number of steps, which is all a caller of `Await` may suppose.

| file | what it models |
|---|---|
| `IdempotencyKeys.dfy`, `Idempotency.dfy`, `IdempotencyInterceptor.dfy` | the idempotency interceptor: key format, lock and cache protocol over a shared Redis, the interceptor object |
| `Jobs.dfy`, `QueueWorkers.dfy` | background jobs: retries, dead-lettering, stalled jobs, replay, tenant inheritance; the queue service and worker objects |
| `CircuitBreaker.dfy`, `BaseClient.dfy` | the two circuit breakers, which follow different rules, and the retry loop of the HTTP client |
| `TokenProvider.dfy` | the single-flight token cache, client side of section 4.4 of RFC 6749 |
| `AdminWorld.dfy` | health sweeps, incidents, events and the admin queue: the state and its steps |
| `AdminIncidents.dfy`, `AdminCascade.dfy` | that incidents follow the statuses, and that the cascade of jobs ends |
| `AdminLedger.dfy` | what sweeps, handlers and events do, counted exactly |
| `AdminServices.dfy` | the admin entities, tables, services and worker |
| `Webhooks.dfy`, `WebhookServices.dfy` | the webhook table under interleaved loads and saves; the entity, delivery and dispatch |
| `SignedTimestamp.dfy` | the signed timestamp (the date-time of section 5.6 of RFC 3339 in UTC) and the canonical string |
| `Permissions.dfy` | upstream permission strings |
| `Polling.dfy` | waiting for an AI workflow |
| `Basics.dfy` | shared definitions |

## Hypotheses, and what the proofs found

* The interceptor's lock carries no token. In every run, at most one request at a time is between acquiring and
  releasing the lock of a key if and only if nobody asks for that lock while a holder has had it for 10 seconds or
  more (`MutualExclusionIff`). Other tenants and keys do not matter, nor a slow handler without a rival. Until the
  first such intrusion on its key a DEL removes the request's own lock (`ReleasesOwnLock`), and a request is let in
  exactly if nobody holds the key or the holder has overstayed (`GrantedIff`); the overstayer's DEL then removes the newcomer's lock
  (`OverstayerRemovesForeignLock`), and `OverstayIsReachable` is one run in which all of this happens. A response
  cached before the first intrusion on its key seals the key until it expires, whatever happens to the locks later. What a lookup finds
  does not depend on the locks at all: the response cached last for its tenant and key, for 24 hours
  (`LookupFindsLatestStore`).
  Redis commands succeed and processes do not crash in this protocol; a key with time to live t is taken to be live
  while the clock is below its write time plus t. The connection counts as down until the client's first `connect`
  event, so requests at start-up run unguarded, as do those that come while Redis is lost (`ProtectedIff`).
* Whether BullMQ's `attemptsMade`, read while the handler runs, counts the running attempt is a parameter
  (`Counting`). If it does, a job whose own handler throws no UnrecoverableError and whose own dead-letter adds
  succeed has exactly one entry after its final failure, and none after a completion, if and only if no stall of it
  comes between the adding of an entry and BullMQ's hearing of the error (`DeadLetteredExactlyOnce`). Stalls anywhere
  else do no harm, and neither does what befalls other jobs. If it does not, `NeverRoutedWhenCountedLate`
  proves that no job is ever dead-lettered for exhausting a positive budget. Either way a job comes to an end
  (`JobsComeToAnEnd`). `OneEntryIff` gives the number of
  entries of a final failure in every case, an UnrecoverableError thrown by a handler included. A stalled
  attempt does not keep running.
* `addJob` merges options over the defaults: leaving `attempts` out gives three, passing it as undefined one.
* A replay stamps the caller's tenant over the job's own, so data come back unchanged exactly if the two agree
  (`ReplayRestoresIff`). A job whose tenant is the empty string hands its children none (`ChildTenantIff`). A replay
  stopped between its add and its remove leaves the work in both places (`StoppedReplayDuplicates`).
* Incidents follow the statuses if sweeps report on the service in good order and its jobs are handled in turn
  (`IncidentsFollowStatuses`). In good order: a check's read is still the stored status at its save, and changes are
  queued in the order of their saves; sweeps that never overlap at the service do that (`WithoutOverlap`). In turn: a
  job is taken when those queued before it have been taken and written. The deployment promises neither: sweeps start
  on demand in a clustered API and from jobs, and two workers run (`ecosystem.config.js`, lines 3-24). Each half has
  its exact condition. For any order of handling by handlers that write cleanly, the incident is right if and only if
  the job written last asks for the same as the one queued last (`AnyOrderIff`; `OutOfOrderLeavesIncidentOpen`). For
  any overlap of sweeps, it is right if and only if the job queued last is for the status in the table
  (`InOrderIff`); a lone check spoils that exactly if it saves, unreported, a status other than the stored one, and an
  incident was asked for before or is called for now (`StaleCheckIff`). `OverlapLeavesIncidentOpen` is a run at whose
  end a critical incident is open for a healthy service; in `CrossedReports` all reads are fresh and the jobs cross.
* Handlers of incident jobs search the table and save a whole row later. A service has had at most one open incident
  all along, as the last handler to write asked, if and only if every handler wrote while no incident of the service
  was open but the one it had found (`OpenIsLastWrittenIff`); two workers can create two (`TwoHandlersCreateTwo`).
  No job throws, and nobody edits incidents by hand.
* `BaseClient` logs "consecutive failures", but successes while closed do not reset the count. The model follows
  the code (`SuccessesDoNotReset`, `OpensWithoutFiveInARow`).
* A failed call of `CircuitBreaker` stays active while its fallback is being started; calls made there meet it.
* A half-open breaker of `CircuitBreaker` lets every call through, not one probe (`HalfOpenAdmitsEveryone`).
* A webhook save that throws after an accepted post is treated as a failed attempt and posts again; `Deliver` is
  proved with that behaviour. When the final save of a delivery throws, the rest of the dispatch is left out, and
  the retried job posts again to those already served (`RetriedDispatchRepeats`).
* Saves write whole rows loaded earlier. Status and counter stay coherent under every interleaving, but overlapping
  saves lose updates (`LostUpdate`) and undo a switch-off (`StaleSaveUndoesDisable`). A webhook's row is what its
  saves say if and only if every save of it was faithful (`RowFollowsSavesIff`), and its counter is right if and only
  if every save of it reset the counter or found the one it had loaded (`CounterIsFailureStreakIff`). Only an enable
  and a recorded success revive a failing webhook (`RevivalReactivates`).
* Permission names are looked up in plain objects, so `toString` and `support:ticket_constructor` are granted
  something that is no permission. `ParseIff` and `GrantedInVocabularyIff` say exactly when; an inherited function
  stands for itself under a name of its own.
* The year of the signed timestamp is not padded: exactly the years 1000 to 9999 are accepted.

## Model

| member | source | states |
|---|---|---|
| IdempotencyKeys.CacheKeyInjective | src/common/resilience/idempotency.interceptor.ts:53-69 | for arbitrary tenants, colons included, equal cache keys come from the same tenant and key |
| IdempotencyKeys.LockKeyInjective | src/common/resilience/idempotency.interceptor.ts:76 | equal lock keys come from the same tenant and key |
| IdempotencyKeys.LockNeverCache | src/common/resilience/idempotency.interceptor.ts:69-76 | no lock key equals the cache key of any accepted client key |
| IdempotencyKeys.PatternIsNeeded | src/common/resilience/idempotency.interceptor.ts:53 | without the character class, or without the minimum length, keys of different requests do collide |
| Idempotency.ProtectedIff | src/common/resilience/idempotency.interceptor.ts:16-73 | in every run a request enters the protocol iff it is a POST, PUT or PATCH with an accepted key, a tenant and a Redis that has come up and not been lost since; it is refused iff its key is malformed, and passed on unprotected otherwise |
| Idempotency.LifeOfARequest | src/common/resilience/idempotency.interceptor.ts:37-124 | in every run the place a request has come to determines all it has done, in order: each outcome has its path through lock, lookup, handler, cache write and release, with the body its handler emitted and the tenant and key of its headers |
| Idempotency.MutualExclusionIff | src/common/resilience/idempotency.interceptor.ts:75-124 | in every run at most one request of a tenant and key has been between acquire and release all along iff nobody asked for that lock while a holder had it for 10 seconds or more |
| Idempotency.ReleasesOwnLock | src/common/resilience/idempotency.interceptor.ts:93-119 | until the first such intrusion on its key, a DEL removes exactly the lock its own request took |
| Idempotency.GrantedIff | src/common/resilience/idempotency.interceptor.ts:76-89 | until the first intrusion on its key, a request gets its lock iff nobody holds the key or the holder has kept its lock for 10 seconds or more; otherwise it is answered 409 |
| Idempotency.ConflictMeansHeld | src/common/resilience/idempotency.interceptor.ts:76-89 | in every run a 409 means that another request has locked the key less than 10 seconds ago and not released it |
| Idempotency.OverstayerRemovesForeignLock | src/common/resilience/idempotency.interceptor.ts:112-119 | a holder that has overstayed deletes the lock of the request let in after it |
| Idempotency.OverstayIsReachable | src/common/resilience/idempotency.interceptor.ts:75-122 | a run in which a waiting request is let in beside an overstayer, at the first intrusion, and loses its lock to the overstayer's DEL |
| Idempotency.OneSuccessPerCacheLifetime | src/common/resilience/idempotency.interceptor.ts:91-124 | among requests that entered the protocol: after a cache write with no intrusion on its key before, any handler start, response, failure or cache write for the same tenant and key is at least 86,400 s later |
| Idempotency.LookupsFindTheLiveSuccess | src/common/resilience/idempotency.interceptor.ts:91-112 | until such a cached success expires, every lookup of its key returns that very response, which its request's handler emitted |
| Idempotency.CachedAnswerIsGenuine | src/common/resilience/idempotency.interceptor.ts:91-111 | whatever the timing, an answer from the cache was emitted by the handler of an earlier request of the same tenant and key, and cached by it |
| Idempotency.LookupFindsLatestStore | src/common/resilience/idempotency.interceptor.ts:91-111 | in every run, whatever the locks do, a lookup finds the response cached last for its tenant and key iff that was less than 86,400 s ago, the one emitted by the request that cached it |
| IdempotencyInterceptor.Interceptor.Intercept | src/common/resilience/idempotency.interceptor.ts:37-73 | the admission checks are the protocol's arrival step |
| IdempotencyInterceptor.Interceptor.Acquire | src/common/resilience/idempotency.interceptor.ts:76-89 | acquiring is the protocol's lock step; without an intrusion on the key success means nobody else holds it |
| IdempotencyInterceptor.Interceptor.ReadCache | src/common/resilience/idempotency.interceptor.ts:91-96 | reading the cache is the protocol's lookup step |
| IdempotencyInterceptor.Interceptor.CacheResponse | src/common/resilience/idempotency.interceptor.ts:105-111 | writing the cache is the protocol's store step |
| IdempotencyInterceptor.Interceptor.ReleaseLock | src/common/resilience/idempotency.interceptor.ts:93-119 | releasing is the protocol's release step; without an intrusion on the key it removes no foreign entry |
| Jobs.NoWorkIsLost | packages/shared-queues/src/base-worker.ts:45-109 | in every run each piece of work enqueued has completed, is in a source queue or its failed set, or has an entry in the dead-letter queue that no replay has put back |
| Jobs.EnqueuedKeepsItsData | packages/shared-queues/src/queue.service.ts:25-54 | in every run each addition makes one waiting job with the queue, name, data, tenant and budget asked for, and the job keeps them through retries, stalls and failures and when it has completed |
| Jobs.InQueueUnlessRemovedIff | src/modules/admin/services/admin-health.service.ts:467-479 | in every run an entry is in the dead-letter queue iff it was added and no replay has removed it |
| Jobs.RemovedForGood | src/modules/admin/services/admin-health.service.ts:467-479 | after a replay's removal of its entry nobody can replay it again, whatever else happens; nothing but that entry is removed |
| Jobs.AttemptsAreCounted | packages/shared-queues/src/base-worker.ts:80-94 | in every run `attemptsMade` is the attempts begun, or those failed and settled, depending on the mode; a job runs at most once per attempt of its budget and per stall |
| Jobs.JobsComeToAnEnd | packages/shared-queues/src/base-worker.ts:45-109 | in every run a job outside the failed set can take a step of its own, and it takes at most five steps a run, with one run per attempt of its budget and at most three for stalls |
| Jobs.DeadLetteredExactlyOnce | packages/shared-queues/src/base-worker.ts:80-109 | a job whose own life is ordinary, whatever befalls others, has exactly one entry when it failed for good and none when it completed iff it never stalled between an entry and BullMQ's hearing of the error; it ran at most once more than its budget per stall |
| Jobs.EntriesCounted | packages/shared-queues/src/base-worker.ts:45-109 | such a job has one entry for each stall of that kind and one for a final failure |
| Jobs.EntryMadeOnLastAttempt | packages/shared-queues/src/base-worker.ts:84-93 | its entry is added on an attempt that has spent the budget, at most one attempt late per stall, and records its number |
| Jobs.OneEntryIff | packages/shared-queues/src/base-worker.ts:45-94 | a final failure makes one entry iff the budget check passes or the error is unrecoverable, but not both; two if both, none if neither |
| Jobs.StallAfterRoutingRepeats | packages/shared-queues/src/base-worker.ts:84-109 | a worker lost after adding the entry runs the job again, and another failure adds a second one |
| Jobs.NeverRoutedWhenCountedLate | packages/shared-queues/src/base-worker.ts:84-87 | if the running attempt is not counted, no throw of a job with a positive budget is ever routed to the dead-letter queue |
| Jobs.EntriesTellTheTruth | packages/shared-queues/src/queue.service.ts:60-90 | in every run each entry names the queue, name and tenant of a job that exists or has completed, with its data unchanged |
| Jobs.ReplayRestoresIff | src/modules/admin/services/admin-health.service.ts:467-479 | a replay restores queue, name and data iff the caller's tenant is the job's, and resets the budget to the default |
| Jobs.TenantInherited | packages/shared-queues/src/base-worker.ts:57-72 | in every run each job and entry carries the tenant at the head of its chain of enqueues, dead-letterings and replays as long as every link of that chain kept it |
| Jobs.LinkKeepsTenantIff | packages/shared-queues/src/queue.service.ts:33-38 | a link keeps the tenant iff the parent's is not the empty string, or the replaying caller's is the entry's |
| QueueWorkers.QueueService.AddJob | packages/shared-queues/src/queue.service.ts:25-54 | a new waiting job whose tenant is the ambient one, whatever its data carried, with three attempts unless the options say otherwise |
| QueueWorkers.QueueService.MoveToDeadLetter | packages/shared-queues/src/queue.service.ts:60-90 | exactly one entry for the job, or none when the add throws |
| QueueWorkers.QueueService.ReplayAdd | src/modules/admin/services/admin-health.service.ts:467-476 | an unknown entry is reported, a known one is added again and kept |
| QueueWorkers.QueueService.ReplayRemove | src/modules/admin/services/admin-health.service.ts:477-478 | the entry is out of the dead-letter queue, every other one stays, and all work is still accounted for |
| QueueWorkers.BaseWorker.EnqueueFromHandler | packages/shared-queues/src/base-worker.ts:57-72 | a job enqueued while processing inherits the processed job's tenant |
| QueueWorkers.BaseWorker.HandleFailure | packages/shared-queues/src/base-worker.ts:80-94 | routes iff the attempts made reach the budget |
| QueueWorkers.BaseWorker.RouteToDeadLetter | packages/shared-queues/src/base-worker.ts:96-109 | adds the entry when a queue service is wired in; a failing add is swallowed |
| QueueWorkers.BaseWorker.FailedListener | packages/shared-queues/src/base-worker.ts:45-55 | a dropped job gets its entry, naming its own tenant though no context is open |
| CircuitBreaker.CountersMeanWhatTheySay | src/common/resilience/circuit-breaker.ts:28-146 | for every interleaving: failureCount is the trailing run of failures in settlement order, CLOSED iff that is below the threshold, activeExecutions is the calls admitted but for those that succeeded and those that failed and were counted out, and within a positive limit |
| CircuitBreaker.AdmittedBelowThresholdIff | src/common/resilience/circuit-breaker.ts:32-65 | after every history the bulkhead turns a call away iff a limit is set and reached, and while fewer failures than the threshold end the history every other call is admitted |
| CircuitBreaker.OpeningStartsCooldown | src/common/resilience/circuit-breaker.ts:124-146 | when a failure opens the circuit, and that nothing is admitted within the cooldown that starts there |
| CircuitBreaker.CooldownHolds | src/common/resilience/circuit-breaker.ts:53-63 | while open without a success, calls within the cooldown are all refused and failing stragglers do not postpone its end |
| CircuitBreaker.ProbeExactlyAfterCooldown | src/common/resilience/circuit-breaker.ts:100-111 | with room in the bulkhead a call is refused iff it comes within the cooldown, and becomes the probe iff it comes later |
| CircuitBreaker.HalfOpenAdmitsEveryone | src/common/resilience/circuit-breaker.ts:53-65 | while half open every call the bulkhead has room for is admitted |
| CircuitBreaker.SuccessAlwaysCloses | src/common/resilience/circuit-breaker.ts:113-122 | in every history a success closes the circuit and ends the run of failures |
| CircuitBreaker.CircuitBreaker.Execute | src/common/resilience/circuit-breaker.ts:28-65 | when a call is refused by the bulkhead, refused within the cooldown, or admitted, in terms of the fields; an admitted call from OPEN is the probe; the limit holds |
| CircuitBreaker.CircuitBreaker.OnSuccess | src/common/resilience/circuit-breaker.ts:83-96 | settling with success is the success step of the breaker's history |
| CircuitBreaker.CircuitBreaker.OnFailure | src/common/resilience/circuit-breaker.ts:86-93 | settling with failure is the failure step of the breaker's history; the call stays active |
| CircuitBreaker.CircuitBreaker.Finally | src/common/resilience/circuit-breaker.ts:94-97 | afterwards the failed call is counted out, whatever its fallback has executed in between |
| CircuitBreaker.CircuitBreaker.GetState | src/common/resilience/circuit-breaker.ts:148-150 | CLOSED iff the one number of failures that ends the history of settlements is below the threshold |
| BaseClient.RetrySchedule | packages/shared-clients/src/base-client.ts:66-89 | k retries make k + 1 sends and sleep b(2^k - 1) ms; all but the last send met a retryable error; the outcome is the last one's |
| BaseClient.SentAgainIff | packages/shared-clients/src/base-client.ts:66-89 | a send is followed by another iff retries are left and it met a status of 500 or more or no answer |
| BaseClient.FirstFinalOutcomeWins | packages/shared-clients/src/base-client.ts:75-87 | the first outcome not to be retried determines sends, sleep and result |
| BaseClient.ClosedIffFewFailures | packages/shared-clients/src/base-client.ts:31-64 | in every interleaving CLOSED iff fewer than 5 requests failed since the start or the last recovery; the failure time is that of the latest failure |
| BaseClient.RefusedUntilCooledDown | packages/shared-clients/src/base-client.ts:36-44 | once open, a request is sent iff more than 10,000 ms have passed since the latest failure |
| BaseClient.OpenStaysOpen | packages/shared-clients/src/base-client.ts:53-57 | stragglers and refused requests leave an open circuit open; successes change nothing |
| BaseClient.SuccessesDoNotReset | packages/shared-clients/src/base-client.ts:53-56 | until the circuit first opens, striking every success from the history gives the same circuit |
| BaseClient.OpensWithoutFiveInARow | packages/shared-clients/src/base-client.ts:31-64 | requests one after another, in a history the code produces: the fifth failure opens the circuit however many successes stand between, and until then it is closed |
| BaseClient.BaseClient.BeginRequest | packages/shared-clients/src/base-client.ts:36-44 | whether a request reaches the transport, in terms of the history |
| BaseClient.BaseClient.RequestSucceeded | packages/shared-clients/src/base-client.ts:53-57 | only a half-open circuit closes and forgets its failures |
| BaseClient.BaseClient.HandleFailure | packages/shared-clients/src/base-client.ts:121-134 | one counted failure per request; opens from any state at five |
| TokenProvider.SingleFlight | packages/shared-clients/src/iam-service-token.ts:73-77 | at most one token request is outstanding, and while it is nobody sends another |
| TokenProvider.SendsIff | packages/shared-clients/src/iam-service-token.ts:67-79 | what becomes of a call: nothing without credentials, the cached token while it lasts, otherwise it waits for the one unfinished request, which it sends itself iff there is none |
| TokenProvider.JoinersShareOutcome | packages/shared-clients/src/iam-service-token.ts:78-84 | all callers that joined a request settle with its outcome |
| TokenProvider.OutcomeIsTheReply | packages/shared-clients/src/iam-service-token.ts:50-59 | that outcome is the reply's token, or none for an error or a missing token |
| TokenProvider.CacheServedTokenHasAMinute | packages/shared-clients/src/iam-service-token.ts:55-72 | a token served from the cache was granted earlier and has more than 60,000 ms left by the receipt clock |
| TokenProvider.RequestsAreSpaced | packages/shared-clients/src/iam-service-token.ts:53-77 | after a grant of E seconds, 3600 if none is given, every later request starts at least 1000 E - 60,000 ms after its receipt |
| TokenProvider.IamServiceTokenProvider.GetAuthHeader | packages/shared-clients/src/iam-service-token.ts:67-79 | the call's first stretch: serve, join or send |
| TokenProvider.IamServiceTokenProvider.OnReply | packages/shared-clients/src/iam-service-token.ts:50-59 | only a grant changes the cache |
| TokenProvider.IamServiceTokenProvider.OnFinally | packages/shared-clients/src/iam-service-token.ts:74-76 | afterwards no request is unfinished |
| TokenProvider.IamServiceTokenProvider.OnResume | packages/shared-clients/src/iam-service-token.ts:78-84 | a bearer value, or none if the request failed |
| AdminIncidents.IncidentsFollowStatuses | src/modules/admin/services/admin-health.service.ts:291-363 | in every run with fresh reads, changes queued in the order of their saves and jobs handled in turn: once told and settled, an incident is open iff the status changed at least once and is not healthy, with that status's severity |
| AdminIncidents.OrderlyReportsAreTrue | src/modules/admin/services/admin-health.service.ts:308-359 | with fresh reads and changes queued in the order of their saves, what is told last is what the history deserves once nobody tells |
| AdminIncidents.WithoutOverlap | src/modules/admin/services/admin-health.service.ts:291-363 | sweeps that do not overlap at the service meet the first two of these conditions |
| AdminIncidents.OpenIsLastWrittenIff | src/modules/admin/services/admin-incident.service.ts:51-133 | in every run, with any overlap of sweeps and handlers: a service has had at most one open incident all along, the one asked for by the last handler to write, iff every handler wrote while none was open but the one it had found |
| AdminIncidents.AnyOrderIff | src/modules/admin/jobs/admin-queue.processor.ts:69-90 | with orderly reports and clean writes in any order: the open incident is the deserved one iff the job written last asks for the same as the one queued last |
| AdminIncidents.InOrderIff | src/modules/admin/services/admin-health.service.ts:307-359 | with any overlap of sweeps, jobs handled in turn and settled: the open incident is the deserved one iff the job queued last is for the status in the table |
| AdminIncidents.StaleCheckIff | src/modules/admin/services/admin-health.service.ts:308-325 | a check that saves after others have changed the row keeps the last queued job truthful iff it does not save an unreported status other than the stored one while an incident was asked for or is called for; a read that is still the stored status is enough |
| AdminIncidents.ReportsIff | src/modules/admin/domain/system-health.entity.ts:95-99 | in every run a check whose read is still stored reports a change iff the service was seen before and its last saved status differs |
| AdminIncidents.OverlapLeavesIncidentOpen | src/modules/admin/services/admin-health.service.ts:308-325 | a run in which two checks read the same row and a critical incident stays open for a service seen healthy, down and healthy |
| AdminIncidents.CrossedReports | src/modules/admin/services/admin-health.service.ts:325-359 | a run in which every read is fresh at its save, and the jobs are queued in the other order than the statuses were saved |
| AdminIncidents.UndisturbedSave | src/modules/admin/services/admin-incident.service.ts:51-133 | a handler nobody comes between leaves at most one open incident of the service, the one its job asks for |
| AdminIncidents.StaleSaveIff | src/modules/admin/services/admin-incident.service.ts:58-72 | a handler that saves after others have changed the table leaves the one incident its job asks for iff no other than the incident it found is open by then |
| AdminIncidents.TwoHandlersCreateTwo | src/modules/admin/services/admin-incident.service.ts:57-72 | two workers that take two jobs while no incident is open both create one |
| AdminIncidents.OutOfOrderLeavesIncidentOpen | src/modules/admin/services/admin-incident.service.ts:118-126 | a down and a recovery job handled in the wrong order leave a critical incident open |
| AdminCascade.CascadeEnds | src/modules/admin/jobs/admin-queue.processor.ts:31-99 | without new work from outside every run ends: each step of a sweep, worker or handler lowers a potential |
| AdminCascade.QuietIff | src/modules/admin/jobs/admin-queue.processor.ts:31-99 | such a run can stop only when no job waits and no sweep or handler is under way |
| AdminCascade.SweepCausesAtMostTwelveJobs | src/modules/admin/services/admin-health.service.ts:307-359 | in every run, whatever else goes on, a sweep causes directly and through other jobs at most 3 admin jobs per change it reported, at most 12 in all |
| AdminLedger.EachServiceCheckedOnce | src/modules/admin/services/admin-health.service.ts:58-63 | in every run a sweep that is over has saved one status for each of database, Redis, connector engine and workflow engine of its tenant, and none for anything else |
| AdminLedger.EveryChangeIsTold | src/modules/admin/services/admin-health.service.ts:326-359 | in every run a sweep between services has announced, notified and queued an incident job once for each change it reported |
| AdminLedger.EveryIncidentIsTold | src/modules/admin/services/admin-incident.service.ts:40-47 | in every run a handler that is through has written once, and told analytics and webhooks once each iff it created or resolved an incident |
| AdminLedger.WebhookJobsCounted | src/modules/admin/services/admin-event.publisher.ts:7-45 | in every run a health change, a created and a resolved incident of a known tenant make one webhook job each that names the event; there are no others but those of producers elsewhere |
| AdminLedger.AnalyticsCounted | src/modules/admin/services/admin-event.publisher.ts:32-36 | in every run analytics is told once of each change, created and resolved incident and failed delivery, whatever the tenant |
| AdminLedger.SweepCausesExactly | src/modules/admin/services/admin-health.service.ts:326-359 | a sweep of a known tenant has caused two jobs per change reported and one per incident created or resolved on its account |
| AdminLedger.UndisturbedJob | src/modules/admin/jobs/admin-queue.processor.ts:69-90 | a handler nobody comes between leaves no open incident after a resolving job, otherwise one of the job's severity, medium if it names none |
| AdminWorld.FailuresEnqueueNothing | src/modules/admin/services/admin-webhook.service.ts:205-213 | any number of delivery-failure events leaves the admin queue as it was |
| AdminServices.AdminHealthService.RunHealthSweep | src/modules/admin/services/admin-health.service.ts:306-362 | whatever others do at its awaits, the sweep saves the four results for database, Redis, connector engine and workflow engine, in this order, as steps of the run, and causes at most 12 jobs |
| AdminServices.AdminHealthService.SweepService | src/modules/admin/services/admin-health.service.ts:307-359 | one service of a sweep takes the steps of the run in source order, one between two awaits, saves the probe's result for that service and ends at the next one |
| AdminServices.AdminIncidentService.OpenOrEscalateIncident | src/modules/admin/services/admin-incident.service.ts:51-73 | search, write and the two halves of the event are steps of the run with any steps of others in between; the write asks for an open incident of the given severity |
| AdminServices.AdminIncidentService.ResolveIncidentByService | src/modules/admin/services/admin-incident.service.ts:118-133 | search, write and event as above; the write asks for no open incident |
| AdminServices.WriteDoesAsAskedIff | src/modules/admin/services/admin-incident.service.ts:57-69 | what such a write leaves open, whatever came between search and write |
| AdminServices.AdminQueueProcessor.HandleJobAt | src/modules/admin/jobs/admin-queue.processor.ts:31-99 | taking any waiting job is a step of the run; a health job of a known tenant becomes a sweep that is over, an incident job a write that asks for its severity, medium if it names none, or for none if it resolves, and a webhook job its dispatch |
| AdminServices.AdminEventPublisher.PublishEvent | src/modules/admin/services/admin-event.publisher.ts:7-53 | analytics always, a webhook job exactly for the seven eligible events of a known tenant |
| AdminServices.AdminEventPublisher.PublishAll | src/modules/admin/services/admin-event.publisher.ts:55-59 | all events to analytics in order, and a webhook job for each eligible one of a known tenant |
| AdminServices.AdminStore.FindOpenIncidentByService | src/modules/admin/repositories/drizzle-admin.repository.ts:790-810 | the latest unresolved incident of the service, if any |
| Webhooks.RowsStayCoherent | src/modules/admin/repositories/drizzle-admin.repository.ts:573-612 | under every interleaving of load, mutate, save and delete each row and copy has ACTIVE implying fewer than 3 failures and FAILING at least 3 |
| Webhooks.RowFollowsSavesIff | src/modules/admin/repositories/drizzle-admin.repository.ts:573-612 | in every run a webhook's row is what its creation and saved mutations, one after the other, make of it, all along iff every save of it did to the stored row what was done to the loaded one, whatever happens to other webhooks; a save of a deleted one never does |
| Webhooks.StoredIffSavedSinceDeleted | src/modules/admin/repositories/drizzle-admin.repository.ts:573-612 | in every run a webhook is in the table iff it has been saved since it was last deleted, by a stale copy as well |
| Webhooks.FailureCountedIff | src/modules/admin/repositories/drizzle-admin.repository.ts:573-612 | a saved failed delivery is counted iff the stored counter is the one it loaded |
| Webhooks.LostUpdate | src/modules/admin/repositories/drizzle-admin.repository.ts:573-612 | two overlapping failed deliveries count as one |
| Webhooks.StaleSaveUndoesDisable | src/modules/admin/repositories/drizzle-admin.repository.ts:573-612 | a delivery loaded before a switch-off and saved after it makes the webhook active again |
| Webhooks.CounterIsFailureStreakIff | src/modules/admin/domain/webhook.entity.ts:123-155 | in every run a webhook's counter is the failed deliveries since the last success or enable, in save order, all along iff every save of it reset the counter or found the one it had loaded |
| Webhooks.StatusFollowsSaves | src/modules/admin/domain/webhook.entity.ts:96-155 | while all saves of a webhook are faithful it is DISABLED iff it was switched off last, otherwise FAILING iff the last three or more outcomes are failures; its events, policy and last delivery are the latest of each |
| Webhooks.FailingIsSilent | src/modules/admin/repositories/drizzle-admin.repository.ts:656-671 | in every run a failing webhook is selected for no event until a save that was loaded while it was active, or that enables it or records a success; dispatches that had loaded it before are not stopped |
| Webhooks.NeverNamedNeverFound | src/modules/admin/repositories/drizzle-admin.repository.ts:656-671 | in every run a webhook whose saved registration and updates never named an event is found for no dispatch of it |
| Webhooks.RetriedDispatchRepeats | src/modules/admin/services/admin-webhook.service.ts:144-156 | a subscriber served with success is selected again when a dispatch that was cut short is retried |
| Webhooks.PausesClosedForm | src/modules/admin/services/admin-webhook.service.ts:197-201 | a delivery that ends on attempt k slept b k (k - 1) / 2 ms |
| WebhookServices.Webhook.RecordDeliverySuccess | src/modules/admin/domain/webhook.entity.ts:134-142 | resets the counter and revives a failing webhook, keeping coherence |
| WebhookServices.Webhook.RecordDeliveryFailure | src/modules/admin/domain/webhook.entity.ts:144-155 | counts, and turns an active webhook failing at three, keeping coherence |
| WebhookServices.AdminWebhookService.Deliver | src/modules/admin/services/admin-webhook.service.ts:166-214 | whatever others do to the table meanwhile: at most maxAttempts posts up to the first accepted and saved one, the pauses, one save at most, of the row loaded with exactly one outcome recorded, the counter and status that makes, and a failure event iff all attempts failed and the last save did not throw |
| WebhookServices.AdminWebhookService.FindWebhooksForEvent | src/modules/admin/repositories/drizzle-admin.repository.ts:656-671 | exactly the tenant's active webhooks subscribed to the event, each once |
| WebhookServices.AdminWebhookService.DispatchEvent | src/modules/admin/services/admin-webhook.service.ts:144-156 | whatever others do meanwhile: delivers once to each webhook found active and subscribed to the event and to nobody else until a final save throws, which leaves out the rest; one save each, of the row found, and one failure event per failed delivery that was saved |
| WebhookServices.AdminWebhookService.RetryDelivery | src/modules/admin/services/admin-webhook.service.ts:158-164 | delivers to a known webhook whatever its status; throws iff all attempts failed and so did the final save; otherwise one save of the row looked up |
| WebhookServices.AdminWebhookService.EnableWebhook | src/modules/admin/services/admin-webhook.service.ts:118-123 | an unknown webhook is reported; of a known one the row looked up is saved active with counter 0 |
| WebhookServices.AdminWebhookService.DisableWebhook | src/modules/admin/services/admin-webhook.service.ts:111-116 | an unknown webhook is reported; of a known one the row looked up is saved disabled, counter kept |
| SignedTimestamp.StampSurvives | packages/shared-clients/src/ai-operating-platform-client.ts:132-156 | for every UTC instant with a four-digit year, parsing and Python's isoformat give back the identical string |
| SignedTimestamp.StampReads | packages/shared-clients/src/ai-operating-platform-client.ts:148-155 | where year, month, day, hour, minute, second, microseconds and offset stand in it |
| SignedTimestamp.StampAcceptedIff | packages/shared-clients/src/ai-operating-platform-client.ts:148-155 | the timestamp parses iff the year has four digits |
| SignedTimestamp.RoundTripIff | packages/shared-clients/src/ai-operating-platform-client.ts:132-143 | an accepted timestamp survives iff it has Python's shape: +00:00, and no fraction or six digits not all zero |
| SignedTimestamp.IsoStringNeverSurvives | packages/shared-clients/src/ai-operating-platform-client.ts:140-143 | toISOString parses to the same instant and never survives |
| SignedTimestamp.ParseOfFormat | packages/shared-clients/src/ai-operating-platform-client.ts:132-139 | the verifying side reads back every datetime it writes |
| SignedTimestamp.FormatIsNormalForm | packages/shared-clients/src/ai-operating-platform-client.ts:132-143 | whatever is accepted is an existing datetime; parsing and formatting keeps the instant, and doing it twice is doing it once |
| SignedTimestamp.CanonicalDetermines | packages/shared-clients/src/ai-operating-platform-client.ts:174-185 | equal canonical strings have equal method, path, timestamp and body hash, whatever the path contains |
| SignedTimestamp.CanonicalLines | packages/shared-clients/src/ai-operating-platform-client.ts:174-185 | line by line the canonical string is method, path, timestamp and body hash, in this order |
| SignedTimestamp.NewlineInVerbCollides | packages/shared-clients/src/ai-operating-platform-client.ts:183-185 | a newline in the method would make different requests sign alike |
| Permissions.ParseIff | src/modules/iam/iam-gateway.service.ts:487-497 | a name parses to a permission iff it is a namespace, a known resource, an underscore and a synonym of the action or the name of an inherited property |
| Permissions.EveryPermissionCanBeSpelled | src/modules/iam/iam-gateway.service.ts:53-87 | every resource, underscored ones included, parses with every word for an action, in every namespace |
| Permissions.TableAgreesWithParser | src/modules/iam/iam-gateway.service.ts:44-51 | the parser gives the known permission for every table entry but support:agent_assign, which it rejects and the table calls assigning tickets |
| Permissions.GrantedInVocabularyIff | src/modules/iam/iam-gateway.service.ts:456-497 | only known resources and actions are granted iff no name in the list is an inherited property's, alone or after a known resource |
| Permissions.MapPermissions | src/modules/iam/iam-gateway.service.ts:456-481 | the list has no duplicates and holds exactly `manage` on each of the sixteen resources for a super admin, by flag or by role, and what the names mean |
| Polling.EnqueueAndAwait | packages/shared-clients/src/ai-operating-platform-client.ts:248-275 | the status reported is the first terminal one, or the last before the time ran out, after the least number of polls |
| Polling.SubmitToolResult | packages/shared-clients/src/ai-operating-platform-client.ts:426-455 | the early return does not change that |
| Polling.PollsBounded | packages/shared-clients/src/ai-operating-platform-client.ts:115-129 | with the default budget at most 30 polls are made |

## Left out

- Redis, BullMQ, Postgres, HTTP and WebSocket internals: only the atomic effects used here are modelled.
- Connection loss, failing commands and crashes inside the idempotency protocol: the connection flag is modelled for admission only.
- Idempotency.OneSuccessPerCacheLifetime: says nothing of requests let through unguarded while Redis is not connected, because the code does not protect them.
- Interceptors of several processes: Redis and its keys are shared by all requests, the connection flag is that of one process.
- Handlers that emit no value or several, and responses whose JSON text is undefined.
- TenantContext: the ambient tenant is a value passed to each step, not an object with dynamic scope; handlers do not switch tenants themselves, and a worker has no ambient tenant of its own.
- Retrying, pausing or cleaning queues by hand, and removal of jobs from the failed set.
- Work still running after a breaker timeout: a call settles when the race settles.
- Rejections inside the promise machinery of the token provider other than a failed or unusable reply.
- Fractional or non-numeric `expires_in`: a lifetime is a whole number of seconds, and an unusable one is 0.
- Tenants of admin jobs that differ between the job's context and its data: both are one field here.
- Titles, descriptions, latencies, timestamps and other columns that no decision reads; the websocket broadcast.
- Admin jobs for audit and cleanup, and unknown job names.
- AdminIncidents.IncidentsFollowStatuses: assumes orderly reports and handling in turn, because the code enforces neither; AnyOrderIff, InOrderIff and OpenIsLastWrittenIff cover what happens otherwise.
- Sweeps, dispatches and incident jobs that stop half-way, but for a webhook save that throws.
- Interleavings inside one whole-row save of a webhook, and a save that throws after it has written.
- HMAC, SHA-256 and the webhook secret: only the strings fed to them matter here.
- Timestamps with other offsets, lower-case separators or leap seconds on the verifying side, and years above 9999 in `toISOString`.
- Permission scopes, which this code never sets, and the text of inherited functions.
- Dashboards, announcements, API keys, overrides, audit views, health probes and client wrappers: single-branch or single-row code that would only add easy members.
