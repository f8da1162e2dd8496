# Verified model of the chat backend's coordination logic

The backend answers chat messages over HTTP and coordinates its requests, background
finalizers and worker jobs through Redis, a SQL message log and a few in-memory
structures. This project models that coordination in Dafny and proves what it keeps.

Redis is one abstract store: a map whose entries may expire, and a clock
(`RedisModel`). Language models, tools, SQL transactions and the vector index are oracles:
each may answer anything, or fail. Where the program changes state step by step there is a
class whose methods do the same; each is proved equal to a pure step function, and the
theorems are proved about that function over every run.

| file | what it holds |
|---|---|
| `RedisModel`, `RedisLock` | the store, its client, the token lock |
| `SessionProtocol` | one chat request as atomic steps, and every interleaving of requests, finalizers and clock ticks |
| `SessionSafety`, `SessionTheorems`, `SessionLimits` | mutual exclusion, message order, idempotency, and where each of them stops |
| `Idempotency`, `ChatApplication` | the service objects: `execute`, the finalizers, the transaction, `get` and `save` |
| `Summarization`, `SummaryOrder`, `SummaryDeletion`, `SummaryWorker` | the summarisation buckets, with crashes, retries and deleted sessions |
| `ChatMemory`, `HistoryWindow` | the sliding history window, and when it is the end of the message table |
| `Resilience`, `FallbackChain`, `FloorTrap`, `DistributedBreaker` | provider breaker, health score, retry, ranked fallback, overlapping calls, the Redis breaker |
| `SemanticCache`, `ChatScope` | the aligned vector cache, its search, and the isolation of sessions |
| `Json`, `Templates`, `Pipeline`, `PipelineTheorems`, `Orchestrator` | planner, tools, firewall, template or renderer |
| `ToolSchema` | the schema case conversions |

Three time assumptions recur and are named: `TimelyRun` (no holder outlives its lock's time
to live), `Homed` (an idempotency key is used under one lock only), `NothingExpires`.

## What the code does that its documentation does not say

Each of these is proved; the members in parentheses say exactly what.

- Every response dump still holds its session id as a UUID, which `json.dumps` refuses. So
  `save` always raises before its `set`, no idempotency hit is ever served, and a retried key
  runs the whole pipeline again (`DumpedSavesNeverHit`). With a key, a fast-path request ends
  in a 500 and, when its finalizer was queued, its messages are lost (`DoneTaskEffects`).
- "Single execution per idempotency key" needs the key to have one home lock: any two requests
  with one key execute it once if and only if they take the same lock (`SingleExecutionIff`).
- Message order within a session is kept between any two requests that write it if and only if
  they take the same lock (`OrderIff`). Requests that name the session do; one that names none
  locks its user id, and any follow-up can overtake it (`NamedSessionIsOrdered`,
  `NewcomerCanBeOvertaken`).
- The repaired summarisation worker summarises after 10, 30, 60, 100, ... messages, not after
  every ten (`SummarySpacing`). As written it does not get that far: it calls a builder with
  one argument missing (app/workers/summarization_worker.py:59, app/core/container.py:122).
- Deleting a session takes its messages and summaries along but not its counter, buckets or
  jobs. A bucket can be subtracted twice if and only if the session may be deleted: under the
  worker, which then dies before its mark, and created again before the retry
  (`SecondDebitIff`, `DeletedSessionDebitsTwice`).
- Client errors are retried although the retry helper says they are not: the provider raises a
  `ValueError` inside its own `try` and turns it into a transient error (`ClientErrorsAreRetried`).
- A provider can be tried again if and only if its best reachable score, all attempts in flight
  counted as answers, is at the floor; below that it is out for good, and one slow answer and
  three failures are enough to get there (`TriedAgainIff`, `DeclineTraps`).
- The history refill takes the oldest rows, not the newest; a window is the end of the table
  exactly under the condition of `WindowIsTableTailIff`. Deleting a session leaves its window,
  so a session created again under the same id is served the deleted rows (`DeletedRowsAreServed`).
- A success that falls between a failure's count and its flag leaves the circuit open
  (`LateFlagOutlivesSuccess`). An open circuit is always backed by a threshold-reaching failure
  of the last 60 seconds with no success since if and only if each flag is raised at the time
  of such a failure with no success between the two (`JustifiedIff`).
- A recording that dies before its EXPIRE leaves a counter that never expires
  (`UnarmedNeverForgets`), and a late EXPIRE stretches the window: the next failure is certain
  to lie in one window with those it adds to if and only if a live counter expires a window after
  the first of them (`NextInWindowIff`). With calls that run to their end one after another both
  promises hold (`UninterruptedOpensForCause`).
- An empty session id switches the cache's scope filter off (`IsolatedIff`).
- The planner insists on `create_booking` for that intent but never offers it; with the tools
  the program registers, the same goes for `get_event_details`, `get_booking` and
  `cancel_booking`. A model that only calls offered tools then always ends in the apology
  (`HintOfferedIff`, `RegisteredToolsOffer`, `UnofferedHintApologises`).
- Planner replies that are thrown away are spent but not charged (`TokensAccounted`); forbidden
  keys are removed at the top level of a result only (`DeepSafeIff`).
- With an `eviction_count` that is negative or equal to `max_size` the cache outgrows its
  maximum, and a history limit of 0 keeps everything (`BoundedIff`, `ZeroWindowKeepsAll`).

## Model

| member | source | states |
|---|---|---|
| RedisLock.RedisLockAdapter.Acquire | app/infrastructure/adapters/redis_lock_adapter.py:26-31 | one SET NX with a token never drawn before; a token comes back exactly when the lock was free or expired |
| RedisLock.RedisLockAdapter.Release | app/infrastructure/adapters/redis_lock_adapter.py:33-42 | compare-and-delete as one command: only the caller's own live token is removed |
| RedisLock.FallbackKeepsOthersIff | app/infrastructure/adapters/redis_lock_adapter.py:43-49 | whatever happens between the two halves of the fallback, a newer holder survives the delete exactly when the get had not seen the caller's token |
| RedisLock.FallbackFreesNewerHolder | app/infrastructure/adapters/redis_lock_adapter.py:43-49 | an expiry between the halves makes the fallback free a newer holder's lock; the script does not |
| RedisModel.RedisClient.SetNx | app/infrastructure/adapters/redis_state_adapter.py:36-38 | sets value and expiry only when no live entry is there, and says which |
| RedisModel.RedisClient.IncrBy | app/infrastructure/adapters/redis_state_adapter.py:27-34 | adds to the live number (0 if absent), keeps its expiry, creates without one |
| SessionSafety.BaseRun | app/services/chat_application_service.py:111-177 | over every run, with no timing assumption: tokens are unique, every live lock belongs to a holder, events are in time order under their own name, every task's phase matches what it has already done |
| SessionSafety.StaleReleaseHarmless | app/services/chat_application_service.py:301-303 | no step of one request or finalizer, late release included, removes a lock that is live under another's token |
| SessionSafety.NothingStaysLocked | app/services/chat_application_service.py:367-382 | when everything is done in a run, no session key is locked |
| SessionSafety.AbandonedLocksExpire | app/services/chat_application_service.py:115 | in any run a lock whose holder dies frees its session after at most 75 seconds |
| SessionSafety.EveryStepProgresses | app/services/chat_application_service.py:120-303 | each own step of an unfinished request or finalizer strictly lowers the number of steps it still needs |
| SessionSafety.TimelyRunIsSafe | app/services/chat_application_service.py:113-118 | while no holder outlives its lock, each holder's entry is the one in the store and critical sections under one lock follow acquisition order |
| SessionSafety.MutualExclusion | app/services/chat_application_service.py:81-87 | at most one request or finalizer per lock key is between acquire and release, handover included |
| SessionTheorems.ToldRun | app/services/chat_application_service.py:122-129 | every effect in the history stems from one request, says what that request would write, happens once, and follows that request's own missed check |
| SessionTheorems.DoneTaskEffects | app/services/chat_application_service.py:231-303 | a finished request that ran has committed its pair, and stored its response, exactly under the stated conditions; a failed generation stores nothing |
| SessionTheorems.ClientIsTold | app/services/chat_application_service.py:71-343 | every finished request of every run was told: 503 not admitted, 429 lock taken, 500 unreadable key, on a hit the stored reply (500 across response classes), and when its pipeline ran the fast path's text, the model's text or the excuse for an empty one, the failure text, or the refusal's status |
| SessionTheorems.EffectsSay | app/services/chat_application_service.py:152-169 | every committed pair holds the request's message and the fast path's, the model's or the failure text; every stored reply is the one the client gets, for a day; under the session named or created |
| SessionTheorems.TableIsPairs | app/services/chat_application_service.py:414-451 | a session's rows are its commits' pairs flattened, in commit order |
| SessionTheorems.CommitsInOrder | app/services/chat_application_service.py:81-87 | commits into one session, all under one lock, have strictly increasing lock tokens |
| SessionTheorems.SqlLogInLockOrder | app/services/chat_application_service.py:334-382 | strict message ordering: in any state of any timely run in which all writers of a session take one lock, its log is whole user/assistant pairs, one per committing request, in lock order |
| SessionTheorems.NamedSessionIsOrdered | app/services/chat_application_service.py:113 | so when all requests that write the session name it |
| SessionTheorems.IdempotentRun | app/services/idempotency_service.py:43-48 | a stored result stays until it expires, whoever is on the way to a save found every earlier one expired, and checks of its key hit it |
| SessionTheorems.NoSecondExecution | app/services/idempotency_service.py:101-134 | when each key has one home lock: after a stored result, until it expires, no check of its key misses, each hit returns that response, and no other request with the key commits or stores |
| SessionLimits.GenuineRun | app/services/chat_application_service.py:123-129 | every stored entry and every hit is backed by an earlier store under that key, not yet expired |
| SessionLimits.NewcomerCanBeOvertaken | app/services/chat_application_service.py:113 | for any newcomer and any follow-up naming the session it creates, both due to leave a pair there and under different locks, a timely run after which the table holds the follow-up's pair first |
| SessionLimits.OrderIff | app/services/chat_application_service.py:81-87 | any two requests, on any path, that leave a pair in one session keep lock order in every timely run iff they take the same lock |
| SessionLimits.SharedKeyRunsTwice | app/services/chat_application_service.py:111-129 | for any two requests with one key and different locks, one due to store and the other to commit, a timely run in which the first stores its result and the other then commits under the key |
| SessionLimits.SingleExecutionIff | app/services/idempotency_service.py:43-48 | any two requests with one key, on any path, execute it once, in every timely run and under any fates, iff they take the same lock |
| Idempotency.DumpableIff | app/services/idempotency_service.py:128-132 | a value can be saved exactly when dumping it in JSON mode would change nothing |
| Idempotency.ResponsesNeverDump | app/services/chat_application_service.py:156-169 | no response of either class can be encoded, whatever its tokens and latency |
| Idempotency.DumpRoundTrips | app/schemas/chat_unified.py:67-85 | dumped in JSON mode and validated by its own class a response is itself again, and the other class refuses it |
| Idempotency.DumpedSavesNeverHit | app/services/idempotency_service.py:128-132 | in every run whose saves are decided by the dumps of their own responses, nothing is stored and no hit is served |
| Idempotency.IdempotencyService.Get | app/services/idempotency_service.py:101-113 | returns exactly the live saved response of the key |
| Idempotency.IdempotencyService.Save | app/services/idempotency_service.py:118-134 | a dump that cannot be encoded saves nothing; otherwise the reply for a day, then the processing lock deleted, a failure leaving exactly the part done before it and no other key touched |
| ChatApplication.HandlerExit | app/services/chat_application_service.py:120-303 | on every exit of the handler the lock is released, or the client was answered and a finalizer owns it |
| ChatApplication.FinalizerReleases | app/services/chat_application_service.py:334-382 | a finalizer releases the lock it inherited whatever fails on the way |
| ChatApplication.DriveThrough | app/services/chat_application_service.py:144-150 | handing over and running the finalizer is the same as running the request to its end |
| ChatApplication.ChatbotDb.Persist | app/services/chat_application_service.py:414-451 | both rows at once or none |
| ChatApplication.ChatApplicationService.CheckKey | app/services/chat_application_service.py:122-129 | a hit replies (an error across response classes), an unreadable store is an error, a miss goes on; one protocol step |
| ChatApplication.ChatApplicationService.Execute | app/services/chat_application_service.py:71-303 | the handler performs the protocol's steps to its exit, tells the client 503, 429 or what its pipeline calls for, and its queue holds the finalizer that owns the lock, or nothing new when it answered without handing over |
| ChatApplication.ChatApplicationService.FastPath | app/services/chat_application_service.py:131-177 | queued or inline finalizer, then the save; the reply is the matched text under the request's session; a failed save ends in 500 with the lock released once |
| ChatApplication.ChatApplicationService.NormalPath | app/services/chat_application_service.py:183-292 | refusal with its status, failed generation persisted inline and answered with the failure text, or the generated text (the excuse when empty) with finalizer queued or inline |
| ChatApplication.ChatApplicationService.FastFinalizeBody | app/services/chat_application_service.py:384-412 | resolves and persists, swallowing errors; ends where the save or the release is due |
| ChatApplication.ChatApplicationService.NormalFinalizeBody | app/services/chat_application_service.py:346-366 | SQL, memory, save; the first error ends it and only the release is left |
| ChatApplication.ChatApplicationService.RunDeferred | app/services/chat_application_service.py:334-382 | a queued finalizer takes its request to the end |
| ChatApplication.ChatApplicationService.Serve | app/services/chat_application_service.py:71-303 | a whole request: nothing is left locked under its token and the client is told 503, 429 or what its pipeline calls for; the queue of a failed request is dropped |
| Summarization.CounterConserved | app/services/chat_memory_service.py:119-136 | while the counter key lives, it holds increments minus subtracted amounts at every point of every run with crashes and retries |
| Summarization.AtMostOneDebitPerBucket | app/workers/summarization_worker.py:48-87 | any crashes, retries, deletions and expired locks notwithstanding, two subtractions of a bucket that both stored their version were earned in different lives of the session row, and one that stored none after a deletion |
| Summarization.TwiceNeedsDeletion | app/workers/summarization_worker.py:48-87 | a bucket subtracted twice means the session was deleted in between |
| Summarization.AccountedRun | app/workers/summarization_worker.py:76-87 | versions are never repeated, and in one life of the session row each pays for one subtraction, made or due |
| SummaryOrder.VersionsIncrease | app/workers/summarization_worker.py:36-93 | while no summary lock expires under its holder, the versions the session has are in strictly increasing write order |
| SummaryOrder.JobAlone | app/workers/summarization_worker.py:18-93 | an undisturbed job adds one version, subtracts its count, marks its bucket, leaves no lock |
| SummaryOrder.ThresholdClosed | app/services/chat_memory_service.py:122 | 10 + 20 + ... + 10k is 5k(k+1) |
| SummaryOrder.SummarySpacing | app/services/chat_memory_service.py:119-136 | jobs finishing between interactions and nothing expiring: after n interactions there are exactly k summaries 1..k with 5k(k+1) <= n < 5(k+1)(k+2) and the counter is n - 5k(k+1) |
| SummaryDeletion.RetryDebitsIff | app/workers/summarization_worker.py:42-87 | an attempt left alone subtracts exactly when its bucket is unmarked, the latest version is below it and there are messages |
| SummaryDeletion.TurnedBack | app/workers/summarization_worker.py:36-64 | an attempt that is not due writes and subtracts nothing; where a version stands without a mark it makes the mark; it leaves no lock |
| SummaryDeletion.DeletedSessionDebitsTwice | app/services/session_service.py:142-143 | for every count that claims a bucket, a run with a deletion, a crash, a re-creation and a retry that subtracts it twice |
| SummaryDeletion.SecondDebitIff | app/repositories/session_repo.py:41-49 | some run subtracts a bucket twice iff runs may delete the session |
| SummaryWorker.SessionTables.LatestVersion | app/repositories/summary_repo.py:11-14 | the greatest version, 0 when there is none |
| SummaryWorker.SessionTables.Create | app/services/session_service.py:167-177 | appends the version unless the unique constraint refuses it |
| SummaryWorker.SessionTables.DeleteSession | app/repositories/session_repo.py:41-49 | the row, its messages and its summaries go together |
| SummaryWorker.SessionSummaries.CountInteraction | app/services/chat_memory_service.py:119-136 | the counter rises by one and lives another day; from ten on an unclaimed bucket is claimed for a week, and then and only then a job for the count is enqueued, if the queue takes it |
| SummaryWorker.SessionSummaries.RunSummarizationJob | app/workers/summarization_worker.py:18-93 | the job in place ends where the step machine ends, lock released on every path |
| ChatMemory.WindowIsTail | app/services/chat_memory_service.py:92-101 | truncating after every interaction equals truncating the whole conversation once |
| ChatMemory.ZeroWindowKeepsAll | app/services/chat_memory_service.py:98 | with a limit of 0 nothing is ever cut |
| HistoryWindow.WindowRefinesTruncation | app/services/chat_memory_service.py:92-101 | over every run of reads, refills, interactions, expiries and deletions a present window is one truncation of the refill that landed last, the oldest rows of the table it was launched on, and the exchanges since |
| HistoryWindow.WindowIsTableTailIff | app/services/chat_memory_service.py:52-77 | over every run a present window holds the table's last n rows iff none of them went untold since the refill landed, they all came after it or it was the whole table, and, when the table has fewer than n rows, nothing from before the last deletion was told; without equal rows its text agrees only then |
| HistoryWindow.ExchangeRows | app/services/chat_application_service.py:414-451 | in any run a committed exchange puts the user's row and then the assistant's at the end of the table, whether or not the window hears of it |
| HistoryWindow.ToldOfExchange | app/services/chat_memory_service.py:92-101 | in any run a window told of an exchange ends with those two turns, before them what room is left of the old one |
| HistoryWindow.TableIsExchanges | app/services/chat_application_service.py:414-451 | read as turns, a session's rows in the request protocol are its commits' exchanges end to end |
| HistoryWindow.FailureIsNotRemembered | app/services/chat_application_service.py:231-243 | in any run a failed generation leaves a present window out of date |
| ChatMemory.ChatMemoryService.GetReliableHistory | app/services/chat_memory_service.py:52-77 | the window's tail, else the oldest rows with a refill launched |
| ChatMemory.ChatMemoryService.LandRefill | app/services/chat_memory_service.py:71-74 | a refill overwrites its session's window for a day and touches no other |
| ChatMemory.ChatMemoryService.ExtendHistory | app/services/chat_memory_service.py:92-101 | an existing window ends with the user's turn and the assistant's, before them what room is left of the old one; an absent one stays absent, other sessions' windows as they are |
| HistoryWindow.LateRefillForgets | app/services/chat_memory_service.py:68-74 | in any run a refill that landed after the table had grown leaves the window out of date until n rows later or a deletion |
| HistoryWindow.DeletedRowsAreServed | app/ai/memory_manager.py:172-176 | in any run deleting the session and creating it again leaves a present window as it was over an empty table, out of date unless it was empty |
| Resilience.LazyStateIsIdeal | app/ai/providers/resilience.py:35-41 | whenever the state was looked at before, it is the one the history of outcomes and the time dictate |
| Resilience.HalfOpenFailureReopens | app/ai/providers/resilience.py:61-67 | one failure while half open reopens for a full cooldown |
| Resilience.ProviderCircuitBreaker.State | app/ai/providers/resilience.py:35-41 | the getter moves open to half open after the cooldown, in place |
| Resilience.ProviderCircuitBreaker.RecordFailure | app/ai/providers/resilience.py:61-76 | counts, stamps, and opens at the threshold |
| Resilience.ScoreInUnitInterval | app/ai/providers/resilience.py:117-137 | every reachable score, rounded to three decimals, lies in [0, 1] |
| Resilience.RoundsToNearest | app/ai/providers/resilience.py:117-137 | a score is rounded to the nearest thousandth, ties to even |
| Resilience.GoodRecordPassesFloor | app/ai/providers/fallback_provider.py:66-71 | available with success rate at least 2/3, or no success yet, means a score of at least 0.2 |
| Resilience.ProviderMetrics.CalculateHealthScore | app/ai/providers/resilience.py:117-137 | the score of the breaker as just observed, which the observation may move |
| Resilience.AttemptsMeaning | app/ai/providers/resilience.py:164-180 | attempts stop at the first outcome that is neither transient nor a timeout, or at the limit |
| Resilience.WireDecides | app/ai/providers/groq_provider.py:150-190 | attempts go on to the first parsed success or 429 from the wire, or to the limit; only a parsed success answers |
| Resilience.RetryWithBackoff | app/ai/providers/resilience.py:154-182 | the loop's result, number of attempts, and total sleep base * (2^(attempts-1) - 1), at most base * (2^max - 1) |
| Resilience.ClientErrorsAreRetried | app/ai/providers/groq_provider.py:160-175 | every 4xx but 429 is attempted the full number of times |
| FallbackChain.RankingMeaning | app/ai/providers/fallback_provider.py:44-54 | the ranking is a permutation in descending score, ties in configured order |
| FallbackChain.FirstSuccess | app/ai/providers/fallback_provider.py:56-188 | the winner is the best-ranked provider that passes both gates and answers; the call raises exactly when there is none |
| FallbackChain.TriedExactly | app/ai/providers/fallback_provider.py:60-71 | tried are exactly the gated providers ranked no lower than the winner, each once |
| FallbackChain.UntriedUnchanged | app/ai/providers/fallback_provider.py:60-71 | an untried provider keeps its metrics and is at most looked at |
| FallbackChain.TotalAttempts | app/ai/providers/fallback_provider.py:56-107 | at most n * (max_retries + 1) inner attempts in a call |
| FallbackChain.BelowFloorForever | app/ai/providers/fallback_provider.py:66-71 | with calls made one after another, an available provider below the floor is skipped unchanged in every later one |
| FallbackChain.StreakIsCounted | app/ai/providers/resilience.py:43-76 | over any series of calls a provider's failure count is the number of its tries that failed since its last answer |
| FallbackChain.LosingStreakRests | app/ai/providers/resilience.py:35-76 | a provider whose newest try failed and that failed threshold times in a row is open from that moment, and no call made before its cooldown has passed tries or changes it |
| FloorTrap.FinishRecords | app/ai/providers/groq_provider.py:45-62 | an attempt's end under overlapping calls is the record one call of generate makes |
| FloorTrap.TriedAgainIff | app/ai/providers/fallback_provider.py:56-107 | with calls overlapping in any way, a provider can be tried again iff its best reachable score, attempts in flight answering at once, is at the floor |
| FloorTrap.DeclineTraps | app/ai/providers/resilience.py:117-137 | when more than three failures open the breaker, one slow answer and three failures leave a fresh provider available, below the floor and out for good |
| FallbackChain.ReachableScores | app/ai/providers/resilience.py:117-137 | after any series of calls all scores lie in [0, 1], and an available provider with a good or empty record passes both gates |
| FallbackChain.LLMProvider.Generate | app/ai/providers/groq_provider.py:45-62 | one record per call, whatever the retries: an answer resets and closes the breaker and adds its latency; a failure counts, stamps, and opens at the threshold |
| FallbackChain.FallbackProvider.Generate | app/ai/providers/fallback_provider.py:40-188 | the loop over real breaker and metrics objects leaves exactly the state and winner of the declarative call |
| DistributedBreaker.OpenIff | app/infrastructure/adapters/redis_resilience_adapter.py:14-37 | with the commands of failures and successes interleaved in any way: open exactly while a flag raised in the last 60 s has not been cleared since |
| DistributedBreaker.OpenForCause | app/infrastructure/adapters/redis_resilience_adapter.py:18-31 | whoever raised that flag had counted at least the threshold-th failure of a count with no success in between |
| DistributedBreaker.JustifiedIff | app/infrastructure/adapters/redis_resilience_adapter.py:18-37 | at every point of a run and however long after, an open circuit is backed by a threshold-reaching failure less than 60 s old and not cleared since, iff each flag was raised at the time of such a failure with no clearing between the two |
| DistributedBreaker.PromptlyOpenForCause | app/infrastructure/adapters/redis_resilience_adapter.py:18-31 | then an open circuit has such a failure, and when each EXPIRE directly follows its INCR all failures it counts lie in one window |
| DistributedBreaker.UninterruptedOpensForCause | app/infrastructure/adapters/redis_resilience_adapter.py:18-37 | with calls that run to their end one after another: an open circuit means at least threshold failures in one window, the last less than 60 s ago, no success since |
| DistributedBreaker.LateFlagOutlivesSuccess | app/infrastructure/adapters/redis_resilience_adapter.py:27-37 | a success between a count and its flag leaves the circuit open |
| DistributedBreaker.UnarmedNeverForgets | app/infrastructure/adapters/redis_resilience_adapter.py:23-25 | recordings that die before EXPIRE let failures any time apart add up |
| DistributedBreaker.StepsAreOperations | app/infrastructure/adapters/redis_resilience_adapter.py:18-37 | uninterrupted, the steps are the adapter's operations |
| DistributedBreaker.NumberMeansFailuresInWindow | app/infrastructure/adapters/redis_resilience_adapter.py:22-25 | whatever falls between the commands: the n-th failure is the n-th of its count, no success between, within a window of the last expiry the count was given before it, if it was given one |
| DistributedBreaker.FailuresInOneWindow | app/infrastructure/adapters/redis_resilience_adapter.py:22-25 | when each EXPIRE directly follows the INCR that counted 1, every failure lies in one window with all the failures its number counts |
| DistributedBreaker.NextInWindowIff | app/infrastructure/adapters/redis_resilience_adapter.py:22-25 | in every reachable state, whenever the next failure comes it lies in one window with the failures it adds to, iff a live counter expires a window after the first failure of its count |
| DistributedBreaker.LiveCounterExpiresIff | app/infrastructure/adapters/redis_resilience_adapter.py:23-25 | a live counter has an expiry exactly when its count was armed, and then a window after the last time |
| DistributedBreaker.ProbeRate | app/infrastructure/adapters/redis_resilience_adapter.py:39-43 | an interval of length L admits at most L/10s + 1 probes |
| DistributedBreaker.RedisResilienceAdapter.RecordFailure | app/infrastructure/adapters/redis_resilience_adapter.py:18-31 | counts, starts the window at the first failure, opens for 60 s from the threshold on |
| DistributedBreaker.RedisResilienceAdapter.AllowProbe | app/infrastructure/adapters/redis_resilience_adapter.py:39-43 | grants and closes the gate for 10 s exactly when it was open |
| SemanticCache.AddKeepsAligned | app/services/semantic_cache_service.py:197-214 | an add that succeeds or fails anywhere keeps list and index aligned |
| SemanticCache.CacheIsNewestSuffix | app/services/semantic_cache_service.py:197-214 | after any adds with any failures: aligned, and the list is a suffix of what was accepted |
| SemanticCache.UndisturbedSize | app/services/semantic_cache_service.py:89-113 | without failures exactly the newest n or (max - evict) + ((n - max - 1) mod (evict + 1)) entries remain |
| SemanticCache.BoundedIff | app/services/semantic_cache_service.py:89-113 | no adds, failed or not, exceed the maximum iff it is not negative and the eviction count is neither negative nor equal to it (evictions succeeding) |
| SemanticCache.NeverEvicts | app/services/semantic_cache_service.py:99-100 | eviction count equal to the maximum: nothing is ever evicted; otherwise nothing while at most max - evict entries came, past the maximum when the count is negative |
| SemanticCache.ServedIsBest | app/services/semantic_cache_service.py:139-167 | a served entry reaches the threshold, is its user's when one is asked for, of the intent asked for, and not too old; no such entry is more similar |
| SemanticCache.MissNeedsTwenty | app/services/semantic_cache_service.py:130-131 | a qualifying entry is missed only behind at least 20 disqualified ones as similar |
| SemanticCache.SearchAgreesWithScan | app/services/semantic_cache_service.py:115-178 | with fewer than 20 such, search serves an entry as similar as the best of a full scan |
| SemanticCache.SemanticCacheService.EncodeQuery | app/services/semantic_cache_service.py:70-87 | always the query's encoding; past 1000 remembered the oldest 500 are dropped first |
| SemanticCache.SemanticCacheService.EvictOldest | app/services/semantic_cache_service.py:89-113 | list and rebuilt index are swapped together |
| SemanticCache.SemanticCacheService.Add | app/services/semantic_cache_service.py:180-218 | appends to both, rolls the list back when the index fails, evicts past the maximum |
| SemanticCache.SemanticCacheService.Search | app/services/semantic_cache_service.py:115-178 | the entry of a best fit among the index's answer, nothing when no hit meets the four conditions, and then the best near miss |
| SemanticCache.DotSnoc | app/services/semantic_cache_service.py:63 | the similarity is the inner product: each pair of coordinates adds its product |
| ChatScope.EntriesAreTraced | app/services/chat_service.py:124-134 | over every interleaving each cached entry is exactly what one earlier store of a static intent wrote |
| ChatScope.LookupMeaning | app/services/chat_service.py:64-74 | outside greeting, general_faq, chit_chat and fallback nothing is served; within them a best fit under the session, or under no scope for general_faq, and nothing only when no hit fits |
| ChatScope.StoreMeaning | app/services/chat_service.py:124-134 | only those four intents store, one entry with reply, intent, scope and time |
| ChatScope.SessionsStayApart | app/services/chat_service.py:64-74 | a hit for a non-empty session is word for word what an unexpired store under the same intent wrote, by that session or under general_faq |
| ChatScope.IsolatedIff | app/services/semantic_cache_service.py:155-156 | no session's private entry leaks to another exactly when the asking id is non-empty, or the intent is shared or not cached |
| ChatScope.ChatService.GenerateResponse | app/services/chat_service.py:48-149 | only the four static intents are served from the cache, and are whenever a hit fits, charged the intent stage only; otherwise generated, charged both and, for those four, stored; a raise stores nothing |
| Pipeline.Offer | app/services/ai_orchestrator.py:77-97 | offered are exactly the enabled registered tools the intent allows |
| PipelineTheorems.PlanIsPlanned | app/services/ai_orchestrator.py:295-324 | one to three planning requests with the planner's prompt and tools as offered: the first free, one when its reply calls the hinted tool or there is none, every further one forced by the standing order; three when no reply calls it |
| PipelineTheorems.RunCallsExecutes | app/services/ai_orchestrator.py:144-193 | one result per call in call order, output or error; only called, registered tools run, with the call's arguments and the system's, which win |
| PipelineTheorems.CallsComeToTurns | app/services/ai_orchestrator.py:159-190 | call by call: with passable arguments and a registered tool it runs once with exactly the model's and the system's arguments, and the result is its filtered output or its error; otherwise nothing runs and the result is an error |
| PipelineTheorems.ToolsRunForTheCaller | app/services/ai_orchestrator.py:154-158 | on every run every tool runs with the session and user of the request and the system's other arguments, whatever the model wrote |
| PipelineTheorems.RunIsStaged | app/services/ai_orchestrator.py:340-492 | every run, ended by a raise or not, is planning requests, then tool runs, then at most one request without tools; nothing runs unless the reply acted on calls the hinted tool |
| PipelineTheorems.AtMostFourCalls | app/services/ai_orchestrator.py:295-338 | at most four model calls in a run |
| PipelineTheorems.RaisesIff | app/services/ai_orchestrator.py:100-142 | a run raises exactly when its last request got no reply or a blank one without tool calls |
| PipelineTheorems.AnswerIsExplained | app/services/ai_orchestrator.py:391-492 | an answer is the apology with nothing run, plain text, a template after exactly one call whose tool ran without error, or the renderer's; the text is the reply's own, through the guard for booking; results are what the calls came to, in order and safe; the breakdown names each reply's tokens |
| PipelineTheorems.SanitizedIsSafe | app/services/ai_orchestrator.py:262-286 | of a dict output exactly the keys that are not forbidden stay, with their values unless these pose as a turn; filtering again changes nothing |
| PipelineTheorems.LightMeaning | app/services/ai_orchestrator.py:411-417 | the renderer's copy of a result differs only by the short descriptions of listed events |
| Json.StripDrops | app/services/ai_orchestrator.py:280 | stripping takes white space off both ends, all of it and nothing else |
| Json.ContainsIff | app/services/ai_orchestrator.py:178-181 | a text contains a part exactly when it is that part with something before and after it |
| PipelineTheorems.DeepSafeIff | app/services/ai_orchestrator.py:272-286 | a sanitised dict is safe at every depth iff every value it kept was; any other output iff it was before |
| PipelineTheorems.NestedKeysPass | app/services/ai_orchestrator.py:276-282 | for instance, a forbidden key one level down is passed on |
| PipelineTheorems.TokensAccounted | app/services/ai_orchestrator.py:370-471 | the total is the planner's and renderer's tokens of the breakdown, and everything spent except discarded planner replies |
| PipelineTheorems.OfferedIff | app/services/ai_orchestrator.py:77-97 | a tool is offered exactly when it is registered, enabled and one of the groups it is meant for holds the intent, or none does |
| PipelineTheorems.InsistedToolIsCalled | app/services/ai_orchestrator.py:32-40 | an intent that insists on a tool is answered by nothing but the apology unless the reply acted on calls it; the others are planned with one request |
| PipelineTheorems.HintOfferedIff | app/services/ai_orchestrator.py:32-40 | the hinted tool is offered iff it is registered and enabled and the intent is not create_booking |
| PipelineTheorems.RegisteredToolsOffer | app/ai/tools/history_tools.py:38-56 | with the tools the program registers, four of the seven intents that insist on a tool never offer it |
| PipelineTheorems.UnofferedHintApologises | app/services/ai_orchestrator.py:391-396 | with the hinted tool not offered, a model that calls offered tools only ends in the apology after three calls |
| Templates.MatchMeaning | app/ai/template_engine.py:126-206 | which outputs skip the renderer, with which words and under which key, in order of precedence |
| Orchestrator.AIOrchestrator.AttachTools | app/services/ai_orchestrator.py:70-99 | updates the request in place: tools taken away for synthesis, otherwise the intent's |
| Orchestrator.AIOrchestrator.PlanStep | app/services/ai_orchestrator.py:295-324 | ask once, insist at most twice |
| Orchestrator.AIOrchestrator.HandleToolCalls | app/services/ai_orchestrator.py:144-193 | the loop over calls, failures becoming error entries |
| Orchestrator.AIOrchestrator.SanitizeToolResults | app/services/ai_orchestrator.py:262-286 | rewrites each result's output key by key |
| Orchestrator.AIOrchestrator.ExecuteLlmPath | app/services/ai_orchestrator.py:340-492 | the whole path in place equals the pipeline function, log included |
| ToolSchema.RoundTripIff | app/ai/providers/groq_provider.py:206-223 | lower-casing the registry's upper-cased schema gives back the original exactly when no visited type has an upper-case letter |
| ToolSchema.ConversionsAbsorb | app/ai/tool_registry.py:138-155 | each conversion is idempotent and the last one decides |
| ToolSchema.TypesTakeTheCase | app/ai/tool_registry.py:138-155 | the registry leaves no visited type with a lower-case letter, a provider none with an upper-case one |
| ToolSchema.OnlyTypesChange | app/ai/providers/fireworks_provider.py:201-218 | at every depth nothing but visited type strings changes |
| ToolSchema.FixedIff | app/ai/tool_registry.py:143-153 | a conversion leaves a schema alone exactly when it fixes every visited type |

## Left out

- HistoryWindow: a limit of 0 is treated apart, in `ZeroWindowKeepsAll`.
- ChatMemory: the context blob's read-modify-write (intent, summary) and its acknowledged lost updates are not modelled.
- SessionProtocol: the non-atomic release fallback is not a protocol step; `RedisLock` shows why it is excluded. Redis errors during acquire, release and the counter, and lost replies, are not modelled.
- SessionProtocol: asyncio cancellation, process shutdown and a client disconnect that drops queued finalizers after the answer are not modelled.
- SessionTheorems.SqlLogInLockOrder: states commit order of whole pairs; the two rows of a pair share a database timestamp, so their order when read back is decided by a random message id, which is not modelled. The user row's role is always the user's.
- ChatApplication: the distributed breaker's verdict is an input; the pipeline never records failures or successes with it. Token counting, profile sync, session lookup and memory loading are one step that may refuse the request.
- Idempotency: `check` and its script are not called by the pipeline and are not modelled.
- Summarization: the worker as written and its undefined `logger` appear only as a variant that never passes the builder. The summary text, key points, context cache and job ids are not modelled; a bucket whose enqueue fails is skipped, as in the code.
- Resilience: arithmetic is over reals; failure reasons, timeout and rate-limit counters are log data and left out.
- FallbackChain: `Calls` makes calls one after another; overlapping calls are modelled in `FloorTrap`, for one provider at a time, since providers share no state. Every provider has a breaker and metrics, as all of them do; the fixed score for one without, model names and the trace are left out. The two reads of the breaker inside one score happen at one instant.
- SemanticCache: lazy loading, thread locks and concurrent encodings of one query are not modelled; the index is an oracle that returns its true top 20. A failed search is a miss.
- ChatScope: the service always has a cache; without one it neither looks nor stores.
- Pipeline: prompts are opaque strings (the appended clock line is part of them); history, message and model name are passed through and left out; the token counter does not raise; error texts are not modelled; tool outputs have string keys; the booking reply filter and injection patterns are uninterpreted functions.
- Pipeline: the secondary fast-path check of `generate_complex` and the deprecated fast path are left out.
- Json: case conversion and stripping are for ASCII text.
- ToolSchema: registration and its top-level schema check only add easy members.
- HTTP routes, wiring, authentication, provider HTTP bodies, SQL text, prompts, intent rules, regex tables, logging and tracing have no part in the model.
