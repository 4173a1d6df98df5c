# Verification of the TraceLog protocols

A Dafny model of the stateful core of TraceLog: the Solana anchoring protocol, the custody
hash chain, the AI analysis gate with its caches, counters, memory and text filters, the
single-flight token refresh of the web client, and the leader-gated daily scans. Each part is
written in the form the program has: jobs, services and loops are classes and methods, and each
method is proved equal to a step (or a path of steps) of a transition system; the theorems are
about all runs of that system. `dafny verify dfyconfig.toml` checks everything.

| module | what it models |
|---|---|
| `AnchorProtocol`, `AnchorSafety` | one row, the log of accepted memos it shares with everybody, and any number of concurrent runs of `anchor_event` / `anchor_generic`, with crashes, RPC errors before or after the memo left, failed and hidden commits |
| `AnchorLedger` | any number of rows with their jobs interleaved over that one log; each row sees a run of the protocol |
| `AnchorQueue` | one job id in the queue: dedup, tries, kept results, API and sweep enqueues; it refines the protocol |
| `AnchorWorker` | the jobs statement by statement, each proved to be a path of the protocol |
| `AnchorSweep`, `AnchorBackoff` | the sweep of pending events, and the retry delay for every jitter |
| `AnchorAttempts` | the attempt counter of generic requests, which jobs read and write back |
| `CustodyChain`, `AnchoredHistory` | concurrent requests on one asset, the chain they leave, and what an anchored hash says about it |
| `AuthRefresh` | any number of `authFetch` calls around one promise slot |
| `LeaderScan` | n replicas, one lock key, real-valued time |
| `RateLimiter` | k overlapping calls of one tenant and day: key, check, increment and paid model call as separate steps |
| `CacheKeys`, `Text` | the string keys the services share, `str.split`, `str.find`, substring counts |
| `AnalysisGate`, `AnalysisHistory` | `analyze_pnl` cut at its awaits, up to k calls of each tenant interleaved over the shared store, and its runs against the history of fresh analyses |
| `AnalysisCosts` | for each tenant and day a run of the gate is a run of `RateLimiter`; paid calls, and what the usage report sees of them |
| `UsageMetrics`, `Tally` | the monthly usage report and the clearing of caches |
| `TenantMemory`, `MemoryOverlap` | the bounded memory against the full history of updates, and which updates that is when they overlap |
| `MarkerScrub`, `ResponseUnwrap` | the prompt scrubber and the recovery of the JSON object from the answer |

## Where the code does not do what it says

Each of these is a lemma; where the documented property holds under a condition, the condition is exact.

- *At most one memo per event.* Exactly `k + lost` is the bound, and every value of it is reached
  (`MemoBound`, `MemoBoundReached`). The comments in the jobs promise recovery of a persisted signature, but signature and flag
  are one UPDATE: from a row the API created, the recovery branch is unreachable (`RecoveryUnreachable`).
  A generic request enqueued by the API has no job id, so it can be anchored twice without any fault (`TwoJobsSendTwice`).
- *The callback reports the anchor.* With two such jobs a tenant is called back with a signature its row does not store;
  that never happens if and only if jobs of a request do not overlap (`CallbackStoredIffOneJob`).
- *Anchored means on chain.* The memo is sent with preflight skipped and never confirmed: a row can stay
  anchored although its memo never lands (`AnchoredMayNeverLand`), namely once the network dropped it (`AnchoredMayLandIffNotDropped`).
- *Five attempts.* With both settings m, the counter reaches 2m - 1 for every m (`CeilingIsReached`), and 2m when a commit
  takes effect but looks failed, since `mark_anchored` counts too (`HiddenCommitCountsTwice`); 2m - 1 is never passed
  if and only if no commit does that (`AttemptsWithinIffNoHiddenCommit`). That a raise makes the queue run the job
  again is what the comment at worker_main.py:179 says; the queue's own code is not part of this model.
- *Attempts of a generic request.* The job adds one to the value it loaded, so with two overlapping jobs a counter of
  any height can fall back to 1 (`CounterFallsBack`); it is exact if and only if jobs do not overlap (`CounterExactIffOneJob`).
- *The sweep is a safety net.* Its batch limit counts given-up events, so enough of them starve newer ones (`SweepProgress`, `Starvation`).
- *Delays of at most five minutes.* Only up to attempt 7 (`FiveMinuteCeiling`).
- *Informational events cannot harm the chain.* They take no lock but write the last hash and the custodian:
  beside any other request they can fork the chain and undo a handoff (`ChainSoundIffSerialized`, `NoteUndoesHandoff`).
- *A failed refresh clears the slot.* Without a refresh token the slot keeps a settled null and no refresh
  is ever sent again, even after a new login (`StuckIffEnteredWithoutToken`, `StuckForever`).
- *Logging out.* A reply to a refresh in flight logs the user in again; a logout lasts if and only if no such
  refresh is in flight (`LogoutLastsIffNoRefresh`).
- *Replicas do not scan together.* Only while Redis never fails and scans are shorter than 23 hours (`NoOverlapIffLockOutlivesScans`).
- *A daily limit.* Only without overlapping calls, and while Redis answers within an hour of the key being computed
  (`DailyLimitIffSequentialAndPrompt`); k calls can make a day cost limit + k - 1 model calls (`BoundIsReached`).
- *Cached answers are the newest.* Not after an unforced call with the cache switched off (`BypassServesStale`), nor
  after two ordinary calls of a tenant that overlap (`OverlapServesStale`); every hit is the newest if and only if
  neither happens, or no call is allowed at all (`NeverStaleIffAloneAndNotBypassed`).
  Dates are not validated, and a timestamp's colons make two periods share a key (`PeriodSharesKeyIffColon`).
- *Usage of the current month.* A day is reported in full if and only if its last call was counted less than
  25 hours ago (`ReportedInFullIffRecent`), so the report forgets everything of three days ago (`ReportForgetsCalls`).
- *The tenant's memory counts every analysis.* It is read and written back without a lock: overlapping updates lose
  each other's counts, recommendations, stars and place in the total, and nothing is missing if and only if updates
  do not overlap (`OverlapLoses`, `NothingMissingIffNoOverlap`).
- *Every tenant's usage is reported.* The calls of a tenant with a colon in its name are counted for another name or not at all (`ColonTenantMisattributed`).
- *Clearing all session caches.* Keys with the tenant or start date `rate` stay (`ClearingByFamily`).
- *No injection marker survives.* One pass removes one occurrence; for texts up to the cap whose markers do not
  overlap, the returned text is free of them if and only if none occurred twice (`ReturnedFreeIffNoRepeats`).
- *Fenced answers are unwrapped.* Not when the fence shares its line with the object (`UnwrapRecoversBody`).

## Model

| member | source | states |
|---|---|---|
| AnchorSafety.MemoBound | trace-service/worker/worker_main.py:49-180 | in every run with at most k jobs in flight, the memos accepted for the row are at most k plus those whose signature was lost, and callbacks are at most commits, at most k |
| AnchorSafety.MemoBoundReached | trace-service/worker/worker_main.py:153-180 | for every k and every number n of losses a run sends exactly k + n memos, so the bound cannot be improved |
| AnchorSafety.OneMemoWithoutFaults | trace-service/app/services/anchor_service.py:33-55 | with job-id dedup and no fault, no schedule sends a second memo |
| AnchorSafety.TwoJobsSendTwice | trace-service/app/api/routers/anchoring.py:202-214 | an API enqueue without a job id beside the sweep's: two memos and two callbacks with no fault at all, the row keeping one of the two signatures |
| AnchorSafety.AnchoredCarriesHash | trace-service/worker/worker_main.py:153-159 | in every reachable state an anchored row has a signature, and in a log full of other rows' memos the one under it is the row's own hash |
| AnchorSafety.AnchoredForever | trace-service/app/repositories/custody_repo.py:276-303 | no step of any run takes the anchored flag back |
| AnchorSafety.AnchoredIsQuiet | trace-service/worker/worker_main.py:74-76 | once anchored with no run in flight, all later runs write, send and call back nothing |
| AnchorSafety.AnchoredMayNeverLand | trace-service/app/clients/solana_client.py:360-378 | a run anchors the row and no continuation ever has a memo of this row on chain |
| AnchorSafety.AnchoredMayLandIffNotDropped | trace-service/app/clients/solana_client.py:365-376 | for every anchored row with no run in flight, some continuation has its memo on chain if and only if the network has not dropped it |
| AnchorSafety.RecoveryUnreachable | trace-service/worker/worker_main.py:78-94 | from a row without a signature, signature and flag appear together in every run, the signature is always the last mark, of a memo sent for this row, and the recovery branch is never entered |
| AnchorSafety.ConfirmedIsNotResent | trace-service/worker/worker_main.py:81-94 | while a recorded signature is confirmed and the lookups answer, no run sends a memo, changes the signature or fires a callback |
| AnchorSafety.CallbackCarriesMarkedSig | trace-service/worker/worker_main.py:225-240 | any number of runs and faults: a signature called back was committed, of a memo sent for this row and carrying its hash |
| AnchorSafety.CallbackCarriesStoredSig | trace-service/worker/worker_main.py:225-240 | at most one run at a time, any faults: at most one callback fires, after the commit, with the stored signature |
| AnchorSafety.CallbackStoredIffOneJob | trace-service/app/api/routers/anchoring.py:202-214 | over all fault-free runs with up to k jobs, every signature called back is the stored one if and only if k is at most 1 |
| AnchorLedger.LedgerRefinesProtocol | trace-service/worker/worker_main.py:49-252 | every interleaving of all rows' jobs over the shared log is, seen from a row, a run of the protocol with the others' memos as foreign ones |
| AnchorLedger.EveryRowCarriesItsHash | trace-service/worker/worker_main.py:153-159 | in every interleaving the memo under an anchored row's signature is that row's hash |
| AnchorLedger.RowsNeverShareSignature | trace-service/worker/worker_main.py:153-159 | anchored rows with different hashes never store the same signature, and rows that came without one never do |
| AnchorLedger.EveryRowMemoBound | trace-service/worker/worker_main.py:185-252 | the counted bound for each row, over memos that are different entries of the shared log with that row's hash |
| AnchorQueue.AttemptsBounded | trace-service/worker/worker_main.py:169-180 | in every run attempts stay within giveUp + tries - 1 plus tries per forced enqueue; one more only on an anchored row after a hidden commit |
| AnchorQueue.CeilingIsReached | trace-service/worker/worker_main.py:424-435 | with both settings m a run without forced enqueues or hidden commits reaches 2m - 1 attempts |
| AnchorQueue.HiddenCommitCountsTwice | trace-service/app/repositories/custody_repo.py:276-288 | for every m, a run with one commit that took effect but looked failed ends anchored with 2m attempts |
| AnchorQueue.AttemptsWithinIffNoHiddenCommit | trace-service/worker/worker_main.py:158-172 | with both settings m, attempts of an event nobody forced stay within 2m - 1 in every run if and only if hidden commits are excluded |
| AnchorQueue.QueueRefinesProtocol | trace-service/worker/worker_main.py:530-544 | every run of the queue, seen at the row, is a run of the protocol with one job in flight |
| AnchorQueue.QueuedMemoBound | trace-service/worker/worker_main.py:427-435 | so a queued event costs at most one memo more than the signatures lost, and is anchored exactly when it has a signature |
| AnchorQueue.FinishedJobIsQuiet | trace-service/worker/worker_main.py:540-544 | from the end of a job until its result is forgotten, nothing starts, sends or counts for the event, whoever enqueues it |
| AnchorQueue.EnqueueIsDeduplicated | trace-service/worker/worker_main.py:424-435 | an enqueue is ignored exactly for a known job id, an anchored row or, from the sweep, a given-up one; else it grants all tries |
| AnchorAttempts.AttemptsBetween | trace-service/app/repositories/anchor_repo.py:79-84 | whatever jobs overlap, the counter of a generic request is at least 1 once an increment was committed and never above their number |
| AnchorAttempts.CounterFallsBack | trace-service/app/repositories/anchor_repo.py:79-84 | with two jobs, for every n, a counter that reached n falls back to 1 |
| AnchorAttempts.CounterExactIffOneJob | trace-service/worker/worker_main.py:242-252 | the counter is the number of committed increments in every run if and only if jobs of a request do not overlap |
| AnchorWorker.Job.TryRecover | trace-service/worker/worker_main.py:81-94 | the recovery branch is a path of the protocol: it ends the job exactly when the signature is found on chain, marks the row unless the commit failed, fires nothing |
| AnchorWorker.Job.SendAndMark | trace-service/worker/worker_main.py:225-252 | send, mark, commit, callback and except block are a path of the protocol; the chain grows by the row's hash unless nothing left |
| AnchorWorker.Job.AnchorRow | trace-service/worker/worker_main.py:185-252 | a whole job is a path of the protocol, so every theorem above holds of it; and in closed form: an anchored row is left alone and its signature returned, a recorded signature found on chain is marked and nothing sent, every other row gets memo, mark, increment and callback exactly as the answers say |
| AnchorSweep.Pool.SweepPendingAnchors | trace-service/worker/worker_main.py:420-438 | the known job ids grow by exactly the eligible ids of the batch, so a second sweep adds nothing |
| AnchorSweep.SweepProgress | trace-service/app/repositories/custody_repo.py:267-274 | a sweep reaches an eligible event if and only if fewer given-up rows than the batch limit are older than all eligible ones |
| AnchorSweep.ProgressBelowLimit | trace-service/worker/worker_main.py:421-436 | with fewer given-up rows than the limit, some eligible event is enqueued |
| AnchorSweep.Starvation | trace-service/worker/worker_main.py:421-426 | with that many older given-up rows, the sweep enqueues nothing whatever is newer |
| AnchorBackoff.FiveMinuteCeiling | trace-service/worker/worker_main.py:548-552 | the documented five-minute maximum holds for every jitter if and only if the attempt is at most 7 |
| AnchorBackoff.DelayIncreases | trace-service/worker/worker_main.py:550-552 | delays of attempts 1 to 8 strictly increase whatever the draws |
| AnchorBackoff.TotalBounds | trace-service/worker/worker_main.py:547-552 | the total wait over n attempts is between the closed-form sum of the bases and 1.2 times it |
| CustodyChain.FinalHashPinsHistory | trace-service/README.md:321-328 | two histories that verify and end in the same hash are equal event by event |
| CustodyChain.ChainSoundIffSerialized | trace-service/app/services/custody_service.py:570-614 | in every interleaving the chain verifies, ends in the asset's last hash and names its custodian, if and only if all requests lock the row or there is only one |
| CustodyChain.RaceForks | trace-service/app/services/custody_service.py:610-614 | any unlocked informational event beside any other request has a schedule after which the chain does not verify |
| CustodyChain.NoteUndoesHandoff | trace-service/app/services/custody_service.py:197-203 | both succeed, the history names the new custodian and the asset row the old one |
| CustodyChain.AppendSound | trace-service/app/services/custody_service.py:137-205 | an event made from the current row keeps the chain verified and custody continuous |
| CustodyChain.CustodyService.CreateEvent | trace-service/app/services/custody_service.py:163-205 | the event holds the request's type, receiver, location and data and the custodian the request read, and hashes all of it with the last hash the request read; the row takes that hash and the new custodian |
| CustodyChain.EventsRecordRequests | trace-service/app/services/custody_service.py:163-187 | in every interleaving each added event is one finished request's own, with its type, receiver, location and data under a hash of all of them |
| CustodyChain.HashTellsRequests | trace-service/app/utils/hashing.py:29-40 | requests that differ in any of these get different hashes, whatever they read and whenever they were made |
| CustodyChain.CustodyService.Handoff | trace-service/app/services/custody_service.py:351-381 | each failed check raises its error and changes nothing; otherwise one event with the slug, the old custodian, the receiver, location and data, chained to the old last hash, as one locked request of the machine; a sound chain stays sound |
| AnchoredHistory.MemoPinsHistory | trace-service/worker/worker_main.py:154-158 | in every interleaving of all rows, a history that verifies ends in the memo under an event's signature if and only if it is the very history whose last hash was anchored |
| AnchoredHistory.HistoriesNeverShareSignature | trace-service/worker/worker_main.py:154-158 | events with different verified histories are anchored under different signatures |
| AuthRefresh.SingleFlight | front-trace/src/lib/auth-fetch.ts:11-53 | in every interleaving at most one refresh is in flight, every waiting call awaits that one, and no call fetches its URL more than twice |
| AuthRefresh.StuckIffEnteredWithoutToken | front-trace/src/lib/auth-fetch.ts:17-49 | the slot stays on a settled null if and only if some call entered the refresh on an empty slot without a token |
| AuthRefresh.StuckForever | front-trace/src/lib/auth-fetch.ts:15-19 | from then on no refresh is posted and no further call retries, whatever happens, logins included |
| AuthRefresh.NoTokenPostedTwice | front-trace/src/lib/auth-fetch.ts:34-40 | under rotation and with a user beside every token, no refresh token is posted twice |
| AuthRefresh.MissingUserRepeatsToken | front-trace/src/lib/auth-fetch.ts:37-41 | without a stored user the rotated token is dropped and the used one is posted again |
| AuthRefresh.PostsDistinctIffUserKnown | front-trace/src/store/auth.ts:27-30 | rotation keeps posts distinct in all runs of a page if and only if a persisted token comes with its user |
| AuthRefresh.AuthFetch.RefreshAccessToken | front-trace/src/lib/auth-fetch.ts:13-26 | the code up to its first await is the machine's entry step: join the refresh in flight, return at once, or post the stored token |
| AuthRefresh.AuthFetch.OnRefreshReply | front-trace/src/lib/auth-fetch.ts:27-49 | the machine's settle step, written out: a refused or failed refresh clears user and tokens, a token reply stores captured user, access token and new refresh token (the old one if none came); the slot is free and exactly the waiting calls go on, with that token or none |
| AuthRefresh.RefusalLogsOut | front-trace/src/lib/auth-fetch.ts:27-46 | after a refused or failed refresh the store stays cleared in every continuation without a login |
| AuthRefresh.LoginIsUsed | front-trace/src/store/auth.ts:27-28 | after a login the next 401 refreshes with the token that was stored |
| AuthRefresh.LogoutLastsIffNoRefresh | front-trace/src/lib/auth-fetch.ts:18-39 | a logout lasts through every continuation without a login if and only if no refresh that captured a user is in flight |
| AuthRefresh.AuthFetch.OnFirstResponse | front-trace/src/lib/auth-fetch.ts:82-88 | a 401 of an authenticated call enters the refresh, anything else ends the call |
| AuthRefresh.AuthFetch.OnRefreshed | front-trace/src/lib/auth-fetch.ts:88-97 | a call whose refresh brought a token fetches once more, any other returns its first response |
| LeaderScan.WindowBound | inventory-service/app/main.py:54-79 | in every run, Redis failures and restarts included, a window of w seconds holds at most floor(w / 82800) + 1 acquisitions of the lock |
| LeaderScan.DailyScan | inventory-service/app/main.py:56-79 | with Redis up and the leader alive, acquisitions are between 82800 s and 86400 s plus the leader's scan and the lateness of a sleep apart, and none is overdue |
| LeaderScan.NoOverlapIffLockOutlivesScans | inventory-service/app/main.py:96-120 | two replicas never scan at once, in any run, if and only if Redis never fails and scans are shorter than the lock's lifetime |
| LeaderScan.Replica.TopOfLoop | inventory-service/app/main.py:58-67 | one pass of the loop: it leads exactly when Redis is down or the key is free, sets the key for 82800 s only then, and scans or sleeps 86400 s |
| LeaderScan.FirstPassAtStartup | inventory-service/app/main.py:50-52 | a replica that starts while the key is free scans at once |
| LeaderScan.FailoverBound | inventory-service/app/main.py:58-79 | while any one replica stays up and Redis answers, the time since the last acquisition is at most a day, the longer of lock and scans, and the lateness of a sleep, whoever else stops |
| RateLimiter.CounterBound | ai-service/app/services/analysis_service.py:228-239 | in every interleaving of k calls whose GET takes at most an hour: paid calls plus those counted and unpaid are within the increments, increments plus calls past the check below limit + k, and the live counter equals the increments until it can first expire |
| RateLimiter.BoundIsReached | ai-service/app/services/analysis_service.py:169-200 | k overlapping calls can make the day cost limit + k - 1 model calls, without any delay |
| RateLimiter.LateCheckExceeds | ai-service/app/services/analysis_service.py:229-235 | a check whose key was computed before midnight and read more than an hour later lets one call too many through |
| RateLimiter.DailyLimitIffSequentialAndPrompt | ai-service/app/services/analysis_service.py:229-235 | paid calls of a day stay within the limit in every run if and only if the limit is zero, or calls do not overlap and no GET is answered more than an hour after its key was computed |
| AnalysisGate.AnalysisService.AnalyzePnl | ai-service/app/services/analysis_service.py:142-224 | a whole call is a path of the machine made of its own steps, whatever other calls are in flight, and in closed form for every configuration, store, request and answer: its outcome, every entry it writes, the clock and the four logs; so it touches at most its own three entries, counts once, pays at most what it counted and saves at most what it paid |
| AnalysisGate.AnalysisService.CheckRateLimit | ai-service/app/services/analysis_service.py:228-235 | from GET and comparison on, a path of the machine: a refusal falls back and writes nothing |
| AnalysisGate.AnalysisService.CountAndCall | ai-service/app/services/analysis_service.py:236-239 | INCR and EXPIRE are a step of their own, followed by what the call does without an await |
| AnalysisHistory.ServedFromHistory | ai-service/app/services/analysis_service.py:157-224 | in every interleaving of any number of calls of every tenant, with deletions, clearings and cancellations: a session hit is the newest kept analysis of exactly that period, a fallback is the tenant's newest and under a day old with its date, both write nothing; a fresh answer is in the history, the newest of it if calls of a tenant do not overlap; no entry is misread |
| AnalysisHistory.HitIsNewestIffKeptLast | ai-service/app/services/analysis_service.py:161-167 | for each run and hit: it is the newest analysis exactly when the one saved last for its period says what the one kept last says |
| AnalysisCosts.AnalysesArePaidFor | ai-service/app/services/analysis_service.py:194-212 | a tenant never has more analyses in its history than model calls paid for, whatever overlaps |
| AnalysisHistory.SteadyHitIsNewest | ai-service/app/services/analysis_service.py:161-167 | with calls of a tenant one at a time and no unforced call with the cache off, a hit is the newest analysis of its period, whatever other tenants do |
| AnalysisHistory.BypassServesStale | ai-service/app/services/analysis_service.py:161-220 | a kept analysis, an unforced call with the cache off a day later, and the next hit is the old analysis while a newer one exists |
| AnalysisHistory.OverlapServesStale | ai-service/app/services/analysis_service.py:161-220 | two unforced calls for one period, cache on, within the limit: saved in one order and kept in the other, and the next hit is the older analysis |
| AnalysisHistory.NeverStaleIffAloneAndNotBypassed | ai-service/app/services/analysis_service.py:161-220 | over all proper runs, every hit is the newest analysis of its period if and only if a tenant's calls do not overlap and unforced calls with the cache off are excluded, or no call is allowed at all |
| AnalysisCosts.GateRefinesLimiter | ai-service/app/services/analysis_service.py:142-239 | seen from a tenant and a day, every run of the gate with any overlap is a run of that day's limiter |
| AnalysisCosts.PaidWithinCounter | ai-service/app/services/analysis_service.py:169-200 | in every interleaving: a day's paid calls, with those counted and unpaid, are within the counted ones, these below limit + k, and the live counter shows exactly them until it can first expire |
| AnalysisCosts.ReportedExactly | ai-service/app/services/settings_service.py:170-178 | the report of the month counts all of a day's counted calls until 25 hours after the last of them, and none from then on |
| AnalysisCosts.ReportedInFullIffRecent | ai-service/app/services/analysis_service.py:236-239 | within its month, at least the day's paid calls are reported if and only if there are none or the last call was counted less than 25 hours ago |
| AnalysisCosts.ReportSeesThreeDays | ai-service/app/services/analysis_service.py:236-239 | today is always reported in full, and nothing of a day three or more days ago |
| AnalysisCosts.ReportForgetsCalls | ai-service/app/services/settings_service.py:170-179 | a paid call is absent from the report three days later |
| AnalysisHistory.PeriodSharesKeyIffColon | ai-service/app/services/analysis_service.py:155 | another period has the same session key if and only if one of the dates contains a colon |
| AnalysisHistory.TimestampServesOtherPeriod | ai-service/app/domain/schemas.py:51 | with timestamps for dates, a request for a period that was never analysed can be answered with another period's analysis |
| AnalysisHistory.TenantCalledRateBreaksCounter | ai-service/app/services/analysis_service.py:230-232 | a tenant named rate can store an analysis under another tenant's counter key, after which that tenant's calls fail |
| AnalysisHistory.InvNext | ai-service/app/services/settings_service.py:199-205 | every step of a call, deletions, cache clearing, cancellations and time keep the relations between store, running calls, history and payments |
| AnalysisHistory.DeletedLastIsGone | ai-service/app/services/analysis_service.py:261-262 | a deleted last analysis can no longer be fallen back on, and every other entry stays |
| AnalysisHistory.ClearedCachesMiss | ai-service/app/services/settings_service.py:199-205 | after a clearing no plainly named tenant has a session entry or a last analysis, and all have their counters |
| CacheKeys.SplitRateKey | ai-service/app/services/settings_service.py:170-174 | splitting a rate key of colon-free parts gives back tenant and day |
| CacheKeys.SessionKeysDiffer | ai-service/app/services/analysis_service.py:155 | session keys of colon-free tenants and start dates are equal only for equal tenant and period |
| CacheKeys.RateKeysDiffer | ai-service/app/services/analysis_service.py:230 | rate keys of colon-free tenants are equal only for equal tenant and day |
| CacheKeys.SessionMeetsRate | ai-service/app/services/analysis_service.py:230 | a session key is a rate key if and only if its tenant is called rate and its dates spell tenant and day |
| CacheKeys.SessionNeverLast | ai-service/app/services/analysis_service.py:259 | a session key is never a last-analysis key, not even for a tenant called last |
| CacheKeys.ContainsIffInnerPart | ai-service/app/services/settings_service.py:202 | the substring test for a colon-enclosed word is true exactly when the word is an inner part of the split key |
| UsageMetrics.GetMetrics | ai-service/app/services/settings_service.py:163-192 | both breakdowns are exact marginals of the month's counters with equal sums, tenants by calls and days by date; each tenant's cost is rounded, then the total, the projection and the alert follow |
| UsageMetrics.ReportedCost | ai-service/app/services/settings_service.py:180-189 | the reported cost of n tenants is within (n + 1) times 0.00005 of calls times unit cost, for every rounding that is off by at most half of the fourth decimal |
| UsageMetrics.ReportedCostRounded | ai-service/app/services/settings_service.py:180-189 | in particular for rounding to four decimals with ties to even |
| UsageMetrics.ProjectedCost | ai-service/app/services/settings_service.py:186-191 | the projection is the month's cost divided by the day of the month, at least 1, times 30, up to the tenants' rounding, projected too, and one rounding |
| UsageMetrics.LimiterKeyAttribution | ai-service/app/services/settings_service.py:171-178 | a limiter's key is counted for exactly its own tenant and its own day |
| UsageMetrics.MarginalConcat | ai-service/app/services/settings_service.py:170-178 | totals and breakdowns are sums over the keys, so with the law for one key they are determined |
| UsageMetrics.ColonTenantMisattributed | ai-service/app/services/settings_service.py:171-175 | the calls of a tenant with a colon in its name count for the first part of the name, and only if the second looks like the month |
| UsageMetrics.Caches.ClearCaches | ai-service/app/services/settings_service.py:199-205 | deletes exactly the cache keys without the word rate between colons, and returns how many |
| UsageMetrics.ClearingByFamily | ai-service/app/services/settings_service.py:200-204 | every counter survives, every last analysis goes, a session key goes unless its tenant or start date is rate |
| UsageMetrics.ClearingLeavesOthers | ai-service/app/services/settings_service.py:201-203 | a key outside the pnl family survives every clearing, a tenant's memory among them |
| TenantMemory.MemoryStore.Build | ai-service/app/services/analysis_service.py:284-323 | of the memory that was read and an analysis: the ten most frequent titles, or all, each with its exact count and none dropped for a rarer one; the last twenty recommendations with today's date on the new ones; at most twenty stars; first date and total |
| TenantMemory.MemoryStore.Update | ai-service/app/services/analysis_service.py:282-325 | with nothing between its GET and its SETEX, an update replaces the stored memory by that |
| MemoryOverlap.MemoryOfSomeUpdates | ai-service/app/services/analysis_service.py:282-325 | for any number of overlapping updates, the stored memory is always one that some of the written updates lead to, in their order; the four results below hold of it for those |
| MemoryOverlap.NeverOverstated | ai-service/app/services/analysis_service.py:296-315 | in every interleaving the memory is sorted, bounded and never above the counts, stars and total of all written updates |
| MemoryOverlap.OverlapLoses | ai-service/app/services/analysis_service.py:283-325 | two overlapping updates leave out one analysis altogether: count, recommendation, star and place in the total |
| MemoryOverlap.NothingMissingIffNoOverlap | ai-service/app/services/analysis_service.py:283-325 | each of the four equalities with all written updates holds in every run without a loss if and only if updates do not overlap |
| TenantMemory.AlertCounters | ai-service/app/services/analysis_service.py:302-309 | for the updates that led to a memory: the counters are distinct, descending, as many as titles occurred but at most ten, and never above the true counts; all exact if and only if at most ten titles occurred |
| TenantMemory.StoredRecommendations | ai-service/app/services/analysis_service.py:311-315 | for the updates that led to a memory: the stored recommendations are the last twenty of all of theirs since the last loss |
| TenantMemory.TotalAndFirstDate | ai-service/app/services/analysis_service.py:285-287 | for the updates that led to a memory: the total is their number since the last loss and the first date is the first one's |
| TenantMemory.StarProducts | ai-service/app/services/analysis_service.py:296-300 | for the updates that led to a memory: stored stars are distinct stars of theirs, at most twenty, and all of them if and only if there were at most twenty |
| MarkerScrub.SanitizeString | ai-service/app/services/analysis_service.py:69-81 | the loop with its lower-cased copy computes the specified text |
| MarkerScrub.PassCounts | ai-service/app/services/analysis_service.py:74-78 | one pass creates no occurrence of any marker and removes at least one of its own |
| MarkerScrub.PassLeavesRepeats | ai-service/app/services/analysis_service.py:75-78 | it removes exactly one, so the marker remains if and only if it occurred twice |
| MarkerScrub.SanitizedText | ai-service/app/services/analysis_service.py:69-81 | over all passes and the truncation every marker's count strictly drops when positive, a marker that occurred once is gone, and the length is at most 2013 |
| MarkerScrub.MarkerFreeIffNoRepeats | ai-service/app/services/analysis_service.py:74-78 | in a text whose markers do not overlap, the loop leaves none if and only if none occurred twice |
| MarkerScrub.ReturnedFreeIffNoRepeats | ai-service/app/services/analysis_service.py:69-81 | the same of the returned text, when the masked text is not over the cap |
| MarkerScrub.SanitizeKeepsShape | ai-service/app/services/analysis_service.py:82-86 | objects keep their keys, lists their lengths, other values are unchanged, and every string is capped |
| MarkerScrub.SanitizeScrubsEveryString | ai-service/app/services/analysis_service.py:82-86 | every string at any depth has what SanitizedText says of a text |
| MarkerScrub.PassIgnoresCase | ai-service/app/services/analysis_service.py:75-78 | the first occurrence of a marker, in whatever case, is replaced, and every other character kept |
| MarkerScrub.UnmarkedTextStays | ai-service/app/services/analysis_service.py:69-81 | a text without markers is returned as the PII pass left it, cut at 2000 characters |
| ResponseUnwrap.CleanResponse | ai-service/app/services/analysis_service.py:420-436 | strip, fence removal and brace trimming as written compute the specified slice |
| ResponseUnwrap.UnwrapRecoversBody | ai-service/app/services/analysis_service.py:421-436 | for every object text with brace-free prose around it the slice is exactly the object, if and only if an opening fence ends its line before the object or there is no line break at all |
| ResponseUnwrap.FencedTextUnwraps | ai-service/app/services/analysis_service.py:421-427 | a fenced text without braces comes out as what stands between its fence lines |

## Left out

- SHA-256 (FIPS 180-4) and the canonical JSON: the hash is any injective function of content and previous hash; event timestamps on one asset are assumed to increase.
- The asset-state workflow, wallet registry and admin checks: `Handoff` takes their answers as arguments; only informational event types that need no lock are unlocked, as the code has it.
- ARQ internals: when a run ends, the model lets the job retry or finish freely, and a crash uses up a try.
- AnchorWorker.Job.AnchorRow: runs to its end; crashes and concurrent jobs are steps of the protocol only.
- AnchorQueue.AttemptsBounded: is about events; the counter of generic requests is the subject of `AnchorAttempts`, on its own.
- AnchorLedger.RowsNeverShareSignature: every accepted send is an entry of its own; two sends of one memo under one blockhash, which are the same transaction, are counted as two.
- Custodian signing, callback URL checks and the HTTP request itself: they change who signs or whether a callback is delivered, not the row or the log.
- Mint retries and their sweep, the circuit breaker and the idempotency store.
- The sweep of generic requests, which has the same form as that of events.
- AuthRefresh: other writers of the auth store are one login and one logout step; headers and permissions are not modelled.
- LeaderScan: what a scan does; its duration is a parameter, and a scan that raises ends like one that returns.
- The PII patterns: any function from strings to strings before the marker loop.
- MarkerScrub.ReturnedFreeIffNoRepeats: exact only for texts up to the cap with markers that do not overlap; for all texts `SanitizedText` gives one direction.
- MarkerScrub.SanitizedText: lower-casing maps characters one to one; Unicode characters whose lower case is longer are not modelled.
- AnalysisHistory.ServedFromHistory: an expired entry stays in the map until overwritten but is never read.
- AnalysisCosts.PaidWithinCounter: assumes that Redis answers the limiter's two commands within an hour of the key being computed; `RateLimiter.LateCheckExceeds` says why.
- AnalysisGate: the memory update inside a call (it cannot fail the call) is an await without an effect there, and modelled in `TenantMemory` and `MemoryOverlap`; prompt building, and a model answer that itself sets the marker fields, are not modelled.
- TenantMemory.MemoryStore.Build: the industry and pattern fields.
- UsageMetrics.ReportedCost: costs are real numbers; the error of adding floats is not counted.
- UsageMetrics.GetMetrics: costs are real numbers where the source adds floats; keys a scan returns twice are counted twice, as in the code; counters are numbers.
- UsageMetrics.ProjectedCost: the same for the projection.
- User interface, prompts, API-key encryption, migrations and settings validation.
