# Verified model of go-schedule-job

A Dafny model of a persistent job scheduler: its stores (in memory, SQLite, Postgres, Redis), the
dispatcher, workers and hooks that run jobs claimed from them, its recurring schedules and leases, its
backoff, and the fake clock of its test package. `dafny verify dfyconfig.toml` checks everything.

The parts, each in the form its source has:

- **One reference store.** `Table` is a plain map from id to job with one function per operation, and says
  field by field what each leaves in a row; `Claims.TopN` says once what a claim returns: the first n candidates by priority and run time, in that
  order, ties in any order.
- **The in-memory store** is a set of classes (`MemQueue`, `MemStore`): entries shared between a map and
  indexed binary heaps, changed in place. Every operation is proved to act on the reference map.
- **The SQL claims** (`SqlClaims`, `Sorting`, `Insertion`) are loops over rows and an in-place insertion sort.
  `PostgresRuns` has the Postgres calls that read a row and then write it.
- **The Redis store** (`RedisKeys`, `RedisStore`, `RedisScripts`, `RedisRuns`, `RedisClaims`, `RedisRecovery`,
  `Float64`) is a set of hashes and sorted sets. Each script is one atomic step, and calls that look up a key
  first may run arbitrarily later. Whole runs are proved to refine the reference map, with exact indexes.
- **Job runs** (`Runs`, `Records`, `Accounting`, `Exclusion`, `Visibility`, `HookOrigins`, `HookOrder`,
  `HookEndings`, `HookTiming`, `InFlightGauge`) are a step system in which any number of processes claim, run, settle, crash and recover.
  A claim takes any pending jobs and a recovery frees any claims, so the results cover each backend's choice
  of both. The other store operations are atomic steps, as they are in the in-memory, SQLite and Redis stores;
  on Postgres that holds for the runs that `PostgresRuns.RunRefinesIff` singles out. `Pipeline` is one
  process's dispatcher, channel and workers.
- **Recurring schedules** (`Recurring`, `LeaseRuns`, `LeaseSlots`): slot arithmetic over any forward-moving
  schedule, intervals and cron expressions among them, and several runners with stale snapshots kept apart only
  by a lease.
- **Backoff** and **FakeClock**: 64-bit wrapping doubling; timers in a slice sorted and compacted in place.

Several properties one would expect turn out to hold only under a condition. For each, the model keeps the
code as it is and proves exactly when the property holds, with a run or input that breaks it:

- The in-memory claim stops at the first job that is not due, so a future job of higher priority hides due
  ones (`Claims.MemClaimAgreesIff`, `Claims.UnblockedIsDue`, `Claims.DueJobHidden`).
- The Redis claim never looks at priorities above 3 and compares float64 scores
  (`RedisClaims.RedisAgreesIff`, `RedisClaims.ClaimedEarly`, `RedisClaims.HighPriorityIsMissed`).
- Postgres Cancel, Reschedule and the last Fail write without looking at the row again
  (`PostgresRuns.RunRefinesIff`, `PostgresRuns.CancelDeletesClaimed`).
- Overwriting a stored job in Redis can leave its old index entry behind (`RedisStore.SaveConsistentIff`,
  `RedisStore.OldEntryStays`).
- A recovery can overtake a worker that is still running, so that two workers run one job
  (`Visibility.SqlSafeIff`, `RedisRecovery.RedisSafeIff`, `Visibility.OverdueWorkersOverlap`).
- Redis can release a claim before its lock has expired (`RedisRecovery.RedisExpiryBounds`,
  `RedisRecovery.RecoveredEarly`).
- A retry can start before the previous attempt's OnRetry has fired (`HookTiming.OrderedIffPatient`,
  `HookTiming.CompletedIffPatient`, `HookTiming.HooksCanRace`).
- The in-flight gauge drifts on missing handlers and abandoned jobs (`InFlightGauge.GaugeBalance`,
  `InFlightGauge.GaugeCanGoNegative`, `InFlightGauge.GaugeCanStayUp`).
- A slot can be fired twice when a cycle is slow compared with the lease (`LeaseRuns.SqlSafeIffHalf`,
  `LeaseRuns.RedisSafeIff`, `LeaseRuns.RedisHalfIsUnsafe`).
- A cycle with catch-up drops slots beyond 1001 (`Recurring.RunCycles`, `LeaseSlots.SavedUpToNextRun`,
  `Recurring.CatchupCanDrop`).
- Float64 scores put the zero time after other times before 1970 (`Float64.ScoreMonotone`), and the SQL stores
  never free a claim locked until 1970 or before (`Visibility.SqlRecoversIff`).
- Worker and store disagree on the last attempt of a job without a limit (`Exclusion.TerminalAgreesIff`).
- Times at the epoch or outside 64-bit nanoseconds do not survive a Redis hash (`RedisKeys.JobRoundTripIff`,
  `RedisKeys.EpochIsLost`).
- A negative backoff base is not capped before its first doubling (`Backoff.CappedIff`). The comment on the
  source's `Next` promises the cap without this exception; the model follows the code.

## Model

| member | source | states |
|---|---|---|
| `Table.AnswerLaws` | store.go:9-13 | Ack takes claimed jobs only, Cancel and Reschedule pending ones; an unknown id and a job that is not pending get their own errors, a refusal changes nothing, and no other job or field is touched |
| `Table.FailLaw` | memstore/memstore.go:148-171 | Fail refuses unless the job is claimed; at its limit the job is deleted, otherwise it has one attempt more, the given error and time, no lock, and every other field as before |
| `Table.ReleaseFrees` | store/sqlite/store.go:308-311 | a recovery unlocks exactly the given jobs and changes no other field and no other job |
| `Sorting.InsertionSortIsStable` | store/postgres/store.go:173-192 | the sort's result is ordered, keeps every group of ties in its order, and is a permutation |
| `Sorting.SortedIsFixed` | memstore/memstore.go:121-127 | a stable sort of jobs already in claim order changes nothing |
| `Insertion.ShiftBack` | store/postgres/store.go:176-182 | the inner loop moves a[i] back to the position before everything it precedes, shifting those by one and touching nothing else |
| `Insertion.InsertInPlace` | store/postgres/store.go:176-182 | one round of the sort is an insertion after all ties into the front of the array |
| `Sorting.SortJobs` | store/postgres/store.go:173-184 | the array ends as the stable sort of what it held |
| `Claims.SameUpToTies` | store.go:20 | any two claims of the same candidates agree position by position up to jobs that tie, so the claim contract fixes the result |
| `Claims.SortTakeIsTopN` | store/sqlite/store.go:108-116 | ORDER BY priority DESC, run_at ASC LIMIT n over rows in any scan order is the claim |
| `Claims.UnblockedIsDue` | memstore/memstore.go:109-113 | the in-memory claim sees all due jobs if and only if no future job of the queue has a higher priority than a due one |
| `Claims.MemClaimAgreesIff` | memstore/memstore.go:109-113 | an in-memory claim is a claim of all due jobs if and only if it is filled or no due job is hidden |
| `Claims.DueJobHidden` | memstore/memstore.go:109-113 | with a due job and a future one of higher priority nothing is claimed |
| `Claims.LongestDuePrefix` | memstore/memstore.go:109-120 | popping while the front is due yields exactly the claim of the jobs no future job comes before |
| `MemHeap.SiftUpHeap` | memstore/memstore.go:43-54 | sifting up restores a heap broken only between one node and its parent |
| `MemHeap.RepairedHeap` | memstore/memstore.go:192-207 | sifting down, and up if nothing moved, restores a heap after any change of one position |
| `MemHeap.WithoutHeap` | memstore/memstore.go:60-66 | removing any position by swap with the last and repair leaves a heap of the others |
| `MemHeap.RootIsFirst` | memstore/memstore.go:109-113 | no queued job comes before the root |
| `MemQueue.QueueHeap.Swap` | memstore/memstore.go:50-54 | exchanges two entries and keeps every back-pointer the true position |
| `MemQueue.QueueHeap.Push` | memstore/memstore.go:55-59 | appends the entry with its index |
| `MemQueue.QueueHeap.Pop` | memstore/memstore.go:60-66 | removes the last entry, marks it outside the heap, keeps the rest in place |
| `MemQueue.QueueHeap.HeapPush` | memstore/memstore.go:94-96 | adds exactly one entry; heap order and back-pointers hold again |
| `MemQueue.QueueHeap.HeapPop` | memstore/memstore.go:114 | removes the root, and no entry left comes before it |
| `MemQueue.QueueHeap.HeapRemove` | memstore/memstore.go:89-91 | removes exactly the entry at the given index; heap order and back-pointers hold again |
| `MemQueue.QueueHeap.HeapFix` | memstore/memstore.go:202-205 | after one entry's job was changed in place, restores heap order without adding or losing an entry |
| `MemStore.Store.Save` | memstore/memstore.go:80-98 | the contents become the map with the job under its id, for a new id, a queued one and a claimed one; all invariants kept |
| `MemStore.Store.ClaimDue` | memstore/memstore.go:101-129 | returns the first n due jobs that no future job comes before, in claim order, as they are then stored; exactly those are locked for the worker until the given time and stamped now, all their other fields and all other jobs as before |
| `MemStore.Store.Ack` | memstore/memstore.go:132-145 | contents and error are the reference Ack's |
| `MemStore.Store.Fail` | memstore/memstore.go:148-171 | contents and error are the reference Fail's: refused unless claimed, deleted at the limit, otherwise put back with the error, the new time and one attempt more, field by field |
| `MemStore.Store.Cancel` | memstore/memstore.go:174-189 | contents and error are the reference Cancel's |
| `MemStore.Store.Reschedule` | memstore/memstore.go:192-207 | contents and error are the reference Reschedule's, with the heap repaired |
| `MemStore.Store.QueueSize` | memstore/memstore.go:260-268 | the heap's length is the number of pending jobs of the queue |
| `SqlClaims.Database.SelectFirst` | store/sqlite/store.go:108-116 | selects the claim of the given rows, whatever the scan order |
| `SqlClaims.Database.ClaimDueSqlite` | store/sqlite/store.go:124-164 | returns the first n due jobs in claim order, as stored after the update; exactly those are locked for the worker, every other field and row as before |
| `SqlClaims.Database.UpdateReturning` | store/postgres/store.go:135-142 | marks exactly the selected rows and hands them back, marked, in any order |
| `SqlClaims.Database.ClaimDuePostgres` | store/postgres/store.go:127-171 | the same over the due rows that no concurrent claim has locked, although RETURNING gives rows in any order |
| `SqlClaims.SortedReturn` | store/postgres/store.go:166-169 | sorting the returned rows restores claim order from any permutation |
| `PostgresRuns.UninterruptedIsReference` | store/postgres/store.go:223-315 | Fail, Cancel and Reschedule are the reference operations when nothing commits between their SELECT and their write; for Fail this is also stated field by field |
| `PostgresRuns.WriteAgreesIff` | store/postgres/store.go:208-219 | otherwise the write has the reference operation's effect if and only if the row still has the state that the unguarded write takes it to have |
| `PostgresRuns.SamePlanFits` | store/postgres/store.go:223-315 | it has whenever the SELECT would lead to the same write again |
| `PostgresRuns.RunRefinesIff` | store/postgres/store.go:223-315 | all through any interleaving the rows are what a plain map holds after the same operations, if and only if every call that commits finds its row so |
| `PostgresRuns.CancelDeletesClaimed` | store/postgres/store.go:257-285 | a job claimed between a Cancel's SELECT and its DELETE is deleted |
| `RedisKeys.ParseItoa` | store/redis/keys.go:68-73 | reading any integer's decimal form gives the integer back, or the nearest 64-bit one |
| `RedisKeys.ParsePlus` | store/redis/keys.go:37-38 | a plus sign changes nothing |
| `RedisKeys.MalformedIsZero` | store/redis/keys.go:37-38 | text without digits, or with any other character among them, reads as 0 |
| `RedisKeys.StrconvIsExact` | store/redis/keys.go:30-43 | so the number format that the hash round trip assumes is the one in use |
| `RedisKeys.PendingKeyInjective` | store/redis/keys.go:16-18 | different (queue, priority) pairs have different keys, whatever characters queue names hold |
| `RedisKeys.StoredNames` | store/redis/keys.go:13-20 | the key names and state numbers that data already stored depends on |
| `RedisKeys.TimeRoundTripIff` | store/redis/keys.go:30-43 | a time survives formatting and parsing if and only if it is the zero time or a 64-bit nanosecond count other than 0 |
| `RedisKeys.EpochIsLost` | store/redis/keys.go:30-43 | the epoch itself comes back as the zero time |
| `RedisKeys.JobRoundTripIff` | store/redis/keys.go:46-93 | a job read back from its hash is the job written if and only if its four times survive |
| `RedisKeys.ScriptKeys` | store/redis/scripts.go:168-173 | the key the recovery script concatenates and the key looked up by Fail, Cancel and Reschedule are both the job's own |
| `RedisStore.KeyNamesDistinct` | store/redis/keys.go:16-20 | distinct sorted sets have distinct Redis keys |
| `RedisStore.SaveConsistent` | store/redis/store.go:96-122 | saving a new pending job keeps every sorted set an exact index of the hashes and stores the job as given, except that a limit of 0 becomes 3 |
| `RedisStore.SaveConsistentIff` | store/redis/store.go:96-122 | saving any job keeps the indexes exact if and only if it is pending and new or pending in the same set before, or claimed before and after with the same lock score |
| `RedisStore.OldEntryStays` | store/redis/store.go:111-117 | a pending job saved again with another priority is then in two sorted sets |
| `RedisStore.AckConsistent` | store/redis/store.go:176-203 | the script keeps the indexes exact and answers as the reference Ack |
| `RedisStore.FailConsistent` | store/redis/scripts.go:60-93 | the same for Fail, given the job's own pending key, and field by field |
| `RedisStore.CancelConsistent` | store/redis/scripts.go:101-117 | the same for Cancel |
| `RedisStore.RescheduleConsistent` | store/redis/scripts.go:125-143 | the same for Reschedule |
| `RedisScripts.LexIsDictionary` | store/redis/scripts.go:35 | members with equal scores are ordered as in a dictionary |
| `RedisScripts.Range` | store/redis/scripts.go:35 | returns the n lowest members, ordered by score and then by member |
| `RedisScripts.MoveAllConsistent` | store/redis/scripts.go:36-46 | moving any set of pending members to the claimed set keeps the indexes exact and claims exactly those jobs |
| `RedisScripts.MoveAllLocks` | store/redis/scripts.go:36-46 | their hashes are locked for the worker until the given time, every other field and hash as before |
| `RedisScripts.BucketIsTopN` | store/redis/scripts.go:34-35 | the lowest due members of one bucket are the claim, by score and then id, of the jobs of that priority |
| `RedisScripts.ClaimDueScript` | store/redis/scripts.go:22-49 | walking the four buckets yields the first n, by priority, score and id, of all due jobs of priority 0 to 3, moves exactly those and locks them for the worker, field by field |
| `RedisScripts.RecoverStaleScript` | store/redis/scripts.go:155-184 | releases exactly the claims whose lock score the script's clock has reached, field by field, counts them, and leaves none |
| `RedisScripts.RecoverAllConsistent` | store/redis/scripts.go:166-182 | releasing claimed members keeps the indexes exact and changes no other job |
| `RedisScripts.RecoverAllFrees` | store/redis/scripts.go:166-182 | the released hashes lose their lock and nothing else |
| `RedisRuns.ScriptRefines` | store/redis/store.go:206-231 | a script answers as the reference operation however long ago its key was looked up |
| `RedisRuns.ReachableIsConsistent` | store/redis/scripts.go:22-184 | in every state of every interleaving each job is in exactly the sorted set its hash names, with its hash's score, and no set has another member |
| `RedisRuns.RunRefinesPlainMap` | store/redis/store.go:96-337 | after any run the hashes are what the plain map holds after the same operations, saves putting the job there as given with a limit of 0 made 3 |
| `RedisRuns.QueueSize` | store/redis/store.go:290-304 | the four cardinalities sum to the pending jobs of priority 0 to 3, which is the SQL count if and only if none is higher |
| `Float64.RoundMonotone` | store/redis/store.go:106-109 | rounding nanoseconds to a float64 score never reverses an order (section 4.3.1 of IEEE 754-2019) |
| `Float64.ScoreIsNearest` | store/redis/store.go:106-109 | a score is within half the float64 spacing of its time; the zero time's is 0 |
| `Float64.ScoreMonotone` | store/redis/store.go:106-109 | of two times the earlier never scores higher, if and only if it is not the zero time with the other before 1970 |
| `Float64.ScoreSeparates` | store/redis/store.go:106-109 | before 2043 times more than 256 ns apart keep a strict order of scores |
| `Float64.ScoreCollides` | store/redis/store.go:106-109 | two times one nanosecond apart can get the same score |
| `RedisClaims.ClaimedIffReached` | store/redis/scripts.go:30-48 | the script claims exactly the scanned jobs with fewer than n others ahead of them by priority, score and id |
| `RedisClaims.FaithfulClaim` | store/redis/scripts.go:22-49 | with faithful scores what the script claims is a claim of the due jobs |
| `RedisClaims.RedisAgreesIff` | store/redis/scripts.go:22-49 | what the script claims is what ORDER BY and LIMIT claim if and only if every job the scan reaches is due, an earlier job with its score also has the earlier id, and no due job has a priority above 3 |
| `RedisClaims.FloatInOrder` | store/redis/store.go:106-109 | float64 scores of times before 2043 meet that theorem's assumption that scores never reverse times |
| `RedisClaims.ApartIsFaithful` | store/redis/store.go:132-139 | float64 scores are faithful when priorities are 0 to 3 and no two times are within 256 ns |
| `RedisClaims.FloatScanBounds` | store/redis/scripts.go:35 | every due job is scanned and none more than 256 ns early |
| `RedisClaims.ClaimedEarly` | store/redis/scripts.go:35 | a job is claimed one nanosecond before it is due |
| `RedisClaims.HighPriorityIsMissed` | store/redis/store.go:132-139 | a due job of a priority above 3 is never claimed |
| `Runs.JobStep` | worker.go:41-96 | what any event of any process does to one stored job, field by field: it leaves, is put back with the event's error and time, is unlocked, locked or rescheduled, and nothing else |
| `Runs.TokenStep` | dispatcher.go:30-42 | a worker's copy of a job never changes, and a new copy is the stored job locked for the claim's worker |
| `Runs.ReachableBasics` | dispatcher.go:22-47 | in every run stored jobs are pending or claimed under their own id, and a token fires only its own job's hook |
| `Records.StoredIsRecorded` | worker.go:41-96 | in every run each stored job is what its events make it, in every field: the work as saved, the lock of the standing claim or none, attempts, error and run time of its failures and reschedules |
| `Records.WorkersRunWhatWasSaved` | worker.go:57-62 | in every run a worker holds the name, payload, codec, queue, priority, timeout and limit that the job was saved with, whatever happened to it before |
| `Accounting.ReachableAccounted` | worker.go:75-96 | for every job ever saved: attempts equal recorded failures, stay below the limit, and claims and failures keep their bounds |
| `Accounting.ClaimsBalance` | worker.go:75-96 | while a job is stored, its claims are its failed attempts plus its recoveries plus one if it is claimed |
| `Accounting.ClaimsBounded` | worker.go:75-86 | a job with limit M is claimed at most M plus recoveries times over any run |
| `Accounting.NoJobLost` | worker.go:65-96 | a saved job is stored, or an event took it out: an Ack after its handler returned nil, its last permitted failure, or a Cancel while pending |
| `Exclusion.ClaimsAreSeparated` | store/sqlite/store.go:108-121 | between two claims of a job lies a Fail or a recovery of it |
| `Exclusion.ExclusiveIff` | janitor.go:24-28 | all through a run every unsettled claim belongs to one holder and is the stored job, if and only if no recovery, whatever its test of expiry, frees a job that is still worked on |
| `Exclusion.NoDoubleExecution` | worker.go:57-63 | in such a run no job is ever run by two workers at once |
| `Visibility.OverdueWorkersOverlap` | janitor.go:24-28 | if a claim can expire while its worker may still run, a second worker can be running the same job |
| `Visibility.SafeIffOutlasts` | dispatcher.go:30-31 | with claims locked for v and settled within d, no interleaving of claims, workers, crashes and recoveries runs a job twice at once, if and only if no claim made within the last d passes the backend's test of expiry |
| `Visibility.SqlSafeIff` | store/sqlite/store.go:308-326 | on the SQL stores: if and only if d is at most v |
| `Visibility.SqlRecoversIff` | store/sqlite/store.go:308-326 | a recovery frees a claimed job if and only if the lock of its standing claim ended after 1970 and before now |
| `RedisRecovery.LuaClockRoundsOnce` | store/redis/scripts.go:161-162 | before 2043 the script's float64 clock is the server's time in whole microseconds, rounded once |
| `RedisRecovery.RedisExpiryBounds` | store/redis/scripts.go:161-164 | the script finds a lock expired at most 256 ns early, and at the latest when it has been over for 999 ns |
| `RedisRecovery.RecoveredEarly` | store/redis/scripts.go:164 | a claim with 256 ns left on its lock is released, which the SQL stores would not do |
| `RedisRecovery.RecoveredLate` | store/redis/scripts.go:162 | a claim whose lock ended 998 ns ago is missed, which the SQL stores would release |
| `RedisRecovery.RedisSafeIff` | store/redis/scripts.go:155-184 | on Redis, before 2043: no job is run twice at once if and only if claims are settled more than 256 ns before the visibility timeout |
| `Visibility.DroppedStaysClaimed` | dispatcher.go:36-42 | when no claim expires while it may still be worked on (on SQL: d at most v), a claim dropped on cancellation or by a crash leaves its job claimed in the store |
| `Exclusion.TerminalAgreesIff` | worker.go:75-79 | worker and store judge a failure to be the last alike if and only if the limit is positive or the attempt is below three |
| `Visibility.FailureSettledAlike` | worker.go:75-95 | under the same condition a worker fires OnFailure exactly when the store deletes its failed job, OnRetry exactly when it requeues it |
| `HookOrigins.MissingHandlerOwesFailure` | worker.go:42-48 | a job without a handler owes OnFailure with its own attempt, whether or not the store takes the failure |
| `HookOrigins.SettlingOwes` | worker.go:65-96 | whatever the store answers, a success owes OnSuccess and a failed last attempt OnFailure; an earlier failure owes OnRetry exactly when the store put the job back |
| `HookOrigins.LogIsCalledFor` | worker.go:41-96 | in every run, faults, missing handlers, crashes and recoveries included, the hooks fired are those that the handlers' results call for, in the order of the events |
| `HookOrigins.EveryHookHasReason` | worker.go:41-96 | every OnSuccess in the log has an earlier nil return of a worker of that job and attempt, every OnFailure a missing handler or an error at the last attempt, every OnRetry an error before it |
| `HookOrder.HooksInOrderIff` | worker.go:57-95 | in a run without faults a job's hooks are OnStart(1), OnRetry(1), OnStart(2), ... with at most one final hook, last, if and only if it never starts while an earlier worker's hook is outstanding; the step to the next rows |
| `HookEndings.ReachableEnding` | worker.go:65-95 | then a job that left the store has fired its final hook or a worker is about to, unless it was cancelled, and then neither |
| `HookEndings.HooksCompleteIff` | worker.go:57-95 | when a job has left the store and no worker is occupied with it, its hooks are in order up to exactly one OnSuccess, or OnFailure at its limit, if and only if it was not cancelled and never started while an earlier hook was outstanding |
| `HookTiming.PacedIsPrompt` | worker.go:88-94 | while a worker owes OnRetry, its job waits in the store and does not come due, if retries are put off by more than the worker takes to fire the hook |
| `HookTiming.OrderedIffPatient` | worker.go:88-94 | let the a-th failure put the retry off by delay(a), its hook fire within h of that clock reading, claims take jobs at most `early` before they are due, and nothing be brought forward: the hooks of jobs with limit m are in order in every fault-free run if and only if h + early < delay(a) for all a below m |
| `HookTiming.CompletedIffPatient` | worker.go:57-95 | under exactly the same condition every job that is over has fired all its hooks in order, ending in one OnSuccess or one OnFailure at its limit, unless it was cancelled |
| `HookTiming.HooksCanRace` | worker.go:88-94 | otherwise there is a run that claims only due jobs and in which nothing fails, whose hooks come out of order |
| `HookTiming.BackoffOrderedIff` | backoff.go:20-44 | with exponential backoff: if and only if h + early is below the base and below the cap |
| `InFlightGauge.GaugeBalance` | metrics/prometheus/collector.go:36-58 | in every run the gauge is the busy workers plus the abandoned jobs (a crash, or a failure with attempts left whose Fail call faulted or found no claimed job) minus the jobs without a handler |
| `InFlightGauge.IdleGaugeIff` | metrics/prometheus/collector.go:36-58 | an idle queue's gauge is zero if and only if those two counts are equal |
| `InFlightGauge.GaugeCanGoNegative` | worker.go:43-48 | a job without a handler fires OnFailure alone and takes an idle queue's gauge to -1 |
| `InFlightGauge.GaugeCanStayUp` | worker.go:90-93 | a Fail call that does not get through leaves an idle queue's gauge at 1 |
| `Pipeline.Reachable` | scheduler.go:212-241 | in every run everything claimed is, in claim order, started, in the channel, in the unsent batch or dropped |
| `Pipeline.ClaimedIsReturned` | dispatcher.go:30-42 | the jobs a pipeline has claimed are those ClaimDue returned, batch after batch |
| `Pipeline.StartedInClaimOrder` | dispatcher.go:36-42 | workers start jobs in exactly the order the store returned them; started, waiting, unsent and dropped jobs are together all it returned |
| `Pipeline.DroppedOnlyWhenCancelled` | dispatcher.go:36-42 | unless the scheduler was stopped, the dispatcher goes on, no worker has left and nothing was dropped |
| `Pipeline.ExactlyOnePlace` | worker.go:27-39 | every claimed job is in exactly one of batch, channel, worker, finished and dropped |
| `Pipeline.AtMostThreeTimesConcurrency` | scheduler.go:212-241 | a pipeline of concurrency c never holds more than 3c unfinished jobs |
| `Pipeline.ThreeTimesReached` | scheduler.go:212-241 | and it can hold exactly 3c |
| `Recurring.AdvanceIsForward` | recurring.go:162-176 | advancing moves forward unless a parsed cron expression does not |
| `Recurring.ComputeFires` | recurring.go:130-150 | fires the stored slot and, with catch-up, the increasing slots up to now, stopping at the bound, at now or when the schedule stands still |
| `Recurring.NextAfter` | recurring.go:152-160 | the first slot after both the stored one and now |
| `Recurring.FiresCount` | recurring.go:130-150 | the number fired is the number of due slots, at most 1001 with catch-up, 1 without |
| `Recurring.RunCycle` | recurring.go:91-125 | a cycle fires the first due slots in order and stores the slot after the last due one |
| `Recurring.RunSpec` | recurring.go:94-176 | for a spec as stored: each slot is one interval after the one before, or what the cron expression says, or one hour later; the slots up to now fire, one without catch-up and at most 1001 with it, and the first after now is stored; for an interval these are start + k * every and start + every * ((now - start) / every + 1) |
| `Recurring.RunCycles` | recurring.go:81-128 | over any sequence of cycle times the fires are an increasing selection of slots; with catch-up they are all slots, without gap or repetition, if and only if no cycle finds more than 1001 due |
| `Recurring.CatchupCanDrop` | recurring.go:130-160 | a schedule with 1002 slots due at one cycle is beyond that bound |
| `Recurring.IntervalNext` | recurring.go:152-166 | no drift: an interval schedule's next run is the first grid point after now |
| `LeaseRuns.StepKeepsInv` | recurring.go:91-125 | while leases last, at most one runner fires, it fires from the stored next run, and runners with old snapshots are locked out |
| `LeaseRuns.LastingLeaseIsSafe` | recurring.go:98-125 | then no interleaving of runners saves a slot twice, and slots are saved in increasing order |
| `LeaseSlots.SavedUpToNextRun` | recurring.go:94-126 | then the stored next run is a slot, and with catch-up, whenever no runner is firing, the saved slots are exactly all slots before it, if and only if no cycle found more than 1001 due |
| `LeaseSlots.OneSlotPerGrant` | recurring.go:98-125 | without catch-up each grant of the lease saves exactly the slot that is stored as the next run then |
| `LeaseSlots.StoresFirstAfter` | recurring.go:124-125 | with and without catch-up, the next run a runner stores is the first slot after its clock reading |
| `LeaseSlots.IntervalRuns` | recurring.go:162-165 | for an interval spec the saved slots are first + i * every up to the stored next run, whichever runners saved them |
| `LeaseSlots.SqlLeaseEnds` | store/sqlite/store.go:443-478 | on the SQL stores another runner gets a lease exactly when its clock has passed the holder's clock reading plus the lease interval, however late the lease was granted |
| `LeaseSlots.LoneRunnerIsGranted` | store/redis/scripts.go:196-206 | a runner's own lease never keeps it out: alone, it gets the lease in every cycle that finds the spec due, unless the time since its clock reading is too long for the store |
| `LeaseRuns.SafeIffLasting` | recurring.go:98-125 | for any first run, no slot is saved twice in any interleaving if and only if every lease lasts a cycle plus the longest delay to a lease |
| `LeaseRuns.SqlSafeIffHalf` | store/sqlite/store.go:443-478 | on the SQL stores: if and only if cycles take at most half of the lease interval |
| `LeaseRuns.RedisSafeIff` | store/redis/store.go:446-467 | on Redis, whose leases are whole seconds: if and only if cycles keep to a closed bound in the lease interval |
| `LeaseRuns.RedisHalfIsUnsafe` | store/redis/store.go:446-467 | half of a lease interval of 1.9 s is too long a cycle on Redis |
| `Backoff.OverflowIsDetected` | backoff.go:27-31 | doubling a non-negative 64-bit duration gets smaller exactly when it overflows |
| `Backoff.Next` | backoff.go:20-44 | the capped base times 2^(attempt-1) in unbounded arithmetic for bases from 0; for negative bases the exact result of the wrapping loop |
| `Backoff.CappedIff` | backoff.go:19-44 | with a cap the result is capped if and only if the base is not negative or the attempt is above 1 (or the cap is the largest duration) |
| `Backoff.DelayMonotone` | backoff.go:19-44 | delays never shrink from one attempt to the next |
| `FakeClock.SweepFires` | schedtest/schedtest.go:61-72 | the sweep sends the current time once on every open channel whose deadline has come and touches no other channel |
| `FakeClock.SweepAccounted` | schedtest/schedtest.go:61-72 | afterwards exactly the open channels are waited on, in order of deadline |
| `FakeClock.JoinAccounted` | schedtest/schedtest.go:45-46 | a stable insertion of a new waiter loses and duplicates none |
| `FakeClock.Clock.Sweep` | schedtest/schedtest.go:61-72 | compacting in place keeps exactly the waiters still to come, never sending on a used channel |
| `FakeClock.Clock.SortLast` | schedtest/schedtest.go:46 | sorting after an append puts the new waiter after every waiter that is not later |
| `FakeClock.Clock.After` | schedtest/schedtest.go:40-51 | hands out a new channel, fired already exactly when the wait is not positive; every other channel is as it was |
| `FakeClock.Clock.Advance` | schedtest/schedtest.go:54-59 | fires exactly the waits whose time has come, each once and never before its deadline |

## Left out

- RedisRuns.ReachableIsConsistent: runs save new pending jobs only, as the scheduler does; RedisStore.SaveConsistentIff says which other saves would keep the indexes exact.
- Recurring.RunCycles: requires a schedule that moves strictly forward; a cron expression with no next time makes the source's next-run loop endless.
- LeaseRuns.StepKeepsInv: one spec, one clock shared by runners and store, saves that do not fail; deleting a spec while it is leased is not modelled.
- Visibility.SafeIffOutlasts: one clock for claims and recoveries; skew between a process's clock and the store's is not modelled. The in-memory store never recovers.
- RedisRecovery.RedisSafeIff: visibility timeouts up to 18 years and clock times before 2043, while the spacing of float64 scores is at most 256 ns.
- RedisClaims.RedisAgreesIff: members are compared character by character, which is Redis's byte order for ASCII ids such as the scheduler's UUIDs.
- HookOrder.HooksInOrderIff: jobs with a positive attempt limit and runs without faults, lost claims or recoveries of the job.
- SqlClaims.Database.ClaimDuePostgres: which rows concurrent claims hold locked is a parameter; transactions and isolation levels are not modelled.
- Ack, Fail, Cancel, Reschedule, Save and QueueSize of SQLite, and Ack, Save and QueueSize of Postgres: single statements or serialized transactions that are the reference functions themselves, except that Save turns an attempt limit of 0 into 3 (as on Redis); runs start from jobs as they are saved.
- PostgresRuns.WriteAgreesIff: the rows only; a retry that finds its row released still answers without an error.
- HookTiming.OrderedIffPatient: one clock; runs in which handlers are missing, store calls fault, or claims are lost or recovered are not covered.
- UpdatedAt is set by claims only; the other operations' bookkeeping of it is left out.
- A negative batch size, and database columns that turn the zero time and times before 1970 into 0.
- Redis ClaimDue's read of the claimed hashes after the script, and hash fields that hold numbers of no named state.
- The job built for a slot: its fields are copied from the spec; slots are modelled by their times.
- `sort.SliceStable` is modelled by insertion sort: the result of a stable sort is unique.
- Negative backoff bases have no monotonicity: the first attempt already waits the longest.
- Context timeouts, panics turned into errors, shutdown waiting, logging, heartbeats, LISTEN/NOTIFY.
- Codecs, typed helpers, options, connection strings, migrations, the storage of recurring specs.
- Cron parsing: the next time of an expression is a parameter.
- Prometheus counters and histograms other than the in-flight gauge.
