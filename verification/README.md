# mkq: a model of the job lease protocol and its surroundings

mkq is a job queue on Redis. Lua scripts are its atomic steps; Go dispatchers, heartbeats,
stalled scans, administrators and expiring locks run between them in any order. This project
models the queue's keys and scripts, the dispatchers as state machines over those scripts, the
shutdown protocol, recurring schedules, the `@include` preprocessor of the scripts, and the
exact arithmetic around them, and proves what holds in every run.

`dafny verify dfyconfig.toml` checks the whole project.

## How it is built

- `Queues` gives every script, with the includes it expands to, as a function from the keys and
  the arguments to the keys and the reply. `Store` is the same scripts in their own form: a class
  whose fields are the keys, with methods that issue the commands in order, loops included; each
  method is proved equal to its function.
- `JobLife` reduces the queue to one id at a time. Each script makes, for each id, exactly one
  *legal change* of that id's view (pending, active, completed, failed, lock, HASH). The partition
  of ids over lists and sets, and the placement of locks and marks, are invariants of that
  automaton and hence of every run. `StalledScan`, `Ordering`, `Arrivals` and `Hazards` build on it.
- `Shapes` says which keys each script writes. On it rest `Gates` (when a job is handed out),
  `Placement` (where a job goes that becomes ready), `DueTimes` (when a delayed one is due) and
  `Retention` (what is kept of the finished ones).
- `Ledger` is the retry policy of `finalise`, and what a list of executions amounts to. `Books`
  keeps a record per job ever created and a note per acquisition, beside the queue.
- `Workers` and `WorkerSteps` put any number of workers and dispatchers around the queue. A
  script, the read of `atm`, the check of `runCtx`, the choice of the fetch flag, the start and
  the return of a handler are separate steps; lock expiry, administration, failed calls and
  cancellation may come between any two. `NextOk` and `RunOk` are the invariant.
- `Leases`, `Accounts`, `Verdicts`, `Shutdown` and `StrandedRun` are the theorems over whole runs:
  fencing, attempts, failure history, outcome, handler starts, what a stopped worker leaves behind.
- `WakeKey` is a separate machine for the wake-up of parked dispatchers. `Schedules`, with
  `ScheduleFrames`, `ScheduleLimits` and `RewoundRun`, is one for the passes of rescheduleNext
  over recurring schedules, which may be added, removed and redefined at any time; in the runs of
  the workers the same scripts are steps of the environment.
- `Paths`, `Matcher`, `Includes`, `IncludeOnce`, `Preprocessor` and `Remnants` are the
  preprocessor: path cleaning, the directive expression and the search for it, the include graph,
  the depth-first expansion, the method with its buffer, sets and cursor, and what remains of
  directives in its output.
- `Pagination`, `Inspector`, `Cadence` and `Backoff` are the list windows, `Resume` and
  `ListJobs`, the scan interval, and the 64-bit backoff.

Lock tokens are numbers; 0 stands for the token `"0"`, with which the scripts neither set nor
check a lock. Times are integers given to the steps. What a script asks of Redis beyond the keys
kept here (rate-limit windows) is an argument of the step. The order in which `SMEMBERS` lists a
set is an argument, too. In runs of scripts and workers an upsert is two steps: `Withdraw`, and
`Enter`, which is told the slot and whether anything was withdrawn. The script, `UpsertSchedule`,
takes one right after the other, with the slot its search lands on; `Schedules` and `Store` have it
as one step, with every branch behind the choice of its first slot.

## What the scripts rely on

`JobLife.Allowed` lists it: an automatic id is not yet in use, no id begins with `0:`, tokens are
not `"0"`, and three conditions on administrative calls that the code does not check. What is said
below of every run of scripts and workers is said of runs within it. Where such a condition is not
met the law fails, and `Hazards` proves exactly when:

- `DrainPending` cuts as many entries off the head of a list as it deleted jobs. If a spared
  scheduler iteration stands in front of a deleted job, it is the iteration that is cut off,
  while its HASH stays (`DrainKeepsPlaces`, `DrainLosesIteration`).
- `RemoveJob` of an active job whose lock is gone leaves the id in `stalled` (`RemoveKeepsSound`,
  `RemoveLeavesMark`).
- Adding without a custom id does not look whether the counter's id exists; only where the new
  job goes to the sorted set its namesake is in does it stay one entry (`AutoIdKeepsSound`,
  `AutoIdCollides`).
- `UpsertSchedulePattern` refuses a slot whose job exists, but not after it has withdrawn the
  pending iteration: then it stores over that job and enqueues it once more. A second call with a
  start date in the past, as after a restart, goes back to the slot of the first. If the job of that
  slot is finished and kept, it is then finished and pending at once, with the attempts and the
  history it had (`UpsertKeepsSound`, `UpsertKeepsBound`, `UpsertStoresOver`).
- `RetryJob` with `WithResetAttempts(false)` on a job without attempts left puts it beyond its
  bound (`ManualRetryKeepsBound`, `ManualRetryPassesBound`).

Other places where the code does less than one would expect:

- A drained worker can leave a job in `active`: if the lock expires while the handler runs, the
  finishing script is refused (`ExpiryStrandsJob`, and from nothing `DrainLeavesJob`). It does so
  exactly if the lock expired and nobody has taken the job away since (`DrainedLeavesExactly`).
- A pattern schedule whose iteration is promoted before its slot computes the same slot again
  (`EarlyIterationRepeats`, `AdvancesExactlyWhen`).
- A schedule put back to the slot of an iteration that has already created a successor lets that
  iteration create another, and nothing else does (`SecondNeedsRewind`); repeating the upsert of a
  pattern with a start date in the past goes back like that (`OneIterationCreatesTwice`). Keeping
  the slot, as an unchanged interval does, is harmless (`OneSuccessor`).
- An upsert that keeps the slot while a pass has already compared the old limit lets the count
  pass the new one exactly if the new entry has no room (`KeptSlotPassesLimit`,
  `LoweredLimitIsPassed`).
- `preprocess` slices with a start beyond the end, and so panics, when a directive's match begins
  where the one before it ends, which an empty line between two directives brings about: the
  trailing `\s*` of the first match takes all but the last newline, the loop skips that one, and
  the second match begins with it (`ApartExactly`, `BlankLineBreaks`). The comments promise
  expansion; the model follows the code and counts the panic as a failure.
- The output of `preprocess` can hold a directive: no piece of a file that is written out does
  (`PieceHasNoDirective`), but the end of one and the beginning of the next can spell one
  (`DirectiveCanRemain`), exactly when a piece ends in the beginning of a directive that the
  following pieces complete (`DirectiveRemainsExactlyWhen`, `NoDirectiveRemains`).
- A stalled-check interval of 1 ms misses its next scan (`OneMillisecondMisses`).
- A negative exponential delay, which asks for no further attempt, overflows once the product
  does not fit and is the longest wait from attempt 64 on (`NegativeDelayIsFaithful`,
  `NegativeDelayTurnsPositive`).

## Model

| member | source | states |
|---|---|---|
| JobLife.RunSound | internal/lua/scripts/moveToFinished-14.lua:75-238 | In every state that any run of scripts, lock expiries and administration within `Allowed` can reach, each stored job occurs exactly once across wait, active, paused, prioritized, delayed, completed and failed, nothing else occurs there, and every locked or marked id is active |
| JobLife.StepSound | internal/lua/scripts/moveStalledJobsToWait-9.lua:44-122 | One step of that invariant, for each of the twenty-one scripts, parts of scripts and events, where `Allowed` lets it happen; where it does not, `Hazards` says exactly when the invariant is kept |
| JobLife.StepFollows | internal/lua/scripts/retryJob-11.lua:44-87 | Each allowed script makes for each id exactly one change that is legal for its view: only a lock holder moves a job out of active, only an unlocked active job is reclaimed, only a pending job is taken |
| JobLife.AcquireEffect | internal/lua/scripts/moveToActive-11.lua:54-97 | Acquisition moves exactly the replied job from pending to active under the caller's token, bumps ats, and touches no other id's view; when it does is in `Gates.AcquiresExactly` |
| JobLife.FinishFollows | internal/lua/scripts/moveToFinished-14.lua:75-220 | A finish with retention and fetch-next is, per id, one of: done (with atm bumped, defa cleared on failure, or deleted), evicted, taken, or nothing; which entries are evicted is in `Retention.FinishKeeps` |
| JobLife.RetryFollows | internal/lua/scripts/retryJob-11.lua:47-77 | A retry requeues its own job with atm bumped and the history written, and changes nothing for a caller without the lock |
| JobLife.DelayFollows | internal/lua/scripts/moveToDelayed-11.lua:49-74 | A delay postpones its own job, bumping atm only if asked to, and changes nothing for a caller without the lock; until when is in `DueTimes.PostponedUntil` |
| JobLife.ScanFollows | internal/lua/scripts/moveStalledJobsToWait-9.lua:53-120 | A scan reclaims marked unlocked active jobs with stc bumped and defa set past the limit, and nothing else |
| JobLife.AddFollows | internal/lua/scripts/addStandardJob-9.lua:80-114 | An add creates one pending job with a blank history, or leaves everything as it is |
| JobLife.IterationFollows | internal/lua/scripts/updateJobScheduler-12.lua:47-109 | An update creates the next iteration, tagged with its schedule, or nothing |
| JobLife.WithdrawFollows | internal/lua/scripts/addJobScheduler-11.lua:95-131 | An upsert first deletes exactly the current iteration of its schedule, exactly if it is pending in the sets or in the list the pause state points to |
| JobLife.EnterFollows | internal/lua/scripts/addJobScheduler-11.lua:150-197 | and then creates one iteration tagged with the schedule if its job does not exist, and changes nothing if it is refused; what else it can do, storing over that job, is in `Hazards.UpsertKeepsSound` |
| JobLife.PromoteFollows | internal/lua/scripts/promote-9.lua:33-61 | A promotion leaves every id's view as it is: the job stays pending |
| JobLife.ReprocessFollows | internal/lua/scripts/reprocessJob-9.lua:37-74 | A manual retry makes a finished job pending again, with attempts reset as asked |
| JobLife.ResumeMoves | internal/lua/scripts/pause-7.lua:32-50 | One resume moves a prefix of the paused list to the tail of wait and replies with what remains |
| JobLife.DrainFollows | internal/lua/scripts/drain-5.lua:20-41 | A drain deletes exactly the waiting, paused, prioritized and, if asked to, delayed jobs that no schedule spares, and changes no other |
| JobLife.RemoveFollows | internal/lua/scripts/removeJob-2.lua:30-44 | A removal deletes exactly the requested job, exactly if it is stored, unlocked and not the current iteration of a schedule |
| JobLife.LeaveRefused | internal/lua/scripts/includes/removeLock.lua:1-19 | Without the lock nothing is written, and the reply is never -3 |
| Shapes.RefusedReply | internal/lua/scripts/includes/removeLock.lua:1-19 | A finish, retry or delay without the lock is answered -1 if the job is gone, -2 if there is no lock, -6 if it is another's, and changes nothing but for the promotions that open a retry |
| Gates.AcquiresExactly | internal/lua/scripts/moveToActive-11.lua:54-97 | On a sound queue either script hands out a job if and only if the call is not limited, the queue is not paused, fewer jobs are active than the concurrency allows, and something waits, has a priority, or is delayed and due |
| Gates.AcquiresWhich | internal/lua/scripts/moveToActive-11.lua:73-91 | The job handed out is the one at the tail of wait; with wait empty and nothing due, one of least score among the prioritized |
| Gates.FetchesExactly | internal/lua/scripts/includes/fetchNextJob.lua:34-92 | A finish hands out the next job if and only if it is accepted, asked to fetch, and the same holds with its own place in active freed |
| Gates.PausedTakesNothing | internal/lua/scripts/includes/getQueueMetadata.lua:5-20 | In any run of scripts from a pause to the next resume no job becomes active |
| Gates.ConcurrencyHolds | internal/lua/scripts/includes/getQueueMetadata.lua:5-20 | In any run of scripts no more jobs are active than the concurrency allows, or than were active at the start |
| Shapes.StepShape | internal/lua/scripts/moveToActive-11.lua:54-97 | No script but pause and resume writes the pause flag, none the concurrency, and none moves a delayed job it does not promote or delete |
| Retention.FinishKeeps | internal/lua/scripts/moveToFinished-14.lua:164-190 | An accepted finish files the job at its finish time, then drops the expired entries of that bucket, then all but the newest, in this order; a count of zero deletes exactly the job; the HASHes that go are exactly those of the entries that go, and the other bucket stays |
| Retention.SurplusKeepsNewest | internal/lua/scripts/includes/removeJobsByMaxCount.lua:8-15 | With a count of n > 0 min(n, size) entries are left, and nothing dropped comes behind anything kept in the order of the set |
| Retention.AgedOutDropsExpired | internal/lua/scripts/includes/removeJobsByMaxAge.lua:9-24 | An entry goes if and only if it finished at or before now - 1000 * age; of more than 1000 such entries the 1000 latest go |
| Retention.CountKept | internal/lua/scripts/moveToFinished-14.lua:164-190 | With a count alone the bucket then holds min(n, old size + 1) entries, the job just finished among them if no entry is as late |
| DueTimes.PostponedUntil | internal/lua/scripts/moveToDelayed-11.lua:60-74 | A job accepted by moveToDelayed is due at now + delay, at once for a delay that is not positive, behind those due in that millisecond while its scores last |
| DueTimes.AddedUntil | internal/lua/scripts/includes/addDelayedJob.lua:8-23 | A job added with a positive delay is due at now + delay; one without is not delayed |
| DueTimes.IterationUntil | internal/lua/scripts/updateJobScheduler-12.lua:97-109 | The next iteration of a schedule is due at its slot, and not delayed if that has come |
| DueTimes.EnteredUntil | internal/lua/scripts/addJobScheduler-11.lua:180-197 | So is the iteration of an upsert |
| DueTimes.NotBeforeDue | internal/lua/scripts/includes/promoteDelayedJobs.lua:16-44 | In any run of scripts whose clocks are before the due millisecond of a delayed job, it stays delayed with its score, neither waiting nor active, unless promoted by hand or deleted |
| DueTimes.PromotedWhenDue | internal/lua/scripts/includes/promoteDelayedJobs.lua:16-44 | When the clock has come the next acquisition promotes it, unless 1000 jobs of no greater score go before it |
| Placement.RetriedGoes | internal/lua/scripts/retryJob-11.lua:64-77 | A retried job goes to the head of wait, with LIFO to the tail, or by its priority and the next turn among the prioritized |
| Placement.RetriedIsFetched | internal/lua/scripts/retryJob-11.lua:64-77 | so that with LIFO it is the next to be fetched, and without it all that wait go first |
| Placement.RevivedGoes | internal/lua/scripts/reprocessJob-9.lua:52-70 | A job retried by hand goes to the head of wait, or by its priority |
| Placement.PromotedGoes | internal/lua/scripts/promote-9.lua:40-58 | So does one promoted by hand |
| Placement.AddedGoes | internal/lua/scripts/addStandardJob-9.lua:106-114 | An added job without a delay goes to the head of wait, with LIFO to the tail, or by its priority |
| Placement.DueGo | internal/lua/scripts/includes/promoteDelayedJobs.lua:16-44 | The due jobs without a priority go to the head of wait in such an order that the earliest is taken first |
| Placement.DuePriority | internal/lua/scripts/includes/addJobWithPriority.lua:1-14 | A due job with a priority keeps it in its score |
| Hazards.DrainKeepsPlaces | internal/lua/scripts/includes/removeListJobs.lua:13-23 | DrainPending keeps every job in exactly one place if and only if no deleted job stands behind a spared one in wait or paused |
| Hazards.DrainLosesIteration | internal/lua/scripts/drain-5.lua:33-34 | A queue on which it does not |
| Hazards.RemovesExactly | internal/lua/scripts/removeJob-2.lua:30-44 | RemoveJob deletes a stored job if and only if it is not locked and not the iteration that its schedule is at |
| Hazards.RemoveKeepsSound | internal/lua/scripts/removeJob-2.lua:30-44 | RemoveJob keeps the queue sound if and only if it does not delete an unlocked job a scan has marked |
| Hazards.RemoveLeavesMark | internal/lua/scripts/removeJob-2.lua:34-42 | A queue on which it does |
| Hazards.AutoIdKeepsSound | internal/lua/scripts/addStandardJob-9.lua:86-114 | An add of any kind with an automatic id keeps the queue sound if and only if the id is free, or its job stands in the very sorted set the new one goes to |
| Hazards.AutoIdCollides | internal/lua/scripts/addStandardJob-9.lua:86-89 | A queue on which it does not |
| Hazards.UpsertKeepsSound | internal/lua/scripts/addJobScheduler-11.lua:120-197 | On a sound queue an upsert of any schedule keeps the queue sound if and only if the slot is free once the pending iteration is withdrawn, or the schedule has an interval, or nothing was withdrawn, or the job of the slot stands in the very sorted set it goes to |
| Hazards.UpsertKeepsBound | internal/lua/scripts/includes/storeJob.lua:29-31 | A job that an upsert stores over is pending with the HASH it had but for options and tag, and has an attempt left if and only if those it made are fewer than the new options allow |
| Hazards.UpsertStoresOver | internal/lua/scripts/addJobScheduler-11.lua:188-197 | A sound queue on which the upsert leaves an iteration completed in its one attempt also in wait, beyond its bound |
| Hazards.ManualRetryKeepsBound | inspector_admin.go:205-285 | A job retried by hand has an attempt left if and only if its attempts are reset or were not used up |
| Hazards.ManualRetryPassesBound | internal/lua/scripts/reprocessJob-9.lua:40-50 | A queue on which it has none |
| StalledScan.MarksStep | internal/lua/scripts/extendLock-2.lua:16-23 | Outside an effective scan a mark goes only by a heartbeat or a finishing script of the lock holder, and none appears |
| StalledScan.ScanMarksActive | internal/lua/scripts/moveStalledJobsToWait-9.lua:113-120 | After an effective scan the marked ids are exactly the active ones |
| StalledScan.ScanReclaims | internal/lua/scripts/moveStalledJobsToWait-9.lua:59-102 | An effective scan reclaims an id if and only if it is marked and unlocked, and then the id is in wait |
| StalledScan.ScanCounts | internal/lua/scripts/moveStalledJobsToWait-9.lua:72-100 | A reclaimed job has stc raised by one and defa set if and only if it was set or stc now exceeds the limit and neither the entry nor the slot of its schedule exists |
| StalledScan.ReclaimedOnlyIfUntended | internal/lua/scripts/moveStalledJobsToWait-9.lua:53-120 | In any run between two effective scans, a job reclaimed by the second stayed in active since the first, untouched, without a successful heartbeat, and its lock is gone |
| StalledScan.AbandonedIsReclaimed | internal/lua/scripts/moveStalledJobsToWait-9.lua:53-120 | A job unlocked at one effective scan and untouched until the next is in wait after it |
| Ordering.WaitLeavesFromTail | internal/lua/scripts/moveToActive-11.lua:73-91 | Successive fetches, by either script, take the waiting jobs from the tail one by one before any prioritized job |
| Arrivals.FirstComeFirstServed | internal/lua/scripts/addStandardJob-9.lua:106-114 | In any run of any scripts, of two standard jobs the one added later is not taken while the one added earlier has been waiting ever since |
| Arrivals.StepKeepsOrder | internal/lua/scripts/moveToActive-11.lua:57-91 | No script changes the order of the jobs that stay in wait |
| Arrivals.NotOvertaken | internal/lua/scripts/includes/fetchNextJob.lua:54-83 | No script takes a waiting job while another stands nearer to the tail |
| Ordering.ScanAppends | internal/lua/scripts/moveStalledJobsToWait-9.lua:57-102 | An effective scan appends to wait exactly the marked jobs without a lock, in the order it found them |
| Ordering.ReclaimedGoFirst | internal/lua/scripts/moveStalledJobsToWait-9.lua:101-102 | After the scan they are fetched before everything that was waiting, the last one found first, and then the others as before |
| Ordering.LeastScoreFirst | internal/lua/scripts/includes/moveJobFromPrioritizedToActive.lua:5-13 | With wait empty the prioritized job of least score is taken |
| Ordering.PriorityOrder | internal/lua/scripts/includes/getPriorityScore.lua:5-8 | Scores order jobs by priority and then by arrival modulo 2^32, in both directions |
| Ordering.DelayedInOrder | internal/lua/scripts/includes/getDelayedScore.lua:7-25 | A delayed job's score stands for its due millisecond and lies behind all others of that millisecond until 4096 are used |
| Ordering.PromotesDueJobs | internal/lua/scripts/includes/promoteDelayedJobs.lua:16-44 | Promoted are exactly the due jobs, earliest first; a due job is left only if 1000 no later ones were taken |
| Ledger.DelaysEraseFromFold | worker.go:1184-1194 | Deleting the DelayedError executions from any list of executions leaves attempts, history and outcome the same |
| Ledger.DelaysEraseFromDecision | worker.go:1173-1243 | and leaves every retry decision, which `Ledger.FailureDecision` spells out, the same |
| Ledger.FoldHistory | worker.go:2065-2077 | The accumulated trace is the list of failures in order, as many as attempts made, less one after a success |
| Ledger.FoldOutcome | worker.go:1753-1777 | Of executions none of which follows an end: attempts are those that were not postponements; all but the last failed without being final and with attempts left; the job is completed exactly if the last succeeded, and failed exactly if it failed and was final or was attempt max(1, attempts) |
| Ledger.FailureDecision | worker.go:1196-1243 | A failure without a delay finishes the job if and only if it is unrecoverable, attempts <= atm + 1, or the backoff is negative; else it is a retry with the LIFO option of the job for a backoff of zero, and a delay of the backoff otherwise |
| Ledger.ChangeConsistent | worker.go:1173-1243 | Every legal change of one job keeps its attempts, history, place and handler grants in step with its logged executions |
| Books.BookStep | worker.go:709-754 | Every script keeps the records of all jobs and acquisitions in step with the queue |
| Books.TakenExactly | internal/lua/scripts/includes/prepareJobForProcessing.lua:29-51 | Only acquiring scripts take a job, under their own token, and the reply names the job and carries its HASH |
| Books.FinishReply | internal/lua/scripts/moveToFinished-14.lua:95-98 | A finish is refused exactly when the lock is not held, and never fetches the job it finished |
| Workers.HoldStable | internal/lua/scripts/extendLock-2.lua:16-23 | A lock seen with a token that did not acquire it in this very step was there before, over the same unchanged HASH |
| Workers.TryOk | worker.go:709-754 | Acquisition keeps the invariant of all dispatchers, queue and book |
| Workers.BeatOk | worker.go:968-994 | So does a heartbeat |
| Workers.LocalOk | worker.go:441-554 | So do the steps a dispatcher takes on its own, among them the reads of runCtx and atm and the decision |
| WorkerSteps.ScriptReply | worker.go:1340-1357 | The reply of a finish, retry or delay is negative if and only if the lock was not held; -3 is never given; a prefetched job differs from the finished one |
| WorkerSteps.ScriptChange | internal/lua/scripts/moveToDelayed-11.lua:49-62 | The script moves exactly the caller's own job, exactly if it holds the lock, and exactly as told |
| WorkerSteps.SubmitOk | worker.go:1279-1358 | A finishing script, refused or not, keeps the invariant |
| WorkerSteps.StartOk | worker.go:768-797 | Starting a handler keeps the invariant; the lease it starts on was not started before |
| WorkerSteps.DepartOk | worker.go:1386-1405 | So does the exit of a dispatcher with the release of a prefetched lock |
| WorkerSteps.NextOk | worker.go:441-554 | Every step of every dispatcher, administrator, clock or failing call keeps the invariant |
| WorkerSteps.RunOk | worker.go:441-554 | The invariant holds in every state of every run |
| Leases.HeldContinuously | internal/lua/scripts/extendLock-2.lua:16-23 | Whoever sees its own token on the lock has held it in every state since the step that acquired the job, and the HASH has been its snapshot throughout |
| Leases.Fencing | internal/lua/scripts/retryJob-11.lua:53-62 | In every run a finish, retry or delay takes effect if and only if its execution holds the lock, held without interruption since acquisition; the -3 exits are unreachable |
| Leases.LostLockIsHarmless | worker.go:1346-1357 | A script of an execution that lost its lock leaves the view of every id, atm included, as it was |
| Leases.AtmReadIsCurrent | worker.go:1767-1777 | In every run, whenever the script of an execution takes effect, the atm it read in an earlier round trip, from the HASH or as a fallback from the snapshot, is the one stored |
| Leases.DecidedAsIfAtomic | worker.go:1196-1212 | and the decision is the one the HASH of that moment calls for, as if read, decision and script were one step; what it is and what it does to the queue is in `Ledger.FailureDecision` and `Verdicts.FailureTakesEffect` |
| Leases.EndedOnce | internal/lua/scripts/moveToFinished-14.lua:95-126 | Between two endings (finish, retry, delay, stall recovery) of a hold on one job lies an acquisition of it |
| Leases.EndsOwnLease | worker.go:1279-1358 | An accepted script ends the newest acquisition of the job, which is its own |
| Accounts.BookIsAccount | worker.go:1173-1243 | The records are exactly what the steps of the run say: accepted executions in order, handlers started, and RetryJob calls that took effect on this very job |
| Accounts.PostponementsLeaveNoTrace | worker.go:1446-1473 | In every run within `Allowed` a job never retried by hand has the attempts, history, start times and place of its executions with the postponements deleted |
| Accounts.FailureHistoryIsComplete | worker.go:2065-2077 | In these runs its stacktrace is the list of its failures in order, exactly atm many, or one less if it completed |
| Accounts.AttemptsStayBounded | worker.go:1753-1777 | In these runs, with no retry that keeps attempts, atm never passes max(1, attempts), and stays below it while the job is pending or active; `Hazards.UpsertKeepsBound` and `Hazards.ManualRetryKeepsBound` are the two ways out |
| Accounts.OutcomeIsExact | worker.go:1173-1243 | In these runs what has become of a job never retried by hand is exactly what its executions say: atm is the number that were not postponements, it is completed if and only if the last of them succeeded, and failed if and only if that failed and was final (stalled out, unrecoverable, negative backoff) or was the last attempt |
| Accounts.FailedHasUsedItsAttempts | worker.go:1753-1777 | In particular a failed job none of whose failures was final has made exactly max(1, attempts) attempts |
| Verdicts.FailureTakesEffect | worker.go:1196-1243 | Whenever a failure is accepted in a state that workers can reach: if it is unrecoverable, no attempt is left by the stored atm, or the backoff is negative, the job is kept among the failed as its options say; else with a backoff of zero it joins the ready jobs at the end its options say, and with a positive one it is due that much later |
| Verdicts.DelayTakesEffect | worker.go:1184-1194 | An accepted DelayedError leaves the HASH as it is and the job due after its delay, of at least a millisecond |
| Verdicts.EndTakesEffect | worker.go:1173-1182 | An accepted success is kept among the completed, and a stalled-out job among the failed, each by its own retention option |
| Accounts.HandlerStartsAreBounded | worker.go:768-797 | On a queue with or without schedules, the handler of a job that is no iteration and was never effectively retried by hand starts at most max(1, attempts) + max(0, stall limit) + postponements times in a run |
| Shutdown.OneMoreHandler | worker.go:441-486 | Once runCtx is cancelled a dispatcher starts at most one more handler |
| Shutdown.NoLockRemains | worker.go:1386-1405 | When all dispatchers of a worker have returned, no lock is held under any token it drew |
| Shutdown.DrainedLeavesExactly | worker.go:298-325 | Of a stopped worker whose jobs were not cancelled and whose finishing calls did not fail, a job whose newest acquisition was its own is in active if and only if the lock of that acquisition expired and no stall recovery or removal has ended it |
| Shutdown.DrainedWithoutExpiry | worker.go:298-325 | In particular it leaves nothing it acquired in active unless a lock expired |
| Shutdown.ExpiryStrandsJob | worker.go:813-911 | Whenever the last dispatcher of a draining worker runs a handler, an expiry leads to a stop with the job in active |
| StrandedRun.DrainLeavesJob | worker.go:298-325 | A complete run, for every stall limit, in which a worker drained without cancelled jobs or failed calls stops with its job in active |
| WakeKey.EnoughMembers | worker.go:380-396 | In every interleaving with any number of workers, the members left on a pushed key are at least the dispatchers still parked |
| WakeKey.DroppedAfterAll | worker.go:312-325 | A dropped key has no dispatcher left, parked or not |
| WakeKey.ParkedCanReturn | worker.go:606-619 | From every such state pops alone, one per parked dispatcher, bring all of them back |
| WakeKey.StopMembersDistinct | worker.go:391-395 | The pushed members are as many as the dispatchers: no two coincide in the sorted set |
| Names.SlotIdInjective | internal/lua/scripts/updateJobScheduler-12.lua:79-82 | An iteration id determines its schedule and its slot, whatever characters the schedule id has |
| ScheduleFrames.PlanFrame | internal/lua/scripts/updateJobScheduler-12.lua:86-95 | No script but the scheduler's own touches the scheduler entries or tags a job with a schedule, on any queue, sound or not |
| Schedules.EveryNextAdvances | internal/lua/scripts/includes/getJobSchedulerEveryNextMillis.lua:20-38 | The next slot of an interval schedule lies after the previous one and not before now, for every clock value |
| Schedules.EveryNextExact | internal/lua/scripts/includes/getJobSchedulerEveryNextMillis.lua:20-38 | It is one interval on if the clock has not passed that; else it is the first slot after the clock on the grid of the interval shifted by the offset, for offsets within the interval |
| Schedules.SuccessorExact | internal/lua/scripts/updateJobScheduler-12.lua:47-95 | A created successor goes to the slot of the interval of the entry, else of that in the job options, else to the slot sent; ic goes up by one, and nothing else changes in the entries |
| Schedules.UpsertKeepsCount | internal/lua/scripts/includes/storeJobScheduler.lua:61-65 | An accepted upsert writes its entry with the count of the one it replaces, or with one |
| Schedules.OneSuccessor | worker.go:902-908 | In every run, of upserts at any slot, taken or free, and of any other scripts on a queue sound or not, in which no upsert puts a schedule back to a slot that has created a successor, an iteration creates at most one, however often and by whomever it is run |
| Schedules.SecondNeedsRewind | internal/lua/scripts/updateJobScheduler-12.lua:79-95 | In every such run, a second successor of an iteration is created only if in between an upsert has put the schedule to its slot or before it |
| RewoundRun.OneIterationCreatesTwice | internal/lua/scripts/addJobScheduler-11.lua:120-197 | A complete run in which one iteration creates two successors, at different slots, and the upsert in between is the first one repeated |
| Schedules.NextOk | internal/lua/scripts/addJobScheduler-11.lua:95-197 | Every step, redefinition at any slot included, keeps every iteration, stored or running, named after its schedule, and offsets not negative |
| Schedules.NextSound | internal/lua/scripts/updateJobScheduler-12.lua:79-109 | Of these steps a pass and a reschedule keep the queue sound always, another script if it is allowed, an upsert if and only if it fits as in `Hazards.UpsertKeepsSound` |
| Schedules.IntervalLands | internal/lua/scripts/addJobScheduler-11.lua:150-178 | The upsert of an interval schedule is refused with -11 if and only if, the pending iteration withdrawn, the jobs of its slot and of the 32 slots after it all exist; else it goes to the first of them that is free |
| ScheduleLimits.LimitHolds | worker.go:1020-1030 | ic never passes a positive limit, although comparing and incrementing are separate steps, in every run whose accepted upserts set no limit below the count, do not go behind an iteration of the schedule that is stored or being run, and leave room for one that has compared at the very slot |
| ScheduleLimits.KeptSlotPassesLimit | internal/lua/scripts/addJobScheduler-11.lua:133-137 | After an upsert that keeps the slot, the creation by a pass that has compared the old limit passes the new one if and only if the new entry has no room |
| ScheduleLimits.LoweredLimitIsPassed | internal/lua/scripts/includes/storeJobScheduler.lua:61-65 | A case in which it does |
| Schedules.AdvancesExactlyWhen | internal/lua/scripts/updateJobScheduler-12.lua:60-86 | A created successor lies after its producer if and only if the schedule has an interval or the computed slot does |
| Schedules.EarlyIterationRepeats | worker.go:1072-1091 | A pattern iteration run before its slot can create its own slot again and remain current |
| Paths.ResolvedInside | internal/lua/preprocess.go:140-149 | Whatever the directory, a resolved reference is a path of plain components below the root |
| Paths.ResolvesExactly | internal/lua/preprocess.go:140-149 | In a script at any depth below the root, a reference is refused if and only if it begins with a slash, holds two dots in a row, or names nothing in the root itself; else it is the path of the directory of the script followed by the components of the reference, less empty ones and dots |
| Paths.NestedResolves | internal/lua/preprocess.go:130-149 | In particular plain components name the script at that path from the directory: both forms the comment promises |
| Includes.EdgesFollowDirectories | internal/lua/preprocess.go:87-106 | Every directive of every script an entry leads to is resolved like that |
| Paths.SiblingResolves | internal/lua/preprocess.go:130-149 | A plain reference in a script of the root names the script of that name beside it |
| IncludeOnce.TextMeansSoundGraph | internal/lua/preprocess.go:72-128 | If there is text, every reachable file exists, every reference in it resolves inside the root, and no path from the entry repeats a file |
| IncludeOnce.SoundGraphGivesText | internal/lua/preprocess.go:72-128 | Conversely, if that holds, directives are apart and no path has more than 32 steps, there is text |
| IncludeOnce.CycleIsReal | internal/lua/preprocess.go:76-106 | A reported cycle is a path from the entry that comes back to the reported file |
| IncludeOnce.ErrorMeansBlame | internal/lua/preprocess.go:72-128 | Every error names a reachable file that has what the error says |
| IncludeOnce.WrittenExactlyOnce | internal/lua/preprocess.go:88-127 | The pieces written are exactly those of the reachable files, each once |
| IncludeOnce.ExpandedBeforeUse | internal/lua/preprocess.go:107-127 | Text behind a directive follows every piece of every file the directive leads to |
| IncludeOnce.BlankLineBreaks | internal/lua/preprocess.go:88-125 | An entry of two directives, whatever they name, with an empty line between them never expands |
| Includes.ApartExactly | internal/lua/preprocess.go:117-124 | No slice of a file is taken with a start beyond its end if and only if no directive begins where the one before it ends |
| Matcher.FindAllComplete | internal/lua/preprocess.go:88-88 | The matches found in any text are in order, do not overlap, begin and end where the expression matches, and no match begins in between |
| Matcher.SpelledMatches | internal/lua/preprocess.go:35-35 | Wherever the expression can be spelled out in a text, part by part, there is a match with that name that ends no earlier |
| Matcher.MatchIsSpelled | internal/lua/preprocess.go:35-35 | and every match is spelled out like that |
| Matcher.WrittenMatches | internal/lua/preprocess.go:35-35 | A directive as it is written, with white space before it, matches from that white space to the last line end behind it and captures its name |
| Remnants.DirectiveRemainsExactlyWhen | internal/lua/preprocess.go:54-127 | The text returned holds a directive if and only if somewhere on a fresh line the rest of a piece is the beginning of a directive that the pieces behind it complete |
| Remnants.NoDirectiveRemains | internal/lua/preprocess.go:54-127 | No directive remains if no piece ends in the beginning of one |
| Remnants.CompletedIsUnfinished | internal/lua/preprocess.go:97-126 | Every directive that remains begins in a piece that ends in the beginning of one |
| Remnants.DirectiveCanRemain | internal/lua/preprocess.go:54-127 | Two scripts that expand without error to a text that is a directive |
| Preprocessor.PieceHasNoDirective | internal/lua/preprocess.go:97-126 | The search finds nothing in any piece that is written out |
| Preprocessor.PiecesAndDirectives | internal/lua/preprocess.go:91-126 | The pieces of a file and its directives, in turn, are its text: nothing else is dropped |
| Preprocessor.Expander.Expand | internal/lua/preprocess.go:72-128 | The recursive method with buffer, sets and cursor gives the outcome of the specification and restores the stack on every exit |
| Preprocessor.Expander.Write | internal/lua/preprocess.go:97-100 | The buffer stays the text of the pieces written |
| Preprocessor.Preprocess | internal/lua/preprocess.go:54-63 | Text exactly when the search succeeds, and then the text of its pieces; else its error |
| Pagination.AscendingWindow | internal/lua/scripts/getRanges-1.lua:19-41 | For all indices and lists, the tail window turned round is the head window of the reversed list under Redis clamping |
| Inspector.PagesListBucket | inspector_list.go:46-123 | On a sound queue successive ListJobs calls, page after page of any size, together return every job of the bucket once with its HASH, oldest first when ascending, and change nothing |
| Pagination.PagesCoverContents | internal/lua/scripts/getRanges-1.lua:19-41 | Successive windows of any size of a sequence, put together, are the sequence |
| Pagination.TurnRound | inspector_list.go:118-120 | The ids are reversed in place |
| Inspector.ListJobs | inspector_list.go:46-123 | The result is the window of the bucket in the requested order, read from wait or the legacy list as the pause state says, less jobs whose HASH is gone |
| Inspector.GetRanges | internal/lua/scripts/getRanges-1.lua:43-69 | The ids of the window; a legacy marker at the tail is dropped unless it is alone |
| Inspector.FetchJobs | inspector_list.go:134-164 | The stored jobs among the ids, in order |
| Inspector.PageIsWindow | inspector_list.go:134-164 | On a sound queue no id of the window is without its job |
| Inspector.Resume | inspector_admin.go:336-354 | Wait followed by paused stays one sequence; success if and only if wait was empty or at most 700000 were parked, and then all are in wait; else the exact remainder is reported |
| Inspector.RoundsConserve | internal/lua/scripts/pause-7.lua:38-49 | After any number of rounds the sequence is conserved, and exactly 7000 a round have moved |
| Cadence.NextScanIsEffective | worker.go:631-675 | The next scan of a lone worker finds the key gone for every phase of the clock if and only if the interval's whole milliseconds exceed the TTL |
| Cadence.TtlLeavesATenth | worker.go:669-675 | The TTL is nine tenths of the interval in whole milliseconds, and at least one |
| Cadence.TenMillisecondsSuffice | worker.go:669-675 | which every interval of at least 10 ms does |
| Cadence.OneMillisecondMisses | worker.go:669-675 | and 1 ms does not |
| Cadence.EffectiveScansApart | internal/lua/scripts/moveStalledJobsToWait-9.lua:44-48 | Effective scans of any number of workers are more than the earlier one's TTL apart |
| Backoff.ExponentialIsClamped | backoff.go:151-173 | For every positive delay and attempt the result is min(delay * 2^(n-1), 2^63 - 1), and neither shift nor product overflows |
| Backoff.OtherBackoffs | backoff.go:151-173 | A fixed backoff is its delay at every attempt; no backoff, another kind, or no attempt give zero |
| Backoff.ExponentialIsMonotone | backoff.go:151-173 | Later attempts never wait less |
| Backoff.NegativeDelayIsFaithful | backoff.go:151-173 | For every negative delay and attempt the result is the doubled delay if and only if the product fits and at most 63 attempts were made |
| Backoff.ManyAttemptsSaturate | backoff.go:159-163 | From attempt 64 on the result is the largest duration for every delay |
| Backoff.NegativeDelayTurnsPositive | backoff.go:159-163 | so that a delay of -1, which asks for no retry, becomes the longest wait |
| Store.Keys.MoveToActive | internal/lua/scripts/moveToActive-11.lua:54-97 | The command sequence has the effect and reply of the acquisition step |
| Store.Keys.FetchNextJob | internal/lua/scripts/includes/fetchNextJob.lua:34-92 | and this one of the fetch after a finish, with the error raised on a marker that promises a prioritized job when there is none |
| Store.Keys.MoveToFinished | internal/lua/scripts/moveToFinished-14.lua:75-220 | The command sequence has the effect and reply of the finish step, with retention and fetch |
| Store.Keys.RetryJob | internal/lua/scripts/retryJob-11.lua:44-87 | The command sequence has the effect and reply of the retry step |
| Store.Keys.MoveToDelayed | internal/lua/scripts/moveToDelayed-11.lua:45-96 | The command sequence has the effect and reply of the delay step |
| Store.Keys.ExtendLock | internal/lua/scripts/extendLock-2.lua:16-23 | The heartbeat never creates a lock and unmarks only under its token |
| Store.Keys.ReleaseLock | internal/lua/scripts/releaseLock-1.lua:15-19 | The lock goes only under its token |
| Store.Keys.MoveStalledJobsToWait | internal/lua/scripts/moveStalledJobsToWait-9.lua:44-122 | Both loops together have the effect of the scan step |
| Store.Keys.PromoteDelayedJobs | internal/lua/scripts/includes/promoteDelayedJobs.lua:16-44 | The loop promotes as the promotion step does |
| Store.Keys.UpdateJobScheduler | internal/lua/scripts/updateJobScheduler-12.lua:47-109 | The command sequence has the effect and reply of the iteration step |
| Store.Keys.AddJobScheduler | internal/lua/scripts/addJobScheduler-11.lua:120-197 | The command sequence has the effect and reply of the upsert: withdrawal, search for a slot, refusal with -10 or -11 or entry, also over an existing job |
| Store.Keys.Retract | internal/lua/scripts/addJobScheduler-11.lua:95-118 | The command sequence deletes the pending iteration as withdrawing does, and says whether it did |
| Store.Keys.Scan | internal/lua/scripts/addJobScheduler-11.lua:153-178 | The loop over the slots stops where the search of the upsert does |
| Store.Keys.StoreJob | internal/lua/scripts/includes/storeJob.lua:5-36 | Storing writes options and tag over whatever HASH is there, keeping its other fields, and files the id |
| Store.Keys.ChooseSlot | internal/lua/scripts/updateJobScheduler-12.lua:53-77 | The next slot comes from the interval of the entry, else from that of the job options, else from the caller |
| Store.Keys.Add | internal/lua/scripts/addStandardJob-9.lua:80-125 | The command sequence has the effect and reply of the add step in its three variants |
| Store.Keys.Promote | internal/lua/scripts/promote-9.lua:33-61 | The command sequence has the effect and reply of the promotion of one job |
| Store.Keys.Reprocess | internal/lua/scripts/reprocessJob-9.lua:36-74 | The command sequence has the effect and reply of the manual retry |
| Store.Keys.ResumeOnce | internal/lua/scripts/pause-7.lua:32-50 | The command sequence has the effect and reply of one resume |
| Store.Keys.Drain | internal/lua/scripts/drain-5.lua:20-41 | Emptying collection by collection is the drain step |
| Store.Keys.RemoveJob | internal/lua/scripts/removeJob-2.lua:30-44 | The command sequence has the effect and reply of the removal |

## Left out

- Workers.Next: the dispatchers are a state machine on values, because their steps interleave; goroutines, channels and contexts are represented by phases and flags only.
- A call whose script ran but whose reply was lost, and a failing `releaseLock`: a failed finishing call is modelled as one whose script did not run.
- Workers of other BullMQ implementations on the same queue.
- Wake-ups of idle dispatchers through the shared marker key, and the timing of idle waits.
- Events, per-minute metrics, tracing, logging, and the HASH fields that only they or the caller read (`returnvalue`, `failedReason`, `finishedOn`, `delay`, `pb`).
- Parent and child jobs, deduplication, and the rate limiter's window; whether a fetch is limited is an argument.
- Schedules.OneSuccessor: takes from the cron library that the next fire lies after the clock.
- The end date of a schedule, which only stops a reschedule earlier.
- The slot at which the search of an upsert begins, from start date, interval and offset or from the cron library: it is an argument, and any slot.
- Matcher.MatchAt: texts are sequences of characters, so bytes that are not valid UTF-8 are not covered.
- Retry delays are whole milliseconds in the worker model; a positive delay below one millisecond acts as one millisecond there, as in the code.
- Jitter, custom backoff strategies and retry-delay overrides: the chosen delay is an argument of the decision.
- Encoding of options and fields in JSON and MessagePack, key names, script loading and reloading.
