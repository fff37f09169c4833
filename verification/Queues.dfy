/**
  One queue's keys in Redis, and what each Lua script does to them in one atomic step.
  Markers, events, metrics and rate-limiter counters are not kept; whether a fetch is rate
  limited is an argument of the step.
 */
module Queues {
  import opened Wrappers
  import opened Lists
  import opened SortedSets

  type Id = string
  type SchedulerId = string

  /** Lock tokens. NO_LOCK is the text "0", with which the scripts neither set nor check a lock. */
  type Token = nat
  const NO_LOCK: Token := 0

  /** keepJobs: count 0 removes at once, no count keeps all; age is in seconds. */
  datatype Keep = Keep(count: Option<int>, age: Option<int>)

  datatype JobOpts = JobOpts(attempts: int, lifo: bool, priority: int, keepCompleted: Keep, keepFailed: Keep)

  /** The fields of a job HASH that the lease protocol reads or writes. */
  datatype Job = Job(
    opts: JobOpts,
    rjk: Option<SchedulerId>,
    atm: int,
    ats: int,
    stc: int,
    defa: bool,
    trace: seq<string>,
    starts: seq<int>,
    processedOn: int)

  /** The arrays stacktrace and mkqAttemptsAt, written together. */
  datatype History = History(trace: seq<string>, starts: seq<int>)

  type Interval = n: int | 0 < n witness 1

  datatype Scheduler = Scheduler(every: Option<Interval>, limit: int, ic: int, offset: int)

  /** What rescheduleNext sends: the slot it computed, and the interval in the job options. */
  datatype Timing = Timing(next: int, interval: Option<Interval>)

  datatype Bucket = Completed | Failed

  datatype End = Head | Tail

  datatype Queue = Queue(
    wait: seq<Id>,
    active: seq<Id>,
    parked: seq<Id>, // the legacy `paused` list
    prioritized: ZSet,
    delayed: ZSet,
    completed: ZSet,
    failed: ZSet,
    stalled: set<Id>,
    lock: map<Id, Token>,
    jobs: map<Id, Job>,
    paused: bool, // meta.paused
    concurrency: Option<int>, // meta.concurrency
    counter: nat, // id
    pc: nat,
    checking: bool, // stalled-check exists
    repeat: map<SchedulerId, int>,
    schedulers: map<SchedulerId, Scheduler>)

  /** Got: a job was locked and returned. NoJob: the {0, 0, ...} replies. Raised: the script stopped with an error. */
  datatype Reply = Code(code: int) | Got(id: Id, job: Job) | NoJob | Raised

  // ---------- names and defaults ----------

  /** No custom id. */
  const AUTO: Id := ""

  const NO_OPTS: JobOpts := JobOpts(0, false, 0, Keep(None, None), Keep(None, None))

  /** What a HASH write to a missing key starts from. */
  const BLANK: Job := Job(NO_OPTS, None, 0, 0, 0, false, [], [], 0)

  predicate IsMarker(id: Id) {
    |id| >= 2 && id[0] == '0' && id[1] == ':'
  }

  function Digit(n: nat): char
    requires n < 10
  {
    '0' + n as char
  }

  function Digits(n: nat): (s: string)
    ensures s != "" && forall c :: c in s ==> '0' <= c <= '9'
  {
    if n < 10 then [Digit(n)] else Digits(n / 10) + [Digit(n % 10)]
  }

  function Decimal(n: int): string {
    if n < 0 then "-" + Digits(-n) else Digits(n)
  }

  function SlotId(sid: SchedulerId, millis: int): Id {
    "repeat:" + sid + ":" + Decimal(millis)
  }

  function JobOf(q: Queue, id: Id): Job {
    if id in q.jobs then q.jobs[id] else BLANK
  }

  function Elements<T(==)>(s: seq<T>): (r: set<T>) {
    set x | x in s
  }

  predicate Gated(q: Queue) {
    q.paused || (q.concurrency.Some? && |q.active| >= q.concurrency.value)
  }

  // ---------- shared steps (the includes) ----------

  function Push(s: seq<Id>, end: End, id: Id): seq<Id> {
    if end == Head then [id] + s else s + [id]
  }

  /** getPriorityScore. */
  function PriorityScore(priority: int, pc: nat): int {
    priority * 0x1_0000_0000 + pc % 0x1_0000_0000
  }

  /** addJobWithPriority. */
  function AddWithPriority(q: Queue, id: Id, priority: int): Queue {
    q.(pc := q.pc + 1, prioritized := q.prioritized[id := PriorityScore(priority, q.pc + 1)])
  }

  /** Push to wait, or to prioritized when the HASH carries a priority. */
  function Enqueue(q: Queue, id: Id, end: End): Queue {
    var priority := JobOf(q, id).opts.priority;
    if priority == 0 then q.(wait := Push(q.wait, end, id)) else AddWithPriority(q, id, priority)
  }

  function InScoreRange(z: ZSet, lo: int, hi: int): seq<Id> {
    Filter(Ascending(z), id => id in z && lo <= z[id] <= hi)
  }

  function Due(delayed: ZSet, now: int): (ids: seq<Id>) {
    var all := InScoreRange(delayed, 0, (now + 1) * 0x1000 - 1);
    if |all| <= 1000 then all else all[..1000]
  }

  function EnqueueEach(q: Queue, ids: seq<Id>): Queue
    decreases |ids|
  {
    if ids == [] then q else EnqueueEach(Enqueue(q, ids[0], Head), ids[1..])
  }

  /** promoteDelayedJobs. */
  function PromoteDue(q: Queue, now: int): Queue {
    var ids := Due(q.delayed, now);
    EnqueueEach(q.(delayed := q.delayed - Elements(ids)), ids)
  }

  /** getDelayedScore. */
  function DelayedScore(delayed: ZSet, now: int, delay: int): int {
    var at := if delay > 0 then now + delay else now;
    var lo, hi := at * 0x1000, (at + 1) * 0x1000 - 1;
    var taken := InScoreRange(delayed, lo, hi);
    if taken == [] then
      lo
    else
      var last := taken[|taken| - 1];
      if last !in delayed || delayed[last] >= hi then hi else delayed[last] + 1
  }

  function PopWait(q: Queue): (Queue, Id)
    requires q.wait != []
  {
    var n := |q.wait| - 1;
    (q.(wait := q.wait[..n], active := [q.wait[n]] + q.active), q.wait[n])
  }

  /** moveJobFromPrioritizedToActive. */
  function PopPrioritized(q: Queue): (Queue, Option<Id>) {
    if q.prioritized == map[] then
      (q.(pc := 0), None)
    else
      var id := First(q.prioritized);
      (q.(prioritized := q.prioritized - {id}, active := [id] + q.active), Some(id))
  }

  /** The choice of a job in moveToActive: a marker at the tail of wait is dropped once. */
  function Pull(q: Queue): (Queue, Option<Id>) {
    if q.wait == [] then
      PopPrioritized(q)
    else
      var (q1, id) := PopWait(q);
      if !IsMarker(id) then
        (q1, Some(id))
      else
        var q2 := q1.(active := RemoveFirst(q1.active, id));
        if q2.wait == [] then PopPrioritized(q2) else var (q3, id3) := PopWait(q2); (q3, Some(id3))
  }

  /** The choice of a job in fetchNextJob. */
  function PullNext(q: Queue): (Queue, Option<Id>) {
    if q.wait == [] then
      PopPrioritized(q)
    else
      var (q1, id) := PopWait(q);
      if !IsMarker(id) then
        (q1, Some(id))
      else
        var q2 := q1.(active := RemoveFirst(q1.active, id));
        if id == "0:0" then PopPrioritized(q2) else (q2, None)
  }

  /** prepareJobForProcessing. */
  function Prepare(q: Queue, id: Id, token: Token, now: int): (Queue, Reply) {
    var was := JobOf(q, id);
    var job := was.(ats := was.ats + 1, processedOn := now);
    (q.(lock := if token == NO_LOCK then q.lock else q.lock[id := token], jobs := q.jobs[id := job]), Got(id, job))
  }

  function PullBy(q: Queue, next: bool): (Queue, Option<Id>) {
    if next then PullNext(q) else Pull(q)
  }

  /** The tail of wait is the marker that stands for a prioritized job; without one fetchNextJob fails on it. */
  predicate Promises(q: Queue) {
    q.wait != [] && q.wait[|q.wait| - 1] == "0:0"
  }

  function Fetch(q: Queue, token: Token, now: int, next: bool): (Queue, Reply) {
    var (q1, id) := PullBy(q, next);
    if id.Some? then Prepare(q1, id.value, token, now) else (q1, if next && Promises(q) then Raised else NoJob)
  }

  /** moveToActive, and fetchNextJob when next is set. */
  function Acquire(q: Queue, token: Token, now: int, limited: bool, next: bool): (Queue, Reply) {
    var q1 := PromoteDue(q, now);
    if limited || Gated(q) then (q1, NoJob) else Fetch(q1, token, now, next)
  }

  function RemoveLock(q: Queue, id: Id, token: Token): (Queue, int) {
    if token == NO_LOCK then
      (q, 0)
    else if id !in q.lock then
      (q, -2)
    else if q.lock[id] != token then
      (q, -6)
    else
      (q.(lock := q.lock - {id}, stalled := q.stalled - {id}), 0)
  }

  /** updateJobFields with the failure arrays, or with nothing. */
  function WriteHistory(q: Queue, id: Id, history: Option<History>): Queue {
    if history.None? then
      q
    else
      q.(jobs := q.jobs[id := JobOf(q, id).(trace := history.value.trace, starts := history.value.starts)])
  }

  /**
    The steps that moveToFinished, retryJob and moveToDelayed open with: the job must exist
    and be locked with token; then the lock goes, the fields are written and active loses the
    id. Code -3 is returned after the lock and fields were already touched.
   */
  function Leave(q: Queue, id: Id, token: Token, history: Option<History>): (Queue, int) {
    if id !in q.jobs then
      (q, -1)
    else
      var (q1, code) := RemoveLock(q, id, token);
      if code < 0 then
        (q1, code)
      else
        var q2 := WriteHistory(q1, id, history);
        if id in q2.active then (q2.(active := RemoveLast(q2.active, id)), 0) else (q2, -3)
  }

  function BumpAtm(q: Queue, id: Id): Queue {
    q.(jobs := q.jobs[id := JobOf(q, id).(atm := JobOf(q, id).atm + 1)])
  }

  // ---------- finished sets and retention ----------

  function Finished(q: Queue, bucket: Bucket): ZSet {
    if bucket == Completed then q.completed else q.failed
  }

  function SetFinished(q: Queue, bucket: Bucket, z: ZSet): Queue {
    if bucket == Completed then q.(completed := z) else q.(failed := z)
  }

  function Evict(q: Queue, bucket: Bucket, ids: set<Id>): Queue {
    SetFinished(q, bucket, Finished(q, bucket) - ids).(jobs := q.jobs - ids)
  }

  /** removeJobsByMaxAge: at most the 1000 newest of the expired entries. */
  function AgedOut(z: ZSet, now: int, age: int): set<Id> {
    var expired := Filter(Ascending(z), id => id in z && z[id] <= now - age * 1000);
    Elements(if |expired| < 1000 then expired else expired[|expired| - 1000..])
  }

  /** removeJobsByMaxCount: all but the count newest. */
  function Surplus(z: ZSet, count: int): set<Id> {
    var all := Ascending(z);
    if count <= 0 || count >= |all| then {} else Elements(all[..|all| - count])
  }

  function Trim(q: Queue, bucket: Bucket, keep: Keep, now: int): Queue {
    var q1 := if keep.age.Some? then Evict(q, bucket, AgedOut(Finished(q, bucket), now, keep.age.value)) else q;
    if keep.count.Some? then Evict(q1, bucket, Surplus(Finished(q1, bucket), keep.count.value)) else q1
  }

  function File(q: Queue, id: Id, bucket: Bucket, now: int): Queue {
    var q1 := SetFinished(q, bucket, Finished(q, bucket)[id := now]);
    if bucket == Failed then q1.(jobs := q1.jobs[id := JobOf(q1, id).(defa := false)]) else q1
  }

  /** The end of a job in moveToFinished: file it under its bucket, or delete it. */
  function Settle(q: Queue, id: Id, bucket: Bucket, keep: Keep, now: int): Queue {
    if keep.count == Some(0) then
      q.(jobs := q.jobs - {id})
    else
      Trim(File(q, id, bucket, now), bucket, keep, now)
  }

  // ---------- the scripts ----------

  datatype Op =
    | Add(custom: Id, opts: JobOpts, delay: int, now: int)
    | MoveToActive(token: Token, now: int, limited: bool)
    | MoveToFinished(id: Id, token: Token, bucket: Bucket, keep: Keep, history: Option<History>, now: int,
                     fetchNext: bool, limited: bool)
    | RetryJob(id: Id, token: Token, lifo: bool, history: Option<History>, now: int)
    | MoveToDelayed(id: Id, token: Token, now: int, delay: int, skipAttempt: bool, history: Option<History>)
    | ExtendLock(id: Id, token: Token)
    | ReleaseLock(id: Id, token: Token)
    | MoveStalled(limit: int, order: seq<Id>)
    | Promote(id: Id)
    | Reprocess(id: Id, bucket: Bucket, resetAtm: bool, resetAts: bool)
    | Pause
    | Resume
    | Drain(withDelayed: bool)
    | RemoveJob(id: Id)
    | UpdateScheduler(sid: SchedulerId, producer: Id, timing: Timing, opts: JobOpts, now: int)
    | Withdraw(sid: SchedulerId)
    | Enter(sid: SchedulerId, entry: Scheduler, slot: int, opts: JobOpts, now: int, removed: bool)
    | DropScheduler(sid: SchedulerId)
    | DropRepeat(sid: SchedulerId)
    | ExpireLock(id: Id)
    | ExpireCheck

  /** What storeJob makes of a HASH: the fields it writes, and those that were there. */
  function Stored(was: Job, opts: JobOpts, rjk: Option<SchedulerId>): Job {
    was.(opts := opts, rjk := if rjk.Some? then rjk else was.rjk)
  }

  /** storeJob followed by the choice of delayed, prioritized or wait. */
  function Store(q: Queue, id: Id, opts: JobOpts, rjk: Option<SchedulerId>, delay: int, now: int): Queue {
    var q1 := q.(jobs := q.jobs[id := Stored(JobOf(q, id), opts, rjk)]);
    if delay > 0 then
      q1.(delayed := q1.delayed[id := DelayedScore(q1.delayed, now, delay)])
    else if opts.priority > 0 then
      AddWithPriority(q1, id, opts.priority)
    else
      q1.(wait := Push(q1.wait, if opts.lifo then Tail else Head, id))
  }

  /** addStandardJob, addPrioritizedJob and addDelayedJob; without a custom id the counter names the job. */
  function AddJob(q: Queue, custom: Id, opts: JobOpts, delay: int, now: int): (Queue, Reply) {
    var q1 := q.(counter := q.counter + 1);
    if custom != AUTO && custom in q.jobs then
      (q1, Code(0))
    else
      (Store(q1, if custom != AUTO then custom else Digits(q1.counter), opts, None, delay, now), Code(0))
  }

  function FinishJob(q: Queue, id: Id, token: Token, bucket: Bucket, keep: Keep, history: Option<History>, now: int,
                     fetchNext: bool, limited: bool): (Queue, Reply) {
    var (q1, code) := Leave(q, id, token, history);
    if code < 0 then
      (q1, Code(code))
    else
      var q2 := Settle(BumpAtm(q1, id), id, bucket, keep, now);
      if fetchNext then Acquire(q2, token, now, limited, true) else (q2, Code(0))
  }

  function Retry(q: Queue, id: Id, token: Token, lifo: bool, history: Option<History>, now: int): (Queue, Reply) {
    var (q1, code) := Leave(PromoteDue(q, now), id, token, history);
    if code < 0 then
      (q1, Code(code))
    else
      (BumpAtm(Enqueue(q1, id, if lifo then Tail else Head), id), Code(0))
  }

  function DelayJob(q: Queue, id: Id, token: Token, now: int, delay: int, skipAttempt: bool, history: Option<History>)
    : (Queue, Reply)
  {
    var (q1, code) := Leave(q, id, token, history);
    if code < 0 then
      (q1, Code(code))
    else
      var q2 := if skipAttempt then q1 else BumpAtm(q1, id);
      (q2.(delayed := q2.delayed[id := DelayedScore(q2.delayed, now, delay)]), Code(0))
  }

  function Extend(q: Queue, id: Id, token: Token): (Queue, Reply) {
    if id in q.lock && q.lock[id] == token then (q.(stalled := q.stalled - {id}), Code(1)) else (q, Code(0))
  }

  function Release(q: Queue, id: Id, token: Token): (Queue, Reply) {
    if id in q.lock && q.lock[id] == token then (q.(lock := q.lock - {id}), Code(1)) else (q, Code(0))
  }

  /** A job that still belongs to a scheduler is never failed for stalling. */
  predicate Repeatable(q: Queue, job: Job) {
    job.rjk.Some? && (job.rjk.value in q.schedulers || job.rjk.value in q.repeat)
  }

  /** One iteration of the loop in moveStalledJobsToWait. */
  function Reclaim(q: Queue, id: Id, limit: int): Queue {
    if IsMarker(id) then
      q.(active := RemoveFirst(q.active, id))
    else if id in q.lock || id !in q.active then
      q
    else
      var was := JobOf(q, id);
      var job := was.(stc := was.stc + 1, defa := was.defa || (was.stc + 1 > limit && !Repeatable(q, was)));
      q.(active := RemoveFirst(q.active, id), jobs := q.jobs[id := job], wait := q.wait + [id])
  }

  function ReclaimEach(q: Queue, ids: seq<Id>, limit: int): Queue
    decreases |ids|
  {
    if ids == [] then q else ReclaimEach(Reclaim(q, ids[0], limit), ids[1..], limit)
  }

  /** moveStalledJobsToWait; order is the order in which SMEMBERS lists the stalled set. */
  function ScanStalled(q: Queue, limit: int, order: seq<Id>): Queue {
    if q.checking then
      q
    else
      var q1 := ReclaimEach(q.(stalled := {}, checking := true), order, limit);
      q1.(stalled := Elements(q1.active))
  }

  function PromoteJob(q: Queue, id: Id): (Queue, Reply) {
    if id in q.delayed then
      var q1 := q.(delayed := q.delayed - {id});
      var q2 := if q1.wait != [] && IsMarker(q1.wait[0]) then q1.(wait := q1.wait[1..]) else q1;
      (Enqueue(q2, id, Head), Code(0))
    else
      (q, Code(-3))
  }

  function ReprocessJob(q: Queue, id: Id, bucket: Bucket, resetAtm: bool, resetAts: bool): (Queue, Reply) {
    if id !in q.jobs then
      (q, Code(-1))
    else if id !in Finished(q, bucket) then
      (q, Code(-3))
    else
      var q1 := SetFinished(q, bucket, Finished(q, bucket) - {id});
      var was := JobOf(q, id);
      var job := was.(processedOn := 0, atm := if resetAtm then 0 else was.atm, ats := if resetAts then 0 else was.ats);
      (Enqueue(q1.(jobs := q1.jobs[id := job]), id, Head), Code(1))
  }

  const RESUME_BATCH := 7000

  /** One run of pause-7.lua with "resumed"; the reply counts what is still parked. */
  function ResumeRound(q: Queue): (Queue, Reply) {
    var q1 := q.(paused := false);
    if q1.parked == [] then
      (q1, Code(0))
    else if q1.wait == [] then
      (q1.(wait := q1.parked, parked := []), Code(0))
    else
      var n := if |q1.parked| < RESUME_BATCH then |q1.parked| else RESUME_BATCH;
      (q1.(wait := q1.wait + q1.parked[..n], parked := q1.parked[n..]), Code(|q1.parked| - n))
  }

  /** The ids drain-5.lua spares: the current iteration of every scheduler. */
  function Spared(q: Queue): (ids: set<Id>) {
    set sid | sid in q.repeat :: SlotId(sid, q.repeat[sid])
  }

  /** removeListJobs: deletes the other jobs, then cuts as many entries off the head. */
  function DrainList(s: seq<Id>, spared: set<Id>): seq<Id> {
    s[|Filter(s, id => id !in spared)|..]
  }

  function DrainQueue(q: Queue, withDelayed: bool): Queue {
    var spared := Spared(q);
    var gone := (Elements(q.wait) + Elements(q.parked) + q.prioritized.Keys
                 + (if withDelayed then q.delayed.Keys else {})) - spared;
    q.(wait := DrainList(q.wait, spared),
       parked := DrainList(q.parked, spared),
       prioritized := q.prioritized - gone,
       delayed := if withDelayed then q.delayed - gone else q.delayed,
       jobs := q.jobs - gone)
  }

  predicate CurrentIteration(q: Queue, id: Id) {
    var rjk := JobOf(q, id).rjk;
    rjk.Some? && rjk.value in q.repeat && id == SlotId(rjk.value, q.repeat[rjk.value])
  }

  datatype Place = InCompleted | InDelayed | InFailed | InPrioritized | InWait | InParked | Elsewhere

  /** Where removeJobFromAnyState finds the id first. */
  function PlaceOf(q: Queue, id: Id): Place {
    if id in q.completed then InCompleted
    else if id in q.delayed then InDelayed
    else if id in q.failed then InFailed
    else if id in q.prioritized then InPrioritized
    else if id in q.wait then InWait
    else if id in q.parked then InParked
    else Elsewhere
  }

  /** removeJobFromAnyState. */
  function RemoveFromAnyState(q: Queue, id: Id): Queue {
    var place := PlaceOf(q, id);
    q.(completed := if place == InCompleted then q.completed - {id} else q.completed,
       delayed := if place == InDelayed then q.delayed - {id} else q.delayed,
       failed := if place == InFailed then q.failed - {id} else q.failed,
       prioritized := if place == InPrioritized then q.prioritized - {id} else q.prioritized,
       wait := if place == InWait then RemoveFirst(q.wait, id) else q.wait,
       parked := if place == InParked then RemoveFirst(q.parked, id) else q.parked,
       active := if place == Elsewhere then RemoveFirst(q.active, id) else q.active)
  }

  function Remove(q: Queue, id: Id): (Queue, Reply) {
    if CurrentIteration(q, id) then
      (q, Code(-8))
    else if id in q.lock then
      (q, Code(0))
    else
      (RemoveFromAnyState(q, id).(jobs := q.jobs - {id}), Code(1))
  }

  /** getJobSchedulerEveryNextMillis with a previous slot. */
  function EveryNext(prev: int, every: Interval, now: int, offset: int): int {
    if prev + every >= now then
      prev + every
    else
      var aligned := now / every * every + offset;
      if aligned <= now then aligned + every else aligned
  }

  /** The scheduler HASH; fields of a missing one read as absent. */
  function ReadEntry(q: Queue, sid: SchedulerId): Scheduler {
    if sid in q.schedulers then q.schedulers[sid] else Scheduler(None, 0, 0, 0)
  }

  function NextSlot(q: Queue, sid: SchedulerId, timing: Timing, now: int): int
    requires sid in q.repeat
  {
    var entry := ReadEntry(q, sid);
    var every := if entry.every.Some? then entry.every else timing.interval;
    if every.Some? then EveryNext(q.repeat[sid], every.value, now, entry.offset) else timing.next
  }

  function BumpIterations(q: Queue, sid: SchedulerId): Queue {
    var was := ReadEntry(q, sid);
    q.(schedulers := q.schedulers[sid := was.(ic := was.ic + 1)])
  }

  function NextIteration(q: Queue, sid: SchedulerId, producer: Id, timing: Timing, opts: JobOpts, now: int)
    : (Queue, Reply)
  {
    if sid !in q.repeat then
      (q, Code(0))
    else
      var slot := NextSlot(q, sid, timing, now);
      if producer != SlotId(sid, q.repeat[sid]) || SlotId(sid, slot) in q.jobs then
        (q, Code(0))
      else
        var q1 := BumpIterations(q.(repeat := q.repeat[sid := slot], counter := q.counter + 1), sid);
        (Store(q1, SlotId(sid, slot), opts, Some(sid), slot - now, now), Code(1))
  }

  /** removeJobFromScheduler: a stored job is deleted if it is pending; of the lists only one is looked at. */
  function Retracted(q: Queue, id: Id): Queue {
    if id !in q.jobs then q
    else if id in q.delayed then q.(jobs := q.jobs - {id}, delayed := q.delayed - {id})
    else if id in q.prioritized then q.(jobs := q.jobs - {id}, prioritized := q.prioritized - {id})
    else if q.paused && id in q.parked then q.(jobs := q.jobs - {id}, parked := RemoveFirst(q.parked, id))
    else if !q.paused && id in q.wait then q.(jobs := q.jobs - {id}, wait := RemoveFirst(q.wait, id))
    else q
  }

  /** The beginning of addJobScheduler: the current iteration of the schedule is taken back. */
  function Withdrawn(q: Queue, sid: SchedulerId): Queue {
    if sid in q.repeat then Retracted(q, SlotId(sid, q.repeat[sid])) else q
  }

  /** The iteration count an entry starts from: that of the entry it replaces, or one. */
  function CountSoFar(q: Queue, sid: SchedulerId): int {
    if sid in q.schedulers then q.schedulers[sid].ic else 1
  }

  /** The rest of addJobScheduler: the entry is written and its iteration stored. */
  function NewEntry(q: Queue, sid: SchedulerId, entry: Scheduler, slot: int): Queue {
    q.(repeat := q.repeat[sid := slot],
       schedulers := q.schedulers[sid := entry.(ic := CountSoFar(q, sid))],
       counter := q.counter + 1)
  }

  function FirstIteration(q: Queue, sid: SchedulerId, entry: Scheduler, slot: int, opts: JobOpts, now: int): Queue {
    Store(NewEntry(q, sid, entry, slot), SlotId(sid, slot), opts, Some(sid), slot - now, now)
  }

  /** A slot whose job exists is refused, except to a pattern schedule whose pending iteration was withdrawn. */
  predicate Refuses(q: Queue, sid: SchedulerId, entry: Scheduler, slot: int, removed: bool) {
    SlotId(sid, slot) in q.jobs && (entry.every.Some? || !removed)
  }

  /** addJobScheduler behind the withdrawal and the choice of the slot. */
  function EnterSchedule(q: Queue, sid: SchedulerId, entry: Scheduler, slot: int, opts: JobOpts, now: int,
                         removed: bool): (Queue, Reply) {
    if Refuses(q, sid, entry, slot, removed) then
      (q, Code(if entry.every.Some? then -11 else -10))
    else
      (FirstIteration(q, sid, entry, slot, opts, now), Code(0))
  }

  const MAX_SLOT_SCANS: nat := 32

  /** Interval by interval on to a slot without a job, but no further than so many; the last one may be taken. */
  function Walk(q: Queue, sid: SchedulerId, slot: int, every: Interval, scans: nat): int
    decreases scans
  {
    if scans == 0 || SlotId(sid, slot) !in q.jobs then slot else Walk(q, sid, slot + every, every, scans - 1)
  }

  /** The slot an upsert settles on: that of a pattern is fixed, that of an interval walks on. */
  function Landing(q: Queue, sid: SchedulerId, entry: Scheduler, slot: int): int {
    if entry.every.Some? then Walk(q, sid, slot, entry.every.value, MAX_SLOT_SCANS) else slot
  }

  /** addJobScheduler. */
  function UpsertSchedule(q: Queue, sid: SchedulerId, entry: Scheduler, slot: int, opts: JobOpts, now: int)
    : (Queue, Reply)
  {
    var q1 := Withdrawn(q, sid);
    EnterSchedule(q1, sid, entry, Landing(q1, sid, entry, slot), opts, now, q1 != q)
  }

  function Apply(q: Queue, op: Op): (Queue, Reply) {
    match op
    case Add(custom, opts, delay, now) => AddJob(q, custom, opts, delay, now)
    case MoveToActive(token, now, limited) => Acquire(q, token, now, limited, false)
    case MoveToFinished(id, token, bucket, keep, history, now, fetchNext, limited) =>
      FinishJob(q, id, token, bucket, keep, history, now, fetchNext, limited)
    case RetryJob(id, token, lifo, history, now) => Retry(q, id, token, lifo, history, now)
    case MoveToDelayed(id, token, now, delay, skip, history) => DelayJob(q, id, token, now, delay, skip, history)
    case ExtendLock(id, token) => Extend(q, id, token)
    case ReleaseLock(id, token) => Release(q, id, token)
    case MoveStalled(limit, order) => (ScanStalled(q, limit, order), Code(0))
    case Promote(id) => PromoteJob(q, id)
    case Reprocess(id, bucket, resetAtm, resetAts) => ReprocessJob(q, id, bucket, resetAtm, resetAts)
    case Pause => (q.(paused := true), Code(0))
    case Resume => ResumeRound(q)
    case Drain(withDelayed) => (DrainQueue(q, withDelayed), Code(0))
    case RemoveJob(id) => Remove(q, id)
    case UpdateScheduler(sid, producer, timing, opts, now) => NextIteration(q, sid, producer, timing, opts, now)
    case Withdraw(sid) => (Withdrawn(q, sid), Code(0))
    case Enter(sid, entry, slot, opts, now, removed) => EnterSchedule(q, sid, entry, slot, opts, now, removed)
    case DropScheduler(sid) => (q.(schedulers := q.schedulers - {sid}), Code(0))
    case DropRepeat(sid) => (q.(repeat := q.repeat - {sid}), Code(0))
    case ExpireLock(id) => (q.(lock := q.lock - {id}), Code(0))
    case ExpireCheck => (q.(checking := false), Code(0))
  }
}
