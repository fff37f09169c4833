/**
  The life of one job id, seen apart from the rest of the queue. Every script, applied to a
  sound queue, is for every id exactly one legal change of that id's view; the partition of
  ids over the lists and sets, and the lease facts, follow from the small automaton.
 */
module JobLife {
  import opened Wrappers
  import opened Lists
  import opened SortedSets
  import opened Queues

  // ---------- soundness of a queue ----------

  ghost function In(z: ZSet, id: Id): nat {
    if id in z then 1 else 0
  }

  /** How often id occurs across the three lists and the four sorted sets. */
  ghost function Where(q: Queue, id: Id): nat {
    multiset(q.wait)[id] + multiset(q.active)[id] + multiset(q.parked)[id]
    + In(q.prioritized, id) + In(q.delayed, id) + In(q.completed, id) + In(q.failed, id)
  }

  /** Every stored job occurs exactly once, and nothing else occurs. */
  ghost predicate Placed(q: Queue) {
    forall id :: Where(q, id) == if id in q.jobs then 1 else 0
  }

  ghost predicate Sound(q: Queue) {
    && Placed(q)
    && (forall id :: id in q.lock ==> id in q.active && q.lock[id] != NO_LOCK)
    && (forall id :: id in q.stalled ==> id in q.active)
    && (forall id :: id in q.jobs ==> !IsMarker(id))
  }

  // ---------- one id ----------

  datatype View = View(
    pending: bool, active: bool, completed: bool, failed: bool, lock: Option<Token>, job: Option<Job>)

  const ABSENT := View(false, false, false, false, None, None)

  ghost predicate Pending(q: Queue, id: Id) {
    id in q.wait || id in q.parked || id in q.prioritized || id in q.delayed
  }

  ghost function ViewOf(q: Queue, id: Id): View {
    View(
      Pending(q, id), id in q.active, id in q.completed, id in q.failed,
      if id in q.lock then Some(q.lock[id]) else None,
      if id in q.jobs then Some(q.jobs[id]) else None)
  }

  datatype Change =
    | Same
    | Born(opts: JobOpts, rjk: Option<SchedulerId>)
    | Taken(token: Token, now: int)
    | Done(token: Token, bucket: Bucket, history: Option<History>, gone: bool)
    | Requeued(token: Token, history: Option<History>)
    | Postponed(token: Token, skipAttempt: bool, history: Option<History>)
    | Reclaimed(limit: int, repeatable: bool)
    | Revived(resetAtm: bool, resetAts: bool)
    | Unlocked
    | Gone

  function Written(job: Job, history: Option<History>): Job {
    if history.None? then job else job.(trace := history.value.trace, starts := history.value.starts)
  }

  /** The conditions under which a change may happen to an id. */
  predicate Legal(v: View, c: Change) {
    match c
    case Same => true
    case Born(_, _) => v == ABSENT
    case Taken(token, _) => v.pending && v.job.Some? && v.lock == None && token != NO_LOCK
    case Done(token, _, _, _) => v.active && v.job.Some? && v.lock == Some(token)
    case Requeued(token, _) => v.active && v.job.Some? && v.lock == Some(token)
    case Postponed(token, _, _) => v.active && v.job.Some? && v.lock == Some(token)
    case Reclaimed(_, _) => v.active && v.job.Some? && v.lock == None
    case Revived(_, _) => (v.completed || v.failed) && v.job.Some?
    case Unlocked => v.active
    case Gone => v.job.Some? && v.lock == None
  }

  /** The effect of a change on an id. */
  function After(v: View, c: Change): View {
    var job := if v.job.Some? then v.job.value else BLANK;
    match c
    case Same => v
    case Born(opts, rjk) => View(true, false, false, false, None, Some(BLANK.(opts := opts, rjk := rjk)))
    case Taken(token, now) =>
      View(false, true, false, false, Some(token), Some(job.(ats := job.ats + 1, processedOn := now)))
    case Done(_, bucket, history, gone) =>
      if gone then
        ABSENT
      else
        var job' := Written(job, history).(atm := job.atm + 1, defa := bucket == Completed && job.defa);
        View(false, false, bucket == Completed, bucket == Failed, None, Some(job'))
    case Requeued(_, history) =>
      View(true, false, false, false, None, Some(Written(job, history).(atm := job.atm + 1)))
    case Postponed(_, skip, history) =>
      var job' := Written(job, history).(atm := if skip then job.atm else job.atm + 1);
      View(true, false, false, false, None, Some(job'))
    case Reclaimed(limit, repeatable) =>
      var job' := job.(stc := job.stc + 1, defa := job.defa || (job.stc + 1 > limit && !repeatable));
      View(true, false, false, false, None, Some(job'))
    case Revived(resetAtm, resetAts) =>
      var job' := job.(
        processedOn := 0, atm := if resetAtm then 0 else job.atm, ats := if resetAts then 0 else job.ats);
      View(true, false, false, false, None, Some(job'))
    case Unlocked => v.(lock := None)
    case Gone => ABSENT
  }

  // ---------- which change a script makes to an id ----------

  predicate Owns(q: Queue, id: Id, token: Token) {
    id in q.jobs && id in q.lock && q.lock[id] == token
  }

  function NewId(q: Queue, custom: Id): Id {
    if custom != AUTO then custom else Digits(q.counter + 1)
  }

  function TakenBy(reply: Reply, token: Token, now: int, x: Id): Change {
    if reply.Got? && reply.id == x then Taken(token, now) else Same
  }

  function RetryChange(q: Queue, id: Id, token: Token, history: Option<History>, x: Id): Change {
    if x == id && Owns(q, id, token) then Requeued(token, history) else Same
  }

  function DelayChange(q: Queue, id: Id, token: Token, skip: bool, history: Option<History>, x: Id): Change {
    if x == id && Owns(q, id, token) then Postponed(token, skip, history) else Same
  }

  /** Which change moveToFinished makes to x, given what it left in q'. */
  function FinishChange(q: Queue, q': Queue, reply: Reply, id: Id, token: Token, bucket: Bucket,
                        history: Option<History>, now: int, x: Id): Change {
    if !Owns(q, id, token) then Same
    else if x == id then Done(token, bucket, history, x !in q'.jobs)
    else if x in q.jobs && x !in q'.jobs then Gone
    else TakenBy(reply, token, now, x)
  }

  function ScanChange(q: Queue, marked: bool, limit: int, x: Id): Change {
    if marked && x !in q.lock && x in q.active then Reclaimed(limit, Repeatable(q, JobOf(q, x))) else Same
  }

  /** Drain deletes the waiting, paused, prioritized and, if asked to, delayed jobs that no schedule spares. */
  predicate Deleted(q: Queue, withDelayed: bool, x: Id) {
    x !in Spared(q) && (x in q.wait || x in q.parked || x in q.prioritized || (withDelayed && x in q.delayed))
  }

  /** RemoveJob deletes a stored job that is not locked and not the current iteration of a schedule. */
  predicate Removable(q: Queue, id: Id) {
    id in q.jobs && id !in q.lock && !CurrentIteration(q, id)
  }

  /** An upsert first deletes the current iteration of its schedule, if that is pending where it is looked for. */
  predicate Withdraws(q: Queue, sid: SchedulerId, x: Id) {
    && sid in q.repeat && x == SlotId(sid, q.repeat[sid]) && x in q.jobs
    && (x in q.delayed || x in q.prioritized || (q.paused && x in q.parked) || (!q.paused && x in q.wait))
  }

  function ChangeOf(q: Queue, op: Op, x: Id): Change {
    var (q', reply) := Apply(q, op);
    match op
    case Add(custom, opts, _, _) => if x == NewId(q, custom) && x !in q.jobs then Born(opts, None) else Same
    case MoveToActive(token, now, _) => TakenBy(reply, token, now, x)
    case MoveToFinished(id, token, bucket, _, history, now, _, _) =>
      FinishChange(q, q', reply, id, token, bucket, history, now, x)
    case RetryJob(id, token, _, history, _) => RetryChange(q, id, token, history, x)
    case MoveToDelayed(id, token, _, _, skip, history) => DelayChange(q, id, token, skip, history, x)
    case ReleaseLock(id, token) => if x == id && Owns(q, id, token) then Unlocked else Same
    case ExpireLock(id) => if x == id && id in q.lock then Unlocked else Same
    case MoveStalled(limit, _) => ScanChange(q, !q.checking && x in q.stalled, limit, x)
    case Reprocess(id, bucket, resetAtm, resetAts) =>
      if x == id && id in Finished(q, bucket) then Revived(resetAtm, resetAts) else Same
    case Drain(withDelayed) => if Deleted(q, withDelayed, x) then Gone else Same
    case RemoveJob(id) => if x == id && Removable(q, id) then Gone else Same
    case UpdateScheduler(sid, _, timing, opts, now) =>
      if reply == Code(1) && sid in q.repeat && x == SlotId(sid, NextSlot(q, sid, timing, now))
      then Born(opts, Some(sid)) else Same
    case Withdraw(sid) => if Withdraws(q, sid, x) then Gone else Same
    case Enter(sid, _, slot, opts, _, _) =>
      if x == SlotId(sid, slot) && x !in q.jobs then Born(opts, Some(sid)) else Same
    case _ => Same
  }

  // ---------- what callers must respect ----------

  /** No job that Drain deletes stands behind one it spares. */
  predicate SparedLast(s: seq<Id>, spared: set<Id>) {
    forall i, j :: 0 <= i < j < |s| && s[i] in spared ==> s[j] in spared
  }

  /**
    The conditions the scripts rely on and do not check: fresh automatic ids, ids that do
    not look like legacy markers, real lock tokens, no Drain over a spared job with deletable
    ones behind it, no RemoveJob of a job that a scan has marked, no store over the job of a slot.
   */
  ghost predicate Allowed(q: Queue, op: Op) {
    match op
    case Add(custom, _, _, _) => if custom != AUTO then !IsMarker(custom) else Digits(q.counter + 1) !in q.jobs
    case MoveToActive(token, _, _) => token != NO_LOCK
    case MoveToFinished(_, token, _, _, _, _, _, _) => token != NO_LOCK
    case RetryJob(_, token, _, _, _) => token != NO_LOCK
    case MoveToDelayed(_, token, _, _, _, _) => token != NO_LOCK
    case MoveStalled(_, order) => Distinct(order) && Elements(order) == q.stalled
    case Drain(_) => SparedLast(q.wait, Spared(q)) && SparedLast(q.parked, Spared(q))
    case RemoveJob(id) => !(id in q.stalled && id !in q.lock && !CurrentIteration(q, id))
    case Enter(sid, entry, slot, _, _, removed) => SlotId(sid, slot) !in q.jobs || Refuses(q, sid, entry, slot, removed)
    case _ => true
  }

  /** x occurs as often as it should, given what is seen of it, and is marked only if active. */
  ghost predicate Tidy(q: Queue, v: View, x: Id) {
    && ViewOf(q, x) == v
    && Where(q, x) == (if v.job.Some? then 1 else 0)
    && (x in q.stalled ==> v.active)
    && (v.lock.Some? ==> v.active)
  }

  /** From q to q', the id x undergoes the legal change c. */
  ghost predicate Follows(q: Queue, q': Queue, c: Change, x: Id) {
    Legal(ViewOf(q, x), c) && Tidy(q', After(ViewOf(q, x), c), x)
  }

  lemma SoundAt(q: Queue, x: Id)
    requires Sound(q)
    ensures Tidy(q, ViewOf(q, x), x)
  {
  }

  // ---------- pushing and promoting ----------

  lemma EnqueueEffect(q: Queue, id: Id, end: End, x: Id)
    requires id !in q.prioritized
    ensures var q' := Enqueue(q, id, end);
            && Where(q', x) == Where(q, x) + (if x == id then 1 else 0)
            && Pending(q', x) == (Pending(q, x) || x == id)
            && q' == q.(wait := q'.wait, prioritized := q'.prioritized, pc := q'.pc)
            && (x in q'.prioritized ==> x in q.prioritized || x == id)
  {
    if JobOf(q, id).opts.priority == 0 {
    } else {
    }
  }

  lemma {:induction false} EnqueueEachEffect(q: Queue, ids: seq<Id>, x: Id)
    requires Distinct(ids) && forall id :: id in ids ==> id !in q.prioritized
    ensures var q' := EnqueueEach(q, ids);
            && Where(q', x) == Where(q, x) + (if x in ids then 1 else 0)
            && Pending(q', x) == (Pending(q, x) || x in ids)
            && q' == q.(wait := q'.wait, prioritized := q'.prioritized, pc := q'.pc)
    decreases |ids|
  {
    if ids != [] {
      var q1 := Enqueue(q, ids[0], Head);
      EnqueueEffect(q, ids[0], Head, x);
      forall id | id in ids[1..]
        ensures id !in q1.prioritized
      {
        EnqueueEffect(q, ids[0], Head, id);
      }
      EnqueueEachEffect(q1, ids[1..], x);
    }
  }

  lemma DueIds(delayed: ZSet, now: int)
    ensures Distinct(Due(delayed, now))
    ensures forall id :: id in Due(delayed, now) ==> id in delayed
  {
    FilterDistinct(Ascending(delayed), (id: Id) => id in delayed && 0 <= delayed[id] <= (now + 1) * 0x1000 - 1);
  }

  lemma {:induction false} FilterDistinct<T(!new)>(s: seq<T>, keep: T -> bool)
    requires Distinct(s)
    ensures Distinct(Filter(s, keep))
  {
    if s != [] {
      FilterDistinct(s[1..], keep);
      assert s == [s[0]] + s[1..];
    }
  }

  lemma PromoteDueEffect(q: Queue, now: int, x: Id)
    requires forall id :: Where(q, id) <= 1
    ensures var q' := PromoteDue(q, now);
            && Where(q', x) == Where(q, x)
            && ViewOf(q', x) == ViewOf(q, x)
            && q' == q.(wait := q'.wait, prioritized := q'.prioritized, pc := q'.pc, delayed := q'.delayed)
  {
    hide Due, EnqueueEach;
    var ids := Due(q.delayed, now);
    var q1 := q.(delayed := q.delayed - Elements(ids));
    DueIds(q.delayed, now);
    forall id | id in ids
      ensures id !in q1.prioritized
    {
      assert Where(q, id) <= 1;
    }
    EnqueueEachEffect(q1, ids, x);
  }

  // ---------- acquiring ----------

  ghost predicate Moved(q: Queue, q': Queue, id: Id, x: Id) {
    && Pending(q, id) && Where(q', x) == Where(q, x)
    && Pending(q', x) == (Pending(q, x) && x != id)
    && (x in q'.active <==> x in q.active || x == id)
    && q' == q.(wait := q'.wait, prioritized := q'.prioritized, active := q'.active, pc := q'.pc)
  }

  lemma PopWaitEffect(q: Queue, x: Id)
    requires q.wait != [] && forall id :: Where(q, id) <= 1
    ensures Moved(q, PopWait(q).0, PopWait(q).1, x)
  {
    var n := |q.wait| - 1;
    assert q.wait == q.wait[..n] + [q.wait[n]];
    assert Where(q, x) <= 1;
  }

  lemma PopPrioritizedEffect(q: Queue, x: Id)
    requires forall id :: Where(q, id) <= 1
    ensures var (q', id) := PopPrioritized(q); if id.None? then q' == q.(pc := 0) else Moved(q, q', id.value, x)
  {
    assert Where(q, x) <= 1;
  }

  /** Under the marker rule both ways of choosing a job move one pending id to active. */
  lemma PullEffect(q: Queue, next: bool, x: Id)
    requires forall id :: Where(q, id) <= 1
    requires forall id :: id in q.wait ==> !IsMarker(id)
    ensures var (q', id) := PullBy(q, next);
            if id.None? then q' == q.(pc := 0) else Moved(q, q', id.value, x)
  {
    if q.wait == [] {
      PopPrioritizedEffect(q, x);
    } else {
      PopWaitEffect(q, x);
    }
  }

  lemma PromoteDueSound(q: Queue, now: int)
    requires Sound(q)
    ensures Sound(PromoteDue(q, now))
  {
    var q1 := PromoteDue(q, now);
    assert forall id :: Where(q, id) <= 1;
    forall id
      ensures Where(q1, id) == if id in q1.jobs then 1 else 0
    {
      PromoteDueEffect(q, now, id);
    }
    PromoteDueEffect(q, now, "");
  }

  /** For x, going from q to q' with this reply is a fetch under token, or nothing. */
  ghost predicate Fetched(q: Queue, q': Queue, reply: Reply, token: Token, now: int, x: Id) {
    && Where(q', x) == Where(q, x) && q'.stalled == q.stalled
    && (reply.Got? ==> reply.id in q'.jobs && reply.job == q'.jobs[reply.id])
    && (reply.Got? || reply.NoJob?)
    && Legal(ViewOf(q, x), TakenBy(reply, token, now, x))
    && ViewOf(q', x) == After(ViewOf(q, x), TakenBy(reply, token, now, x))
  }

  lemma PreparePlaces(q: Queue, id: Id, token: Token, now: int, x: Id)
    ensures Where(Prepare(q, id, token, now).0, x) == Where(q, x)
  {
  }

  lemma PrepareEffect(q: Queue, q1: Queue, id: Id, token: Token, now: int, x: Id)
    requires Moved(q, q1, id, x) && Moved(q, q1, id, id) && id in q.jobs && id !in q.lock && token != NO_LOCK
    requires !(id in q.completed) && !(id in q.failed)
    ensures Fetched(q, Prepare(q1, id, token, now).0, Prepare(q1, id, token, now).1, token, now, x)
  {
    hide Where;
    PreparePlaces(q1, id, token, now, x);
    if x == id {
    } else {
    }
  }

  lemma PendingFacts(q: Queue, id: Id)
    requires Sound(q) && Pending(q, id)
    ensures id in q.jobs && id !in q.lock && id !in q.active && id !in q.completed && id !in q.failed
  {
    assert Where(q, id) == if id in q.jobs then 1 else 0;
  }

  lemma WaitHasNoMarker(q: Queue)
    requires Sound(q)
    ensures forall id :: id in q.wait ==> !IsMarker(id)
    ensures forall id :: Where(q, id) <= 1
  {
    forall id | id in q.wait
      ensures !IsMarker(id)
    {
      assert Where(q, id) >= 1;
    }
  }

  lemma PullAndPrepare(q: Queue, q1: Queue, id: Id, token: Token, now: int, next: bool, x: Id)
    requires Sound(q) && token != NO_LOCK && PullBy(q, next) == (q1, Some(id))
    ensures Fetched(q, Prepare(q1, id, token, now).0, Prepare(q1, id, token, now).1, token, now, x)
  {
    assert Moved(q, q1, id, x) && Moved(q, q1, id, id) by {
      WaitHasNoMarker(q);
      PullEffect(q, next, x);
      PullEffect(q, next, id);
    }
    PendingFacts(q, id);
    PrepareEffect(q, q1, id, token, now, x);
  }

  lemma FetchedAfterPromotion(q: Queue, q1: Queue, q': Queue, reply: Reply, token: Token, now: int, x: Id)
    requires Where(q1, x) == Where(q, x) && ViewOf(q1, x) == ViewOf(q, x) && q1.stalled == q.stalled
    requires Fetched(q1, q', reply, token, now, x)
    ensures Fetched(q, q', reply, token, now, x)
  {
  }

  lemma FetchEffect(q: Queue, token: Token, now: int, next: bool, x: Id)
    requires Sound(q) && token != NO_LOCK
    ensures Fetched(q, Fetch(q, token, now, next).0, Fetch(q, token, now, next).1, token, now, x)
  {
    var (q1, id) := PullBy(q, next);
    if id.Some? {
      PullAndPrepare(q, q1, id.value, token, now, next, x);
    } else {
      assert q1 == q.(pc := 0) by {
        WaitHasNoMarker(q);
        PullEffect(q, next, x);
      }
    }
  }

  lemma AcquireEffect(q: Queue, token: Token, now: int, limited: bool, next: bool, x: Id)
    requires Sound(q) && token != NO_LOCK
    ensures Fetched(q, Acquire(q, token, now, limited, next).0, Acquire(q, token, now, limited, next).1, token, now, x)
  {
    hide PromoteDue, Fetch, Sound;
    var q1 := PromoteDue(q, now);
    assert forall id :: Where(q, id) <= 1 by {
      WaitHasNoMarker(q);
    }
    PromoteDueEffect(q, now, x);
    if !limited && !Gated(q) {
      PromoteDueSound(q, now);
      FetchEffect(q1, token, now, next, x);
      var (q', reply) := Fetch(q1, token, now, next);
      FetchedAfterPromotion(q, q1, q', reply, token, now, x);
    }
  }

  // ---------- leaving active under the lock ----------

  /** What is left of a job that has given up its lock and its place in active. */
  function Loose(job: Job): View {
    ABSENT.(job := Some(job))
  }

  /** id has given up its lock and its place in active; the rest is as before. */
  ghost predicate Vacated(q: Queue, q1: Queue, id: Id, history: Option<History>, x: Id) {
    && id in q.jobs
    && ViewOf(q1, x) == (if x == id then Loose(Written(q.jobs[id], history)) else ViewOf(q, x))
    && Where(q1, x) == (if x == id then 0 else Where(q, x))
    && (x in q1.stalled ==> x in q.stalled && x != id)
  }

  /** Without the lock nothing happens, and the lock is never held outside active. */
  lemma LeaveRefused(q: Queue, id: Id, token: Token, history: Option<History>)
    requires Sound(q) && token != NO_LOCK && !Owns(q, id, token)
    ensures var (q1, code) := Leave(q, id, token, history); q1 == q && code < 0 && code != -3
  {
  }

  lemma OwnerFacts(q: Queue, id: Id, token: Token)
    requires Sound(q) && Owns(q, id, token)
    ensures id in q.active && Where(q, id) == 1 && !Pending(q, id) && id !in q.completed && id !in q.failed
    ensures ViewOf(q, id) == View(false, true, false, false, Some(token), Some(q.jobs[id]))
  {
    assert Where(q, id) == 1;
  }

  lemma LeaveEffect(q: Queue, id: Id, token: Token, history: Option<History>, x: Id)
    requires token != NO_LOCK && Owns(q, id, token) && Where(q, id) == 1 && id in q.active
    requires !Pending(q, id) && id !in q.completed && id !in q.failed
    ensures var (q1, code) := Leave(q, id, token, history); code == 0 && Vacated(q, q1, id, history, x)
  {
    hide RemoveLast;
    RemoveLastCounts(q.active, id, x);
  }

  /** The loose job id, now carrying job, is pending again. */
  ghost predicate Refiled(q1: Queue, q2: Queue, id: Id, job: Job, x: Id) {
    && ViewOf(q2, x) == (if x == id then View(true, false, false, false, None, Some(job)) else ViewOf(q1, x))
    && Where(q2, x) == Where(q1, x) + (if x == id then 1 else 0)
    && q2.stalled == q1.stalled
  }

  lemma BumpAtmEffect(q: Queue, id: Id, x: Id)
    requires id in q.jobs
    ensures var q' := BumpAtm(q, id);
            && ViewOf(q', x) == (if x == id then ViewOf(q, x).(job := Some(q.jobs[id].(atm := q.jobs[id].atm + 1)))
                                 else ViewOf(q, x))
            && Where(q', x) == Where(q, x) && q'.stalled == q.stalled
  {
  }

  lemma FileDelayed(q1: Queue, id: Id, score: int, x: Id)
    requires id in q1.jobs && ViewOf(q1, id) == Loose(q1.jobs[id])
    ensures Refiled(q1, q1.(delayed := q1.delayed[id := score]), id, q1.jobs[id], x)
  {
  }

  lemma FileWaiting(q1: Queue, id: Id, end: End, x: Id)
    requires id in q1.jobs && ViewOf(q1, id) == Loose(q1.jobs[id])
    ensures Refiled(q1, Enqueue(q1, id, end), id, q1.jobs[id], x)
  {
    EnqueueEffect(q1, id, end, x);
  }

  lemma DelayFollows(q: Queue, id: Id, token: Token, now: int, delay: int, skip: bool, history: Option<History>, x: Id)
    requires Sound(q) && token != NO_LOCK
    ensures Follows(q, DelayJob(q, id, token, now, delay, skip, history).0,
                    DelayChange(q, id, token, skip, history, x), x)
  {
    hide Leave, Sound, DelayedScore, BumpAtm, Where;
    SoundAt(q, x);
    if Owns(q, id, token) {
      OwnerFacts(q, id, token);
      LeaveEffect(q, id, token, history, x);
      LeaveEffect(q, id, token, history, id);
      var q1 := Leave(q, id, token, history).0;
      BumpAtmEffect(q1, id, x);
      BumpAtmEffect(q1, id, id);
      var q2 := if skip then q1 else BumpAtm(q1, id);
      FileDelayed(q2, id, DelayedScore(q2.delayed, now, delay), x);
    } else {
      LeaveRefused(q, id, token, history);
    }
  }

  lemma RetryFollows(q: Queue, id: Id, token: Token, lifo: bool, history: Option<History>, now: int, x: Id)
    requires Sound(q) && token != NO_LOCK
    ensures Follows(q, Retry(q, id, token, lifo, history, now).0, RetryChange(q, id, token, history, x), x)
  {
    hide Leave, Sound, PromoteDue, Enqueue, BumpAtm, Where;
    var q0 := PromoteDue(q, now);
    WaitHasNoMarker(q);
    PromoteDueEffect(q, now, x);
    PromoteDueEffect(q, now, id);
    PromoteDueSound(q, now);
    SoundAt(q, x);
    if Owns(q, id, token) {
      OwnerFacts(q0, id, token);
      LeaveEffect(q0, id, token, history, x);
      LeaveEffect(q0, id, token, history, id);
      var q1 := Leave(q0, id, token, history).0;
      var q2 := Enqueue(q1, id, if lifo then Tail else Head);
      FileWaiting(q1, id, if lifo then Tail else Head, x);
      FileWaiting(q1, id, if lifo then Tail else Head, id);
      BumpAtmEffect(q2, id, x);
    } else {
      LeaveRefused(q0, id, token, history);
    }
  }

  // ---------- finishing ----------

  predicate InBucket(v: View, bucket: Bucket) {
    if bucket == Completed then v.completed else v.failed
  }

  function Dropped(v: View, bucket: Bucket): View {
    v.(completed := v.completed && bucket != Completed, failed := v.failed && bucket != Failed, job := None)
  }

  /** Retention left x alone, or dropped it from the bucket together with its HASH. */
  ghost predicate Retained(q: Queue, q': Queue, bucket: Bucket, x: Id) {
    var v, v' := ViewOf(q, x), ViewOf(q', x);
    && q'.stalled == q.stalled
    && (|| (v' == v && Where(q', x) == Where(q, x))
        || (InBucket(v, bucket) && v' == Dropped(v, bucket) && Where(q', x) == Where(q, x) - 1))
  }

  lemma EvictEffect(q: Queue, bucket: Bucket, ids: set<Id>, x: Id)
    requires ids <= Finished(q, bucket).Keys
    ensures Retained(q, Evict(q, bucket, ids), bucket, x)
  {
  }

  lemma TrimEffect(q: Queue, bucket: Bucket, keep: Keep, now: int, x: Id)
    ensures Retained(q, Trim(q, bucket, keep, now), bucket, x)
  {
    hide Evict, AgedOut, Surplus;
    var z := Finished(q, bucket);
    var q1 := if keep.age.Some? then Evict(q, bucket, AgedOut(z, now, keep.age.value)) else q;
    if keep.age.Some? {
      AgedOutMembers(z, now, keep.age.value);
      EvictEffect(q, bucket, AgedOut(z, now, keep.age.value), x);
    }
    if keep.count.Some? {
      SurplusMembers(Finished(q1, bucket), keep.count.value);
      EvictEffect(q1, bucket, Surplus(Finished(q1, bucket), keep.count.value), x);
    }
  }

  lemma AgedOutMembers(z: ZSet, now: int, age: int)
    ensures AgedOut(z, now, age) <= z.Keys
  {
  }

  lemma SurplusMembers(z: ZSet, count: int)
    ensures Surplus(z, count) <= z.Keys
  {
  }

  /** The job as moveToFinished leaves it. */
  function FinishedJob(job: Job, bucket: Bucket): Job {
    job.(defa := bucket == Completed && job.defa)
  }

  function Archived(job: Job, bucket: Bucket): View {
    View(false, false, bucket == Completed, bucket == Failed, None, Some(job))
  }

  lemma FileFinished(q1: Queue, id: Id, bucket: Bucket, now: int, x: Id)
    requires id in q1.jobs && ViewOf(q1, id) == Loose(q1.jobs[id])
    ensures var q2 := File(q1, id, bucket, now);
            && ViewOf(q2, x) == (if x == id then Archived(FinishedJob(q1.jobs[id], bucket), bucket) else ViewOf(q1, x))
            && Where(q2, x) == Where(q1, x) + (if x == id then 1 else 0)
            && q2.stalled == q1.stalled
  {
    if bucket == Completed {
      FileCompleted(q1, id, now, x);
      hide Where, ViewOf;
    } else {
      FileFailed(q1, id, now, x);
      hide Where, ViewOf;
      var job := q1.jobs[id].(defa := false);
      HashEffect(q1.(failed := q1.failed[id := now]), id, job, x);
    }
  }

  lemma FileCompleted(q1: Queue, id: Id, now: int, x: Id)
    requires id in q1.jobs && ViewOf(q1, id) == Loose(q1.jobs[id])
    ensures var q2 := q1.(completed := q1.completed[id := now]);
            && ViewOf(q2, x) == (if x == id then Archived(q1.jobs[id], Completed) else ViewOf(q1, x))
            && Where(q2, x) == Where(q1, x) + (if x == id then 1 else 0)
  {
  }

  lemma FileFailed(q1: Queue, id: Id, now: int, x: Id)
    requires id in q1.jobs && ViewOf(q1, id) == Loose(q1.jobs[id])
    ensures var q2 := q1.(failed := q1.failed[id := now]);
            && ViewOf(q2, x) == (if x == id then Archived(q1.jobs[id], Failed) else ViewOf(q1, x))
            && Where(q2, x) == Where(q1, x) + (if x == id then 1 else 0)
  {
  }

  /** Filing the loose job id, and the trimming that follows, seen from x. */
  ghost predicate Settled(q1: Queue, q2: Queue, id: Id, bucket: Bucket, x: Id) {
    && q2.stalled == q1.stalled
    && var v := ViewOf(q1, x);
       var v' := ViewOf(q2, x);
       if x == id then
         v.job.Some? && if v'.job.None? then v' == ABSENT && Where(q2, x) == 0
         else v' == Archived(FinishedJob(v.job.value, bucket), bucket) && Where(q2, x) == 1
       else if v.job.Some? && v'.job.None? then
         v.lock == None && !v.active && v' == ABSENT && Where(q2, x) == 0
       else
         v' == v && Where(q2, x) == Where(q1, x)
  }

  lemma SettleEffect(q1: Queue, id: Id, bucket: Bucket, keep: Keep, now: int, x: Id)
    requires id in q1.jobs && ViewOf(q1, id) == Loose(q1.jobs[id]) && Where(q1, id) == 0
    requires x != id ==> Tidy(q1, ViewOf(q1, x), x)
    ensures Settled(q1, Settle(q1, id, bucket, keep, now), id, bucket, x)
  {
    hide Trim, File, Where, ViewOf;
    DropLoose(q1, id, x);
    FileFinished(q1, id, bucket, now, x);
    TrimEffect(File(q1, id, bucket, now), bucket, keep, now, x);
    if x != id && InBucket(ViewOf(q1, x), bucket) {
      FinishedOnly(q1, bucket, x);
    }
  }

  lemma DropLoose(q1: Queue, id: Id, x: Id)
    requires id in q1.jobs && ViewOf(q1, id) == Loose(q1.jobs[id]) && Where(q1, id) == 0
    ensures Settled(q1, q1.(jobs := q1.jobs - {id}), id, Completed, x)
    ensures Settled(q1, q1.(jobs := q1.jobs - {id}), id, Failed, x)
  {
  }

  lemma FinishedOnly(q: Queue, bucket: Bucket, x: Id)
    requires Tidy(q, ViewOf(q, x), x) && InBucket(ViewOf(q, x), bucket)
    ensures ViewOf(q, x) == View(false, false, bucket == Completed, bucket == Failed, None, ViewOf(q, x).job)
    ensures ViewOf(q, x).job.Some?
  {
  }

  /** The finish itself, before another job is fetched. */
  lemma FinishAlone(q: Queue, id: Id, token: Token, bucket: Bucket, keep: Keep, history: Option<History>, now: int,
                    x: Id)
    requires Sound(q) && token != NO_LOCK && Owns(q, id, token)
    ensures var (q', reply) := FinishJob(q, id, token, bucket, keep, history, now, false, false);
            reply == Code(0) && Follows(q, q', FinishChange(q, q', reply, id, token, bucket, history, now, x), x)
  {
    hide Leave, Sound, BumpAtm, Settle, Where;
    SoundAt(q, x);
    OwnerFacts(q, id, token);
    LeaveEffect(q, id, token, history, x);
    LeaveEffect(q, id, token, history, id);
    var q1 := Leave(q, id, token, history).0;
    BumpAtmEffect(q1, id, x);
    BumpAtmEffect(q1, id, id);
    SettleEffect(BumpAtm(q1, id), id, bucket, keep, now, x);
  }

  lemma SoundFromFollows(q: Queue, q': Queue, changes: Id -> Change)
    requires Sound(q) && forall x :: Follows(q, q', changes(x), x)
    requires forall x :: x in q'.jobs ==> !IsMarker(x)
    ensures Sound(q')
  {
    hide Where;
    forall x
      ensures Where(q', x) == if x in q'.jobs then 1 else 0
      ensures x in q'.lock ==> x in q'.active && q'.lock[x] != NO_LOCK
      ensures x in q'.stalled ==> x in q'.active
    {
      assert Follows(q, q', changes(x), x);
    }
  }

  lemma FinishAloneSound(q: Queue, id: Id, token: Token, bucket: Bucket, keep: Keep, history: Option<History>, now: int)
    requires Sound(q) && token != NO_LOCK && Owns(q, id, token)
    ensures Sound(FinishJob(q, id, token, bucket, keep, history, now, false, false).0)
  {
    var (q', reply) := FinishJob(q, id, token, bucket, keep, history, now, false, false);
    hide FinishJob, Where;
    var changes := x => FinishChange(q, q', reply, id, token, bucket, history, now, x);
    forall x
      ensures Follows(q, q', changes(x), x)
      ensures x in q'.jobs ==> x in q.jobs
    {
      FinishAlone(q, id, token, bucket, keep, history, now, x);
    }
    SoundFromFollows(q, q', changes);
  }

  /** Finishing a job and then fetching another is one change per id. */
  lemma FinishThenFetch(q: Queue, q1: Queue, q': Queue, reply: Reply, id: Id, token: Token, bucket: Bucket,
                        history: Option<History>, now: int, x: Id)
    requires Owns(q, id, token) && Tidy(q, ViewOf(q, x), x)
    requires Follows(q, q1, FinishChange(q, q1, Code(0), id, token, bucket, history, now, x), x)
    requires Fetched(q1, q', reply, token, now, x)
    ensures Follows(q, q', FinishChange(q, q', reply, id, token, bucket, history, now, x), x)
  {
    hide Where;
  }

  lemma FinishFollows(q: Queue, id: Id, token: Token, bucket: Bucket, keep: Keep, history: Option<History>, now: int,
                      fetchNext: bool, limited: bool, x: Id)
    requires Sound(q) && token != NO_LOCK
    ensures var (q', reply) := FinishJob(q, id, token, bucket, keep, history, now, fetchNext, limited);
            Follows(q, q', FinishChange(q, q', reply, id, token, bucket, history, now, x), x)
  {
    hide Leave, Sound, BumpAtm, Settle, Where, ViewOf, Acquire;
    SoundAt(q, x);
    if !Owns(q, id, token) {
      LeaveRefused(q, id, token, history);
    } else {
      FinishAlone(q, id, token, bucket, keep, history, now, x);
      FinishAloneSound(q, id, token, bucket, keep, history, now);
      var q1 := FinishJob(q, id, token, bucket, keep, history, now, false, false).0;
      AcquireEffect(q1, token, now, limited, true, x);
      var (q', reply) := Acquire(q1, token, now, limited, true);
      FinishThenFetch(q, q1, q', reply, id, token, bucket, history, now, x);
    }
  }

  // ---------- the stalled scan ----------

  lemma ReclaimEffect(q: Queue, id: Id, limit: int, x: Id)
    requires !IsMarker(id) && Tidy(q, ViewOf(q, id), id)
    ensures var q' := Reclaim(q, id, limit);
            && ViewOf(q', x) == After(ViewOf(q, x), ScanChange(q, x == id, limit, x))
            && Where(q', x) == Where(q, x)
            && q' == q.(active := q'.active, jobs := q'.jobs, wait := q'.wait)
  {
    hide RemoveFirst;
    RemoveFirstCounts(q.active, id, x);
  }

  lemma {:induction false} ReclaimEachEffect(q: Queue, ids: seq<Id>, limit: int, x: Id)
    requires Distinct(ids) && forall id :: id in ids ==> !IsMarker(id) && Tidy(q, ViewOf(q, id), id)
    ensures var q' := ReclaimEach(q, ids, limit);
            && ViewOf(q', x) == After(ViewOf(q, x), ScanChange(q, x in ids, limit, x))
            && Where(q', x) == Where(q, x)
            && q' == q.(active := q'.active, jobs := q'.jobs, wait := q'.wait)
    decreases |ids|
  {
    hide Reclaim, Where;
    if ids != [] {
      var q1 := Reclaim(q, ids[0], limit);
      ReclaimEffect(q, ids[0], limit, x);
      forall id | id in ids[1..]
        ensures !IsMarker(id) && Tidy(q1, ViewOf(q1, id), id)
      {
        ReclaimEffect(q, ids[0], limit, id);
      }
      ReclaimEachEffect(q1, ids[1..], limit, x);
    }
  }

  lemma MarksUnseen(q: Queue, marks: set<Id>, checking: bool, x: Id)
    ensures var q' := q.(stalled := marks, checking := checking);
            ViewOf(q', x) == ViewOf(q, x) && Where(q', x) == Where(q, x)
  {
  }

  lemma MarkedAreJobs(q: Queue, order: seq<Id>, id: Id)
    requires Sound(q) && Elements(order) == q.stalled && id in order
    ensures !IsMarker(id) && Tidy(q.(stalled := {}, checking := true), ViewOf(q, id), id)
  {
    assert id in Elements(order);
    SoundAt(q, id);
    MarksUnseen(q, {}, true, id);
  }

  lemma ActiveIsJob(q: Queue, x: Id)
    requires Sound(q) && x in q.active
    ensures x in q.jobs
  {
    assert Where(q, x) == if x in q.jobs then 1 else 0;
  }

  lemma Remark(q: Queue, q1: Queue, c: Change, x: Id)
    requires Tidy(q, ViewOf(q, x), x) && Legal(ViewOf(q, x), c) && (c.Same? || c.Reclaimed?)
    requires ViewOf(q1, x) == After(ViewOf(q, x), c) && Where(q1, x) == Where(q, x)
    ensures Follows(q, q1.(stalled := Elements(q1.active), checking := true), c, x)
  {
    hide Where;
    MarksUnseen(q1, Elements(q1.active), true, x);
  }

  lemma ScanChangeLegal(q: Queue, marked: bool, limit: int, x: Id)
    requires Sound(q)
    ensures Legal(ViewOf(q, x), ScanChange(q, marked, limit, x))
    ensures ScanChange(q.(stalled := {}, checking := true), marked, limit, x) == ScanChange(q, marked, limit, x)
  {
    if x in q.active {
      ActiveIsJob(q, x);
    }
  }

  lemma ScanFollows(q: Queue, limit: int, order: seq<Id>, x: Id)
    requires Sound(q) && Distinct(order) && Elements(order) == q.stalled
    ensures Follows(q, ScanStalled(q, limit, order), ScanChange(q, !q.checking && x in q.stalled, limit, x), x)
  {
    hide ReclaimEach, Sound, Where, ViewOf, After;
    SoundAt(q, x);
    if !q.checking {
      var q0 := q.(stalled := {}, checking := true);
      MarksUnseen(q, {}, true, x);
      forall id | id in order
        ensures !IsMarker(id) && Tidy(q0, ViewOf(q0, id), id)
      {
        MarkedAreJobs(q, order, id);
      }
      ReclaimEachEffect(q0, order, limit, x);
      assert x in order <==> x in q.stalled by {
        assert x in order <==> x in Elements(order);
      }
      ScanChangeLegal(q, x in q.stalled, limit, x);
      Remark(q, ReclaimEach(q0, order, limit), ScanChange(q, x in q.stalled, limit, x), x);
    } else {
      ScanIdle(q, limit, order, x);
    }
  }

  lemma ScanIdle(q: Queue, limit: int, order: seq<Id>, x: Id)
    requires q.checking && Tidy(q, ViewOf(q, x), x)
    ensures Follows(q, ScanStalled(q, limit, order), ScanChange(q, false, limit, x), x)
  {
  }

  // ---------- adding, promoting, reviving ----------

  lemma AbsentFacts(q: Queue, id: Id)
    requires Sound(q) && id !in q.jobs
    ensures ViewOf(q, id) == ABSENT && Where(q, id) == 0 && id !in q.stalled
  {
    assert Where(q, id) == 0;
  }

  lemma HashEffect(q: Queue, id: Id, job: Job, x: Id)
    ensures var q' := q.(jobs := q.jobs[id := job]);
            && ViewOf(q', x) == (if x == id then ViewOf(q, x).(job := Some(job)) else ViewOf(q, x))
            && Where(q', x) == Where(q, x)
  {
  }

  lemma FilePushed(q1: Queue, id: Id, end: End, x: Id)
    requires id in q1.jobs && ViewOf(q1, id) == Loose(q1.jobs[id])
    ensures Refiled(q1, q1.(wait := Push(q1.wait, end, id)), id, q1.jobs[id], x)
  {
  }

  lemma FilePrioritized(q1: Queue, id: Id, priority: int, x: Id)
    requires id in q1.jobs && ViewOf(q1, id) == Loose(q1.jobs[id])
    ensures Refiled(q1, AddWithPriority(q1, id, priority), id, q1.jobs[id], x)
  {
  }

  lemma StoreEffect(q: Queue, id: Id, opts: JobOpts, rjk: Option<SchedulerId>, delay: int, now: int, x: Id)
    requires ViewOf(q, id) == ABSENT
    ensures var q' := Store(q, id, opts, rjk, delay, now);
            && ViewOf(q', x) == (if x == id then After(ABSENT, Born(opts, rjk)) else ViewOf(q, x))
            && Where(q', x) == Where(q, x) + (if x == id then 1 else 0)
            && q'.stalled == q.stalled
  {
    hide DelayedScore, Where, AddWithPriority, Push;
    var job := Stored(JobOf(q, id), opts, rjk);
    assert id !in q.jobs && job == BLANK.(opts := opts, rjk := rjk);
    hide ViewOf, Stored;
    var q1 := q.(jobs := q.jobs[id := job]);
    HashEffect(q, id, job, x);
    HashEffect(q, id, job, id);
    if delay > 0 {
      FileDelayed(q1, id, DelayedScore(q1.delayed, now, delay), x);
    } else if opts.priority > 0 {
      FilePrioritized(q1, id, opts.priority, x);
    } else {
      FilePushed(q1, id, if opts.lifo then Tail else Head, x);
    }
  }

  lemma AddFollows(q: Queue, custom: Id, opts: JobOpts, delay: int, now: int, x: Id)
    requires Sound(q) && (custom == AUTO ==> NewId(q, custom) !in q.jobs)
    ensures Follows(q, AddJob(q, custom, opts, delay, now).0,
                    if x == NewId(q, custom) && x !in q.jobs then Born(opts, None) else Same, x)
  {
    hide Store, Sound, Where;
    var id, q1 := NewId(q, custom), q.(counter := q.counter + 1);
    SoundAt(q, x);
    SoundBut(q, q1, x);
    if id !in q.jobs {
      AbsentFacts(q, id);
      SoundBut(q, q1, id);
      StoreEffect(q1, id, opts, None, delay, now, x);
    }
  }

  /** Counters, flags and scheduler entries play no part in where ids are. */
  lemma SoundBut(q: Queue, q1: Queue, x: Id)
    requires q1 == q.(counter := q1.counter, pc := q1.pc, paused := q1.paused, checking := q1.checking,
                      repeat := q1.repeat, schedulers := q1.schedulers)
    ensures ViewOf(q1, x) == ViewOf(q, x) && Where(q1, x) == Where(q, x) && q1.stalled == q.stalled
  {
  }

  lemma IterationFollows(q: Queue, sid: SchedulerId, producer: Id, timing: Timing, opts: JobOpts, now: int, x: Id)
    requires Sound(q)
    ensures var (q', reply) := NextIteration(q, sid, producer, timing, opts, now);
            Follows(q, q', if reply == Code(1) && sid in q.repeat && x == SlotId(sid, NextSlot(q, sid, timing, now))
                           then Born(opts, Some(sid)) else Same, x)
  {
    hide Store, Sound, Where, SlotId, NextSlot, ViewOf;
    SoundAt(q, x);
    if sid in q.repeat {
      var slot := NextSlot(q, sid, timing, now);
      var q1 := BumpIterations(q.(repeat := q.repeat[sid := slot], counter := q.counter + 1), sid);
      SoundBut(q, q1, x);
      if SlotId(sid, slot) !in q.jobs {
        AbsentFacts(q, SlotId(sid, slot));
        SoundBut(q, q1, SlotId(sid, slot));
        StoreEffect(q1, SlotId(sid, slot), opts, Some(sid), slot - now, now, x);
      }
    }
  }

  lemma PromoteFollows(q: Queue, id: Id, x: Id)
    requires Sound(q)
    ensures Follows(q, PromoteJob(q, id).0, Same, x)
  {
    SoundAt(q, x);
    if id in q.delayed {
      WaitHasNoMarker(q);
      assert Where(q, id) <= 1;
      var q1 := q.(delayed := q.delayed - {id});
      hide Sound, Enqueue;
      EnqueueEffect(q1, id, Head, x);
    }
  }

  lemma UnfileFinished(q: Queue, id: Id, bucket: Bucket, x: Id)
    requires Tidy(q, ViewOf(q, id), id) && id in Finished(q, bucket)
    ensures var q' := SetFinished(q, bucket, Finished(q, bucket) - {id});
            && id in q.jobs && ViewOf(q, id) == Archived(JobOf(q, id), bucket)
            && ViewOf(q', x) == (if x == id then Loose(JobOf(q, id)) else ViewOf(q, x))
            && Where(q', x) == Where(q, x) - (if x == id then 1 else 0)
            && q'.stalled == q.stalled
  {
    FinishedOnly(q, bucket, id);
  }

  lemma ReprocessFollows(q: Queue, id: Id, bucket: Bucket, resetAtm: bool, resetAts: bool, x: Id)
    requires Sound(q)
    ensures Follows(q, ReprocessJob(q, id, bucket, resetAtm, resetAts).0,
                    if x == id && id in Finished(q, bucket) then Revived(resetAtm, resetAts) else Same, x)
  {
    hide Sound, Enqueue, Where, ViewOf, Finished, SetFinished;
    SoundAt(q, x);
    SoundAt(q, id);
    if id in Finished(q, bucket) {
      UnfileFinished(q, id, bucket, x);
      UnfileFinished(q, id, bucket, id);
      var q1 := SetFinished(q, bucket, Finished(q, bucket) - {id});
      var was := JobOf(q, id);
      var job := was.(processedOn := 0, atm := if resetAtm then 0 else was.atm, ats := if resetAts then 0 else was.ats);
      HashEffect(q1, id, job, x);
      HashEffect(q1, id, job, id);
      FileWaiting(q1.(jobs := q1.jobs[id := job]), id, Head, x);
    }
  }

  lemma SplitCounts<T>(a: seq<T>, b: seq<T>, n: nat, x: T)
    requires n <= |b|
    ensures multiset(a + b[..n])[x] + multiset(b[n..])[x] == multiset(a)[x] + multiset(b)[x]
    ensures (x in a + b[..n] || x in b[n..]) == (x in a || x in b)
  {
    assert b == b[..n] + b[n..];
  }

  lemma ShiftEffect(q: Queue, n: nat, x: Id)
    requires n <= |q.parked|
    ensures var q' := q.(wait := q.wait + q.parked[..n], parked := q.parked[n..]);
            ViewOf(q', x) == ViewOf(q, x) && Where(q', x) == Where(q, x)
  {
    SplitCounts(q.wait, q.parked, n, x);
  }

  /** How many parked jobs one round moves. */
  function Batch(q: Queue): nat {
    if q.wait != [] && |q.parked| > RESUME_BATCH then RESUME_BATCH else |q.parked|
  }

  /** One round moves a prefix of the parked list to the tail of wait. */
  lemma ResumeMoves(q: Queue)
    ensures ResumeRound(q) == (q.(paused := false, wait := q.wait + q.parked[..Batch(q)],
                                  parked := q.parked[Batch(q)..]),
                               Code(|q.parked| - Batch(q)))
  {
    if q.parked == [] {
      assert q.wait + q.parked[..0] == q.wait;
    } else if q.wait == [] {
      assert q.wait + q.parked[..|q.parked|] == q.parked && q.parked[|q.parked|..] == [];
    }
  }

  lemma ResumeFollows(q: Queue, x: Id)
    requires Sound(q)
    ensures Follows(q, ResumeRound(q).0, Same, x)
  {
    hide Sound, Where, ViewOf, ResumeRound;
    SoundAt(q, x);
    ResumeMoves(q);
    SoundBut(q, q.(paused := false), x);
    ShiftEffect(q.(paused := false), Batch(q), x);
  }

  // ---------- draining and removing ----------

  /** With the spared ids last, cutting off the head keeps exactly them. */
  lemma {:induction false} DrainCut(s: seq<Id>, spared: set<Id>)
    ensures var n := |Filter(s, id => id !in spared)|;
            SparedLast(s, spared) <==> forall i :: 0 <= i < n ==> s[i] !in spared
    ensures var n := |Filter(s, id => id !in spared)|;
            SparedLast(s, spared) ==> forall i :: n <= i < |s| ==> s[i] in spared
  {
    var keep := (id: Id) => id !in spared;
    var n := |Filter(s, keep)|;
    if s != [] {
      var t := s[1..];
      DrainCut(t, spared);
      assert forall i :: 0 <= i < |t| ==> t[i] == s[i + 1];
      if s[0] in spared {
        if SparedLast(s, spared) {
          assert forall x :: x in s ==> x in spared;
          assert Filter(s, keep) == [];
        } else {
          var i, j :| 0 <= i < j < |s| && s[i] in spared && s[j] !in spared;
          assert s[j] in Filter(s, keep);
        }
      } else {
        assert n == 1 + |Filter(t, keep)|;
        assert SparedLast(s, spared) <==> SparedLast(t, spared);
        assert forall i :: 1 <= i < |s| ==> s[i] == t[i - 1];
      }
    }
  }

  lemma DrainListCounts(s: seq<Id>, spared: set<Id>, x: Id)
    requires SparedLast(s, spared)
    ensures multiset(DrainList(s, spared))[x] == if x in spared then multiset(s)[x] else 0
    ensures x in DrainList(s, spared) <==> x in s && x in spared
  {
    DrainCut(s, spared);
    var n := |Filter(s, id => id !in spared)|;
    assert s == s[..n] + s[n..];
    assert x in s[..n] ==> x !in spared;
    assert x in s[n..] ==> x in spared;
  }

  lemma DrainPending(q: Queue, withDelayed: bool, x: Id)
    requires Where(q, x) <= 1 && SparedLast(q.wait, Spared(q)) && SparedLast(q.parked, Spared(q))
    ensures var q' := DrainQueue(q, withDelayed);
            && Pending(q', x) == (Pending(q, x) && !Deleted(q, withDelayed, x))
            && q'.active == q.active && q'.lock == q.lock && q'.completed == q.completed && q'.failed == q.failed
            && (x in q'.jobs <==> x in q.jobs && !Deleted(q, withDelayed, x))
            && (x in q'.jobs ==> q'.jobs[x] == q.jobs[x])
  {
    hide DrainList, Spared, SparedLast;
    DrainListCounts(q.wait, Spared(q), x);
    DrainListCounts(q.parked, Spared(q), x);
  }

  lemma DrainWhere(q: Queue, withDelayed: bool, x: Id)
    requires Where(q, x) <= 1 && SparedLast(q.wait, Spared(q)) && SparedLast(q.parked, Spared(q))
    ensures Where(DrainQueue(q, withDelayed), x) == if Deleted(q, withDelayed, x) then 0 else Where(q, x)
  {
    hide DrainList, Spared, SparedLast;
    DrainListCounts(q.wait, Spared(q), x);
    DrainListCounts(q.parked, Spared(q), x);
  }

  lemma DrainEffect(q: Queue, withDelayed: bool, x: Id)
    requires Tidy(q, ViewOf(q, x), x) && SparedLast(q.wait, Spared(q)) && SparedLast(q.parked, Spared(q))
    ensures var q' := DrainQueue(q, withDelayed);
            if Deleted(q, withDelayed, x) then
              x in q.jobs && x !in q.lock && ViewOf(q', x) == ABSENT && Where(q', x) == 0 && x !in q.active
            else
              ViewOf(q', x) == ViewOf(q, x) && Where(q', x) == Where(q, x)
  {
    hide DrainQueue, Spared, SparedLast;
    DrainPending(q, withDelayed, x);
    DrainWhere(q, withDelayed, x);
  }

  lemma DrainFollows(q: Queue, withDelayed: bool, x: Id)
    requires Sound(q) && SparedLast(q.wait, Spared(q)) && SparedLast(q.parked, Spared(q))
    ensures Follows(q, DrainQueue(q, withDelayed), if Deleted(q, withDelayed, x) then Gone else Same, x)
  {
    hide DrainList, Spared, SparedLast, Where, Sound;
    SoundAt(q, x);
    DrainEffect(q, withDelayed, x);
  }

  lemma RemoveKeepsOthers(q: Queue, id: Id, x: Id)
    requires x != id
    ensures var q' := RemoveFromAnyState(q, id); ViewOf(q', x) == ViewOf(q, x) && Where(q', x) == Where(q, x)
  {
    hide RemoveFirst, PlaceOf;
    RemoveFirstCounts(q.wait, id, x);
    RemoveFirstCounts(q.parked, id, x);
    RemoveFirstCounts(q.active, id, x);
  }

  lemma RemoveTakesOut(q: Queue, id: Id)
    requires Where(q, id) <= 1 && id !in q.lock
    ensures var q' := RemoveFromAnyState(q, id);
            ViewOf(q', id) == ABSENT.(job := ViewOf(q, id).job) && Where(q', id) == 0
  {
    hide RemoveFirst;
    RemoveFirstCounts(q.wait, id, id);
    RemoveFirstCounts(q.parked, id, id);
    RemoveFirstCounts(q.active, id, id);
  }

  lemma DropHash(q: Queue, id: Id, x: Id)
    ensures var q' := q.(jobs := q.jobs - {id});
            && ViewOf(q', x) == (if x == id then ViewOf(q, x).(job := None) else ViewOf(q, x))
            && Where(q', x) == Where(q, x)
  {
  }

  lemma RemoveFromAnyStateEffect(q: Queue, id: Id, x: Id)
    requires Where(q, id) <= 1 && id !in q.lock
    ensures var q' := RemoveFromAnyState(q, id).(jobs := q.jobs - {id});
            && ViewOf(q', x) == (if x == id then ABSENT else ViewOf(q, x))
            && Where(q', x) == (if x == id then 0 else Where(q, x))
            && q'.stalled == q.stalled
  {
    var q1 := RemoveFromAnyState(q, id);
    assert q1.jobs == q.jobs && q1.stalled == q.stalled by {
      hide RemoveFirst, PlaceOf;
    }
    hide RemoveFromAnyState, Where, ViewOf;
    DropHash(q1, id, x);
    if x == id {
      RemoveTakesOut(q, id);
    } else {
      RemoveKeepsOthers(q, id, x);
    }
  }

  lemma RemoveFollows(q: Queue, id: Id, x: Id)
    requires Sound(q) && !(id in q.stalled && id !in q.lock && !CurrentIteration(q, id))
    ensures Follows(q, Remove(q, id).0, if x == id && Removable(q, id) then Gone else Same, x)
  {
    hide RemoveFromAnyState, Where, Sound, CurrentIteration;
    SoundAt(q, x);
    SoundAt(q, id);
    if id !in q.lock {
      RemoveFromAnyStateEffect(q, id, x);
    }
    if id !in q.jobs {
      AbsentFacts(q, id);
    }
  }

  // ---------- redefining a schedule ----------

  /** Of a sound queue an id is in one place, so that the order in which places are tried does not matter. */
  lemma OnePlaceOf(q: Queue, id: Id)
    requires Sound(q)
    ensures id in q.delayed ==> PlaceOf(q, id) == InDelayed
    ensures id in q.prioritized ==> PlaceOf(q, id) == InPrioritized
    ensures id in q.wait ==> PlaceOf(q, id) == InWait
    ensures id in q.parked ==> PlaceOf(q, id) == InParked
  {
    assert Where(q, id) <= 1;
  }

  /** Retracting a job touches the pending places and the HASH only. */
  lemma RetractedFrame(q: Queue, id: Id)
    ensures var q' := Retracted(q, id);
            && q'.wait == (if id in q.jobs && id !in q.delayed && id !in q.prioritized && !q.paused && id in q.wait
                           then RemoveFirst(q.wait, id) else q.wait)
            && (q'.jobs == q.jobs || q'.jobs == q.jobs - {id})
            && q' == q.(jobs := q'.jobs, delayed := q'.delayed, prioritized := q'.prioritized, parked := q'.parked,
                        wait := q'.wait)
  {
    hide RemoveFirst;
    if id !in q.jobs {
    } else if id in q.delayed {
    } else if id in q.prioritized {
    } else if q.paused {
      if id in q.parked {
      }
    } else if id in q.wait {
    } else {
    }
  }

  lemma WithdrawnIs(q: Queue, sid: SchedulerId)
    requires Sound(q)
    ensures var q' := Withdrawn(q, sid);
            if sid in q.repeat && Withdraws(q, sid, SlotId(sid, q.repeat[sid])) then
              var id := SlotId(sid, q.repeat[sid]);
              Pending(q, id) && q' == RemoveFromAnyState(q, id).(jobs := q.jobs - {id})
            else
              q' == q
  {
    hide SlotId, RemoveFirst, Sound, PlaceOf;
    if sid in q.repeat && SlotId(sid, q.repeat[sid]) in q.jobs {
      var id := SlotId(sid, q.repeat[sid]);
      OnePlaceOf(q, id);
      if id in q.delayed {
      } else if id in q.prioritized {
      } else if q.paused && id in q.parked {
      } else if !q.paused && id in q.wait {
      } else {
      }
    }
  }

  lemma WithdrawFollows(q: Queue, sid: SchedulerId, x: Id)
    requires Sound(q)
    ensures Follows(q, Withdrawn(q, sid), if Withdraws(q, sid, x) then Gone else Same, x)
  {
    hide SlotId, RemoveFromAnyState, Withdrawn, Where, Sound;
    WithdrawnIs(q, sid);
    SoundAt(q, x);
    if sid in q.repeat {
      var id := SlotId(sid, q.repeat[sid]);
      SoundAt(q, id);
      if Withdraws(q, sid, id) {
        PendingFacts(q, id);
        RemoveFromAnyStateEffect(q, id, x);
      }
    }
  }

  lemma FirstFollows(q: Queue, sid: SchedulerId, entry: Scheduler, slot: int, opts: JobOpts, now: int, x: Id)
    requires Sound(q) && SlotId(sid, slot) !in q.jobs
    ensures Follows(q, FirstIteration(q, sid, entry, slot, opts, now),
                    if x == SlotId(sid, slot) then Born(opts, Some(sid)) else Same, x)
  {
    hide Store, Sound, Where, SlotId, ViewOf;
    var id, q1 := SlotId(sid, slot), NewEntry(q, sid, entry, slot);
    SoundAt(q, x);
    SoundBut(q, q1, x);
    AbsentFacts(q, id);
    SoundBut(q, q1, id);
    StoreEffect(q1, id, opts, Some(sid), slot - now, now, x);
  }

  lemma EnterFollows(q: Queue, sid: SchedulerId, entry: Scheduler, slot: int, opts: JobOpts, now: int, removed: bool,
                     x: Id)
    requires Sound(q) && (SlotId(sid, slot) !in q.jobs || Refuses(q, sid, entry, slot, removed))
    ensures Follows(q, EnterSchedule(q, sid, entry, slot, opts, now, removed).0,
                    if x == SlotId(sid, slot) && x !in q.jobs then Born(opts, Some(sid)) else Same, x)
  {
    hide FirstIteration, Sound, SlotId, Where;
    if SlotId(sid, slot) in q.jobs {
      SoundAt(q, x);
    } else {
      FirstFollows(q, sid, entry, slot, opts, now, x);
    }
  }

  // ---------- locks ----------

  lemma ExtendFollows(q: Queue, id: Id, token: Token, x: Id)
    requires Sound(q)
    ensures Follows(q, Extend(q, id, token).0, Same, x)
  {
    hide Sound, Where;
    SoundAt(q, x);
    MarksUnseen(q, q.stalled - {id}, q.checking, x);
  }

  lemma UnlockFollows(q: Queue, id: Id, x: Id)
    requires Sound(q)
    ensures Follows(q, q.(lock := q.lock - {id}), if x == id && id in q.lock then Unlocked else Same, x)
  {
    SoundAt(q, x);
    hide Sound;
  }

  lemma ReleaseFollows(q: Queue, id: Id, token: Token, x: Id)
    requires Sound(q)
    ensures Follows(q, Release(q, id, token).0, if x == id && Owns(q, id, token) then Unlocked else Same, x)
  {
    UnlockFollows(q, id, x);
    SoundAt(q, x);
    if id in q.lock {
      ActiveIsJob(q, id);
    }
    hide Sound, Where, ViewOf;
  }

  lemma FlagsFollow(q: Queue, q1: Queue, x: Id)
    requires Sound(q)
    requires q1 == q.(counter := q1.counter, pc := q1.pc, paused := q1.paused, checking := q1.checking,
                      repeat := q1.repeat, schedulers := q1.schedulers)
    ensures Follows(q, q1, Same, x)
  {
    SoundAt(q, x);
    SoundBut(q, q1, x);
    hide Sound, Where, ViewOf;
  }

  // ---------- every script, every run ----------

  /** The scripts that a dispatcher runs. */
  lemma DispatcherFollows(q: Queue, op: Op, x: Id)
    requires Sound(q) && Allowed(q, op)
    requires || op.MoveToActive? || op.MoveToFinished? || op.RetryJob? || op.MoveToDelayed? || op.ExtendLock?
             || op.ReleaseLock?
    ensures Follows(q, Apply(q, op).0, ChangeOf(q, op, x), x)
  {
    hide Sound, Follows, AddJob, Acquire, FinishJob, Retry, DelayJob, Extend, Release, ScanStalled, PromoteJob,
      ReprocessJob, ResumeRound, DrainQueue, Remove, NextIteration, TakenBy, FinishChange, RetryChange, DelayChange,
      ScanChange, Deleted, Removable, NextSlot, SlotId, Digits, Finished, Withdrawn, EnterSchedule, Withdraws;
    match op
    case MoveToActive(token, now, limited) =>
      AcquireEffect(q, token, now, limited, false, x);
      SoundAt(q, x);
      var (q', reply) := Acquire(q, token, now, limited, false);
      FetchedFollows(q, q', reply, token, now, x);
    case MoveToFinished(id, token, bucket, keep, history, now, fetchNext, limited) =>
      FinishFollows(q, id, token, bucket, keep, history, now, fetchNext, limited, x);
    case RetryJob(id, token, lifo, history, now) => RetryFollows(q, id, token, lifo, history, now, x);
    case MoveToDelayed(id, token, now, delay, skip, history) =>
      DelayFollows(q, id, token, now, delay, skip, history, x);
    case ExtendLock(id, token) => ExtendFollows(q, id, token, x);
    case ReleaseLock(id, token) => ReleaseFollows(q, id, token, x);
  }

  /** Every script makes, for every id, one legal change. */
  lemma StepFollows(q: Queue, op: Op, x: Id)
    requires Sound(q) && Allowed(q, op)
    ensures Follows(q, Apply(q, op).0, ChangeOf(q, op, x), x)
  {
    hide Sound, Follows, AddJob, Acquire, FinishJob, Retry, DelayJob, Extend, Release, ScanStalled, PromoteJob,
      ReprocessJob, ResumeRound, DrainQueue, Remove, NextIteration, TakenBy, FinishChange, RetryChange, DelayChange,
      ScanChange, CurrentIteration, Deleted, Removable, Spared, SparedLast, NextSlot, SlotId, Digits, Finished,
      Withdrawn, EnterSchedule, Withdraws, Refuses;
    match op
    case Add(custom, opts, delay, now) => AddFollows(q, custom, opts, delay, now, x);
    case MoveStalled(limit, order) => ScanFollows(q, limit, order, x);
    case Promote(id) => PromoteFollows(q, id, x);
    case Reprocess(id, bucket, resetAtm, resetAts) => ReprocessFollows(q, id, bucket, resetAtm, resetAts, x);
    case Resume => ResumeFollows(q, x);
    case Drain(withDelayed) => DrainFollows(q, withDelayed, x);
    case RemoveJob(id) => RemoveFollows(q, id, x);
    case UpdateScheduler(sid, producer, timing, opts, now) => IterationFollows(q, sid, producer, timing, opts, now, x);
    case Withdraw(sid) => WithdrawFollows(q, sid, x);
    case Enter(sid, entry, slot, opts, now, removed) =>
      EnterFollows(q, sid, entry, slot, opts, now, removed, x);
    case ExpireLock(id) => UnlockFollows(q, id, x);
    case Pause => FlagsFollow(q, Apply(q, op).0, x);
    case DropScheduler(_) => FlagsFollow(q, Apply(q, op).0, x);
    case DropRepeat(_) => FlagsFollow(q, Apply(q, op).0, x);
    case ExpireCheck => FlagsFollow(q, Apply(q, op).0, x);
    case _ => DispatcherFollows(q, op, x);
  }

  lemma FetchedFollows(q: Queue, q': Queue, reply: Reply, token: Token, now: int, x: Id)
    requires Fetched(q, q', reply, token, now, x) && Tidy(q, ViewOf(q, x), x)
    ensures Follows(q, q', TakenBy(reply, token, now, x), x)
  {
    hide Where;
  }

  lemma BornUnmarked(q: Queue, op: Op, x: Id)
    requires Allowed(q, op) && ChangeOf(q, op, x).Born?
    ensures !IsMarker(x)
  {
    hide AddJob, Acquire, FinishJob, Retry, DelayJob, Extend, Release, ScanStalled, PromoteJob, ReprocessJob,
      ResumeRound, DrainQueue, Remove, NextIteration, CurrentIteration, Spared, NextSlot, Decimal, Withdrawn,
      EnterSchedule;
    if op.Enter? {
      assert SlotId(op.sid, op.slot)[0] == 'r';
    } else if op.UpdateScheduler? {
      assert SlotId(op.sid, NextSlot(q, op.sid, op.timing, op.now))[0] == 'r';
    } else if op.Add? && op.custom == AUTO && |x| >= 2 {
      assert x[1] in x;
    }
  }

  /** Soundness is kept by every allowed script. */
  lemma StepSound(q: Queue, op: Op)
    requires Sound(q) && Allowed(q, op)
    ensures Sound(Apply(q, op).0)
  {
    hide Where, Apply, ChangeOf, Allowed;
    var q' := Apply(q, op).0;
    forall x
      ensures Follows(q, q', ChangeOf(q, op, x), x)
      ensures x in q'.jobs ==> !IsMarker(x)
    {
      StepFollows(q, op, x);
      if ChangeOf(q, op, x).Born? {
        BornUnmarked(q, op, x);
      }
    }
    SoundFromFollows(q, q', x => ChangeOf(q, op, x));
  }

  function RunOps(q: Queue, ops: seq<Op>): Queue
    decreases |ops|
  {
    if ops == [] then q else RunOps(Apply(q, ops[0]).0, ops[1..])
  }

  ghost predicate AllAllowed(q: Queue, ops: seq<Op>)
    decreases |ops|
  {
    ops == [] || (Allowed(q, ops[0]) && AllAllowed(Apply(q, ops[0]).0, ops[1..]))
  }

  const EMPTY := Queue([], [], [], map[], map[], map[], map[], {}, map[], map[], false, None, 0, 0, false, map[], map[])

  /**
    In every reachable state every stored job occurs exactly once across wait, active, paused,
    prioritized, delayed, completed and failed, and every locked or marked id is active.
   */
  lemma {:induction false} RunSound(q: Queue, ops: seq<Op>)
    requires Sound(q) && AllAllowed(q, ops)
    ensures Sound(RunOps(q, ops))
    decreases |ops|
  {
    hide Apply, Allowed, Sound;
    if ops != [] {
      StepSound(q, ops[0]);
      RunSound(Apply(q, ops[0]).0, ops[1..]);
    }
  }
}
