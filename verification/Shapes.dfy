/**
  Which keys a script writes. On a sound queue each script leaves all but a few fields alone; from
  this follows which flags stay, and when a delayed job stays where it is.
 */
module Shapes {
  import opened Wrappers
  import opened Lists
  import opened SortedSets
  import opened Queues
  import opened JobLife

  lemma {:induction false} DistinctSize(s: seq<Id>)
    requires Distinct(s)
    ensures |s| == |Elements(s)|
  {
    if s != [] {
      var n := |s| - 1;
      DistinctSize(s[..n]);
      assert Elements(s) == Elements(s[..n]) + {s[n]};
      assert s[n] !in s[..n];
    }
  }

  // ---------- parts of scripts ----------

  lemma PromoteDueShape(q: Queue, now: int)
    requires Sound(q)
    ensures var q' := PromoteDue(q, now);
            q' == q.(wait := q'.wait, prioritized := q'.prioritized, pc := q'.pc,
                     delayed := q.delayed - Elements(Due(q.delayed, now)))
  {
    hide Due, EnqueueEach;
    var ids := Due(q.delayed, now);
    var q1 := q.(delayed := q.delayed - Elements(ids));
    DueIds(q.delayed, now);
    forall id | id in ids
      ensures id !in q1.prioritized
    {
      assert Where(q, id) <= 1;
    }
    EnqueueEachEffect(q1, ids, "");
  }

  /** A fetch takes the job it replies with from pending, and locks it. */
  lemma FetchShape(q: Queue, token: Token, now: int, next: bool)
    requires Sound(q) && token != NO_LOCK
    ensures var (q', reply) := Fetch(q, token, now, next);
            && q' == q.(wait := q'.wait, prioritized := q'.prioritized, active := q'.active, pc := q'.pc,
                        lock := q'.lock, jobs := q'.jobs)
            && q'.jobs.Keys == q.jobs.Keys && (reply.Got? || reply.NoJob?)
            && (reply.Got? <==> q.wait != [] || q.prioritized != map[])
  {
    hide PullBy, Prepare, Sound, Where;
    FetchEffect(q, token, now, next, "");
    var (q1, id) := PullBy(q, next);
    PullShape(q, next);
    if id.Some? {
      PendingFacts(q, id.value);
      PrepareShape(q1, id.value, token, now);
    }
  }

  lemma PullShape(q: Queue, next: bool)
    requires Sound(q)
    ensures var (q', id) := PullBy(q, next);
            && q' == q.(wait := q'.wait, prioritized := q'.prioritized, active := q'.active, pc := q'.pc)
            && (id.Some? <==> q.wait != [] || q.prioritized != map[])
            && (id.Some? ==> Pending(q, id.value))
  {
    hide Sound, Where;
    WaitHasNoMarker(q);
    PullEffect(q, next, "");
    if q.wait != [] {
      assert q.wait[|q.wait| - 1] in q.wait;
    }
  }

  lemma PrepareShape(q: Queue, id: Id, token: Token, now: int)
    requires id in q.jobs
    ensures var (q', reply) := Prepare(q, id, token, now);
            && q' == q.(lock := q'.lock, jobs := q'.jobs) && q'.jobs.Keys == q.jobs.Keys && reply.Got? && reply.id == id
  {
  }

  lemma AcquireShape(q: Queue, token: Token, now: int, limited: bool, next: bool)
    requires Sound(q) && token != NO_LOCK
    ensures var (q', reply) := Acquire(q, token, now, limited, next);
            && q' == q.(wait := q'.wait, prioritized := q'.prioritized, active := q'.active, pc := q'.pc,
                        lock := q'.lock, jobs := q'.jobs, delayed := q.delayed - Elements(Due(q.delayed, now)))
            && q'.jobs.Keys == q.jobs.Keys
  {
    hide PromoteDue, Fetch, Sound, Gated, Due;
    PromoteDueShape(q, now);
    PromoteDueSound(q, now);
    FetchShape(PromoteDue(q, now), token, now, next);
  }

  lemma UnlockShape(q: Queue, id: Id, token: Token)
    ensures var q' := RemoveLock(q, id, token).0; q' == q.(lock := q'.lock, stalled := q'.stalled)
  {
    if token == NO_LOCK || id !in q.lock || q.lock[id] != token {
    } else {
    }
  }

  lemma HistoryShape(q: Queue, id: Id, history: Option<History>)
    requires id in q.jobs
    ensures var q' := WriteHistory(q, id, history); q' == q.(jobs := q'.jobs) && q'.jobs.Keys == q.jobs.Keys
  {
    if history.None? {
    } else {
    }
  }

  lemma LeaveShape(q: Queue, id: Id, token: Token, history: Option<History>)
    ensures var q' := Leave(q, id, token, history).0;
            && q' == q.(lock := q'.lock, stalled := q'.stalled, jobs := q'.jobs, active := q'.active)
            && q'.jobs.Keys == q.jobs.Keys
  {
    hide RemoveLast, RemoveLock, WriteHistory;
    if id in q.jobs {
      UnlockShape(q, id, token);
      HistoryShape(RemoveLock(q, id, token).0, id, history);
    }
  }

  lemma EvictShape(q: Queue, bucket: Bucket, ids: set<Id>)
    ensures var q' := Evict(q, bucket, ids);
            && q' == q.(completed := q'.completed, failed := q'.failed, jobs := q.jobs - ids)
            && Finished(q', bucket) == Finished(q, bucket) - ids
  {
    if bucket == Completed {
    } else {
    }
  }

  /** Only the finished sets and the HASHes differ. */
  predicate Filed(q: Queue, q': Queue) {
    q' == q.(completed := q'.completed, failed := q'.failed, jobs := q'.jobs)
  }

  lemma FileShape(q: Queue, id: Id, bucket: Bucket, now: int)
    requires id in q.jobs
    ensures var q' := File(q, id, bucket, now);
            && Filed(q, q') && q'.jobs.Keys == q.jobs.Keys
            && Finished(q', bucket) == Finished(q, bucket)[id := now]
  {
    if bucket == Completed {
    } else {
    }
  }

  lemma TrimShape(q: Queue, bucket: Bucket, keep: Keep, now: int)
    ensures Filed(q, Trim(q, bucket, keep, now))
  {
    hide Evict, AgedOut, Surplus, Finished;
    if keep.age.Some? {
      EvictShape(q, bucket, AgedOut(Finished(q, bucket), now, keep.age.value));
    }
    var q1 := if keep.age.Some? then Evict(q, bucket, AgedOut(Finished(q, bucket), now, keep.age.value)) else q;
    if keep.count.Some? {
      EvictShape(q1, bucket, Surplus(Finished(q1, bucket), keep.count.value));
    }
  }

  lemma SettleShape(q: Queue, id: Id, bucket: Bucket, keep: Keep, now: int)
    requires id in q.jobs
    ensures Filed(q, Settle(q, id, bucket, keep, now))
  {
    hide File, Trim;
    FileShape(q, id, bucket, now);
    TrimShape(File(q, id, bucket, now), bucket, keep, now);
  }

  lemma EnqueueShape(q: Queue, id: Id, end: End)
    ensures var q' := Enqueue(q, id, end); q' == q.(wait := q'.wait, prioritized := q'.prioritized, pc := q'.pc)
  {
    if JobOf(q, id).opts.priority == 0 {
    } else {
    }
  }

  /** Storing a job files it as delayed exactly if its delay is positive. */
  lemma StoreShape(q: Queue, id: Id, opts: JobOpts, rjk: Option<SchedulerId>, delay: int, now: int)
    ensures var q' := Store(q, id, opts, rjk, delay, now);
            && q' == q.(wait := q'.wait, prioritized := q'.prioritized, pc := q'.pc, delayed := q'.delayed,
                        jobs := q'.jobs)
            && q'.delayed == if delay > 0 then q.delayed[id := DelayedScore(q.delayed, now, delay)] else q.delayed
  {
    hide DelayedScore, Push, AddWithPriority, Stored, JobOf;
    var q1 := q.(jobs := q.jobs[id := Stored(JobOf(q, id), opts, rjk)]);
    PriorityShape(q1, id, opts.priority);
    if delay > 0 {
    } else if opts.priority > 0 {
    } else {
    }
  }

  lemma PriorityShape(q: Queue, id: Id, priority: int)
    ensures var q' := AddWithPriority(q, id, priority); q' == q.(prioritized := q'.prioritized, pc := q'.pc)
  {
  }

  // ---------- scripts ----------

  /** The flags of meta, which only pausing and resuming write. */
  predicate SameMeta(q: Queue, q': Queue) {
    q'.paused == q.paused && q'.concurrency == q.concurrency
  }

  /** If x is delayed it stays so, with its score, or it is deleted. */
  ghost predicate Stays(q: Queue, q': Queue, x: Id) {
    x in q.delayed ==> x !in q'.jobs || (x in q'.delayed && q'.delayed[x] == q.delayed[x])
  }

  lemma FinishShape(q: Queue, id: Id, token: Token, bucket: Bucket, keep: Keep, history: Option<History>, now: int,
                    fetchNext: bool, limited: bool, x: Id)
    requires Sound(q) && token != NO_LOCK
    ensures var q' := FinishJob(q, id, token, bucket, keep, history, now, fetchNext, limited).0;
            SameMeta(q, q') && (x !in Due(q.delayed, now) ==> Stays(q, q', x))
  {
    hide Leave, Settle, Acquire, BumpAtm, Sound, Due, Where;
    if Owns(q, id, token) {
      var q1 := Leave(q, id, token, history).0;
      LeaveShape(q, id, token, history);
      BumpShape(q1, id);
      SettleShape(BumpAtm(q1, id), id, bucket, keep, now);
      FinishAlone(q, id, token, bucket, keep, history, now, "");
      FinishAloneSound(q, id, token, bucket, keep, history, now);
      AcquireShape(Settle(BumpAtm(q1, id), id, bucket, keep, now), token, now, limited, true);
    } else {
      LeaveRefused(q, id, token, history);
    }
  }

  lemma BumpShape(q: Queue, id: Id)
    ensures var q' := BumpAtm(q, id);
            q' == q.(jobs := q'.jobs) && id in q'.jobs && (id in q.jobs ==> q'.jobs.Keys == q.jobs.Keys)
  {
  }

  lemma RetryShape(q: Queue, id: Id, token: Token, lifo: bool, history: Option<History>, now: int, x: Id)
    requires Sound(q)
    ensures var q' := Retry(q, id, token, lifo, history, now).0;
            SameMeta(q, q') && (x !in Due(q.delayed, now) ==> Stays(q, q', x))
  {
    hide Leave, PromoteDue, Enqueue, BumpAtm, Sound, Due;
    var q0, end := PromoteDue(q, now), if lifo then Tail else Head;
    PromoteDueShape(q, now);
    LeaveShape(q0, id, token, history);
    var q1 := Leave(q0, id, token, history).0;
    EnqueueShape(q1, id, end);
    BumpShape(Enqueue(q1, id, end), id);
  }

  /** A postponement files its job and leaves the other delayed ones alone. */
  lemma DelayShape(q: Queue, id: Id, token: Token, now: int, delay: int, skip: bool, history: Option<History>)
    requires Sound(q) && token != NO_LOCK
    ensures var q' := DelayJob(q, id, token, now, delay, skip, history).0;
            && SameMeta(q, q')
            && q'.delayed == (if Owns(q, id, token) then q.delayed[id := DelayedScore(q.delayed, now, delay)]
                              else q.delayed)
  {
    hide Leave, BumpAtm, Sound, DelayedScore, Where;
    if Owns(q, id, token) {
      var q1 := Leave(q, id, token, history).0;
      LeaveShape(q, id, token, history);
      BumpShape(q1, id);
      OwnerFacts(q, id, token);
      LeaveEffect(q, id, token, history, id);
    } else {
      LeaveRefused(q, id, token, history);
    }
  }

  lemma ScanShape(q: Queue, limit: int, order: seq<Id>)
    requires Sound(q) && Distinct(order) && Elements(order) == q.stalled
    ensures var q' := ScanStalled(q, limit, order); SameMeta(q, q') && q'.delayed == q.delayed
  {
    hide ReclaimEach, Where;
    var q0 := q.(stalled := {}, checking := true);
    forall id | id in order
      ensures !IsMarker(id) && Tidy(q0, ViewOf(q0, id), id)
    {
      MarkedAreJobs(q, order, id);
      MarksUnseen(q, {}, true, id);
    }
    ReclaimEachEffect(q0, order, limit, "");
  }

  lemma PromoteShape(q: Queue, id: Id)
    ensures var q' := PromoteJob(q, id).0; SameMeta(q, q') && q'.delayed == q.delayed - {id}
  {
    hide Enqueue, IsMarker;
    var q1 := q.(delayed := q.delayed - {id});
    EnqueueShape(q1, id, Head);
    if q1.wait != [] {
      EnqueueShape(q1.(wait := q1.wait[1..]), id, Head);
    }
  }

  lemma BucketShape(q: Queue, bucket: Bucket, z: ZSet)
    ensures var q' := SetFinished(q, bucket, z); SameMeta(q, q') && q'.delayed == q.delayed
  {
  }

  lemma ReprocessShape(q: Queue, id: Id, bucket: Bucket, resetAtm: bool, resetAts: bool)
    ensures var q' := ReprocessJob(q, id, bucket, resetAtm, resetAts).0; SameMeta(q, q') && q'.delayed == q.delayed
  {
    hide Enqueue, Finished, SetFinished;
    if id !in q.jobs {
    } else if id in Finished(q, bucket) {
      var q1 := SetFinished(q, bucket, Finished(q, bucket) - {id});
      BucketShape(q, bucket, Finished(q, bucket) - {id});
      var was := JobOf(q, id);
      var job := was.(processedOn := 0, atm := if resetAtm then 0 else was.atm, ats := if resetAts then 0 else was.ats);
      var q2 := q1.(jobs := q1.jobs[id := job]);
      assert ReprocessJob(q, id, bucket, resetAtm, resetAts).0 == Enqueue(q2, id, Head);
      hide ReprocessJob;
      EnqueueShape(q2, id, Head);
    }
  }

  lemma RemoveShape(q: Queue, id: Id, x: Id)
    ensures var q' := Remove(q, id).0; SameMeta(q, q') && Stays(q, q', x)
  {
    hide CurrentIteration, PlaceOf, RemoveFirst;
    if CurrentIteration(q, id) {
    } else if id in q.lock {
    } else {
    }
  }

  lemma WithdrawShape(q: Queue, sid: SchedulerId, x: Id)
    ensures var q' := Withdrawn(q, sid); SameMeta(q, q') && Stays(q, q', x)
  {
    hide SlotId, RemoveFirst;
    if sid in q.repeat {
      var id := SlotId(sid, q.repeat[sid]);
      RetractedFrame(q, id);
      if id !in q.jobs {
      } else if id in q.delayed {
      } else if id in q.prioritized {
      } else if q.paused {
        if id in q.parked {
        }
      } else if id in q.wait {
      } else {
      }
    }
  }

  lemma DrainShape(q: Queue, withDelayed: bool, x: Id)
    ensures var q' := DrainQueue(q, withDelayed); SameMeta(q, q') && Stays(q, q', x)
  {
    hide DrainList, Spared;
  }

  lemma AddShape(q: Queue, custom: Id, opts: JobOpts, delay: int, now: int, x: Id)
    requires Sound(q) && (custom == AUTO ==> NewId(q, custom) !in q.jobs)
    ensures var q' := AddJob(q, custom, opts, delay, now).0; SameMeta(q, q') && Stays(q, q', x)
  {
    hide Store, Digits, Sound, DelayedScore;
    var id := NewId(q, custom);
    if id !in q.jobs {
      StoreShape(q.(counter := q.counter + 1), id, opts, None, delay, now);
      AbsentFacts(q, id);
    }
  }

  lemma IterationShape(q: Queue, sid: SchedulerId, producer: Id, timing: Timing, opts: JobOpts, now: int, x: Id)
    requires Sound(q)
    ensures var q' := NextIteration(q, sid, producer, timing, opts, now).0; SameMeta(q, q') && Stays(q, q', x)
  {
    hide Store, SlotId, NextSlot, Sound, DelayedScore;
    if sid in q.repeat {
      var slot := NextSlot(q, sid, timing, now);
      if SlotId(sid, slot) !in q.jobs {
        var q1 := BumpIterations(q.(repeat := q.repeat[sid := slot], counter := q.counter + 1), sid);
        StoreShape(q1, SlotId(sid, slot), opts, Some(sid), slot - now, now);
        AbsentFacts(q, SlotId(sid, slot));
      }
    }
  }

  lemma EnterShape(q: Queue, sid: SchedulerId, entry: Scheduler, slot: int, opts: JobOpts, now: int, removed: bool,
                   x: Id)
    requires Sound(q) && (SlotId(sid, slot) !in q.jobs || Refuses(q, sid, entry, slot, removed))
    ensures var q' := EnterSchedule(q, sid, entry, slot, opts, now, removed).0; SameMeta(q, q') && Stays(q, q', x)
  {
    hide Store, SlotId, Sound, DelayedScore;
    if SlotId(sid, slot) !in q.jobs {
      StoreShape(NewEntry(q, sid, entry, slot), SlotId(sid, slot), opts, Some(sid), slot - now, now);
      AbsentFacts(q, SlotId(sid, slot));
    }
  }

  /** What a script without the lock is told: the job is gone, nobody holds the lock, or somebody else does. */
  function Refusal(q: Queue, id: Id): (code: int)
    ensures code < 0
  {
    if id !in q.jobs then -1 else if id !in q.lock then -2 else -6
  }

  /** A finish, retry or delay without the lock gets exactly that code, and the queue stays but for due promotions. */
  lemma RefusedReply(q: Queue, op: Op)
    requires Sound(q) && Allowed(q, op) && (op.MoveToFinished? || op.RetryJob? || op.MoveToDelayed?)
    requires !Owns(q, op.id, op.token)
    ensures Apply(q, op) == (if op.RetryJob? then PromoteDue(q, op.now) else q, Code(Refusal(q, op.id)))
  {
    hide Sound, PromoteDue, Where;
    if op.RetryJob? {
      PromoteDueShape(q, op.now);
      PromoteDueSound(q, op.now);
      LeaveRefused(PromoteDue(q, op.now), op.id, op.token, op.history);
    } else {
      LeaveRefused(q, op.id, op.token, op.history);
    }
  }

  // ---------- every script ----------

  /** Delayed jobs that a script moves on its own: those due at its clock. */
  function Promoted(q: Queue, op: Op): (ids: seq<Id>) {
    match op
    case MoveToActive(_, now, _) => Due(q.delayed, now)
    case MoveToFinished(_, _, _, _, _, now, _, _) => Due(q.delayed, now)
    case RetryJob(_, _, _, _, now) => Due(q.delayed, now)
    case Promote(id) => [id]
    case _ => []
  }

  lemma DispatcherShape(q: Queue, op: Op, x: Id)
    requires Sound(q) && Allowed(q, op)
    requires op.MoveToActive? || op.MoveToFinished? || op.RetryJob? || op.MoveToDelayed? || op.MoveStalled?
    ensures SameMeta(q, Apply(q, op).0)
    ensures x !in Promoted(q, op) ==> Stays(q, Apply(q, op).0, x)
  {
    hide Sound, Acquire, FinishJob, Retry, DelayJob, ScanStalled, Due, DelayedScore, Distinct, Owns;
    match op
    case MoveToActive(token, now, limited) => AcquireShape(q, token, now, limited, false);
    case MoveToFinished(id, token, bucket, keep, history, now, fetchNext, limited) =>
      FinishShape(q, id, token, bucket, keep, history, now, fetchNext, limited, x);
    case RetryJob(id, token, lifo, history, now) => RetryShape(q, id, token, lifo, history, now, x);
    case MoveToDelayed(id, token, now, delay, skip, history) =>
      DelayShape(q, id, token, now, delay, skip, history);
      if x == id && Owns(q, id, token) {
        OwnerNotDelayed(q, id, token);
      }
    case MoveStalled(limit, order) => ScanShape(q, limit, order);
  }

  lemma OwnerNotDelayed(q: Queue, id: Id, token: Token)
    requires Sound(q) && Owns(q, id, token)
    ensures id !in q.delayed
  {
    OwnerFacts(q, id, token);
  }

  lemma AdminShape(q: Queue, op: Op, x: Id)
    requires Sound(q) && Allowed(q, op)
    requires || op.Add? || op.Promote? || op.Reprocess? || op.Drain? || op.RemoveJob? || op.UpdateScheduler?
             || op.Withdraw? || op.Enter?
    ensures SameMeta(q, Apply(q, op).0)
    ensures x !in Promoted(q, op) ==> Stays(q, Apply(q, op).0, x)
  {
    hide Sound, AddJob, PromoteJob, ReprocessJob, DrainQueue, Remove, NextIteration, Withdrawn, EnterSchedule,
      Digits, Spared, SparedLast, CurrentIteration, SlotId, Refuses;
    match op
    case Add(custom, opts, delay, now) => AddShape(q, custom, opts, delay, now, x);
    case Promote(id) => PromoteShape(q, id);
    case Reprocess(id, bucket, resetAtm, resetAts) => ReprocessShape(q, id, bucket, resetAtm, resetAts);
    case Drain(withDelayed) => DrainShape(q, withDelayed, x);
    case RemoveJob(id) => RemoveShape(q, id, x);
    case UpdateScheduler(sid, producer, timing, opts, now) =>
      IterationShape(q, sid, producer, timing, opts, now, x);
    case Withdraw(sid) => WithdrawShape(q, sid, x);
    case Enter(sid, entry, slot, opts, now, removed) => EnterShape(q, sid, entry, slot, opts, now, removed, x);
  }

  lemma PlainShape(q: Queue, op: Op, x: Id)
    requires || op.ExtendLock? || op.ReleaseLock? || op.Pause? || op.Resume? || op.ExpireLock? || op.ExpireCheck?
             || op.DropScheduler? || op.DropRepeat?
    ensures var q' := Apply(q, op).0;
            && q'.concurrency == q.concurrency && q'.delayed == q.delayed
            && q'.paused == if op.Pause? then true else if op.Resume? then false else q.paused
  {
    hide AddJob, Acquire, FinishJob, Retry, DelayJob, ScanStalled, PromoteJob, ReprocessJob, ResumeRound, DrainQueue,
      Remove, NextIteration, Withdrawn, EnterSchedule;
    if op.Resume? {
      ResumeMoves(q);
    }
  }

  /**
    Only pausing and resuming write the flags of meta, and no script touches a delayed job that
    it is not told to promote, except to delete it.
   */
  lemma StepShape(q: Queue, op: Op, x: Id)
    requires Sound(q) && Allowed(q, op)
    ensures Apply(q, op).0.concurrency == q.concurrency
    ensures Apply(q, op).0.paused == if op.Pause? then true else if op.Resume? then false else q.paused
    ensures x !in Promoted(q, op) ==> Stays(q, Apply(q, op).0, x)
  {
    hide Sound, Allowed, Apply, Promoted;
    if op.MoveToActive? || op.MoveToFinished? || op.RetryJob? || op.MoveToDelayed? || op.MoveStalled? {
      DispatcherShape(q, op, x);
    } else if || op.Add? || op.Promote? || op.Reprocess? || op.Drain? || op.RemoveJob? || op.UpdateScheduler?
              || op.Withdraw? || op.Enter? {
      AdminShape(q, op, x);
    } else {
      PlainShape(q, op, x);
    }
  }
}
