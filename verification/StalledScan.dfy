/**
  What a stalled scan may and will do, over whole runs: which jobs it reclaims, that nothing
  else unmarks or marks a job, and that an abandoned job is reclaimed by the second scan.
 */
module StalledScan {
  import opened Wrappers
  import opened Lists
  import opened SortedSets
  import opened Queues
  import opened JobLife

  /** A scan that is not turned away by the stalled-check key. */
  predicate Effective(q: Queue, op: Op) {
    op.MoveStalled? && !q.checking
  }

  /** The id whose mark a script takes away: its lock holder is alive or done with it. */
  function Unmarked(q: Queue, op: Op): set<Id> {
    match op
    case ExtendLock(id, token) => if id in q.lock && q.lock[id] == token then {id} else {}
    case MoveToFinished(id, token, _, _, _, _, _, _) => if Owns(q, id, token) then {id} else {}
    case RetryJob(id, token, _, _, _) => if Owns(q, id, token) then {id} else {}
    case MoveToDelayed(id, token, _, _, _, _) => if Owns(q, id, token) then {id} else {}
    case _ => {}
  }

  lemma LeaveMarks(q: Queue, id: Id, token: Token, history: Option<History>)
    requires Sound(q) && token != NO_LOCK
    ensures Leave(q, id, token, history).0.stalled == if Owns(q, id, token) then q.stalled - {id} else q.stalled
  {
    if Owns(q, id, token) {
      OwnerFacts(q, id, token);
      if history.None? {
      } else {
      }
    } else {
      LeaveRefused(q, id, token, history);
    }
  }

  lemma PromoteDueMarks(q: Queue, now: int)
    requires Sound(q)
    ensures PromoteDue(q, now).stalled == q.stalled
    ensures forall id, token :: Owns(PromoteDue(q, now), id, token) == Owns(q, id, token)
  {
    hide PromoteDue, Sound;
    WaitHasNoMarker(q);
    PromoteDueEffect(q, now, "");
  }

  lemma FinishMarks(q: Queue, id: Id, token: Token, bucket: Bucket, keep: Keep, history: Option<History>, now: int,
                    fetchNext: bool, limited: bool)
    requires Sound(q) && token != NO_LOCK
    ensures FinishJob(q, id, token, bucket, keep, history, now, fetchNext, limited).0.stalled
         == if Owns(q, id, token) then q.stalled - {id} else q.stalled
  {
    hide Leave, Sound, BumpAtm, Settle, Where, ViewOf, Acquire;
    LeaveMarks(q, id, token, history);
    if Owns(q, id, token) {
      OwnerFacts(q, id, token);
      LeaveEffect(q, id, token, history, id);
      var q1 := Leave(q, id, token, history).0;
      assert id in q1.jobs && ViewOf(q1, id) == Loose(q1.jobs[id]) by {
        LooseInJobs(q1, id, Written(q.jobs[id], history));
      }
      BumpAtmEffect(q1, id, id);
      var q2 := BumpAtm(q1, id);
      LooseInJobs(q2, id, q1.jobs[id].(atm := q1.jobs[id].atm + 1));
      SettleEffect(q2, id, bucket, keep, now, id);
      FinishAloneSound(q, id, token, bucket, keep, history, now);
      AcquireEffect(Settle(q2, id, bucket, keep, now), token, now, limited, true, id);
    } else {
      LeaveRefused(q, id, token, history);
    }
  }

  lemma LooseInJobs(q: Queue, id: Id, job: Job)
    requires ViewOf(q, id) == Loose(job)
    ensures id in q.jobs && q.jobs[id] == job && ViewOf(q, id) == Loose(q.jobs[id])
  {
  }

  lemma EnqueueMarks(q: Queue, id: Id, end: End)
    ensures Enqueue(q, id, end).stalled == q.stalled
  {
    if JobOf(q, id).opts.priority == 0 {
    } else {
    }
  }

  lemma DelayMarks(q: Queue, id: Id, token: Token, now: int, delay: int, skip: bool, history: Option<History>)
    requires Sound(q) && token != NO_LOCK
    ensures DelayJob(q, id, token, now, delay, skip, history).0.stalled
         == if Owns(q, id, token) then q.stalled - {id} else q.stalled
  {
    hide Leave, DelayedScore, Sound;
    LeaveMarks(q, id, token, history);
  }

  lemma RetryMarks(q: Queue, id: Id, token: Token, lifo: bool, history: Option<History>, now: int)
    requires Sound(q) && token != NO_LOCK
    ensures Retry(q, id, token, lifo, history, now).0.stalled
         == if Owns(q, id, token) then q.stalled - {id} else q.stalled
  {
    hide Leave, PromoteDue, Enqueue, Sound;
    PromoteDueMarks(q, now);
    PromoteDueSound(q, now);
    LeaveMarks(PromoteDue(q, now), id, token, history);
    EnqueueMarks(Leave(PromoteDue(q, now), id, token, history).0, id, if lifo then Tail else Head);
  }

  lemma PromoteMarks(q: Queue, id: Id)
    ensures PromoteJob(q, id).0.stalled == q.stalled
  {
    hide Enqueue;
    if id in q.delayed {
      var q1 := q.(delayed := q.delayed - {id});
      if q1.wait != [] && IsMarker(q1.wait[0]) {
        EnqueueMarks(q1.(wait := q1.wait[1..]), id, Head);
      } else {
        EnqueueMarks(q1, id, Head);
      }
    }
  }

  lemma ReprocessMarks(q: Queue, id: Id, bucket: Bucket, resetAtm: bool, resetAts: bool)
    ensures ReprocessJob(q, id, bucket, resetAtm, resetAts).0.stalled == q.stalled
  {
    hide Enqueue;
    if id in q.jobs && id in Finished(q, bucket) {
      var q1 := SetFinished(q, bucket, Finished(q, bucket) - {id});
      var was := JobOf(q, id);
      var job := was.(processedOn := 0, atm := if resetAtm then 0 else was.atm, ats := if resetAts then 0 else was.ats);
      EnqueueMarks(q1.(jobs := q1.jobs[id := job]), id, Head);
    }
  }

  lemma RemoveMarks(q: Queue, id: Id)
    ensures Remove(q, id).0.stalled == q.stalled
  {
    hide CurrentIteration, PlaceOf, RemoveFirst;
    if CurrentIteration(q, id) {
    } else if id in q.lock {
    } else {
    }
  }

  lemma ResumeMarks(q: Queue)
    ensures ResumeRound(q).0.stalled == q.stalled
  {
    hide ResumeRound;
    ResumeMoves(q);
  }

  lemma WithdrawMarks(q: Queue, sid: SchedulerId)
    ensures Withdrawn(q, sid).stalled == q.stalled
  {
    hide SlotId, Retracted;
    if sid in q.repeat {
      RetractedFrame(q, SlotId(sid, q.repeat[sid]));
    }
  }

  lemma EnterMarks(q: Queue, sid: SchedulerId, entry: Scheduler, slot: int, opts: JobOpts, now: int, removed: bool)
    ensures EnterSchedule(q, sid, entry, slot, opts, now, removed).0.stalled == q.stalled
  {
    hide Store, SlotId;
    StoreMarks(NewEntry(q, sid, entry, slot), SlotId(sid, slot), opts, Some(sid), slot - now, now);
  }

  lemma AdminMarks(q: Queue, op: Op)
    requires op.Promote? || op.Reprocess? || op.RemoveJob? || op.Resume? || op.Drain? || op.Withdraw?
    ensures Apply(q, op).0.stalled == q.stalled
  {
    hide Remove, ResumeRound, PromoteJob, ReprocessJob, Spared, DrainList, AddJob, Acquire, FinishJob, Retry,
      DelayJob, ScanStalled, NextIteration, Withdrawn, EnterSchedule;
    match op
    case Promote(id) => PromoteMarks(q, id);
    case Reprocess(id, bucket, resetAtm, resetAts) => ReprocessMarks(q, id, bucket, resetAtm, resetAts);
    case RemoveJob(id) => RemoveMarks(q, id);
    case Resume => ResumeMarks(q);
    case Withdraw(sid) => WithdrawMarks(q, sid);
    case Drain(_) =>
  }

  lemma StoreMarks(q: Queue, id: Id, opts: JobOpts, rjk: Option<SchedulerId>, delay: int, now: int)
    ensures Store(q, id, opts, rjk, delay, now).stalled == q.stalled
  {
    hide DelayedScore, Push;
    var q1 := q.(jobs := q.jobs[id := Stored(JobOf(q, id), opts, rjk)]);
    assert q1.stalled == q.stalled && AddWithPriority(q1, id, opts.priority).stalled == q1.stalled;
    hide AddWithPriority;
    if delay > 0 {
      var score := DelayedScore(q1.delayed, now, delay);
      assert Store(q, id, opts, rjk, delay, now) == q1.(delayed := q1.delayed[id := score]);
    }
  }

  lemma NewJobMarks(q: Queue, op: Op)
    requires op.Add? || op.UpdateScheduler? || op.Enter?
    ensures Apply(q, op).0.stalled == q.stalled
  {
    hide Store, SlotId, NextSlot, Digits, Acquire, FinishJob, Retry, DelayJob, ScanStalled, PromoteJob, ReprocessJob,
      Remove, DrainQueue, ResumeRound;
    if op.Add? {
      StoreMarks(q.(counter := q.counter + 1), NewId(q, op.custom), op.opts, None, op.delay, op.now);
    } else if op.Enter? {
      EnterMarks(q, op.sid, op.entry, op.slot, op.opts, op.now, op.removed);
    } else if op.sid in q.repeat {
      var slot := NextSlot(q, op.sid, op.timing, op.now);
      var q1 := BumpIterations(q.(repeat := q.repeat[op.sid := slot], counter := q.counter + 1), op.sid);
      StoreMarks(q1, SlotId(op.sid, slot), op.opts, Some(op.sid), slot - op.now, op.now);
    }
  }

  lemma DispatcherMarks(q: Queue, op: Op)
    requires Sound(q) && Allowed(q, op)
    requires op.MoveToActive? || op.MoveToFinished? || op.RetryJob? || op.MoveToDelayed? || op.ExtendLock?
    ensures Apply(q, op).0.stalled == q.stalled - Unmarked(q, op)
  {
    hide Sound, Acquire, FinishJob, Retry, DelayJob, PromoteJob, ReprocessJob, Remove, DrainQueue, ResumeRound,
      AddJob, NextIteration, ScanStalled, Owns, Withdrawn, EnterSchedule;
    match op
    case MoveToFinished(id, token, bucket, keep, history, now, fetchNext, limited) =>
      FinishMarks(q, id, token, bucket, keep, history, now, fetchNext, limited);
    case MoveToActive(token, now, limited) => AcquireEffect(q, token, now, limited, false, "");
    case MoveToDelayed(id, token, now, delay, skip, history) => DelayMarks(q, id, token, now, delay, skip, history);
    case RetryJob(id, token, lifo, history, now) => RetryMarks(q, id, token, lifo, history, now);
    case ExtendLock(id, token) =>
  }

  /** Outside an effective scan the marks only shrink, and only by their own lock holder. */
  lemma MarksStep(q: Queue, op: Op)
    requires Sound(q) && Allowed(q, op) && !Effective(q, op)
    ensures Apply(q, op).0.stalled == q.stalled - Unmarked(q, op)
  {
    hide Sound, Allowed, Acquire, FinishJob, Retry, DelayJob, PromoteJob, ReprocessJob, Remove, DrainQueue,
      ResumeRound, AddJob, NextIteration, ReclaimEach, Withdrawn, EnterSchedule;
    if op.MoveToActive? || op.MoveToFinished? || op.RetryJob? || op.MoveToDelayed? || op.ExtendLock? {
      DispatcherMarks(q, op);
    } else if op.Add? || op.UpdateScheduler? || op.Enter? {
      NewJobMarks(q, op);
    } else if op.Promote? || op.Reprocess? || op.RemoveJob? || op.Resume? || op.Drain? || op.Withdraw? {
      AdminMarks(q, op);
    } else {
    }
  }

  // ---------- one scan ----------

  /** After an effective scan exactly the active ids are marked. */
  lemma ScanMarksActive(q: Queue, op: Op)
    requires Effective(q, op)
    ensures Apply(q, op).0.stalled == Elements(Apply(q, op).0.active)
  {
    hide ReclaimEach;
  }

  /**
    A reclaimed job has stalled once more, and is to be failed exactly if it was already, or has
    now stalled more often than the limit and no schedule knows it.
   */
  lemma ScanCounts(q: Queue, limit: int, order: seq<Id>, x: Id)
    requires Sound(q) && !q.checking && Distinct(order) && Elements(order) == q.stalled
    requires x in q.stalled && x !in q.lock && x in q.jobs
    ensures var q', job := ScanStalled(q, limit, order), q.jobs[x];
            && x in q'.jobs
            && var known := job.rjk.Some? && (job.rjk.value in q.schedulers || job.rjk.value in q.repeat);
               q'.jobs[x] == job.(stc := job.stc + 1, defa := job.defa || (job.stc + 1 > limit && !known))
  {
    ScanFollows(q, limit, order, x);
    hide ScanStalled, Where;
  }

  /** An effective scan reclaims an id if and only if it is marked and unlocked. */
  lemma ScanReclaims(q: Queue, op: Op, x: Id)
    requires Sound(q) && Allowed(q, op) && Effective(q, op)
    ensures ChangeOf(q, op, x).Reclaimed? <==> x in q.stalled && x !in q.lock
    ensures ChangeOf(q, op, x).Reclaimed? ==> x in Apply(q, op).0.wait
  {
    assert ChangeOf(q, op, x) == ScanChange(q, x in q.stalled, op.limit, x) by {
      hide ScanStalled;
    }
    if x in q.stalled && x !in q.lock {
      assert x in q.active;
      assert x in op.order by {
        assert x in Elements(op.order);
      }
      var q0 := q.(stalled := {}, checking := true);
      forall id | id in op.order
        ensures !IsMarker(id)
      {
        MarkedAreJobs(q, op.order, id);
      }
      ReclaimedWaits(q0, op.order, op.limit, x);
    }
  }

  lemma ReclaimWaits(q: Queue, id: Id, limit: int, x: Id)
    requires !IsMarker(id)
    ensures x in q.wait ==> x in Reclaim(q, id, limit).wait
    ensures x == id && x in q.active && x !in q.lock ==> x in Reclaim(q, id, limit).wait
    ensures x != id && x in q.active ==> x in Reclaim(q, id, limit).active
    ensures Reclaim(q, id, limit).lock == q.lock
  {
    hide RemoveFirst;
    RemoveFirstCounts(q.active, id, x);
    if id in q.lock || id !in q.active {
    } else {
    }
  }

  lemma {:induction false} ReclaimedWaits(q: Queue, ids: seq<Id>, limit: int, x: Id)
    requires forall id :: id in ids ==> !IsMarker(id)
    requires x in q.wait || (x in ids && x in q.active && x !in q.lock)
    ensures x in ReclaimEach(q, ids, limit).wait
    decreases |ids|
  {
    hide Reclaim;
    if ids != [] {
      ReclaimWaits(q, ids[0], limit, x);
      ReclaimedWaits(Reclaim(q, ids[0], limit), ids[1..], limit, x);
    }
  }

  // ---------- between two scans ----------

  predicate Quiet(q: Queue, ops: seq<Op>)
    decreases |ops|
  {
    ops == [] || (!Effective(q, ops[0]) && Quiet(Apply(q, ops[0]).0, ops[1..]))
  }

  /** Throughout the run x is active, no heartbeat for it succeeds and no script moves it. */
  ghost predicate Untended(q: Queue, ops: seq<Op>, x: Id)
    decreases |ops|
  {
    && x in q.active
    && (ops == [] || (
          && x !in Unmarked(q, ops[0])
          && (ChangeOf(q, ops[0], x).Same? || ChangeOf(q, ops[0], x).Unlocked?)
          && Untended(Apply(q, ops[0]).0, ops[1..], x)))
  }

  lemma StaysActive(q: Queue, op: Op, x: Id)
    requires Sound(q) && Allowed(q, op) && x in q.active && x in Apply(q, op).0.active
    ensures ChangeOf(q, op, x).Same? || ChangeOf(q, op, x).Unlocked?
  {
    hide Apply, ChangeOf, Allowed;
    StepFollows(q, op, x);
    OnePlace(q, x);
    hide Where, Sound;
  }

  lemma OnePlace(q: Queue, x: Id)
    requires Sound(q) && x in q.active
    ensures !Pending(q, x) && x !in q.completed && x !in q.failed && x in q.jobs
  {
    assert Where(q, x) == if x in q.jobs then 1 else 0;
  }

  lemma {:induction false} MarkedWasUntended(q: Queue, ops: seq<Op>, x: Id)
    requires Sound(q) && AllAllowed(q, ops) && Quiet(q, ops) && x in RunOps(q, ops).stalled
    ensures x in q.stalled && Untended(q, ops, x)
    decreases |ops|
  {
    hide Apply, ChangeOf, Allowed, Where;
    if ops != [] {
      var q1 := Apply(q, ops[0]).0;
      StepSound(q, ops[0]);
      MarkedWasUntended(q1, ops[1..], x);
      MarksStep(q, ops[0]);
      StaysActive(q, ops[0], x);
    }
  }

  /**
    A scan reclaims a job only if, ever since the previous effective scan, it stayed in active
    untouched and without a successful heartbeat, and only if its lock is gone.
   */
  lemma ReclaimedOnlyIfUntended(q: Queue, first: Op, ops: seq<Op>, second: Op, x: Id)
    requires Sound(q) && Allowed(q, first) && Effective(q, first)
    requires var q1 := Apply(q, first).0; AllAllowed(q1, ops) && Quiet(q1, ops)
    requires var q2 := RunOps(Apply(q, first).0, ops);
             Allowed(q2, second) && Effective(q2, second) && ChangeOf(q2, second, x).Reclaimed?
    ensures Untended(Apply(q, first).0, ops, x) && x !in RunOps(Apply(q, first).0, ops).lock
  {
    hide Apply, ChangeOf, Allowed, Sound;
    var q1 := Apply(q, first).0;
    StepSound(q, first);
    RunSound(q1, ops);
    ScanReclaims(RunOps(q1, ops), second, x);
    MarkedWasUntended(q1, ops, x);
  }

  /** No script of the run makes any change to x. */
  ghost predicate Untouched(q: Queue, ops: seq<Op>, x: Id)
    decreases |ops|
  {
    ops == [] || (ChangeOf(q, ops[0], x).Same? && Untouched(Apply(q, ops[0]).0, ops[1..], x))
  }

  lemma {:induction false} AbandonedStaysMarked(q: Queue, ops: seq<Op>, x: Id)
    requires Sound(q) && AllAllowed(q, ops) && Quiet(q, ops) && Untouched(q, ops, x)
    requires x in q.stalled && x !in q.lock
    ensures x in RunOps(q, ops).stalled && x !in RunOps(q, ops).lock
    decreases |ops|
  {
    hide Apply, ChangeOf, Allowed, Where, Sound;
    if ops != [] {
      StepSound(q, ops[0]);
      MarksStep(q, ops[0]);
      StepFollows(q, ops[0], x);
      AbandonedStaysMarked(Apply(q, ops[0]).0, ops[1..], x);
    }
  }

  /** A job left active without a lock by one scan, and untouched since, is in wait after the next. */
  lemma AbandonedIsReclaimed(q: Queue, first: Op, ops: seq<Op>, second: Op, x: Id)
    requires Sound(q) && Allowed(q, first) && Effective(q, first)
    requires var q1 := Apply(q, first).0;
             x in q1.active && x !in q1.lock && AllAllowed(q1, ops) && Quiet(q1, ops) && Untouched(q1, ops, x)
    requires var q2 := RunOps(Apply(q, first).0, ops); Allowed(q2, second) && Effective(q2, second)
    ensures x in Apply(RunOps(Apply(q, first).0, ops), second).0.wait
  {
    hide Apply, ChangeOf, Allowed, Sound;
    var q1 := Apply(q, first).0;
    StepSound(q, first);
    ScanMarksActive(q, first);
    AbandonedStaysMarked(q1, ops, x);
    RunSound(q1, ops);
    ScanReclaims(RunOps(q1, ops), second, x);
  }
}
