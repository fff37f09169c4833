/** No script but the schedulers' own touches the scheduler entries or tags a job with a schedule. */
module ScheduleFrames {
  import opened Wrappers
  import opened Lists
  import opened SortedSets
  import opened Queues
  import opened JobLife

  /** A job that carries the tag of a schedule has carried it before, except the given one with the given tag. */
  ghost predicate Tags(q: Queue, q': Queue, id: Id, rjk: Option<SchedulerId>) {
    forall x :: x in q'.jobs && q'.jobs[x].rjk.Some? ==>
      (x == id && q'.jobs[x].rjk == rjk) || (x in q.jobs && q.jobs[x].rjk == q'.jobs[x].rjk)
  }

  ghost predicate SamePlan(q: Queue, q': Queue) {
    q'.repeat == q.repeat && q'.schedulers == q.schedulers && Tags(q, q', "", None)
  }

  lemma EnqueueFrame(q: Queue, id: Id, end: End)
    ensures SamePlan(q, Enqueue(q, id, end))
  {
    if JobOf(q, id).opts.priority == 0 {
    } else {
    }
  }

  lemma {:induction false} EnqueueEachFrame(q: Queue, ids: seq<Id>)
    ensures SamePlan(q, EnqueueEach(q, ids))
    decreases |ids|
  {
    hide Enqueue;
    if ids != [] {
      EnqueueFrame(q, ids[0], Head);
      EnqueueEachFrame(Enqueue(q, ids[0], Head), ids[1..]);
    }
  }

  lemma PromoteDueFrame(q: Queue, now: int)
    ensures SamePlan(q, PromoteDue(q, now))
  {
    hide Due, EnqueueEach;
    var ids := Due(q.delayed, now);
    EnqueueEachFrame(q.(delayed := q.delayed - Elements(ids)), ids);
  }

  lemma PopWaitFrame(q: Queue)
    requires q.wait != []
    ensures SamePlan(q, PopWait(q).0)
  {
  }

  lemma PopPrioritizedFrame(q: Queue)
    ensures SamePlan(q, PopPrioritized(q).0)
  {
    hide First;
    if q.prioritized == map[] {
    } else {
    }
  }

  lemma PullFrame(q: Queue, next: bool)
    ensures SamePlan(q, PullBy(q, next).0)
  {
    hide PopWait, PopPrioritized, RemoveFirst, IsMarker;
    if q.wait == [] {
      PopPrioritizedFrame(q);
    } else {
      var (q1, id) := PopWait(q);
      PopWaitFrame(q);
      if IsMarker(id) {
        var q2 := q1.(active := RemoveFirst(q1.active, id));
        PopPrioritizedFrame(q2);
        if q2.wait != [] {
          PopWaitFrame(q2);
        }
      }
    }
  }

  lemma AcquireFrame(q: Queue, token: Token, now: int, limited: bool, next: bool)
    ensures SamePlan(q, Acquire(q, token, now, limited, next).0)
  {
    hide PromoteDue, PullBy, Gated;
    PromoteDueFrame(q, now);
    PullFrame(PromoteDue(q, now), next);
  }

  lemma UnlockFrame(q: Queue, id: Id, token: Token)
    ensures SamePlan(q, RemoveLock(q, id, token).0)
  {
    if token == NO_LOCK || id !in q.lock || q.lock[id] != token {
    } else {
    }
  }

  lemma HistoryFrame(q: Queue, id: Id, history: Option<History>)
    ensures SamePlan(q, WriteHistory(q, id, history))
  {
    if history.None? {
    } else {
    }
  }

  lemma LeaveFrame(q: Queue, id: Id, token: Token, history: Option<History>)
    ensures SamePlan(q, Leave(q, id, token, history).0)
  {
    hide RemoveLast, RemoveLock, WriteHistory;
    UnlockFrame(q, id, token);
    HistoryFrame(RemoveLock(q, id, token).0, id, history);
  }

  lemma EvictFrame(q: Queue, bucket: Bucket, ids: set<Id>)
    ensures SamePlan(q, Evict(q, bucket, ids))
  {
  }

  lemma SettleFrame(q: Queue, id: Id, bucket: Bucket, keep: Keep, now: int)
    ensures SamePlan(q, Settle(q, id, bucket, keep, now))
  {
    hide Evict, AgedOut, Surplus;
    if keep.count != Some(0) {
      var q1 := File(q, id, bucket, now);
      assert SamePlan(q, q1);
      hide File;
      if keep.age.Some? {
        EvictFrame(q1, bucket, AgedOut(Finished(q1, bucket), now, keep.age.value));
      }
      var q2 := if keep.age.Some? then Evict(q1, bucket, AgedOut(Finished(q1, bucket), now, keep.age.value)) else q1;
      if keep.count.Some? {
        EvictFrame(q2, bucket, Surplus(Finished(q2, bucket), keep.count.value));
      }
    }
  }

  lemma FinishFrame(q: Queue, id: Id, token: Token, bucket: Bucket, keep: Keep, history: Option<History>, now: int,
                    fetchNext: bool, limited: bool)
    ensures SamePlan(q, FinishJob(q, id, token, bucket, keep, history, now, fetchNext, limited).0)
  {
    hide Leave, Settle, Acquire;
    var q1 := Leave(q, id, token, history).0;
    LeaveFrame(q, id, token, history);
    SettleFrame(BumpAtm(q1, id), id, bucket, keep, now);
    AcquireFrame(Settle(BumpAtm(q1, id), id, bucket, keep, now), token, now, limited, true);
  }

  lemma RetryFrame(q: Queue, id: Id, token: Token, lifo: bool, history: Option<History>, now: int)
    ensures SamePlan(q, Retry(q, id, token, lifo, history, now).0)
  {
    hide Leave, PromoteDue, Enqueue;
    PromoteDueFrame(q, now);
    LeaveFrame(PromoteDue(q, now), id, token, history);
    EnqueueFrame(Leave(PromoteDue(q, now), id, token, history).0, id, if lifo then Tail else Head);
  }

  lemma DelayFrame(q: Queue, id: Id, token: Token, now: int, delay: int, skip: bool, history: Option<History>)
    ensures SamePlan(q, DelayJob(q, id, token, now, delay, skip, history).0)
  {
    hide Leave, DelayedScore;
    LeaveFrame(q, id, token, history);
  }

  lemma PriorityFrame(q: Queue, id: Id, priority: int)
    ensures SamePlan(q, AddWithPriority(q, id, priority))
  {
  }

  lemma StoreFrame(q: Queue, id: Id, opts: JobOpts, rjk: Option<SchedulerId>, delay: int, now: int)
    ensures var q' := Store(q, id, opts, rjk, delay, now);
            q'.repeat == q.repeat && q'.schedulers == q.schedulers && Tags(q, q', id, rjk)
  {
    hide DelayedScore, Push, AddWithPriority;
    var q1 := q.(jobs := q.jobs[id := Stored(JobOf(q, id), opts, rjk)]);
    PriorityFrame(q1, id, opts.priority);
    if delay > 0 {
    } else if opts.priority > 0 {
    } else {
    }
  }

  lemma ReclaimFrame(q: Queue, id: Id, limit: int)
    ensures SamePlan(q, Reclaim(q, id, limit))
  {
    hide RemoveFirst, Repeatable;
    if IsMarker(id) {
    } else if id in q.lock || id !in q.active {
    } else {
    }
  }

  lemma {:induction false} ReclaimEachFrame(q: Queue, ids: seq<Id>, limit: int)
    ensures SamePlan(q, ReclaimEach(q, ids, limit))
    decreases |ids|
  {
    hide Reclaim;
    if ids != [] {
      ReclaimFrame(q, ids[0], limit);
      ReclaimEachFrame(Reclaim(q, ids[0], limit), ids[1..], limit);
    }
  }

  lemma ScanFrame(q: Queue, limit: int, order: seq<Id>)
    ensures SamePlan(q, ScanStalled(q, limit, order))
  {
    hide ReclaimEach;
    ReclaimEachFrame(q.(stalled := {}, checking := true), order, limit);
  }

  lemma PromoteJobFrame(q: Queue, id: Id)
    ensures SamePlan(q, PromoteJob(q, id).0)
  {
    hide Enqueue, IsMarker;
    var q1 := q.(delayed := q.delayed - {id});
    EnqueueFrame(q1, id, Head);
    if q1.wait != [] {
      EnqueueFrame(q1.(wait := q1.wait[1..]), id, Head);
    }
  }

  lemma BucketFrame(q: Queue, bucket: Bucket, z: ZSet)
    ensures SamePlan(q, SetFinished(q, bucket, z)) && SetFinished(q, bucket, z).jobs == q.jobs
  {
  }

  lemma HashFrame(q: Queue, id: Id, job: Job)
    requires job.rjk == JobOf(q, id).rjk
    ensures SamePlan(q, q.(jobs := q.jobs[id := job]))
  {
  }

  lemma SamePlanSelf(q: Queue)
    ensures SamePlan(q, q)
  {
  }

  lemma SamePlanOn(q: Queue, q1: Queue, q2: Queue)
    requires SamePlan(q, q1) && SamePlan(q1, q2)
    ensures SamePlan(q, q2)
  {
  }

  lemma ReprocessFrame(q: Queue, id: Id, bucket: Bucket, resetAtm: bool, resetAts: bool)
    ensures SamePlan(q, ReprocessJob(q, id, bucket, resetAtm, resetAts).0)
  {
    hide Enqueue, SetFinished, Finished, SamePlan;
    if id in q.jobs && id in Finished(q, bucket) {
      var q1 := SetFinished(q, bucket, Finished(q, bucket) - {id});
      BucketFrame(q, bucket, Finished(q, bucket) - {id});
      var was := JobOf(q, id);
      var job := was.(processedOn := 0, atm := if resetAtm then 0 else was.atm, ats := if resetAts then 0 else was.ats);
      var q2 := q1.(jobs := q1.jobs[id := job]);
      assert JobOf(q1, id) == was;
      HashFrame(q1, id, job);
      SamePlanOn(q, q1, q2);
      EnqueueFrame(q2, id, Head);
      SamePlanOn(q, q2, Enqueue(q2, id, Head));
    } else {
      SamePlanSelf(q);
    }
  }

  lemma RemoveFrame(q: Queue, id: Id)
    ensures SamePlan(q, Remove(q, id).0)
  {
    hide CurrentIteration, PlaceOf, RemoveFirst;
    if CurrentIteration(q, id) {
    } else if id in q.lock {
    } else {
    }
  }

  lemma ResumeFrame(q: Queue)
    ensures SamePlan(q, ResumeRound(q).0)
  {
    hide ResumeRound;
    ResumeMoves(q);
  }

  lemma WithdrawFrame(q: Queue, sid: SchedulerId)
    ensures SamePlan(q, Withdrawn(q, sid))
  {
    hide SlotId, Retracted;
    if sid in q.repeat {
      RetractedFrame(q, SlotId(sid, q.repeat[sid]));
    }
  }

  lemma AddFrame(q: Queue, custom: Id, opts: JobOpts, delay: int, now: int)
    ensures SamePlan(q, AddJob(q, custom, opts, delay, now).0)
  {
    hide Store, Digits;
    var q1 := q.(counter := q.counter + 1);
    StoreFrame(q1, if custom != AUTO then custom else Digits(q1.counter), opts, None, delay, now);
  }

  predicate TouchesPlan(op: Op) {
    op.UpdateScheduler? || op.Enter? || op.DropScheduler? || op.DropRepeat?
  }

  lemma AdminFrame(q: Queue, op: Op)
    requires op.Add? || op.Promote? || op.Reprocess? || op.Resume? || op.Drain? || op.RemoveJob? || op.Withdraw?
    ensures SamePlan(q, Apply(q, op).0)
  {
    hide PromoteJob, ReprocessJob, ResumeRound, Remove, DrainQueue, AddJob, SamePlan, Withdrawn;
    match op
    case Add(custom, opts, delay, now) => AddFrame(q, custom, opts, delay, now);
    case Promote(id) => PromoteJobFrame(q, id);
    case Reprocess(id, bucket, resetAtm, resetAts) => ReprocessFrame(q, id, bucket, resetAtm, resetAts);
    case RemoveJob(id) => RemoveFrame(q, id);
    case Resume => ResumeFrame(q);
    case Withdraw(sid) => WithdrawFrame(q, sid);
    case Drain(withDelayed) => DrainFrame(q, withDelayed);
  }

  lemma DrainFrame(q: Queue, withDelayed: bool)
    ensures SamePlan(q, DrainQueue(q, withDelayed))
  {
    hide DrainList, Spared;
  }

  lemma PlainFrame(q: Queue, op: Op)
    requires op.ExtendLock? || op.ReleaseLock? || op.Pause? || op.ExpireLock? || op.ExpireCheck?
    ensures SamePlan(q, Apply(q, op).0)
  {
    hide AddJob, Acquire, FinishJob, Retry, DelayJob, ScanStalled, PromoteJob, ReprocessJob, ResumeRound, DrainQueue,
      Remove, NextIteration, Withdrawn, EnterSchedule;
  }

  lemma DispatcherFrame(q: Queue, op: Op)
    requires op.MoveToActive? || op.MoveToFinished? || op.RetryJob? || op.MoveToDelayed? || op.MoveStalled?
    ensures SamePlan(q, Apply(q, op).0)
  {
    hide AddJob, Acquire, FinishJob, Retry, DelayJob, ScanStalled, PromoteJob, ReprocessJob, ResumeRound, DrainQueue,
      Remove, NextIteration, SamePlan, Withdrawn, EnterSchedule;
    match op
    case MoveToActive(token, now, limited) => AcquireFrame(q, token, now, limited, false);
    case MoveToFinished(id, token, bucket, keep, history, now, fetchNext, limited) =>
      FinishFrame(q, id, token, bucket, keep, history, now, fetchNext, limited);
    case RetryJob(id, token, lifo, history, now) => RetryFrame(q, id, token, lifo, history, now);
    case MoveToDelayed(id, token, now, delay, skip, history) => DelayFrame(q, id, token, now, delay, skip, history);
    case MoveStalled(limit, order) => ScanFrame(q, limit, order);
  }

  /** Every other script leaves the scheduler entries and the tags of jobs as they are. */
  lemma PlanFrame(q: Queue, op: Op)
    requires !TouchesPlan(op)
    ensures SamePlan(q, Apply(q, op).0)
  {
    hide Apply, SamePlan;
    if op.MoveToActive? || op.MoveToFinished? || op.RetryJob? || op.MoveToDelayed? || op.MoveStalled? {
      DispatcherFrame(q, op);
    } else if op.ExtendLock? || op.ReleaseLock? || op.Pause? || op.ExpireLock? || op.ExpireCheck? {
      PlainFrame(q, op);
    } else {
      AdminFrame(q, op);
    }
  }
}
