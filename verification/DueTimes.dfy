/** When a delayed job is due, and that nobody gets it before. */
module DueTimes {
  import opened Wrappers
  import opened Lists
  import opened SortedSets
  import opened Queues
  import opened JobLife
  import opened Shapes
  import opened Ordering

  // ---------- filing ----------

  /** id is delayed, to be due at the given millisecond, behind those already due then while scores last. */
  ghost predicate DueOn(was: ZSet, delayed: ZSet, id: Id, at: int) {
    && id in delayed && delayed == was[id := delayed[id]] && DueAt(delayed[id]) == at
    && forall y :: y in was && DueAt(was[y]) == at ==> was[y] < delayed[id] || delayed[id] == at * 0x1000 + 0xFFF
  }

  lemma ScoreIsDue(delayed: ZSet, now: int, delay: int, id: Id)
    ensures DueOn(delayed, delayed[id := DelayedScore(delayed, now, delay)], id, if delay > 0 then now + delay else now)
  {
    hide DelayedScore;
    DelayedInOrder(delayed, now, delay, id);
    forall y | y in delayed
      ensures var score := DelayedScore(delayed, now, delay);
              DueAt(delayed[y]) == DueAt(score) ==>
                delayed[y] < score || score == DueAt(score) * 0x1000 + 0xFFF
    {
      DelayedInOrder(delayed, now, delay, y);
    }
  }

  /** A postponed job is due after its delay, and at once without one. */
  lemma PostponedUntil(q: Queue, id: Id, token: Token, now: int, delay: int, skip: bool, history: Option<History>)
    requires Sound(q) && token != NO_LOCK && Owns(q, id, token)
    ensures DueOn(q.delayed, DelayJob(q, id, token, now, delay, skip, history).0.delayed, id,
                  if delay > 0 then now + delay else now)
  {
    hide DelayJob, Sound, Owns, DelayedScore;
    DelayShape(q, id, token, now, delay, skip, history);
    ScoreIsDue(q.delayed, now, delay, id);
  }

  /** A job added with a delay is due after it; one without is not delayed. */
  lemma AddedUntil(q: Queue, custom: Id, opts: JobOpts, delay: int, now: int)
    requires NewId(q, custom) !in q.jobs
    ensures var q' := AddJob(q, custom, opts, delay, now).0;
            if delay > 0 then DueOn(q.delayed, q'.delayed, NewId(q, custom), now + delay) else q'.delayed == q.delayed
  {
    hide Store, DelayedScore, Digits;
    StoreShape(q.(counter := q.counter + 1), NewId(q, custom), opts, None, delay, now);
    ScoreIsDue(q.delayed, now, delay, NewId(q, custom));
  }

  /** The iteration that a schedule goes on to is due at its slot, or at once if that has passed. */
  lemma IterationUntil(q: Queue, sid: SchedulerId, producer: Id, timing: Timing, opts: JobOpts, now: int)
    requires NextIteration(q, sid, producer, timing, opts, now).1 == Code(1)
    ensures var q' := NextIteration(q, sid, producer, timing, opts, now).0;
            && sid in q'.repeat
            && var slot := q'.repeat[sid];
               if slot > now then DueOn(q.delayed, q'.delayed, SlotId(sid, slot), slot) else q'.delayed == q.delayed
  {
    hide Store, DelayedScore, SlotId, NextSlot, DueOn;
    var slot := NextSlot(q, sid, timing, now);
    var q1 := BumpIterations(q.(repeat := q.repeat[sid := slot], counter := q.counter + 1), sid);
    StoreShape(q1, SlotId(sid, slot), opts, Some(sid), slot - now, now);
    ScoreIsDue(q.delayed, now, slot - now, SlotId(sid, slot));
  }

  /** So is the first iteration of an upsert. */
  lemma EnteredUntil(q: Queue, sid: SchedulerId, entry: Scheduler, slot: int, opts: JobOpts, now: int, removed: bool)
    requires EnterSchedule(q, sid, entry, slot, opts, now, removed).1 == Code(0)
    ensures var q' := EnterSchedule(q, sid, entry, slot, opts, now, removed).0;
            && sid in q'.repeat && q'.repeat[sid] == slot
            && if slot > now then DueOn(q.delayed, q'.delayed, SlotId(sid, slot), slot) else q'.delayed == q.delayed
  {
    hide Store, DelayedScore, SlotId, DueOn;
    StoreShape(NewEntry(q, sid, entry, slot), SlotId(sid, slot), opts, Some(sid), slot - now, now);
    ScoreIsDue(q.delayed, now, slot - now, SlotId(sid, slot));
  }

  // ---------- runs ----------

  /** The script neither promotes x by hand nor has a clock that has come to the instant. */
  predicate Before(op: Op, x: Id, at: int) {
    match op
    case MoveToActive(_, now, _) => now < at
    case MoveToFinished(_, _, _, _, _, now, _, _) => now < at
    case RetryJob(_, _, _, _, now) => now < at
    case Promote(id) => id != x
    case _ => true
  }

  /** x is stored in every state of the run. */
  ghost predicate StoredThroughout(q: Queue, ops: seq<Op>, x: Id)
    decreases |ops|
  {
    x in q.jobs && (ops == [] || StoredThroughout(Apply(q, ops[0]).0, ops[1..], x))
  }

  lemma StepWaits(q: Queue, op: Op, x: Id)
    requires Sound(q) && Allowed(q, op) && x in q.delayed && Before(op, x, DueAt(q.delayed[x]))
    ensures Stays(q, Apply(q, op).0, x)
  {
    hide Sound, Allowed, Apply, Stays, Due;
    StepShape(q, op, x);
    if op.MoveToActive? || op.MoveToFinished? || op.RetryJob? {
      PromotesDueJobs(q.delayed, op.now, x);
    }
  }

  /**
    Nobody gets a delayed job early: in every run of scripts whose clocks are before its due
    millisecond, it stays delayed with its score, not active and not waiting, as long as it is
    neither promoted by hand nor deleted.
   */
  lemma {:induction false} NotBeforeDue(q: Queue, ops: seq<Op>, x: Id)
    requires Sound(q) && AllAllowed(q, ops) && x in q.delayed && StoredThroughout(q, ops, x)
    requires forall op :: op in ops ==> Before(op, x, DueAt(q.delayed[x]))
    ensures var q' := RunOps(q, ops);
            && x in q'.delayed && q'.delayed[x] == q.delayed[x]
            && x !in q'.active && x !in q'.wait && x !in q'.prioritized
    decreases |ops|
  {
    hide Sound, Allowed, Apply, Before;
    if ops == [] {
      DelayedOnly(q, x);
    } else {
      StepSound(q, ops[0]);
      StepWaits(q, ops[0], x);
      NotBeforeDue(Apply(q, ops[0]).0, ops[1..], x);
    }
  }

  lemma DelayedOnly(q: Queue, x: Id)
    requires Sound(q) && x in q.delayed
    ensures x !in q.active && x !in q.wait && x !in q.prioritized
  {
    assert Where(q, x) <= 1;
  }

  /** And once the clock has come, the next such script promotes it, unless a thousand others go before it. */
  lemma PromotedWhenDue(q: Queue, token: Token, now: int, limited: bool, next: bool, x: Id)
    requires Sound(q) && token != NO_LOCK && x in q.delayed && 0 <= q.delayed[x] && DueAt(q.delayed[x]) <= now
    ensures var q' := Acquire(q, token, now, limited, next).0;
            x in q'.delayed ==>
              && |Due(q.delayed, now)| == 1000
              && forall y :: y in Due(q.delayed, now) ==> y in q.delayed && q.delayed[y] <= q.delayed[x]
  {
    hide Sound, Acquire, Due;
    AcquireShape(q, token, now, limited, next);
    PromotesDueJobs(q.delayed, now, x);
  }
}
