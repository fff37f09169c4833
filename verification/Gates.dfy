/** When a job is handed out: the pause flag, the concurrency limit, the rate limit and what there is to do. */
module Gates {
  import opened Wrappers
  import opened Lists
  import opened SortedSets
  import opened Queues
  import opened JobLife
  import opened Books
  import opened Shapes
  import opened Ordering
  import Arrivals

  /** Something waits, has a priority, or is delayed and due. */
  ghost predicate HasWork(q: Queue, now: int) {
    || q.wait != [] || q.prioritized != map[]
    || exists id :: id in q.delayed && 0 <= q.delayed[id] && DueAt(q.delayed[id]) <= now
  }

  // ---------- one acquisition ----------

  lemma {:induction false} EnqueueEachFills(q: Queue, ids: seq<Id>)
    ensures var q' := EnqueueEach(q, ids);
            && (q'.wait == [] && q'.prioritized == map[] <==> q.wait == [] && q.prioritized == map[] && ids == [])
            && (q.wait != [] ==> q'.wait != [] && q'.wait[|q'.wait| - 1] == q.wait[|q.wait| - 1])
    decreases |ids|
  {
    hide Enqueue;
    if ids != [] {
      EnqueueFills(q, ids[0]);
      EnqueueEachFills(Enqueue(q, ids[0], Head), ids[1..]);
    }
  }

  lemma EnqueueFills(q: Queue, id: Id)
    ensures var q' := Enqueue(q, id, Head);
            && (q'.wait != [] || q'.prioritized != map[])
            && (q.wait != [] ==> q'.wait != [] && q'.wait[|q'.wait| - 1] == q.wait[|q.wait| - 1])
  {
    if JobOf(q, id).opts.priority != 0 {
      assert id in Enqueue(q, id, Head).prioritized;
    }
  }

  lemma SomeDue(delayed: ZSet, now: int)
    ensures Due(delayed, now) != [] <==> exists id :: id in delayed && 0 <= delayed[id] && DueAt(delayed[id]) <= now
  {
    hide Due;
    if Due(delayed, now) != [] {
      PromotesDueJobs(delayed, now, Due(delayed, now)[0]);
    }
    if id :| id in delayed && 0 <= delayed[id] && DueAt(delayed[id]) <= now {
      PromotesDueJobs(delayed, now, id);
    }
  }

  /** After promotion there is something to take exactly if there was work, and the tail of wait is where it was. */
  lemma PromotionFills(q: Queue, now: int)
    ensures var q1 := PromoteDue(q, now);
            && (q1.wait != [] || q1.prioritized != map[] <==> HasWork(q, now))
            && (q.wait != [] ==> q1.wait != [] && q1.wait[|q1.wait| - 1] == q.wait[|q.wait| - 1])
  {
    hide Due, EnqueueEach;
    var ids := Due(q.delayed, now);
    EnqueueEachFills(q.(delayed := q.delayed - Elements(ids)), ids);
    SomeDue(q.delayed, now);
  }

  /**
    Either script hands out a job if and only if the call is not limited, the queue is not paused,
    fewer jobs are active than its concurrency allows, and there is work.
   */
  lemma AcquiresExactly(q: Queue, token: Token, now: int, limited: bool, next: bool)
    requires Sound(q) && token != NO_LOCK
    ensures var reply := Acquire(q, token, now, limited, next).1;
            && (reply.Got? <==>
                  && !limited && !q.paused && (q.concurrency.None? || |q.active| < q.concurrency.value)
                  && HasWork(q, now))
            && (reply.Got? || reply == NoJob)
  {
    hide PromoteDue, Fetch, Sound, HasWork;
    PromoteDueShape(q, now);
    PromoteDueSound(q, now);
    PromotionFills(q, now);
    FetchShape(PromoteDue(q, now), token, now, next);
  }

  /**
    The job handed out is the one at the tail of wait; with wait empty and nothing due, one of
    least score among the prioritized.
   */
  lemma AcquiresWhich(q: Queue, token: Token, now: int, limited: bool, next: bool, y: Id)
    requires Sound(q) && token != NO_LOCK && Acquire(q, token, now, limited, next).1.Got?
    ensures var id := Acquire(q, token, now, limited, next).1.id;
            && (q.wait != [] ==> id == q.wait[|q.wait| - 1])
            && (q.wait == [] && Due(q.delayed, now) == [] && y in q.prioritized ==>
                  id in q.prioritized && q.prioritized[id] <= q.prioritized[y])
  {
    hide Sound, Due;
    var q1 := PromoteDue(q, now);
    PromotionFills(q, now);
    PromoteDueSound(q, now);
    WaitHasNoMarker(q1);
    if q1.wait != [] {
      assert q1.wait[|q1.wait| - 1] in q1.wait;
    } else {
      hide HasWork;
      assert q.wait == [];
      if Due(q.delayed, now) == [] && y in q.prioritized {
        assert q.delayed - Elements([]) == q.delayed;
        assert q1 == q;
        assert Leq(q.prioritized, First(q.prioritized), y);
      }
    }
  }

  // ---------- the fetch after a finish ----------

  lemma RemoveLastShortens(s: seq<Id>, x: Id)
    requires x in s
    ensures |RemoveLast(s, x)| == |s| - 1
  {
    var n := |s| - 1;
    if s[n] != x {
      RemoveLastShortens(s[..n], x);
    }
  }

  lemma LeaveShortens(q: Queue, id: Id, token: Token, history: Option<History>)
    requires Sound(q) && token != NO_LOCK && Owns(q, id, token)
    ensures |Leave(q, id, token, history).0.active| == |q.active| - 1
  {
    hide RemoveLast, Where;
    OwnerFacts(q, id, token);
    RemoveLastShortens(q.active, id);
  }

  /**
    A finish fetches the next job if and only if it is accepted and asked to, and then as above,
    its own place in active not counted.
   */
  lemma FetchesExactly(q: Queue, id: Id, token: Token, bucket: Bucket, keep: Keep, history: Option<History>,
                       now: int, fetchNext: bool, limited: bool)
    requires Sound(q) && token != NO_LOCK
    ensures FinishJob(q, id, token, bucket, keep, history, now, fetchNext, limited).1.Got?
       <==> && Owns(q, id, token) && fetchNext && !limited && !q.paused
            && (q.concurrency.None? || |q.active| - 1 < q.concurrency.value) && HasWork(q, now)
  {
    hide Leave, Settle, Acquire, BumpAtm, Sound, HasWork, Where;
    if Owns(q, id, token) {
      var q1 := Leave(q, id, token, history).0;
      var q2 := BumpAtm(q1, id);
      var q3 := Settle(q2, id, bucket, keep, now);
      LeaveShape(q, id, token, history);
      LeaveShortens(q, id, token, history);
      BumpShape(q1, id);
      SettleShape(q2, id, bucket, keep, now);
      FinishAlone(q, id, token, bucket, keep, history, now, "");
      FinishAloneSound(q, id, token, bucket, keep, history, now);
      SameWork(q, q3, now);
      AcquiresExactly(q3, token, now, limited, true);
    } else {
      LeaveRefused(q, id, token, history);
    }
  }

  lemma SameWork(q: Queue, q': Queue, now: int)
    requires q'.wait == q.wait && q'.prioritized == q.prioritized && q'.delayed == q.delayed
    ensures HasWork(q', now) <==> HasWork(q, now)
  {
  }

  // ---------- runs ----------

  /** A job becomes active only by an acquisition, on a queue that is not paused. */
  lemma TakesOnlyOpen(q: Queue, op: Op, x: Id)
    requires Sound(q) && Allowed(q, op) && x in Apply(q, op).0.active && x !in q.active
    ensures !q.paused && (op.MoveToActive? || op.MoveToFinished?) && Apply(q, op).1.Got? && Apply(q, op).1.id == x
    ensures op.MoveToActive? && q.concurrency.Some? ==> |q.active| < q.concurrency.value
    ensures op.MoveToFinished? ==> Owns(q, op.id, op.token) && x != op.id
  {
    hide Sound, Allowed, Apply, ChangeOf, HasWork, Owns;
    ActiveChange(q, op, x);
    TakenExactly(q, op, x);
    AcquiringOps(q, op);
    if op.MoveToActive? {
      AcquiresExactly(q, op.token, op.now, op.limited, false);
    } else {
      FetchesExactly(q, op.id, op.token, op.bucket, op.keep, op.history, op.now, op.fetchNext, op.limited);
      FinishReply(q, op.id, op.token, op.bucket, op.keep, op.history, op.now, op.fetchNext, op.limited, x);
    }
  }

  lemma AcquiringOps(q: Queue, op: Op)
    requires Allowed(q, op)
    ensures op.MoveToActive? ==>
              op.token != NO_LOCK && Apply(q, op) == Acquire(q, op.token, op.now, op.limited, false)
    ensures op.MoveToFinished? ==>
              && op.token != NO_LOCK
              && Apply(q, op) == FinishJob(q, op.id, op.token, op.bucket, op.keep, op.history, op.now, op.fetchNext,
                                           op.limited)
  {
    hide Acquire, FinishJob, Spared, SparedLast, CurrentIteration, Refuses, SlotId, Digits, Distinct;
  }

  /** From a pause to the next resume no job becomes active, whatever else is run. */
  lemma {:induction false} PausedTakesNothing(q: Queue, ops: seq<Op>, x: Id)
    requires Sound(q) && AllAllowed(q, ops) && q.paused && forall op :: op in ops ==> !op.Resume?
    ensures RunOps(q, ops).paused && (x in RunOps(q, ops).active ==> x in q.active)
    decreases |ops|
  {
    hide Sound, Allowed, Apply;
    if ops != [] {
      var q' := Apply(q, ops[0]).0;
      StepSound(q, ops[0]);
      StepShape(q, ops[0], x);
      if x in q'.active && x !in q.active {
        TakesOnlyOpen(q, ops[0], x);
      }
      PausedTakesNothing(q', ops[1..], x);
    }
  }

  lemma ActiveSize(q: Queue)
    requires Sound(q)
    ensures |q.active| == |Elements(q.active)|
  {
    forall x
      ensures multiset(q.active)[x] <= 1
    {
      assert Where(q, x) <= 1;
    }
    Arrivals.CountsDistinct(q.active);
    DistinctSize(q.active);
  }

  lemma ActiveGrows(q: Queue, op: Op)
    requires Sound(q) && Allowed(q, op)
    ensures var q' := Apply(q, op).0;
            |q'.active| <= |q.active| || (q.concurrency.Some? ==> |q'.active| <= q.concurrency.value)
  {
    hide Sound, Allowed, Apply;
    var (q', reply) := Apply(q, op);
    StepSound(q, op);
    ActiveSize(q);
    ActiveSize(q');
    var was, now := Elements(q.active), Elements(q'.active);
    if x :| x in now && x !in was {
      assert forall y :: y in now && y !in was ==> y == x by {
        forall y | y in now && y !in was
          ensures y == x
        {
          TakesOnlyOpen(q, op, y);
          TakesOnlyOpen(q, op, x);
        }
      }
      TakesOnlyOpen(q, op, x);
      if op.MoveToActive? {
        SubsetSize(now, was + {x});
      } else {
        Vacates(q, op, x);
        SubsetSize(now, was - {op.id} + {x});
      }
    } else {
      SubsetSize(now, was);
    }
  }

  lemma Vacates(q: Queue, op: Op, x: Id)
    requires Sound(q) && Allowed(q, op) && op.MoveToFinished? && Owns(q, op.id, op.token)
    ensures op.id in q.active && op.id !in Apply(q, op).0.active
  {
    hide Sound, Apply, Allowed, ViewOf, Where;
    OwnerFacts(q, op.id, op.token);
    AcquiringOps(q, op);
    FinishFollows(q, op.id, op.token, op.bucket, op.keep, op.history, op.now, op.fetchNext, op.limited, op.id);
    DoneVacates(q, Apply(q, op).0, op.id);
  }

  lemma DoneVacates(q: Queue, q': Queue, id: Id)
    requires exists c: Change :: c.Done? && Follows(q, q', c, id)
    ensures id !in q'.active
  {
  }

  /** In every run no more jobs are active than the concurrency allows, or than were active before. */
  lemma {:induction false} ConcurrencyHolds(q: Queue, ops: seq<Op>, limit: int, bound: nat)
    requires Sound(q) && AllAllowed(q, ops) && q.concurrency == Some(limit) && limit <= bound && |q.active| <= bound
    ensures |RunOps(q, ops).active| <= bound
    decreases |ops|
  {
    hide Sound, Allowed, Apply;
    if ops != [] {
      StepSound(q, ops[0]);
      StepShape(q, ops[0], "");
      ActiveGrows(q, ops[0]);
      ConcurrencyHolds(Apply(q, ops[0]).0, ops[1..], limit, bound);
    }
  }
}
