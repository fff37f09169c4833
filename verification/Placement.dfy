/** Where a job goes that is made ready: which end of wait, or which score among the prioritized. */
module Placement {
  import opened Wrappers
  import opened Lists
  import opened SortedSets
  import opened Queues
  import opened JobLife
  import opened Shapes
  import opened Ordering

  /**
    id has joined the ready jobs. Without a priority it stands at the head of wait, to be taken
    after all others, or at the tail, to be taken next; with one it has the score of that priority
    and of the next turn.
   */
  ghost predicate Joined(q: Queue, q': Queue, id: Id, priority: int, first: bool) {
    if priority == 0 then
      q'.prioritized == q.prioritized && q'.wait == if first then q.wait + [id] else [id] + q.wait
    else
      && q'.wait == q.wait && q'.prioritized == q.prioritized[id := priority * 0x1_0000_0000 + q'.pc % 0x1_0000_0000]
      && q'.pc == q.pc + 1
  }

  lemma EnqueueJoins(q: Queue, id: Id, end: End)
    ensures Joined(q, Enqueue(q, id, end), id, JobOf(q, id).opts.priority, end == Tail)
  {
    if JobOf(q, id).opts.priority != 0 {
    } else if end == Head {
    } else {
    }
  }

  /** A retried job goes to the head of wait, or with LIFO to the tail, behind the jobs that are due. */
  lemma RetriedGoes(q: Queue, id: Id, token: Token, lifo: bool, history: Option<History>, now: int)
    requires Sound(q) && token != NO_LOCK && Owns(q, id, token)
    ensures Joined(PromoteDue(q, now), Retry(q, id, token, lifo, history, now).0, id, q.jobs[id].opts.priority, lifo)
  {
    hide Leave, PromoteDue, Enqueue, BumpAtm, Sound, Where, Joined;
    var q0, end := PromoteDue(q, now), if lifo then Tail else Head;
    var q1 := Leave(q0, id, token, history).0;
    PromoteDueShape(q, now);
    PromoteDueSound(q, now);
    OwnerFacts(q0, id, token);
    LeaveEffect(q0, id, token, history, id);
    LeaveShape(q0, id, token, history);
    EnqueueJoins(q1, id, end);
    BumpShape(Enqueue(q1, id, end), id);
    VacatedOpts(q0, q1, id, history);
    JoinedSame(q0, q1, Enqueue(q1, id, end), BumpAtm(Enqueue(q1, id, end), id), id, q.jobs[id].opts.priority, lifo);
  }

  lemma VacatedOpts(q: Queue, q1: Queue, id: Id, history: Option<History>)
    requires Vacated(q, q1, id, history, id)
    ensures id in q.jobs && JobOf(q1, id).opts == q.jobs[id].opts
  {
  }

  lemma JoinedSame(q: Queue, q1: Queue, q2: Queue, q3: Queue, id: Id, priority: int, first: bool)
    requires Joined(q1, q2, id, priority, first)
    requires q1.wait == q.wait && q1.prioritized == q.prioritized && q1.pc == q.pc
    requires q3.wait == q2.wait && q3.prioritized == q2.prioritized && q3.pc == q2.pc
    ensures Joined(q, q3, id, priority, first)
  {
  }

  /** A job retried by hand goes behind all that wait. */
  lemma RevivedGoes(q: Queue, id: Id, bucket: Bucket, resetAtm: bool, resetAts: bool)
    requires id in q.jobs && id in Finished(q, bucket)
    ensures Joined(q, ReprocessJob(q, id, bucket, resetAtm, resetAts).0, id, q.jobs[id].opts.priority, false)
  {
    hide Enqueue, Joined, Finished, SetFinished;
    var q1 := SetFinished(q, bucket, Finished(q, bucket) - {id});
    var was := JobOf(q, id);
    var job := was.(processedOn := 0, atm := if resetAtm then 0 else was.atm, ats := if resetAts then 0 else was.ats);
    var q2 := q1.(jobs := q1.jobs[id := job]);
    ReadyUntouched(q, bucket, Finished(q, bucket) - {id});
    EnqueueJoins(q2, id, Head);
    JoinedSame(q, q2, Enqueue(q2, id, Head), Enqueue(q2, id, Head), id, q.jobs[id].opts.priority, false);
  }

  lemma ReadyUntouched(q: Queue, bucket: Bucket, z: ZSet)
    ensures var q' := SetFinished(q, bucket, z);
            q'.wait == q.wait && q'.prioritized == q.prioritized && q'.pc == q.pc && q'.jobs == q.jobs
  {
  }

  /** So does a job promoted by hand. */
  lemma PromotedGoes(q: Queue, id: Id)
    requires Sound(q) && id in q.delayed && id in q.jobs
    ensures Joined(q, PromoteJob(q, id).0, id, q.jobs[id].opts.priority, false)
  {
    hide Enqueue, Joined, Sound, Where;
    WaitHasNoMarker(q);
    var q1 := q.(delayed := q.delayed - {id});
    if q.wait != [] {
      assert q.wait[0] in q.wait;
    }
    EnqueueJoins(q1, id, Head);
    JoinedSame(q, q1, Enqueue(q1, id, Head), Enqueue(q1, id, Head), id, q.jobs[id].opts.priority, false);
  }

  /** A stored job that is not delayed. */
  lemma StoredGoes(q: Queue, id: Id, opts: JobOpts, rjk: Option<SchedulerId>, delay: int, now: int)
    requires delay <= 0
    ensures Joined(q, Store(q, id, opts, rjk, delay, now), id, if opts.priority > 0 then opts.priority else 0,
                   opts.lifo)
  {
    hide DelayedScore, Stored, JobOf;
    if opts.priority > 0 {
    } else {
    }
  }

  /** An added job without a delay goes behind all that wait, or with LIFO before them, or by its priority. */
  lemma AddedGoes(q: Queue, custom: Id, opts: JobOpts, delay: int, now: int)
    requires NewId(q, custom) !in q.jobs && delay <= 0
    ensures Joined(q, AddJob(q, custom, opts, delay, now).0, NewId(q, custom),
                   if opts.priority > 0 then opts.priority else 0, opts.lifo)
  {
    hide Store, Digits, Joined;
    var q1, id := q.(counter := q.counter + 1), NewId(q, custom);
    var q' := Store(q1, id, opts, None, delay, now);
    StoredGoes(q1, id, opts, None, delay, now);
    JoinedSame(q, q1, q', q', id, if opts.priority > 0 then opts.priority else 0, opts.lifo);
  }

  /** The jobs that are due and have no priority go to the head of wait, so that the earliest is taken first. */
  lemma DueGo(q: Queue, now: int)
    ensures PromoteDue(q, now).wait
         == Reverse(Filter(Due(q.delayed, now), id => JobOf(q, id).opts.priority == 0)) + q.wait
  {
    hide Due, EnqueueEach, Filter, Reverse;
    var ids := Due(q.delayed, now);
    EachGoes(q.(delayed := q.delayed - Elements(ids)), ids, id => JobOf(q, id).opts.priority == 0);
  }

  lemma {:induction false} EachGoes(q: Queue, ids: seq<Id>, plain: Id -> bool)
    requires forall id :: id in ids ==> plain(id) == (JobOf(q, id).opts.priority == 0)
    ensures EnqueueEach(q, ids).wait == Reverse(Filter(ids, plain)) + q.wait
    decreases |ids|
  {
    hide Enqueue, Filter, Reverse, Joined;
    if ids == [] {
      FilterNone(plain);
      ReverseNone();
    } else {
      var id, rest := ids[0], ids[1..];
      var q1 := Enqueue(q, id, Head);
      EnqueueShape(q, id, Head);
      EachGoes(q1, rest, plain);
      FilterHead(ids, plain);
      HeadGoes(q, id, plain(id), Filter(rest, plain));
    }
  }

  lemma ReverseNone()
    ensures Reverse<Id>([]) == []
  {
  }

  lemma HeadGoes(q: Queue, id: Id, plain: bool, rest: seq<Id>)
    requires plain == (JobOf(q, id).opts.priority == 0)
    ensures Reverse(rest) + Enqueue(q, id, Head).wait == Reverse((if plain then [id] else []) + rest) + q.wait
  {
    hide Enqueue, Reverse;
    EnqueueJoins(q, id, Head);
    if plain {
      ReverseHead(id, rest);
      assert Reverse(rest) + ([id] + q.wait) == (Reverse(rest) + [id]) + q.wait;
    } else {
      assert [] + rest == rest;
    }
  }

  lemma ReverseHead(x: Id, s: seq<Id>)
    ensures Reverse([x] + s) == Reverse(s) + [x]
  {
    assert ([x] + s)[1..] == s;
  }

  /** A job that is due and has a priority keeps it in its score. */
  lemma {:induction false} EachKeepsPriority(q: Queue, ids: seq<Id>, x: Id)
    requires x in ids && Distinct(ids) && JobOf(q, x).opts.priority != 0
    ensures var q' := EnqueueEach(q, ids);
            x in q'.prioritized && q'.prioritized[x] / 0x1_0000_0000 == JobOf(q, x).opts.priority
    decreases |ids|
  {
    hide Enqueue;
    var q1 := Enqueue(q, ids[0], Head);
    EnqueueJoins(q, ids[0], Head);
    EnqueueShape(q, ids[0], Head);
    if x == ids[0] {
      assert x !in ids[1..];
      EachLeaves(q1, ids[1..], x);
    } else {
      EachKeepsPriority(q1, ids[1..], x);
    }
  }

  lemma {:induction false} EachLeaves(q: Queue, ids: seq<Id>, x: Id)
    requires x in q.prioritized && x !in ids
    ensures var q' := EnqueueEach(q, ids); x in q'.prioritized && q'.prioritized[x] == q.prioritized[x]
    decreases |ids|
  {
    hide Enqueue;
    if ids != [] {
      EnqueueJoins(q, ids[0], Head);
      EachLeaves(Enqueue(q, ids[0], Head), ids[1..], x);
    }
  }

  lemma DuePriority(q: Queue, now: int, x: Id)
    requires x in Due(q.delayed, now) && JobOf(q, x).opts.priority != 0
    ensures var q' := PromoteDue(q, now);
            x in q'.prioritized && q'.prioritized[x] / 0x1_0000_0000 == JobOf(q, x).opts.priority
  {
    hide Due, EnqueueEach;
    var ids := Due(q.delayed, now);
    DueIds(q.delayed, now);
    EachKeepsPriority(q.(delayed := q.delayed - Elements(ids)), ids, x);
  }

  /** After a retry with LIFO the job is the next to be fetched; without, all that wait are fetched before it. */
  lemma RetriedIsFetched(q: Queue, id: Id, token: Token, lifo: bool, history: Option<History>, now: int, next: bool)
    requires Sound(q) && token != NO_LOCK && Owns(q, id, token) && q.jobs[id].opts.priority == 0
    ensures var q' := Retry(q, id, token, lifo, history, now).0;
            var n := |PromoteDue(q, now).wait|;
            if lifo then Fetches(q', next, 1) == [Some(id)]
            else |Fetches(q', next, n + 1)| == n + 1 && Fetches(q', next, n + 1)[n] == Some(id)
  {
    hide Sound, Retry, Fetches, Where, PromoteDue;
    var q', n := Retry(q, id, token, lifo, history, now).0, |PromoteDue(q, now).wait|;
    RetriedGoes(q, id, token, lifo, history, now);
    RetryNoMarker(q, id, token, lifo, history, now);
    if lifo {
      WaitLeavesFromTail(q', next, 1, 0);
    } else {
      WaitLeavesFromTail(q', next, n + 1, n);
    }
  }

  lemma RetryNoMarker(q: Queue, id: Id, token: Token, lifo: bool, history: Option<History>, now: int)
    requires Sound(q) && token != NO_LOCK
    ensures NoMarkers(Retry(q, id, token, lifo, history, now).0.wait)
  {
    hide Sound, Retry, Where;
    StepSound(q, RetryJob(id, token, lifo, history, now));
    WaitHasNoMarker(Retry(q, id, token, lifo, history, now).0);
  }
}
