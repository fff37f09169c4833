/**
  First come, first served. No script changes the order of the jobs that stay in wait, and no
  fetch takes a waiting job before one that is nearer to the tail; hence standard jobs are
  taken in the order in which they were added.
 */
module Arrivals {
  import opened Wrappers
  import opened Lists
  import opened SortedSets
  import opened Queues
  import opened JobLife
  import opened Books
  import opened Ordering

  /** x stands nearer to the tail of w than y, and will be fetched before it. */
  ghost predicate Ahead(w: seq<Id>, x: Id, y: Id) {
    exists i, j :: 0 <= i < j < |w| && w[i] == y && w[j] == x
  }

  /** Of two ids that are in both lists, the one ahead stays ahead. */
  ghost predicate KeepsOrder(w: seq<Id>, w': seq<Id>) {
    forall x, y :: Ahead(w, x, y) && x in w' && y in w' ==> Ahead(w', x, y)
  }

  lemma CountsDistinct(s: seq<Id>)
    requires forall x :: multiset(s)[x] <= 1
    ensures Distinct(s)
  {
    forall i, j | 0 <= i < j < |s|
      ensures s[i] != s[j]
    {
      assert s == s[..j] + s[j..];
      assert s[i] in s[..j] && s[j] in s[j..];
      assert multiset(s)[s[j]] == multiset(s[..j])[s[j]] + multiset(s[j..])[s[j]];
    }
  }

  lemma WaitDistinct(q: Queue)
    requires Sound(q)
    ensures Distinct(q.wait)
  {
    forall x
      ensures multiset(q.wait)[x] <= 1
    {
      assert Where(q, x) <= 1;
    }
    CountsDistinct(q.wait);
  }

  /** Cutting w at both ends and adding strangers at either end keeps the order. */
  lemma SegmentKeepsOrder(w: seq<Id>, w': seq<Id>, a: seq<Id>, i: nat, j: nat, b: seq<Id>)
    requires Distinct(w) && i <= j <= |w| && w' == a + w[i..j] + b
    requires (forall id :: id in a ==> id !in w) && (forall id :: id in b ==> id !in w)
    ensures KeepsOrder(w, w')
  {
    forall x, y | Ahead(w, x, y) && x in w' && y in w'
      ensures Ahead(w', x, y)
    {
      var k, l :| 0 <= k < l < |w| && w[k] == y && w[l] == x;
      InSegment(w, a, i, j, b, k);
      InSegment(w, a, i, j, b, l);
      assert w'[|a| + k - i] == y && w'[|a| + l - i] == x;
    }
  }

  lemma InSegment(w: seq<Id>, a: seq<Id>, i: nat, j: nat, b: seq<Id>, k: nat)
    requires Distinct(w) && i <= j <= |w| && k < |w| && w[k] in a + w[i..j] + b && w[k] !in a && w[k] !in b
    ensures i <= k < j && (a + w[i..j] + b)[|a| + k - i] == w[k]
  {
    var m :| i <= m < j && w[m] == w[k];
  }

  lemma RemovalKeepsOrder(w: seq<Id>, id: Id)
    requires Distinct(w)
    ensures KeepsOrder(w, RemoveFirst(w, id))
  {
    hide RemoveFirst, KeepsOrder, Distinct;
    if id in w {
      var k :| 0 <= k < |w| && w[k] == id;
      RemovedAt(w, id, k);
      GapKeepsOrder(w, k);
    } else {
      RemoveFirstCounts(w, id, id);
      SameKeepsOrder(w);
    }
  }

  lemma GapKeepsOrder(w: seq<Id>, k: nat)
    requires Distinct(w) && k < |w|
    ensures KeepsOrder(w, w[..k] + w[k + 1..])
  {
    var w' := w[..k] + w[k + 1..];
    forall x, y | Ahead(w, x, y) && x in w' && y in w'
      ensures Ahead(w', x, y)
    {
      var i, j :| 0 <= i < j < |w| && w[i] == y && w[j] == x;
      NotTheOne(w, w[k], k, i);
      NotTheOne(w, w[k], k, j);
      assert w'[if i < k then i else i - 1] == y && w'[if j < k then j else j - 1] == x;
    }
  }

  lemma NotTheOne(w: seq<Id>, id: Id, k: nat, i: nat)
    requires Distinct(w) && k < |w| && w[k] == id && i < |w| && w[i] in w[..k] + w[k + 1..]
    ensures i != k
  {
  }

  lemma {:induction false} RemovedAt(w: seq<Id>, id: Id, k: nat)
    requires Distinct(w) && k < |w| && w[k] == id
    ensures RemoveFirst(w, id) == w[..k] + w[k + 1..]
  {
    if k > 0 {
      assert w[0] != id;
      RemovedAt(w[1..], id, k - 1);
    }
  }

  // ---------- what each script does to wait ----------

  /** Only strangers were added in front of wait, and perhaps its tail was taken. */
  ghost predicate Fronted(q: Queue, w': seq<Id>, a: seq<Id>) {
    w' == a + q.wait && forall id :: id in a ==> id !in q.wait
  }

  lemma {:induction false} EnqueueEachFronts(q: Queue, ids: seq<Id>) returns (a: seq<Id>)
    ensures EnqueueEach(q, ids).wait == a + q.wait && forall id :: id in a ==> id in ids
    decreases |ids|
  {
    if ids == [] {
      a := [];
    } else {
      hide Push;
      var q1 := Enqueue(q, ids[0], Head);
      var front := EnqueueEachFronts(q1, ids[1..]);
      PushFronts(q, ids[0]);
      a := if q1.wait == q.wait then front else front + [ids[0]];
    }
  }

  lemma PushFronts(q: Queue, id: Id)
    ensures var w := Enqueue(q, id, Head).wait; w == q.wait || w == [id] + q.wait
  {
    if JobOf(q, id).opts.priority == 0 {
    } else {
    }
  }

  lemma PromoteDueFronts(q: Queue, now: int) returns (a: seq<Id>)
    requires Sound(q)
    ensures Fronted(q, PromoteDue(q, now).wait, a)
  {
    hide Due, EnqueueEach;
    var ids := Due(q.delayed, now);
    a := EnqueueEachFronts(q.(delayed := q.delayed - Elements(ids)), ids);
    DueIds(q.delayed, now);
    forall id | id in a
      ensures id !in q.wait
    {
      assert Where(q, id) <= 1;
    }
  }

  lemma PullWithoutMarker(q: Queue, next: bool)
    requires q.wait != [] && !IsMarker(q.wait[|q.wait| - 1])
    ensures PullBy(q, next) == (PopWait(q).0, Some(PopWait(q).1))
  {
    hide PopPrioritized, IsMarker, RemoveFirst;
  }

  lemma PullTakesTail(q: Queue, next: bool)
    requires Sound(q)
    ensures var (q', id) := PullBy(q, next);
            if q.wait == [] then q'.wait == []
            else q'.wait == q.wait[..|q.wait| - 1] && id == Some(q.wait[|q.wait| - 1])
  {
    hide PopPrioritized, Sound, IsMarker;
    WaitHasNoMarker(q);
    if q.wait == [] {
      PopPrioritizedWait(q);
    } else {
      hide PullBy;
      PullWithoutMarker(q, next);
    }
  }

  lemma PopPrioritizedWait(q: Queue)
    ensures PopPrioritized(q).0.wait == q.wait
  {
    hide First;
    if q.prioritized == map[] {
    } else {
    }
  }

  /** A fetch takes the tail of wait or nothing of it, and adds strangers in front. */
  lemma AcquireWait(q: Queue, token: Token, now: int, limited: bool, next: bool) returns (a: seq<Id>, j: nat)
    requires Sound(q)
    ensures forall id :: id in a ==> id !in q.wait
    ensures var (q', reply) := Acquire(q, token, now, limited, next);
            && (q.wait != [] ==> |q.wait| - 1 <= j <= |q.wait| && q'.wait == a + q.wait[..j])
            && (q.wait != [] && reply.Got? ==> reply.id == q.wait[|q.wait| - 1])
  {
    hide PromoteDue, PullBy, Gated, Sound;
    a := PromoteDueFronts(q, now);
    PromoteDueSound(q, now);
    var q1 := PromoteDue(q, now);
    PullTakesTail(q1, next);
    j := |q.wait|;
    assert q.wait[..|q.wait|] == q.wait;
    if q.wait != [] {
      assert q1.wait[|q1.wait| - 1] == q.wait[|q.wait| - 1];
      if !limited && !Gated(q) {
        j := |q.wait| - 1;
        assert q1.wait[..|q1.wait| - 1] == a + q.wait[..j];
      }
    }
  }

  lemma AcquireKeepsOrder(q: Queue, token: Token, now: int, limited: bool, next: bool)
    requires Sound(q)
    ensures KeepsOrder(q.wait, Acquire(q, token, now, limited, next).0.wait)
  {
    hide Acquire, Sound;
    WaitDistinct(q);
    if q.wait != [] {
      var a, j := AcquireWait(q, token, now, limited, next);
      var w' := Acquire(q, token, now, limited, next).0.wait;
      assert w' == a + q.wait[0..j] + [];
      SegmentKeepsOrder(q.wait, w', a, 0, j, []);
    }
  }

  lemma UnlockWait(q: Queue, id: Id, token: Token)
    ensures RemoveLock(q, id, token).0.wait == q.wait
  {
    if token == NO_LOCK || id !in q.lock || q.lock[id] != token {
    } else {
    }
  }

  lemma HistoryWait(q: Queue, id: Id, history: Option<History>)
    ensures WriteHistory(q, id, history).wait == q.wait
  {
  }

  lemma LeaveWait(q: Queue, id: Id, token: Token, history: Option<History>)
    ensures Leave(q, id, token, history).0.wait == q.wait
  {
    hide RemoveLast, RemoveLock, WriteHistory;
    UnlockWait(q, id, token);
    HistoryWait(RemoveLock(q, id, token).0, id, history);
  }

  lemma EvictWait(q: Queue, bucket: Bucket, ids: set<Id>)
    ensures Evict(q, bucket, ids).wait == q.wait
  {
  }

  lemma FileWait(q: Queue, id: Id, bucket: Bucket, now: int)
    ensures File(q, id, bucket, now).wait == q.wait
  {
  }

  lemma SettleWait(q: Queue, id: Id, bucket: Bucket, keep: Keep, now: int)
    ensures Settle(q, id, bucket, keep, now).wait == q.wait
  {
    hide Evict, AgedOut, Surplus, File;
    if keep.count != Some(0) {
      var q1 := File(q, id, bucket, now);
      FileWait(q, id, bucket, now);
      if keep.age.Some? {
        EvictWait(q1, bucket, AgedOut(Finished(q1, bucket), now, keep.age.value));
      }
      var q2 := if keep.age.Some? then Evict(q1, bucket, AgedOut(Finished(q1, bucket), now, keep.age.value)) else q1;
      if keep.count.Some? {
        EvictWait(q2, bucket, Surplus(Finished(q2, bucket), keep.count.value));
      }
    }
  }

  lemma FinishWait(q: Queue, id: Id, token: Token, bucket: Bucket, keep: Keep, history: Option<History>, now: int)
    ensures FinishJob(q, id, token, bucket, keep, history, now, false, false).0.wait == q.wait
  {
    hide Leave, Settle;
    LeaveWait(q, id, token, history);
    SettleWait(BumpAtm(Leave(q, id, token, history).0, id), id, bucket, keep, now);
  }

  /** A finish by the lock holder is its own part followed by a fetch, if one is asked for. */
  lemma FinishSplits(q: Queue, id: Id, token: Token, bucket: Bucket, keep: Keep, history: Option<History>, now: int,
                     fetchNext: bool, limited: bool)
    requires Sound(q) && token != NO_LOCK
    ensures var (q', reply) := FinishJob(q, id, token, bucket, keep, history, now, fetchNext, limited);
            var q1 := FinishJob(q, id, token, bucket, keep, history, now, false, false).0;
            && Sound(q1) && q1.wait == q.wait
            && ((q' == q1 && !reply.Got?) || (q', reply) == Acquire(q1, token, now, limited, true))
  {
    hide Leave, Settle, Acquire, Sound, BumpAtm;
    FinishWait(q, id, token, bucket, keep, history, now);
    if Owns(q, id, token) {
      FinishAloneSound(q, id, token, bucket, keep, history, now);
    } else {
      LeaveRefused(q, id, token, history);
    }
  }

  lemma FinishKeepsOrder(q: Queue, id: Id, token: Token, bucket: Bucket, keep: Keep, history: Option<History>, now: int,
                         fetchNext: bool, limited: bool)
    requires Sound(q) && token != NO_LOCK
    ensures KeepsOrder(q.wait, FinishJob(q, id, token, bucket, keep, history, now, fetchNext, limited).0.wait)
  {
    hide FinishJob, Acquire, Sound, KeepsOrder;
    FinishSplits(q, id, token, bucket, keep, history, now, fetchNext, limited);
    var q1 := FinishJob(q, id, token, bucket, keep, history, now, false, false).0;
    AcquireKeepsOrder(q1, token, now, limited, true);
    SameKeepsOrder(q.wait);
  }

  lemma SameKeepsOrder(w: seq<Id>)
    ensures KeepsOrder(w, w)
  {
  }

  /** Enqueueing a job that is not in wait. */
  lemma EnqueueSegment(q: Queue, id: Id, end: End) returns (a: seq<Id>, b: seq<Id>)
    ensures Enqueue(q, id, end).wait == a + q.wait + b && forall x :: x in a || x in b ==> x == id
  {
    if JobOf(q, id).opts.priority == 0 {
      if end == Head {
        a, b := [id], [];
      } else {
        a, b := [], [id];
      }
    } else {
      a, b := [], [];
    }
  }

  lemma EnqueueKeepsOrder(w: seq<Id>, q: Queue, a: seq<Id>, id: Id, end: End)
    requires Distinct(w) && q.wait == a + w && (forall x :: x in a ==> x !in w) && id !in w
    ensures KeepsOrder(w, Enqueue(q, id, end).wait)
  {
    hide Enqueue, KeepsOrder;
    var c, b := EnqueueSegment(q, id, end);
    assert c + (a + w) + b == (c + a) + w[0..|w|] + b;
    SegmentKeepsOrder(w, Enqueue(q, id, end).wait, c + a, 0, |w|, b);
  }

  lemma RetryKeepsOrder(q: Queue, id: Id, token: Token, lifo: bool, history: Option<History>, now: int)
    requires Sound(q) && token != NO_LOCK
    ensures KeepsOrder(q.wait, Retry(q, id, token, lifo, history, now).0.wait)
  {
    hide Leave, PromoteDue, Enqueue, Sound, KeepsOrder;
    WaitDistinct(q);
    var a := PromoteDueFronts(q, now);
    var q0 := PromoteDue(q, now);
    PromoteDueSound(q, now);
    PromoteDueOwns(q, now, id, token);
    LeaveWait(q0, id, token, history);
    if Owns(q, id, token) {
      OwnerFacts(q0, id, token);
      LeaveEffect(q0, id, token, history, id);
      OwnerWaitsNot(q, id, token);
      EnqueueKeepsOrder(q.wait, Leave(q0, id, token, history).0, a, id, if lifo then Tail else Head);
    } else {
      LeaveRefused(q0, id, token, history);
      assert q0.wait == a + q.wait[0..|q.wait|] + [];
      SegmentKeepsOrder(q.wait, q0.wait, a, 0, |q.wait|, []);
    }
  }

  lemma OwnerWaitsNot(q: Queue, id: Id, token: Token)
    requires Sound(q) && Owns(q, id, token)
    ensures id !in q.wait
  {
    OwnerFacts(q, id, token);
  }

  lemma PromoteDueOwns(q: Queue, now: int, id: Id, token: Token)
    requires Sound(q)
    ensures Owns(PromoteDue(q, now), id, token) == Owns(q, id, token)
  {
    hide PromoteDue, Sound;
    WaitHasNoMarker(q);
    PromoteDueEffect(q, now, "");
  }

  lemma DelayKeepsOrder(q: Queue, id: Id, token: Token, now: int, delay: int, skip: bool, history: Option<History>)
    ensures DelayJob(q, id, token, now, delay, skip, history).0.wait == q.wait
  {
    hide Leave, DelayedScore;
    LeaveWait(q, id, token, history);
  }

  lemma ScanKeepsOrder(q: Queue, limit: int, order: seq<Id>)
    requires Sound(q) && Distinct(order) && Elements(order) == q.stalled
    ensures KeepsOrder(q.wait, ScanStalled(q, limit, order).wait)
  {
    hide ReclaimEach, KeepsOrder, Sound, Distinct;
    WaitDistinct(q);
    if q.checking {
      SameKeepsOrder(q.wait);
    } else {
      var w', b := ScanStalled(q, limit, order).wait, Filter(order, id => id !in q.lock);
      ScanAppends(q, limit, order);
      forall id | id in b
        ensures id !in q.wait
      {
        assert id in Elements(order);
        MarkedWaitsNot(q, id);
      }
      assert w' == [] + q.wait[0..|q.wait|] + b;
      SegmentKeepsOrder(q.wait, w', [], 0, |q.wait|, b);
    }
  }

  lemma MarkedWaitsNot(q: Queue, id: Id)
    requires Sound(q) && id in q.stalled
    ensures id !in q.wait
  {
    assert Where(q, id) <= 1;
  }

  /** A job stored under a free id. */
  lemma StoreKeepsOrder(q: Queue, id: Id, opts: JobOpts, rjk: Option<SchedulerId>, delay: int, now: int)
    requires Distinct(q.wait) && id !in q.wait
    ensures KeepsOrder(q.wait, Store(q, id, opts, rjk, delay, now).wait)
  {
    hide DelayedScore, KeepsOrder;
    var w, w' := q.wait, Store(q, id, opts, rjk, delay, now).wait;
    if delay > 0 || opts.priority > 0 {
      SameKeepsOrder(w);
    } else if opts.lifo {
      assert w' == [] + w[0..|w|] + [id];
      SegmentKeepsOrder(w, w', [], 0, |w|, [id]);
    } else {
      assert w' == [id] + w[0..|w|] + [];
      SegmentKeepsOrder(w, w', [id], 0, |w|, []);
    }
  }

  lemma FreeWaitsNot(q: Queue, id: Id)
    requires Sound(q) && id !in q.jobs
    ensures id !in q.wait
  {
    AbsentFacts(q, id);
  }

  lemma AddKeepsOrder(q: Queue, custom: Id, opts: JobOpts, delay: int, now: int)
    requires Sound(q) && (custom == AUTO ==> NewId(q, custom) !in q.jobs)
    ensures KeepsOrder(q.wait, AddJob(q, custom, opts, delay, now).0.wait)
  {
    hide Store, Digits, Sound, KeepsOrder, Distinct;
    WaitDistinct(q);
    SameKeepsOrder(q.wait);
    var id := NewId(q, custom);
    if id !in q.jobs {
      FreeWaitsNot(q, id);
      StoreKeepsOrder(q.(counter := q.counter + 1), id, opts, None, delay, now);
    }
  }

  lemma IterationKeepsOrder(q: Queue, sid: SchedulerId, producer: Id, timing: Timing, opts: JobOpts, now: int)
    requires Sound(q)
    ensures KeepsOrder(q.wait, NextIteration(q, sid, producer, timing, opts, now).0.wait)
  {
    hide Store, SlotId, NextSlot, Sound, KeepsOrder, Distinct;
    WaitDistinct(q);
    SameKeepsOrder(q.wait);
    if sid in q.repeat {
      var slot := NextSlot(q, sid, timing, now);
      var q1 := BumpIterations(q.(repeat := q.repeat[sid := slot], counter := q.counter + 1), sid);
      if SlotId(sid, slot) !in q.jobs {
        FreeWaitsNot(q, SlotId(sid, slot));
        StoreKeepsOrder(q1, SlotId(sid, slot), opts, Some(sid), slot - now, now);
      }
    }
  }

  lemma PromoteKeepsOrder(q: Queue, id: Id)
    requires Sound(q)
    ensures KeepsOrder(q.wait, PromoteJob(q, id).0.wait)
  {
    hide Enqueue, KeepsOrder;
    WaitDistinct(q);
    WaitHasNoMarker(q);
    if id in q.delayed {
      assert Where(q, id) <= 1;
      assert q.wait != [] ==> q.wait[0] in q.wait;
      hide Sound;
      EnqueueKeepsOrder(q.wait, q.(delayed := q.delayed - {id}), [], id, Head);
    } else {
      SameKeepsOrder(q.wait);
    }
  }

  lemma ReprocessKeepsOrder(q: Queue, id: Id, bucket: Bucket, resetAtm: bool, resetAts: bool)
    requires Sound(q)
    ensures KeepsOrder(q.wait, ReprocessJob(q, id, bucket, resetAtm, resetAts).0.wait)
  {
    hide Enqueue, KeepsOrder;
    WaitDistinct(q);
    if id in q.jobs && id in Finished(q, bucket) {
      assert Where(q, id) <= 1;
      hide Sound;
      var q1 := SetFinished(q, bucket, Finished(q, bucket) - {id});
      var was := JobOf(q, id);
      var job := was.(processedOn := 0, atm := if resetAtm then 0 else was.atm, ats := if resetAts then 0 else was.ats);
      EnqueueKeepsOrder(q.wait, q1.(jobs := q1.jobs[id := job]), [], id, Head);
    } else {
      SameKeepsOrder(q.wait);
    }
  }

  lemma ResumeKeepsOrder(q: Queue)
    requires Sound(q)
    ensures KeepsOrder(q.wait, ResumeRound(q).0.wait)
  {
    hide ResumeRound, KeepsOrder;
    WaitDistinct(q);
    ResumeMoves(q);
    var b := q.parked[..Batch(q)];
    forall id | id in b
      ensures id !in q.wait
    {
      assert id in q.parked;
      assert Where(q, id) <= 1;
    }
    assert q.wait + b == [] + q.wait[0..|q.wait|] + b;
    SegmentKeepsOrder(q.wait, q.wait + b, [], 0, |q.wait|, b);
  }

  lemma DrainKeepsOrder(q: Queue, withDelayed: bool)
    requires Sound(q)
    ensures KeepsOrder(q.wait, DrainQueue(q, withDelayed).wait)
  {
    hide KeepsOrder, Spared, Filter, Sound;
    WaitDistinct(q);
    var spared := Spared(q);
    var n := |Filter(q.wait, id => id !in spared)|;
    assert q.wait[n..] == [] + q.wait[n..|q.wait|] + [];
    SegmentKeepsOrder(q.wait, q.wait[n..], [], n, |q.wait|, []);
  }

  lemma RemoveKeepsOrder(q: Queue, id: Id)
    requires Sound(q)
    ensures KeepsOrder(q.wait, Remove(q, id).0.wait)
  {
    WaitDistinct(q);
    hide KeepsOrder, RemoveFirst, CurrentIteration, PlaceOf, Sound;
    RemovalKeepsOrder(q.wait, id);
    SameKeepsOrder(q.wait);
    if CurrentIteration(q, id) || id in q.lock {
    } else if PlaceOf(q, id) == InWait {
    } else {
    }
  }

  lemma WithdrawKeepsOrder(q: Queue, sid: SchedulerId)
    requires Sound(q)
    ensures KeepsOrder(q.wait, Withdrawn(q, sid).wait)
  {
    hide SlotId, RemoveFirst, KeepsOrder, Sound, Distinct, Retracted;
    WaitDistinct(q);
    SameKeepsOrder(q.wait);
    if sid in q.repeat {
      RetractedFrame(q, SlotId(sid, q.repeat[sid]));
      RemovalKeepsOrder(q.wait, SlotId(sid, q.repeat[sid]));
    }
  }

  lemma EnterKeepsOrder(q: Queue, sid: SchedulerId, entry: Scheduler, slot: int, opts: JobOpts, now: int,
                        removed: bool)
    requires Sound(q) && (SlotId(sid, slot) !in q.jobs || Refuses(q, sid, entry, slot, removed))
    ensures KeepsOrder(q.wait, EnterSchedule(q, sid, entry, slot, opts, now, removed).0.wait)
  {
    hide Store, SlotId, Sound, KeepsOrder, Distinct;
    WaitDistinct(q);
    SameKeepsOrder(q.wait);
    if SlotId(sid, slot) !in q.jobs {
      FreeWaitsNot(q, SlotId(sid, slot));
      StoreKeepsOrder(NewEntry(q, sid, entry, slot), SlotId(sid, slot), opts, Some(sid), slot - now, now);
    }
  }

  lemma AdminKeepsOrder(q: Queue, op: Op)
    requires Sound(q)
    requires op.Promote? || op.Reprocess? || op.RemoveJob? || op.Resume? || op.Drain? || op.Withdraw?
    ensures KeepsOrder(q.wait, Apply(q, op).0.wait)
  {
    hide Sound, KeepsOrder, PromoteJob, ReprocessJob, Remove, ResumeRound, DrainQueue, AddJob, Acquire, FinishJob,
      Retry, DelayJob, ScanStalled, NextIteration, Withdrawn, EnterSchedule;
    match op
    case Promote(id) => PromoteKeepsOrder(q, id);
    case Reprocess(id, bucket, resetAtm, resetAts) => ReprocessKeepsOrder(q, id, bucket, resetAtm, resetAts);
    case RemoveJob(id) => RemoveKeepsOrder(q, id);
    case Resume => ResumeKeepsOrder(q);
    case Drain(withDelayed) => DrainKeepsOrder(q, withDelayed);
    case Withdraw(sid) => WithdrawKeepsOrder(q, sid);
  }

  /** Every script keeps the order of the jobs that stay in wait. */
  lemma StepKeepsOrder(q: Queue, op: Op)
    requires Sound(q) && Allowed(q, op)
    ensures KeepsOrder(q.wait, Apply(q, op).0.wait)
  {
    hide Sound, KeepsOrder, PromoteJob, ReprocessJob, Remove, ResumeRound, DrainQueue, AddJob, Acquire, FinishJob,
      Retry, DelayJob, ScanStalled, NextIteration, CurrentIteration, Spared, SparedLast, Digits, Withdrawn,
      EnterSchedule, Refuses, SlotId;
    match op
    case MoveToActive(token, now, limited) => AcquireKeepsOrder(q, token, now, limited, false);
    case MoveToFinished(id, token, bucket, keep, history, now, fetchNext, limited) =>
      FinishKeepsOrder(q, id, token, bucket, keep, history, now, fetchNext, limited);
    case RetryJob(id, token, lifo, history, now) => RetryKeepsOrder(q, id, token, lifo, history, now);
    case MoveToDelayed(id, token, now, delay, skip, history) =>
      DelayKeepsOrder(q, id, token, now, delay, skip, history);
      SameKeepsOrder(q.wait);
    case MoveStalled(limit, order) => ScanKeepsOrder(q, limit, order);
    case Add(custom, opts, delay, now) => AddKeepsOrder(q, custom, opts, delay, now);
    case UpdateScheduler(sid, producer, timing, opts, now) =>
      IterationKeepsOrder(q, sid, producer, timing, opts, now);
    case Promote(_) => AdminKeepsOrder(q, op);
    case Reprocess(_, _, _, _) => AdminKeepsOrder(q, op);
    case RemoveJob(_) => AdminKeepsOrder(q, op);
    case Resume => AdminKeepsOrder(q, op);
    case Drain(_) => AdminKeepsOrder(q, op);
    case Withdraw(_) => AdminKeepsOrder(q, op);
    case Enter(sid, entry, slot, opts, now, removed) =>
      EnterKeepsOrder(q, sid, entry, slot, opts, now, removed);
    case _ => SameKeepsOrder(q.wait);
  }

  // ---------- nobody is overtaken ----------

  lemma BehindIsNotLast(w: seq<Id>, x: Id, y: Id)
    requires Distinct(w) && Ahead(w, x, y)
    ensures w != [] && w[|w| - 1] != y
  {
  }

  /** No script takes a job while one that is ahead of it waits. */
  lemma NotOvertaken(q: Queue, op: Op, x: Id, y: Id)
    requires Sound(q) && Allowed(q, op) && Ahead(q.wait, x, y)
    ensures !ChangeOf(q, op, y).Taken?
  {
    hide ChangeOf, Ahead, Sound, Acquire, FinishJob, Retry, DelayJob, ScanStalled, PromoteJob, ReprocessJob, Remove,
      DrainQueue, ResumeRound, AddJob, NextIteration, Allowed, Withdrawn, EnterSchedule;
    TakenExactly(q, op, y);
    WaitDistinct(q);
    BehindIsNotLast(q.wait, x, y);
    RealToken(q, op);
    match op
    case MoveToActive(token, now, limited) =>
      var a, j := AcquireWait(q, token, now, limited, false);
    case MoveToFinished(id, token, bucket, keep, history, now, fetchNext, limited) =>
      FinishSplits(q, id, token, bucket, keep, history, now, fetchNext, limited);
      var q1 := FinishJob(q, id, token, bucket, keep, history, now, false, false).0;
      var a, j := AcquireWait(q1, token, now, limited, true);
    case _ =>
  }

  lemma RealToken(q: Queue, op: Op)
    requires Allowed(q, op)
    ensures op.MoveToActive? || op.MoveToFinished? ==> op.token != NO_LOCK
  {
  }

  // ---------- whole runs ----------

  /** A standard add: neither delayed nor prioritized nor LIFO, of a new job. */
  predicate StandardAdd(q: Queue, op: Op) {
    op.Add? && op.delay <= 0 && op.opts.priority <= 0 && !op.opts.lifo && NewId(q, op.custom) !in q.jobs
  }

  lemma StoredWait(q: Queue, id: Id, opts: JobOpts, delay: int, now: int)
    requires delay <= 0 && opts.priority <= 0 && !opts.lifo
    ensures Store(q, id, opts, None, delay, now).wait == [id] + q.wait
  {
    hide DelayedScore, AddWithPriority;
  }

  lemma AddedWait(q: Queue, op: Op)
    requires StandardAdd(q, op)
    ensures Apply(q, op).0.wait == [NewId(q, op.custom)] + q.wait
  {
    hide Digits, Store, Acquire, FinishJob, Retry, DelayJob, ScanStalled, PromoteJob, ReprocessJob, Remove,
      DrainQueue, ResumeRound, NextIteration, Withdrawn, EnterSchedule;
    StoredWait(q.(counter := q.counter + 1), NewId(q, op.custom), op.opts, op.delay, op.now);
  }

  lemma AddGoesBehind(q: Queue, op: Op, x: Id)
    requires StandardAdd(q, op) && x in q.wait
    ensures Ahead(Apply(q, op).0.wait, x, NewId(q, op.custom))
  {
    hide Apply, NewId;
    AddedWait(q, op);
    var y, w' := NewId(q, op.custom), Apply(q, op).0.wait;
    var k :| 0 <= k < |q.wait| && q.wait[k] == x;
    assert w'[0] == y && w'[k + 1] == x;
  }

  function StateAt(q: Queue, ops: seq<Op>, k: nat): Queue
    requires k <= |ops|
  {
    if k == 0 then q else Apply(StateAt(q, ops, k - 1), ops[k - 1]).0
  }

  ghost predicate AllowedRun(q: Queue, ops: seq<Op>) {
    forall k :: 0 <= k < |ops| ==> Allowed(StateAt(q, ops, k), ops[k])
  }

  lemma {:induction false} StateSound(q: Queue, ops: seq<Op>, k: nat)
    requires Sound(q) && AllowedRun(q, ops) && k <= |ops|
    ensures Sound(StateAt(q, ops, k))
  {
    hide Apply, Allowed, Sound;
    if k > 0 {
      StateSound(q, ops, k - 1);
      StepSound(StateAt(q, ops, k - 1), ops[k - 1]);
    }
  }

  /** x is in wait from state i to state j. */
  predicate Waits(q: Queue, ops: seq<Op>, i: nat, j: nat, x: Id)
    requires j <= |ops|
  {
    forall k :: i <= k <= j ==> x in StateAt(q, ops, k).wait
  }

  lemma {:induction false} StaysAhead(q: Queue, ops: seq<Op>, i: nat, j: nat, x: Id, y: Id)
    requires Sound(q) && AllowedRun(q, ops) && i <= j <= |ops| && Ahead(StateAt(q, ops, i).wait, x, y)
    requires Waits(q, ops, i, j, x) && Waits(q, ops, i, j, y)
    ensures Ahead(StateAt(q, ops, j).wait, x, y)
  {
    hide Apply, Allowed, Sound, Ahead;
    if i < j {
      StaysAhead(q, ops, i, j - 1, x, y);
      StateSound(q, ops, j - 1);
      StepKeepsOrder(StateAt(q, ops, j - 1), ops[j - 1]);
    }
  }

  /**
    First come, first served: in any run of any scripts, of two standard jobs the one added
    later is not taken while the one added earlier has been waiting ever since.
   */
  lemma FirstComeFirstServed(q: Queue, ops: seq<Op>, i: nat, j: nat, n: nat, x: Id, y: Id)
    requires Sound(q) && AllowedRun(q, ops) && i < j < n < |ops|
    requires StandardAdd(StateAt(q, ops, i), ops[i]) && x == NewId(StateAt(q, ops, i), ops[i].custom)
    requires StandardAdd(StateAt(q, ops, j), ops[j]) && y == NewId(StateAt(q, ops, j), ops[j].custom)
    requires Waits(q, ops, i + 1, n, x) && Waits(q, ops, j + 1, n, y)
    ensures !ChangeOf(StateAt(q, ops, n), ops[n], y).Taken?
  {
    hide Apply, Allowed, Sound, Ahead, ChangeOf, NewId, StateAt, AllowedRun;
    AddGoesBehind(StateAt(q, ops, j), ops[j], x);
    StateStep(q, ops, j);
    StaysAhead(q, ops, j + 1, n, x, y);
    StateSound(q, ops, n);
    AllowedAt(q, ops, n);
    NotOvertaken(StateAt(q, ops, n), ops[n], x, y);
  }

  lemma StateStep(q: Queue, ops: seq<Op>, k: nat)
    requires k < |ops|
    ensures StateAt(q, ops, k + 1) == Apply(StateAt(q, ops, k), ops[k]).0
  {
    hide Apply;
  }

  lemma AllowedAt(q: Queue, ops: seq<Op>, k: nat)
    requires AllowedRun(q, ops) && k < |ops|
    ensures Allowed(StateAt(q, ops, k), ops[k])
  {
    hide Allowed, StateAt;
  }
}
