/**
  Calls that can break a law of the queue. For each: exactly when it does, in terms a caller
  could check beforehand.
 */
module Hazards {
  import opened Wrappers
  import opened Lists
  import opened SortedSets
  import opened Queues
  import opened JobLife
  import opened Ledger
  import opened Names

  // ---------- DrainPending ----------

  lemma DrainLoses(q: Queue, withDelayed: bool, s: seq<Id>)
    requires Sound(q) && (s == q.wait || s == q.parked) && !SparedLast(s, Spared(q))
    ensures !Placed(DrainQueue(q, withDelayed))
  {
    var spared := Spared(q);
    var n := |Filter(s, id => id !in spared)|;
    DrainCut(s, spared);
    var i :| 0 <= i < n && s[i] in spared;
    var y := s[i];
    var q' := DrainQueue(q, withDelayed);
    assert Where(q, y) == 1 && y in q.jobs by {
      assert y in s;
      SoundAt(q, y);
    }
    assert y in q'.jobs by {
      hide DrainList, Spared;
    }
    assert Where(q', y) == 0 by {
      CutCounts(s, n, i);
      CutShrinks(q.wait, spared, y);
      CutShrinks(q.parked, spared, y);
    }
  }

  lemma CutCounts(s: seq<Id>, n: nat, i: nat)
    requires i < n <= |s| && multiset(s)[s[i]] == 1
    ensures multiset(s[n..])[s[i]] == 0
  {
    assert s == s[..n] + s[n..];
    assert s[i] in s[..n];
  }

  lemma CutShrinks(s: seq<Id>, spared: set<Id>, y: Id)
    ensures multiset(DrainList(s, spared))[y] <= multiset(s)[y]
  {
    var n := |Filter(s, id => id !in spared)|;
    assert s == s[..n] + s[n..];
  }

  /**
    DrainPending keeps every stored job in exactly one place if and only if, in wait and in
    the legacy paused list, no job it deletes stands behind a scheduler iteration it spares.
   */
  lemma DrainKeepsPlaces(q: Queue, withDelayed: bool)
    requires Sound(q)
    ensures Placed(DrainQueue(q, withDelayed)) <==> SparedLast(q.wait, Spared(q)) && SparedLast(q.parked, Spared(q))
  {
    var q' := DrainQueue(q, withDelayed);
    if !SparedLast(q.wait, Spared(q)) {
      DrainLoses(q, withDelayed, q.wait);
    } else if !SparedLast(q.parked, Spared(q)) {
      DrainLoses(q, withDelayed, q.parked);
    } else {
      forall x
        ensures Where(q', x) == if x in q'.jobs then 1 else 0
      {
        DrainFollows(q, withDelayed, x);
      }
    }
  }

  /** A waiting scheduler iteration with one ordinary job behind it is lost by DrainPending. */
  lemma DrainLosesIteration()
    ensures exists q :: Sound(q) && !Placed(DrainQueue(q, false))
  {
    var slot, job := SlotId("s", 1), BLANK;
    assert slot[0] == 'r';
    var q := EMPTY.(wait := [slot, "x"], jobs := map[slot := job, "x" := job], repeat := map["s" := 1]);
    assert Sound(q) by {
      forall id
        ensures Where(q, id) == if id in q.jobs then 1 else 0
      {
      }
    }
    assert slot in Spared(q) by {
      assert "s" in q.repeat;
    }
    assert "x" !in Spared(q) by {
      assert forall sid :: sid in q.repeat ==> SlotId(sid, q.repeat[sid])[0] == 'r';
    }
    assert q.wait[0] in Spared(q) && q.wait[1] !in Spared(q);
    DrainLoses(q, false, q.wait);
  }

  // ---------- RemoveJob ----------

  /** RemoveJob deletes a job exactly if it is not locked and not the iteration its schedule is at. */
  lemma RemovesExactly(q: Queue, id: Id)
    requires Sound(q) && id in q.jobs
    ensures id !in Remove(q, id).0.jobs
       <==> id !in q.lock
            && !(exists sid :: q.jobs[id].rjk == Some(sid) && sid in q.repeat && id == SlotId(sid, q.repeat[sid]))
  {
    hide RemoveFromAnyState, SlotId;
  }

  /** RemoveJob keeps the queue sound unless it deletes an unlocked job that a scan has marked. */
  lemma RemoveKeepsSound(q: Queue, id: Id)
    requires Sound(q)
    ensures Sound(Remove(q, id).0) <==> !(id in q.stalled && id !in q.lock && !CurrentIteration(q, id))
  {
    if id in q.stalled && id !in q.lock && !CurrentIteration(q, id) {
      hide RemoveFromAnyState, Where, CurrentIteration;
      SoundAt(q, id);
      RemoveFromAnyStateEffect(q, id, id);
    } else {
      hide Remove, Sound, CurrentIteration, Where;
      StepSound(q, RemoveJob(id));
    }
  }

  /** An active job whose lock has expired and that a scan has marked stays marked after its removal. */
  lemma RemoveLeavesMark()
    ensures exists q, id :: Sound(q) && !Sound(Remove(q, id).0)
  {
    var q := EMPTY.(active := ["1"], stalled := {"1"}, jobs := map["1" := BLANK]);
    assert Sound(q) by {
      forall x
        ensures Where(q, x) == if x in q.jobs then 1 else 0
      {
      }
    }
    RemoveKeepsSound(q, "1");
  }

  // ---------- storing over a stored job ----------

  /** Where a store files the id; a sorted set takes a member it already has without a second entry. */
  predicate FiledAgain(q: Queue, id: Id, opts: JobOpts, delay: int) {
    if delay > 0 then id in q.delayed else opts.priority > 0 && id in q.prioritized
  }

  /** From q to q' one occurrence of id was added, or none, and nothing else that soundness speaks of changed. */
  ghost predicate Occurs(q: Queue, q': Queue, id: Id, more: nat) {
    && (forall x :: Where(q', x) == Where(q, x) + if x == id then more else 0)
    && q'.jobs.Keys == q.jobs.Keys && q'.active == q.active && q'.lock == q.lock && q'.stalled == q.stalled
  }

  lemma OverDelayed(q: Queue, id: Id, score: int)
    ensures Occurs(q, q.(delayed := q.delayed[id := score]), id, if id in q.delayed then 0 else 1)
  {
  }

  lemma OverPrioritized(q: Queue, id: Id, priority: int)
    ensures Occurs(q, AddWithPriority(q, id, priority), id, if id in q.prioritized then 0 else 1)
  {
  }

  lemma OverPushed(q: Queue, id: Id, end: End)
    ensures Occurs(q, q.(wait := Push(q.wait, end, id)), id, 1)
  {
  }

  /** Counters, scheduler entries and the contents of HASHes do not matter. */
  lemma OccursBut(q: Queue, q1: Queue, q': Queue, id: Id, more: nat)
    requires q1 == q.(counter := q1.counter, repeat := q1.repeat, schedulers := q1.schedulers, jobs := q1.jobs)
    requires q1.jobs.Keys == q.jobs.Keys && Occurs(q1, q', id, more)
    ensures Occurs(q, q', id, more)
  {
    forall x
      ensures Where(q1, x) == Where(q, x)
    {
    }
    hide Where;
  }

  /** Storing over a stored job adds one occurrence of it, unless it is filed where it already is. */
  lemma StoredOver(q: Queue, id: Id, opts: JobOpts, rjk: Option<SchedulerId>, delay: int, now: int)
    requires id in q.jobs
    ensures var more := if FiledAgain(q, id, opts, delay) then 0 else 1;
            Occurs(q, Store(q, id, opts, rjk, delay, now), id, more)
  {
    hide DelayedScore, Occurs, AddWithPriority, Push;
    var q1 := q.(jobs := q.jobs[id := Stored(JobOf(q, id), opts, rjk)]);
    if delay > 0 {
      OverDelayed(q1, id, DelayedScore(q1.delayed, now, delay));
    } else if opts.priority > 0 {
      OverPrioritized(q1, id, opts.priority);
    } else {
      OverPushed(q1, id, if opts.lifo then Tail else Head);
    }
    OccursBut(q, q1, Store(q, id, opts, rjk, delay, now), id, if FiledAgain(q, id, opts, delay) then 0 else 1);
  }

  lemma OccursSound(q: Queue, q': Queue, id: Id, more: nat)
    requires Sound(q) && id in q.jobs && Occurs(q, q', id, more)
    ensures Sound(q') <==> more == 0
  {
    assert Where(q, id) == 1;
    assert Where(q', id) == 1 + more;
    hide Where;
  }

  // ---------- Add without a custom id ----------

  /**
    The automatic id is used unchecked. The add keeps the queue sound exactly when the id is
    free, or the job of that id stands in the sorted set to which the new one goes.
   */
  lemma AutoIdKeepsSound(q: Queue, opts: JobOpts, delay: int, now: int)
    requires Sound(q)
    ensures Sound(AddJob(q, AUTO, opts, delay, now).0)
       <==> NewId(q, AUTO) !in q.jobs || FiledAgain(q, NewId(q, AUTO), opts, delay)
  {
    hide Store, Sound, Occurs, Digits;
    var id, q1, q' := NewId(q, AUTO), q.(counter := q.counter + 1), AddJob(q, AUTO, opts, delay, now).0;
    if id in q.jobs {
      StoredOver(q1, id, opts, None, delay, now);
      var more := if FiledAgain(q, id, opts, delay) then 0 else 1;
      OccursBut(q, q1, q', id, more);
      OccursSound(q, q', id, more);
    } else {
      StepSound(q, Add(AUTO, opts, delay, now));
    }
  }

  /** After a job with the custom id "1", the first automatic id puts it into wait twice. */
  lemma AutoIdCollides(now: int)
    ensures exists q :: Sound(q) && !Sound(AddJob(q, AUTO, NO_OPTS, 0, now).0)
  {
    var q := EMPTY.(wait := ["1"], jobs := map["1" := BLANK]);
    OneWaiting(q, "1");
    assert Digits(1) == ['1'];
    AutoIdKeepsSound(q, NO_OPTS, 0, now);
  }

  lemma OneWaiting(q: Queue, id: Id)
    requires !IsMarker(id) && q == EMPTY.(wait := [id], jobs := q.jobs) && q.jobs.Keys == {id}
    ensures Sound(q)
  {
    forall x
      ensures Where(q, x) == if x in q.jobs then 1 else 0
    {
    }
  }

  // ---------- UpsertSchedulePattern ----------

  /**
    The slot is free behind the withdrawal; or the upsert is refused, as one of an interval is and
    one that withdrew nothing; or the job of the slot stands in the sorted set it goes to.
   */
  predicate UpsertFits(q: Queue, sid: SchedulerId, entry: Scheduler, slot: int, opts: JobOpts, now: int) {
    var q1 := Withdrawn(q, sid);
    var m := Landing(q1, sid, entry, slot);
    || SlotId(sid, m) !in q1.jobs || entry.every.Some? || q1 == q
    || FiledAgain(q1, SlotId(sid, m), opts, m - now)
  }

  lemma FirstOver(q: Queue, sid: SchedulerId, entry: Scheduler, slot: int, opts: JobOpts, now: int)
    requires Sound(q) && SlotId(sid, slot) in q.jobs
    ensures Sound(FirstIteration(q, sid, entry, slot, opts, now))
       <==> FiledAgain(q, SlotId(sid, slot), opts, slot - now)
  {
    hide Store, Sound, Occurs, SlotId;
    var id, q1, q' := SlotId(sid, slot), NewEntry(q, sid, entry, slot), FirstIteration(q, sid, entry, slot, opts, now);
    StoredOver(q1, id, opts, Some(sid), slot - now, now);
    var more := if FiledAgain(q, id, opts, slot - now) then 0 else 1;
    OccursBut(q, q1, q', id, more);
    OccursSound(q, q', id, more);
  }

  /**
    A pattern schedule whose pending iteration was withdrawn is entered unchecked. The upsert
    keeps the queue sound exactly when it fits.
   */
  lemma UpsertKeepsSound(q: Queue, sid: SchedulerId, entry: Scheduler, slot: int, opts: JobOpts, now: int)
    requires Sound(q)
    ensures Sound(UpsertSchedule(q, sid, entry, slot, opts, now).0) <==> UpsertFits(q, sid, entry, slot, opts, now)
  {
    hide Sound, Withdrawn, Landing, FirstIteration, SlotId, FiledAgain;
    var q1 := Withdrawn(q, sid);
    var m := Landing(q1, sid, entry, slot);
    StepSound(q, Withdraw(sid));
    if SlotId(sid, m) in q1.jobs && !Refuses(q1, sid, entry, m, q1 != q) {
      FirstOver(q1, sid, entry, m, opts, now);
    } else {
      StepSound(q1, Enter(sid, entry, m, opts, now, q1 != q));
    }
  }

  ghost predicate Pends(q1: Queue, q': Queue, id: Id) {
    Pending(q', id) && q'.jobs == q1.jobs
  }

  lemma DelayedPends(q1: Queue, id: Id, score: int)
    ensures Pends(q1, q1.(delayed := q1.delayed[id := score]), id)
  {
  }

  lemma PrioritizedPends(q1: Queue, id: Id, priority: int)
    ensures Pends(q1, AddWithPriority(q1, id, priority), id)
  {
  }

  lemma PushedPends(q1: Queue, id: Id, end: End)
    ensures Pends(q1, q1.(wait := Push(q1.wait, end, id)), id)
  {
  }

  lemma StoredPends(q: Queue, id: Id, opts: JobOpts, rjk: Option<SchedulerId>, delay: int, now: int)
    ensures var q' := Store(q, id, opts, rjk, delay, now);
            Pending(q', id) && q'.jobs == q.jobs[id := Stored(JobOf(q, id), opts, rjk)]
  {
    hide DelayedScore, Stored, JobOf, AddWithPriority, Push, Pending;
    var q1 := q.(jobs := q.jobs[id := Stored(JobOf(q, id), opts, rjk)]);
    if delay > 0 {
      DelayedPends(q1, id, DelayedScore(q1.delayed, now, delay));
    } else if opts.priority > 0 {
      PrioritizedPends(q1, id, opts.priority);
    } else {
      PushedPends(q1, id, if opts.lifo then Tail else Head);
    }
  }

  /**
    The job stored over is pending with the HASH it had, but for options and tag. It has an
    attempt left exactly when those it made are fewer than the new options allow.
   */
  lemma UpsertKeepsBound(q: Queue, sid: SchedulerId, entry: Scheduler, slot: int, opts: JobOpts, now: int)
    requires SlotId(sid, slot) in q.jobs && AttemptsBounded(ViewOf(q, SlotId(sid, slot)))
    requires Sound(q) && entry.every.None? && Withdrawn(q, sid) != q && SlotId(sid, slot) in Withdrawn(q, sid).jobs
    ensures var q', id := UpsertSchedule(q, sid, entry, slot, opts, now).0, SlotId(sid, slot);
            && Pending(q', id) && id in q'.jobs && q'.jobs[id] == q.jobs[id].(opts := opts, rjk := Some(sid))
            && (AttemptsBounded(ViewOf(q', id)) <==> q.jobs[id].atm < Attempts(opts))
  {
    hide Sound, Withdrawn, Store, SlotId, Where, Attempts;
    var id, q1, q' := SlotId(sid, slot), Withdrawn(q, sid), UpsertSchedule(q, sid, entry, slot, opts, now).0;
    WithdrawFollows(q, sid, id);
    assert q1.jobs[id] == q.jobs[id];
    StoredPends(NewEntry(q1, sid, entry, slot), id, opts, Some(sid), slot - now, now);
    assert q'.jobs[id] == q.jobs[id].(opts := opts, rjk := Some(sid));
    hide Withdraws, UpsertSchedule, Pending;
    BoundAt(q, q', id, opts);
  }

  lemma BoundAt(q: Queue, q': Queue, id: Id, opts: JobOpts)
    requires id in q.jobs && id in q'.jobs && AttemptsBounded(ViewOf(q, id))
    requires q'.jobs[id].opts == opts && q'.jobs[id].atm == q.jobs[id].atm && Pending(q', id)
    ensures AttemptsBounded(ViewOf(q', id)) <==> q.jobs[id].atm < Attempts(opts)
  {
  }

  /**
    A pattern schedule at 120 is upserted at 60 once more, as with a start date in the past. The
    iteration of 60, completed in its one attempt, is then in wait as well, and beyond its bound.
   */
  lemma UpsertStoresOver()
    ensures exists q: Queue, entry ::
              && Sound(q) && !Sound(UpsertSchedule(q, "s", entry, 60, NO_OPTS, 60).0)
              && SlotId("s", 60) in q.completed && SlotId("s", 60) in q.jobs
              && AttemptsBounded(ViewOf(q, SlotId("s", 60)))
              && (var q' := UpsertSchedule(q, "s", entry, 60, NO_OPTS, 60).0;
                  SlotId("s", 60) in q'.jobs && !AttemptsBounded(ViewOf(q', SlotId("s", 60))))
  {
    hide SlotId, Store;
    var a, b, entry := SlotId("s", 60), SlotId("s", 120), Scheduler(None, 0, 1, 0);
    if a == b {
      SlotIdInjective("s", 60, "s", 120);
    }
    var q := EMPTY.(
      completed := map[a := 5], delayed := map[b := 7], repeat := map["s" := 120], schedulers := map["s" := entry],
      jobs := map[a := BLANK.(rjk := Some("s"), atm := 1), b := BLANK.(rjk := Some("s"))]);
    TwoStored(q, a, b);
    var q1 := Withdrawn(q, "s");
    assert q1 == q.(delayed := map[], jobs := map[a := q.jobs[a]]);
    hide Sound, Withdrawn, UpsertSchedule;
    UpsertKeepsSound(q, "s", entry, 60, NO_OPTS, 60);
    UpsertKeepsBound(q, "s", entry, 60, NO_OPTS, 60);
  }

  lemma TwoStored(q: Queue, a: Id, b: Id)
    requires a == SlotId("s", 60) && b == SlotId("s", 120) && a != b
    requires q == EMPTY.(completed := q.completed, delayed := q.delayed, repeat := q.repeat,
                         schedulers := q.schedulers, jobs := q.jobs)
    requires q.completed.Keys == {a} && q.delayed.Keys == {b} && q.jobs.Keys == {a, b}
    ensures Sound(q)
  {
    assert a[0] == 'r' && b[0] == 'r';
    hide SlotId;
    forall x
      ensures Where(q, x) == if x in q.jobs then 1 else 0
    {
    }
  }

  // ---------- RetryJob ----------

  /** A job retried by hand has an attempt left exactly when its attempts are reset or were not used up. */
  lemma ManualRetryKeepsBound(q: Queue, id: Id, bucket: Bucket, resetAtm: bool, resetAts: bool)
    requires Sound(q) && id in q.jobs && id in Finished(q, bucket) && AttemptsBounded(ViewOf(q, id))
    ensures var q' := ReprocessJob(q, id, bucket, resetAtm, resetAts).0;
            && Pending(q', id) && id in q'.jobs
            && (AttemptsBounded(ViewOf(q', id)) <==> resetAtm || q.jobs[id].atm < Attempts(q.jobs[id].opts))
  {
    hide ReprocessJob, Sound, Where;
    ReprocessFollows(q, id, bucket, resetAtm, resetAts, id);
  }

  /** A failed job of one attempt, retried by hand with its attempts kept, is beyond its bound. */
  lemma ManualRetryPassesBound()
    ensures exists q, id :: Sound(q) && id in q.jobs && id in q.failed && AttemptsBounded(ViewOf(q, id))
              && id in ReprocessJob(q, id, Failed, false, true).0.jobs
              && !AttemptsBounded(ViewOf(ReprocessJob(q, id, Failed, false, true).0, id))
  {
    hide ReprocessJob;
    var q := EMPTY.(failed := map["1" := 5], jobs := map["1" := BLANK.(atm := 1)]);
    assert Sound(q) by {
      forall x
        ensures Where(q, x) == if x in q.jobs then 1 else 0
      {
      }
    }
    ManualRetryKeepsBound(q, "1", Failed, false, true);
  }
}
