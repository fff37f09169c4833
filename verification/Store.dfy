/**
  The keys of one queue as they are updated in place, and the scripts as the sequences of
  commands they are. Every script is proved to have the effect and the reply that module
  Queues gives it, so that everything shown there about steps and runs holds of them.
 */
module Store {
  import opened Wrappers
  import opened Lists
  import opened SortedSets
  import opened Queues
  import opened JobLife

  class Keys {
    var wait: seq<Id>
    var active: seq<Id>
    var parked: seq<Id>
    var prioritized: ZSet
    var delayed: ZSet
    var completed: ZSet
    var failed: ZSet
    var stalled: set<Id>
    var lock: map<Id, Token>
    var jobs: map<Id, Job>
    var paused: bool
    var concurrency: Option<int>
    var counter: nat
    var pc: nat
    var checking: bool
    var repeat: map<SchedulerId, int>
    var schedulers: map<SchedulerId, Scheduler>

    function Snapshot(): Queue
      reads this
    {
      Queue(wait, active, parked, prioritized, delayed, completed, failed, stalled, lock, jobs, paused, concurrency,
            counter, pc, checking, repeat, schedulers)
    }

    constructor ()
      ensures Snapshot() == EMPTY
    {
      wait, active, parked := [], [], [];
      prioritized, delayed, completed, failed := map[], map[], map[], map[];
      stalled, lock, jobs := {}, map[], map[];
      paused, concurrency, counter, pc, checking := false, None, 0, 0, false;
      repeat, schedulers := map[], map[];
    }

    // ---------- includes ----------

    method HSet(id: Id, job: Job)
      modifies this`jobs
      ensures jobs == old(jobs)[id := job]
    {
      jobs := jobs[id := job];
    }

    method AddJobWithPriority(id: Id, priority: int)
      modifies this`pc, this`prioritized
      ensures Snapshot() == AddWithPriority(old(Snapshot()), id, priority)
    {
      pc := pc + 1;
      prioritized := prioritized[id := PriorityScore(priority, pc)];
    }

    method PushOrPrioritize(id: Id, end: End)
      modifies this`wait, this`pc, this`prioritized
      ensures Snapshot() == Enqueue(old(Snapshot()), id, end)
    {
      var priority := if id in jobs then jobs[id].opts.priority else 0;
      if priority == 0 {
        wait := Push(wait, end, id);
      } else {
        AddJobWithPriority(id, priority);
      }
    }

    method PromoteDelayedJobs(now: int)
      modifies this`wait, this`pc, this`prioritized, this`delayed
      ensures Snapshot() == PromoteDue(old(Snapshot()), now)
    {
      hide Enqueue, Due;
      var ids := Due(delayed, now);
      delayed := delayed - Elements(ids);
      ghost var q := Snapshot();
      var i := 0;
      while i < |ids|
        invariant 0 <= i <= |ids|
        invariant EnqueueEach(Snapshot(), ids[i..]) == EnqueueEach(q, ids)
        invariant Snapshot() == q.(wait := wait, pc := pc, prioritized := prioritized)
      {
        assert ids[i..][0] == ids[i] && ids[i..][1..] == ids[i + 1..];
        PushOrPrioritize(ids[i], Head);
        i := i + 1;
      }
    }

    method RemoveLockOf(id: Id, token: Token) returns (code: int)
      modifies this`lock, this`stalled
      ensures (Snapshot(), code) == RemoveLock(old(Snapshot()), id, token)
    {
      if token != NO_LOCK {
        if id in lock && lock[id] == token {
          lock := lock - {id};
          stalled := stalled - {id};
        } else if id in lock {
          return -6;
        } else {
          return -2;
        }
      }
      return 0;
    }

    method LeaveActive(id: Id, token: Token, history: Option<History>) returns (code: int)
      modifies this`lock, this`stalled, this`jobs, this`active
      ensures (Snapshot(), code) == Leave(old(Snapshot()), id, token, history)
    {
      if id !in jobs {
        return -1;
      }
      code := RemoveLockOf(id, token);
      if code < 0 {
        return code;
      }
      if history.Some? {
        HSet(id, jobs[id].(trace := history.value.trace, starts := history.value.starts));
      }
      if id !in active {
        return -3;
      }
      active := RemoveLast(active, id);
    }

    method MoveFromPrioritized() returns (id: Option<Id>)
      modifies this`prioritized, this`active, this`pc
      ensures (Snapshot(), id) == PopPrioritized(old(Snapshot()))
    {
      if prioritized == map[] {
        pc := 0;
        id := None;
      } else {
        var first := First(prioritized);
        prioritized := prioritized - {first};
        active := [first] + active;
        id := Some(first);
      }
    }

    /** RPOPLPUSH wait active. */
    method RPopLPush() returns (id: Option<Id>)
      modifies this`wait, this`active
      ensures if old(wait) == [] then id.None? && Snapshot() == old(Snapshot())
              else id.Some? && (Snapshot(), id.value) == PopWait(old(Snapshot()))
    {
      if wait == [] {
        return None;
      }
      var n := |wait| - 1;
      id := Some(wait[n]);
      wait, active := wait[..n], [wait[n]] + active;
    }

    method PrepareJob(id: Id, token: Token, now: int) returns (reply: Reply)
      modifies this`lock, this`jobs
      ensures (Snapshot(), reply) == Prepare(old(Snapshot()), id, token, now)
    {
      if token != NO_LOCK {
        lock := lock[id := token];
      }
      var was := if id in jobs then jobs[id] else BLANK;
      HSet(id, was.(ats := was.ats + 1, processedOn := now));
      reply := Got(id, jobs[id]);
    }

    method FetchNextJob(token: Token, now: int, limited: bool) returns (reply: Reply)
      modifies this
      ensures (Snapshot(), reply) == Acquire(old(Snapshot()), token, now, limited, true)
    {
      hide PromoteDue, PopPrioritized, Prepare, Gated, RemoveFirst;
      var gated := Gated(Snapshot());
      PromoteDelayedJobs(now);
      if limited || gated {
        return NoJob;
      }
      var id := RPopLPush();
      if id.Some? && IsMarker(id.value) {
        active := RemoveFirst(active, id.value);
        if id.value != "0:0" {
          return NoJob;
        }
        id := MoveFromPrioritized();
        if id.None? {
          return Raised;
        }
      } else if id.None? {
        id := MoveFromPrioritized();
      }
      if id.None? {
        return NoJob;
      }
      reply := PrepareJob(id.value, token, now);
    }

    // ---------- scripts of the dispatchers ----------

    method MoveToActive(token: Token, now: int, limited: bool) returns (reply: Reply)
      modifies this
      ensures (Snapshot(), reply) == Acquire(old(Snapshot()), token, now, limited, false)
    {
      hide PromoteDue, PopWait, PopPrioritized, Prepare, Gated, IsMarker, RemoveFirst;
      var gated := Gated(Snapshot());
      PromoteDelayedJobs(now);
      if limited || gated {
        return NoJob;
      }
      var id := RPopLPush();
      if id.Some? && IsMarker(id.value) {
        active := RemoveFirst(active, id.value);
        id := RPopLPush();
      }
      if id.None? {
        id := MoveFromPrioritized();
      }
      if id.None? {
        return NoJob;
      }
      reply := PrepareJob(id.value, token, now);
    }

    method RemoveFinished(bucket: Bucket, ids: set<Id>)
      modifies this`completed, this`failed, this`jobs
      ensures Snapshot() == Evict(old(Snapshot()), bucket, ids)
    {
      jobs := jobs - ids;
      if bucket == Completed {
        completed := completed - ids;
      } else {
        failed := failed - ids;
      }
    }

    method FileUnder(id: Id, bucket: Bucket, now: int)
      modifies this`completed, this`failed, this`jobs
      ensures Snapshot() == File(old(Snapshot()), id, bucket, now)
    {
      if bucket == Completed {
        completed := completed[id := now];
      } else {
        failed := failed[id := now];
        HSet(id, (if id in jobs then jobs[id] else BLANK).(defa := false));
      }
    }

    /** The part of moveToFinished between the attempt count and the fetch. */
    method FileFinished(id: Id, bucket: Bucket, keep: Keep, now: int)
      modifies this`completed, this`failed, this`jobs
      ensures Snapshot() == Settle(old(Snapshot()), id, bucket, keep, now)
    {
      hide Evict, AgedOut, Surplus, File, Finished;
      if keep.count == Some(0) {
        jobs := jobs - {id};
        return;
      }
      FileUnder(id, bucket, now);
      if keep.age.Some? {
        RemoveFinished(bucket, AgedOut(Finished(Snapshot(), bucket), now, keep.age.value));
      }
      if keep.count.Some? {
        RemoveFinished(bucket, Surplus(Finished(Snapshot(), bucket), keep.count.value));
      }
    }

    method MoveToFinished(id: Id, token: Token, bucket: Bucket, keep: Keep, history: Option<History>, now: int,
                          fetchNext: bool, limited: bool) returns (reply: Reply)
      modifies this
      ensures (Snapshot(), reply)
           == FinishJob(old(Snapshot()), id, token, bucket, keep, history, now, fetchNext, limited)
    {
      hide Leave, Settle, Acquire;
      var code := LeaveActive(id, token, history);
      if code < 0 {
        return Code(code);
      }
      var was := if id in jobs then jobs[id] else BLANK;
      HSet(id, was.(atm := was.atm + 1));
      FileFinished(id, bucket, keep, now);
      if fetchNext {
        reply := FetchNextJob(token, now, limited);
      } else {
        reply := Code(0);
      }
    }

    method RetryJob(id: Id, token: Token, lifo: bool, history: Option<History>, now: int) returns (reply: Reply)
      modifies this
      ensures (Snapshot(), reply) == Retry(old(Snapshot()), id, token, lifo, history, now)
    {
      hide Leave, PromoteDue, Enqueue;
      PromoteDelayedJobs(now);
      var code := LeaveActive(id, token, history);
      if code < 0 {
        return Code(code);
      }
      PushOrPrioritize(id, if lifo then Tail else Head);
      var was := if id in jobs then jobs[id] else BLANK;
      HSet(id, was.(atm := was.atm + 1));
      reply := Code(0);
    }

    method MoveToDelayed(id: Id, token: Token, now: int, delay: int, skipAttempt: bool, history: Option<History>)
      returns (reply: Reply)
      modifies this
      ensures (Snapshot(), reply) == DelayJob(old(Snapshot()), id, token, now, delay, skipAttempt, history)
    {
      hide Leave, DelayedScore;
      var code := LeaveActive(id, token, history);
      if code < 0 {
        return Code(code);
      }
      if !skipAttempt {
        var was := if id in jobs then jobs[id] else BLANK;
        HSet(id, was.(atm := was.atm + 1));
      }
      delayed := delayed[id := DelayedScore(delayed, now, delay)];
      reply := Code(0);
    }

    method ExtendLock(id: Id, token: Token) returns (reply: Reply)
      modifies this`stalled
      ensures (Snapshot(), reply) == Extend(old(Snapshot()), id, token)
    {
      if id in lock && lock[id] == token {
        stalled := stalled - {id};
        return Code(1);
      }
      reply := Code(0);
    }

    method ReleaseLock(id: Id, token: Token) returns (reply: Reply)
      modifies this`lock
      ensures (Snapshot(), reply) == Release(old(Snapshot()), id, token)
    {
      if id in lock && lock[id] == token {
        lock := lock - {id};
        return Code(1);
      }
      reply := Code(0);
    }

    // ---------- the stalled scan ----------

    /** order is the order in which SMEMBERS lists the stalled set. */
    method MoveStalledJobsToWait(limit: int, order: seq<Id>)
      modifies this
      ensures Snapshot() == ScanStalled(old(Snapshot()), limit, order)
    {
      hide Reclaim;
      if checking {
        return;
      }
      checking := true;
      stalled := {};
      ghost var q := Snapshot();
      var i := 0;
      while i < |order|
        invariant 0 <= i <= |order|
        invariant stalled == {} && ReclaimEach(Snapshot(), order[i..], limit) == ReclaimEach(q, order, limit)
      {
        assert order[i..][0] == order[i] && order[i..][1..] == order[i + 1..];
        ReclaimOne(order[i], limit);
        i := i + 1;
      }
      MarkActive();
    }

    method CountStall(id: Id, limit: int)
      modifies this`jobs
      ensures var was := JobOf(old(Snapshot()), id);
              jobs == old(jobs)[id := was.(
                stc := was.stc + 1, defa := was.defa || (was.stc + 1 > limit && !Repeatable(old(Snapshot()), was)))]
    {
      var was := if id in jobs then jobs[id] else BLANK;
      var count := was.stc + 1;
      HSet(id, was.(stc := count));
      var repeatable := was.rjk.Some? && (was.rjk.value in schedulers || was.rjk.value in repeat);
      if count > limit && !repeatable {
        HSet(id, jobs[id].(defa := true));
      }
    }

    method ReclaimOne(id: Id, limit: int)
      modifies this`active, this`jobs, this`wait
      ensures Snapshot() == Reclaim(old(Snapshot()), id, limit)
    {
      hide RemoveFirst, IsMarker;
      if IsMarker(id) {
        active := RemoveFirst(active, id);
      } else if id !in lock && id in active {
        CountStall(id, limit);
        active := RemoveFirst(active, id);
        wait := wait + [id];
      }
    }

    /** SADD of the whole active list to the stalled set. */
    method MarkActive()
      modifies this`stalled
      ensures Snapshot() == old(Snapshot()).(stalled := old(stalled) + Elements(active))
    {
      var i := 0;
      while i < |active|
        invariant 0 <= i <= |active| && stalled == old(stalled) + Elements(active[..i])
      {
        assert active[..i + 1] == active[..i] + [active[i]];
        stalled := stalled + {active[i]};
        i := i + 1;
      }
      assert active[..|active|] == active;
    }

    // ---------- enqueueing ----------

    method StoreJob(id: Id, opts: JobOpts, rjk: Option<SchedulerId>, delay: int, now: int)
      modifies this
      ensures Snapshot() == Queues.Store(old(Snapshot()), id, opts, rjk, delay, now)
    {
      hide DelayedScore, AddWithPriority, Push;
      var was := if id in jobs then jobs[id] else BLANK;
      HSet(id, was.(opts := opts, rjk := if rjk.Some? then rjk else was.rjk));
      if delay > 0 {
        delayed := delayed[id := DelayedScore(delayed, now, delay)];
      } else if opts.priority > 0 {
        AddJobWithPriority(id, opts.priority);
      } else {
        wait := Push(wait, if opts.lifo then Tail else Head, id);
      }
    }

    /** addStandardJob, addPrioritizedJob and addDelayedJob. */
    method Add(custom: Id, opts: JobOpts, delay: int, now: int) returns (reply: Reply)
      modifies this
      ensures (Snapshot(), reply) == AddJob(old(Snapshot()), custom, opts, delay, now)
    {
      hide Digits, Queues.Store;
      counter := counter + 1;
      var id: Id;
      if custom != AUTO {
        id := custom;
        if id in jobs {
          return Code(0);
        }
      } else {
        id := Digits(counter);
      }
      StoreJob(id, opts, None, delay, now);
      reply := Code(0);
    }

    /** The slot of the next iteration: the interval of the HASH, else that of the job options, else the slot sent. */
    method ChooseSlot(sid: SchedulerId, timing: Timing, now: int) returns (slot: int)
      requires sid in repeat
      ensures slot == NextSlot(Snapshot(), sid, timing, now)
    {
      hide EveryNext;
      var every := if sid in schedulers then schedulers[sid].every else None;
      if every.None? {
        every := timing.interval;
      }
      slot := timing.next;
      if every.Some? {
        slot := EveryNext(repeat[sid], every.value, now, if sid in schedulers then schedulers[sid].offset else 0);
      }
    }

    method CountIteration(sid: SchedulerId, slot: int)
      modifies this`repeat, this`schedulers, this`counter
      ensures Snapshot()
           == BumpIterations(old(Snapshot()).(repeat := old(repeat)[sid := slot], counter := old(counter) + 1), sid)
    {
      repeat := repeat[sid := slot];
      var was := if sid in schedulers then schedulers[sid] else Scheduler(None, 0, 0, 0);
      schedulers := schedulers[sid := was.(ic := was.ic + 1)];
      counter := counter + 1;
    }

    method UpdateJobScheduler(sid: SchedulerId, producer: Id, timing: Timing, opts: JobOpts, now: int)
      returns (reply: Reply)
      modifies this
      ensures (Snapshot(), reply) == NextIteration(old(Snapshot()), sid, producer, timing, opts, now)
    {
      hide Queues.Store, SlotId, NextSlot, BumpIterations;
      if sid !in repeat {
        return Code(0);
      }
      var slot := ChooseSlot(sid, timing, now);
      if producer != SlotId(sid, repeat[sid]) || SlotId(sid, slot) in jobs {
        return Code(0);
      }
      CountIteration(sid, slot);
      StoreJob(SlotId(sid, slot), opts, Some(sid), slot - now, now);
      reply := Code(1);
    }

    /** removeJobFromScheduler. */
    method Retract(id: Id) returns (removed: bool)
      modifies this`jobs, this`delayed, this`prioritized, this`parked, this`wait
      ensures Snapshot() == Retracted(old(Snapshot()), id)
      ensures removed <==> Snapshot() != old(Snapshot())
    {
      hide RemoveFirst;
      if id !in jobs {
        return false;
      }
      if id in delayed {
        delayed := delayed - {id};
      } else if id in prioritized {
        prioritized := prioritized - {id};
      } else if paused && id in parked {
        parked := RemoveFirst(parked, id);
      } else if !paused && id in wait {
        wait := RemoveFirst(wait, id);
      } else {
        return false;
      }
      jobs := jobs - {id};
      assert id in old(jobs) && id !in jobs;
      return true;
    }

    /** The search of an interval schedule for a slot whose job does not exist. */
    method Scan(sid: SchedulerId, slot: int, every: Interval) returns (free: int)
      ensures free == Walk(Snapshot(), sid, slot, every, MAX_SLOT_SCANS)
    {
      hide SlotId;
      var scanned := 0;
      free := slot;
      while SlotId(sid, free) in jobs && scanned < MAX_SLOT_SCANS
        invariant 0 <= scanned <= MAX_SLOT_SCANS
        invariant Walk(Snapshot(), sid, free, every, MAX_SLOT_SCANS - scanned)
               == Walk(Snapshot(), sid, slot, every, MAX_SLOT_SCANS)
        decreases MAX_SLOT_SCANS - scanned
      {
        free, scanned := free + every, scanned + 1;
      }
    }

    method WriteEntry(sid: SchedulerId, entry: Scheduler, slot: int)
      modifies this`repeat, this`schedulers, this`counter
      ensures Snapshot() == NewEntry(old(Snapshot()), sid, entry, slot)
    {
      repeat := repeat[sid := slot];
      var count := if sid in schedulers then schedulers[sid].ic else 1;
      schedulers := schedulers[sid := entry.(ic := count)];
      counter := counter + 1;
    }

    /** addJobScheduler. */
    method AddJobScheduler(sid: SchedulerId, entry: Scheduler, slot: int, opts: JobOpts, now: int)
      returns (reply: Reply)
      modifies this
      ensures (Snapshot(), reply) == UpsertSchedule(old(Snapshot()), sid, entry, slot, opts, now)
    {
      hide SlotId, Queues.Store, NewEntry, Retracted, Walk;
      var removed, next := false, slot;
      if sid in repeat {
        removed := Retract(SlotId(sid, repeat[sid]));
      }
      if entry.every.Some? {
        next := Scan(sid, slot, entry.every.value);
      }
      if SlotId(sid, next) in jobs {
        if entry.every.Some? {
          return Code(-11);
        }
        if !removed {
          return Code(-10);
        }
      }
      WriteEntry(sid, entry, next);
      StoreJob(SlotId(sid, next), opts, Some(sid), next - now, now);
      reply := Code(0);
    }

    // ---------- administration ----------

    method Promote(id: Id) returns (reply: Reply)
      modifies this
      ensures (Snapshot(), reply) == PromoteJob(old(Snapshot()), id)
    {
      hide Enqueue, IsMarker;
      if id !in delayed {
        return Code(-3);
      }
      delayed := delayed - {id};
      if wait != [] && IsMarker(wait[0]) {
        wait := wait[1..];
      }
      PushOrPrioritize(id, Head);
      reply := Code(0);
    }

    method ZRem(bucket: Bucket, id: Id)
      modifies this`completed, this`failed
      ensures Snapshot() == SetFinished(old(Snapshot()), bucket, Finished(old(Snapshot()), bucket) - {id})
    {
      if bucket == Completed {
        completed := completed - {id};
      } else {
        failed := failed - {id};
      }
    }

    method Reprocess(id: Id, bucket: Bucket, resetAtm: bool, resetAts: bool) returns (reply: Reply)
      modifies this
      ensures (Snapshot(), reply) == ReprocessJob(old(Snapshot()), id, bucket, resetAtm, resetAts)
    {
      hide Enqueue, SetFinished;
      if id !in jobs {
        return Code(-1);
      }
      if id !in Finished(Snapshot(), bucket) {
        return Code(-3);
      }
      var was := jobs[id];
      ZRem(bucket, id);
      HSet(id, was.(processedOn := 0, atm := if resetAtm then 0 else was.atm, ats := if resetAts then 0 else was.ats));
      PushOrPrioritize(id, Head);
      reply := Code(1);
    }

    method Pause()
      modifies this`paused
      ensures Snapshot() == old(Snapshot()).(paused := true)
    {
      paused := true;
    }

    /** pause-7.lua with "resumed": the number of jobs still parked. */
    method ResumeOnce() returns (remaining: nat)
      modifies this`paused, this`wait, this`parked
      ensures (Snapshot(), Code(remaining)) == ResumeRound(old(Snapshot()))
    {
      paused := false;
      remaining := 0;
      if parked != [] {
        if wait == [] {
          wait, parked := parked, [];
        } else {
          var ids := if |parked| < RESUME_BATCH then parked else parked[..RESUME_BATCH];
          assert parked[..|parked|] == parked;
          wait := wait + ids;
          parked := parked[|ids|..];
          remaining := |parked|;
        }
      }
    }

    method RemoveListJobs(s: seq<Id>, spared: set<Id>) returns (rest: seq<Id>)
      modifies this`jobs
      ensures rest == DrainList(s, spared) && jobs == old(jobs) - (Elements(s) - spared)
    {
      var ids := Filter(s, id => id !in spared);
      jobs := jobs - Elements(ids);
      assert Elements(ids) == Elements(s) - spared;
      rest := s[|ids|..];
    }

    method RemoveLists(spared: set<Id>)
      modifies this`jobs, this`wait, this`parked
      ensures wait == DrainList(old(wait), spared) && parked == DrainList(old(parked), spared)
      ensures jobs == old(jobs) - (Elements(old(wait)) - spared) - (Elements(old(parked)) - spared)
    {
      hide DrainList, Elements;
      wait := RemoveListJobs(wait, spared);
      parked := RemoveListJobs(parked, spared);
    }

    /** removeZSetJobs. */
    method RemoveZSetJobs(z: ZSet, spared: set<Id>) returns (rest: ZSet)
      modifies this`jobs
      ensures rest == z - (z.Keys - spared) && jobs == old(jobs) - (z.Keys - spared)
    {
      jobs := jobs - (z.Keys - spared);
      rest := z - (z.Keys - spared);
    }

    method RemoveSets(withDelayed: bool, spared: set<Id>)
      modifies this`jobs, this`delayed, this`prioritized
      ensures prioritized == old(prioritized) - (old(prioritized).Keys - spared)
      ensures delayed == if withDelayed then old(delayed) - (old(delayed).Keys - spared) else old(delayed)
      ensures jobs == (if withDelayed then old(jobs) - (old(delayed).Keys - spared) else old(jobs))
                      - (old(prioritized).Keys - spared)
    {
      if withDelayed {
        delayed := RemoveZSetJobs(delayed, spared);
      }
      prioritized := RemoveZSetJobs(prioritized, spared);
    }

    method Drain(withDelayed: bool)
      modifies this
      ensures Snapshot() == DrainQueue(old(Snapshot()), withDelayed)
    {
      hide Spared, DrainList, DrainQueue, Elements;
      ghost var q := Snapshot();
      var spared := Spared(Snapshot());
      DrainedInTurn(q, withDelayed);
      RemoveLists(spared);
      RemoveSets(withDelayed, spared);
    }

    method TakeFromSet(place: Place, id: Id)
      requires place.InCompleted? || place.InDelayed? || place.InFailed? || place.InPrioritized?
      modifies this`completed, this`delayed, this`failed, this`prioritized
      ensures Snapshot() == Without(old(Snapshot()), place, id)
    {
      if place == InCompleted {
        completed := completed - {id};
      } else if place == InDelayed {
        delayed := delayed - {id};
      } else if place == InFailed {
        failed := failed - {id};
      } else {
        prioritized := prioritized - {id};
      }
    }

    method TakeFromList(place: Place, id: Id)
      requires place.InWait? || place.InParked? || place.Elsewhere?
      modifies this`wait, this`parked, this`active
      ensures Snapshot() == Without(old(Snapshot()), place, id)
    {
      hide RemoveFirst;
      if place == InWait {
        wait := RemoveFirst(wait, id);
      } else if place == InParked {
        parked := RemoveFirst(parked, id);
      } else {
        active := RemoveFirst(active, id);
      }
    }

    /** removeJobFromAnyState: the first of the collections that has the id gives it up. */
    method TakeOut(id: Id)
      modifies this
      ensures Snapshot() == RemoveFromAnyState(old(Snapshot()), id)
    {
      hide PlaceOf, RemoveFromAnyState, Without;
      var place := PlaceOf(Snapshot(), id);
      TakenFrom(Snapshot(), id);
      if place.InWait? || place.InParked? || place.Elsewhere? {
        TakeFromList(place, id);
      } else {
        TakeFromSet(place, id);
      }
    }

    method RemoveJob(id: Id) returns (reply: Reply)
      modifies this
      ensures (Snapshot(), reply) == Remove(old(Snapshot()), id)
    {
      hide CurrentIteration, PlaceOf;
      if CurrentIteration(Snapshot(), id) {
        return Code(-8);
      }
      if id in lock {
        return Code(0);
      }
      TakeOut(id);
      jobs := jobs - {id};
      reply := Code(1);
    }
  }

  /** The queue with id taken out of one place. */
  function Without(q: Queue, place: Place, id: Id): Queue {
    match place
    case InCompleted => q.(completed := q.completed - {id})
    case InDelayed => q.(delayed := q.delayed - {id})
    case InFailed => q.(failed := q.failed - {id})
    case InPrioritized => q.(prioritized := q.prioritized - {id})
    case InWait => q.(wait := RemoveFirst(q.wait, id))
    case InParked => q.(parked := RemoveFirst(q.parked, id))
    case Elsewhere => q.(active := RemoveFirst(q.active, id))
  }

  lemma TakenFrom(q: Queue, id: Id)
    ensures RemoveFromAnyState(q, id) == Without(q, PlaceOf(q, id), id)
  {
    hide RemoveFirst, PlaceOf;
    match PlaceOf(q, id)
    case InCompleted =>
    case InDelayed =>
    case InFailed =>
    case InPrioritized =>
    case InWait =>
    case InParked =>
    case Elsewhere =>
  }

  lemma MinusSame<K, V>(m: map<K, V>, a: set<K>, b: set<K>)
    requires forall k :: k in m ==> (k in a <==> k in b)
    ensures m - a == m - b
  {
  }

  lemma MinusTwice<K, V>(m: map<K, V>, a: set<K>, b: set<K>)
    ensures m - a - b == m - (a + b)
  {
  }

  /** The jobs left when the collections are emptied one after the other. */
  ghost function AfterDrain(q: Queue, withDelayed: bool, spared: set<Id>): map<Id, Job> {
    var jobs := q.jobs - (Elements(q.wait) - spared) - (Elements(q.parked) - spared);
    (if withDelayed then jobs - (q.delayed.Keys - spared) else jobs) - (q.prioritized.Keys - spared)
  }

  lemma DrainedInTurn(q: Queue, withDelayed: bool)
    ensures var spared := Spared(q);
            DrainQueue(q, withDelayed) == q.(
              wait := DrainList(q.wait, spared),
              parked := DrainList(q.parked, spared),
              prioritized := q.prioritized - (q.prioritized.Keys - spared),
              delayed := if withDelayed then q.delayed - (q.delayed.Keys - spared) else q.delayed,
              jobs := AfterDrain(q, withDelayed, spared))
  {
    hide Spared, DrainList, Elements, AfterDrain;
    DrainedKeys(q, withDelayed, Spared(q));
  }

  /** Deleting collection by collection is deleting all at once. */
  lemma DrainedKeys(q: Queue, withDelayed: bool, spared: set<Id>)
    ensures var gone := (Elements(q.wait) + Elements(q.parked) + q.prioritized.Keys
                         + (if withDelayed then q.delayed.Keys else {})) - spared;
            && q.prioritized - (q.prioritized.Keys - spared) == q.prioritized - gone
            && (withDelayed ==> q.delayed - (q.delayed.Keys - spared) == q.delayed - gone)
            && AfterDrain(q, withDelayed, spared) == q.jobs - gone
  {
    var w, p := Elements(q.wait) - spared, Elements(q.parked) - spared;
    var z, d := q.prioritized.Keys - spared, q.delayed.Keys - spared;
    hide Elements;
    var gone := (Elements(q.wait) + Elements(q.parked) + q.prioritized.Keys
                 + (if withDelayed then q.delayed.Keys else {})) - spared;
    MinusSame(q.prioritized, z, gone);
    MinusTwice(q.jobs, w, p);
    if withDelayed {
      MinusSame(q.delayed, d, gone);
      MinusTwice(q.jobs, w + p, d);
      MinusTwice(q.jobs, w + p + d, z);
      assert w + p + d + z == gone;
    } else {
      MinusTwice(q.jobs, w + p, z);
      assert w + p + z == gone;
    }
  }
}
