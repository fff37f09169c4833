/**
  Recurring schedules. Any number of dispatchers may run any iteration any number of times;
  after each run rescheduleNext reads the scheduler entry in one round trip and runs
  updateJobScheduler in another, with every other script interleaved in between. Schedules may
  be added, removed, added again and redefined.
 */
module Schedules {
  import opened Wrappers
  import opened Queues
  import opened JobLife
  import opened Books
  import opened Names
  import opened ScheduleFrames
  import opened Hazards

  /** One run of an iteration: dequeued, and later with the limit check passed. */
  datatype Pass = Dequeued(sid: SchedulerId, id: Id) | Checked(sid: SchedulerId, id: Id)

  datatype Plan = Plan(q: Queue, passes: map<nat, Pass>)

  datatype Step =
    | Run(op: Op)
    | Upsert(sid: SchedulerId, entry: Scheduler, slot: int, opts: JobOpts, now: int)
    | Dequeue(r: nat, id: Id)
    | Check(r: nat)
    | Reschedule(r: nat, clock: int, timing: Timing, opts: JobOpts, now: int)

  /** The next slot is computed from an interval, of the entry or of the job options. */
  predicate EveryMode(q: Queue, sid: SchedulerId, timing: Timing) {
    ReadEntry(q, sid).every.Some? || timing.interval.Some?
  }

  predicate Current(q: Queue, sid: SchedulerId, id: Id) {
    sid in q.repeat && id == SlotId(sid, q.repeat[sid])
  }

  /** The cron computation gives an instant after the clock, and the clock has reached the slot. */
  predicate Timely(q: Queue, sid: SchedulerId, id: Id, clock: int, timing: Timing) {
    Current(q, sid, id) && !EveryMode(q, sid, timing) ==> q.repeat[sid] <= clock < timing.next
  }

  /**
    What can happen: any other script, an upsert at any slot, taken or not, and passes of any
    stored iteration, of which those of pattern schedules do not run before their slot.
   */
  ghost predicate Enabled(s: Plan, step: Step) {
    match step
    case Run(op) => !op.UpdateScheduler? && !op.Enter?
    case Upsert(_, entry, _, _, _) => entry.offset >= 0
    case Dequeue(r, id) => id in s.q.jobs && s.q.jobs[id].rjk.Some?
    case Check(r) => r in s.passes && s.passes[r].Dequeued?
    case Reschedule(r, clock, timing, _, _) =>
      r in s.passes && s.passes[r].Checked? && Timely(s.q, s.passes[r].sid, s.passes[r].id, clock, timing)
  }

  /** The first half of rescheduleNext stops at a missing entry and at the limit. */
  predicate MayGoOn(q: Queue, sid: SchedulerId) {
    sid in q.schedulers && Roomy(q.schedulers[sid])
  }

  predicate Roomy(entry: Scheduler) {
    entry.limit > 0 ==> entry.ic < entry.limit
  }

  function Successor(s: Plan, r: nat, timing: Timing, opts: JobOpts, now: int): (Queue, Reply)
    requires r in s.passes
  {
    NextIteration(s.q, s.passes[r].sid, s.passes[r].id, timing, opts, now)
  }

  function Next(s: Plan, step: Step): Plan
    requires Enabled(s, step)
  {
    match step
    case Run(op) => s.(q := Apply(s.q, op).0)
    case Upsert(sid, entry, slot, opts, now) =>
      s.(q := UpsertSchedule(s.q, sid, entry, slot, opts, now).0)
    case Dequeue(r, id) => s.(passes := s.passes[r := Dequeued(s.q.jobs[id].rjk.value, id)])
    case Check(r) =>
      var pass := s.passes[r];
      s.(passes := if MayGoOn(s.q, pass.sid) then s.passes[r := Checked(pass.sid, pass.id)] else s.passes - {r})
    case Reschedule(r, _, timing, opts, now) => Plan(Successor(s, r, timing, opts, now).0, s.passes - {r})
  }

  ghost predicate IsRun(run: seq<Plan>, steps: seq<Step>) {
    && |run| == |steps| + 1 && run[0] == Plan(EMPTY, map[])
    && forall i :: 0 <= i < |steps| ==> Enabled(run[i], steps[i]) && run[i + 1] == Next(run[i], steps[i])
  }

  // ---------- slots ----------

  /** The next slot of an interval schedule lies after the previous one, whatever the clock says. */
  lemma EveryNextAdvances(prev: int, every: Interval, now: int, offset: int)
    requires offset >= 0
    ensures EveryNext(prev, every, now, offset) > prev
    ensures EveryNext(prev, every, now, offset) >= now
  {
    assert now / every * every > now - every;
  }

  /**
    The next slot of an interval schedule is one interval on, if the clock has not passed that.
    Else it is on the grid of the interval, shifted by the offset, and it is the first such slot
    after the clock for an offset within the interval.
   */
  lemma EveryNextExact(prev: int, every: Interval, now: int, offset: int)
    requires offset >= 0
    ensures var slot := EveryNext(prev, every, now, offset);
            if prev + every >= now then slot == prev + every
            else OnGrid(slot, every, offset) && now < slot && (offset < every ==> slot <= now + every)
  {
    var k := now / every;
    assert now == k * every + now % every;
    assert OnGrid(Multiple(k, every) + offset, every, offset);
    assert Multiple(k + 1, every) == Multiple(k, every) + every;
    assert OnGrid(Multiple(k + 1, every) + offset, every, offset);
  }

  function Multiple(k: int, every: Interval): int {
    k * every
  }

  ghost predicate OnGrid(slot: int, every: Interval, offset: int) {
    exists k :: slot == Multiple(k, every) + offset
  }

  /**
    A created successor goes to the slot of the interval of the entry, else of the interval in the
    job options, else to the slot that was sent; the count goes up by one and the rest of the entry,
    and every other schedule, is as it was.
   */
  lemma SuccessorExact(q: Queue, sid: SchedulerId, producer: Id, timing: Timing, opts: JobOpts, now: int)
    requires NextIteration(q, sid, producer, timing, opts, now).1 == Code(1) && ReadEntry(q, sid).offset >= 0
    ensures var q', entry := NextIteration(q, sid, producer, timing, opts, now).0, ReadEntry(q, sid);
            && sid in q.repeat && sid in q'.repeat && producer == SlotId(sid, q.repeat[sid])
            && var every := if entry.every.Some? then entry.every else timing.interval;
               var slot := q'.repeat[sid];
               && (every.None? ==> slot == timing.next)
               && (every.Some? ==>
                     if q.repeat[sid] + every.value >= now then slot == q.repeat[sid] + every.value
                     else && OnGrid(slot, every.value, entry.offset) && now < slot
                          && (entry.offset < every.value ==> slot <= now + every.value))
               && q'.repeat == q.repeat[sid := slot]
               && q'.schedulers == q.schedulers[sid := entry.(ic := entry.ic + 1)]
  {
    hide NextIteration, SlotId, EveryNext, Tags, OnGrid;
    IterationPlan(q, sid, producer, timing, opts, now);
    var entry := ReadEntry(q, sid);
    if entry.every.Some? {
      EveryNextExact(q.repeat[sid], entry.every.value, now, entry.offset);
    } else if timing.interval.Some? {
      EveryNextExact(q.repeat[sid], timing.interval.value, now, entry.offset);
    }
  }

  lemma IterationPlan(q: Queue, sid: SchedulerId, producer: Id, timing: Timing, opts: JobOpts, now: int)
    ensures var (q', reply) := NextIteration(q, sid, producer, timing, opts, now);
            if reply == Code(1) then
              && Current(q, sid, producer)
              && q'.repeat == q.repeat[sid := NextSlot(q, sid, timing, now)]
              && q'.schedulers == BumpIterations(q, sid).schedulers
              && Tags(q, q', SlotId(sid, NextSlot(q, sid, timing, now)), Some(sid))
            else q' == q
  {
    hide Store, SlotId, NextSlot;
    if sid in q.repeat {
      var slot := NextSlot(q, sid, timing, now);
      var q1 := BumpIterations(q.(repeat := q.repeat[sid := slot], counter := q.counter + 1), sid);
      StoreFrame(q1, SlotId(sid, slot), opts, Some(sid), slot - now, now);
    }
  }

  lemma EveryAdvances(q: Queue, sid: SchedulerId, timing: Timing, now: int)
    requires sid in q.repeat && ReadEntry(q, sid).offset >= 0
    ensures EveryMode(q, sid, timing) ==> NextSlot(q, sid, timing, now) > q.repeat[sid]
    ensures !EveryMode(q, sid, timing) ==> NextSlot(q, sid, timing, now) == timing.next
  {
    hide EveryNext;
    var entry := ReadEntry(q, sid);
    if entry.every.Some? {
      EveryNextAdvances(q.repeat[sid], entry.every.value, now, entry.offset);
    } else if timing.interval.Some? {
      EveryNextAdvances(q.repeat[sid], timing.interval.value, now, entry.offset);
    }
  }

  /** An accepted reschedule moves the schedule strictly on; any other does nothing. */
  lemma IterationAdvances(q: Queue, sid: SchedulerId, id: Id, clock: int, timing: Timing, opts: JobOpts, now: int)
    requires Timely(q, sid, id, clock, timing) && ReadEntry(q, sid).offset >= 0
    ensures var (q', reply) := NextIteration(q, sid, id, timing, opts, now);
            reply == Code(1) ==> sid in q.repeat && sid in q'.repeat && q'.repeat[sid] > q.repeat[sid]
  {
    hide NextIteration, SlotId, EveryNext;
    IterationPlan(q, sid, id, timing, opts, now);
    if sid in q.repeat {
      EveryAdvances(q, sid, timing, now);
    }
  }

  /** The entries and tags after an upsert, accepted or refused. */
  lemma UpsertPlan(q: Queue, sid: SchedulerId, entry: Scheduler, slot: int, opts: JobOpts, now: int)
    ensures SamePlan(q, Withdrawn(q, sid))
    ensures var (q', reply) := UpsertSchedule(q, sid, entry, slot, opts, now);
            var m := Landing(Withdrawn(q, sid), sid, entry, slot);
            if reply == Code(0) then
              && q'.repeat == q.repeat[sid := m]
              && q'.schedulers == q.schedulers[sid := entry.(ic := CountSoFar(q, sid))]
              && Tags(Withdrawn(q, sid), q', SlotId(sid, m), Some(sid))
            else q' == Withdrawn(q, sid)
  {
    hide Store, SlotId, Withdrawn, Landing;
    WithdrawFrame(q, sid);
    var q1 := Withdrawn(q, sid);
    var m := Landing(q1, sid, entry, slot);
    StoreFrame(NewEntry(q1, sid, entry, m), SlotId(sid, m), opts, Some(sid), m - now, now);
  }

  /** An accepted upsert writes its entry with the count there was, or with one for a new schedule. */
  lemma UpsertKeepsCount(q: Queue, sid: SchedulerId, entry: Scheduler, slot: int, opts: JobOpts, now: int)
    requires UpsertSchedule(q, sid, entry, slot, opts, now).1 == Code(0)
    ensures var q' := UpsertSchedule(q, sid, entry, slot, opts, now).0;
            && q'.schedulers.Keys == q.schedulers.Keys + {sid}
            && q'.schedulers[sid] == entry.(ic := if sid in q.schedulers then q.schedulers[sid].ic else 1)
            && forall other :: other in q.schedulers && other != sid ==> q'.schedulers[other] == q.schedulers[other]
  {
    hide UpsertSchedule, Withdrawn, Landing, SlotId, Tags;
    UpsertPlan(q, sid, entry, slot, opts, now);
  }

  function Later(slot: int, every: Interval, k: nat): int {
    slot + k * every
  }

  predicate Occupied(q: Queue, sid: SchedulerId, slot: int) {
    SlotId(sid, slot) in q.jobs
  }

  /** The search stops at the first free slot, or at the last one it may try. */
  lemma {:induction false} WalksOn(q: Queue, sid: SchedulerId, slot: int, every: Interval, scans: nat)
    returns (n: nat)
    ensures n <= scans && Walk(q, sid, slot, every, scans) == Later(slot, every, n)
    ensures forall k: nat :: k < n ==> Occupied(q, sid, Later(slot, every, k))
    ensures Occupied(q, sid, Later(slot, every, n)) ==> n == scans
    decreases scans
  {
    hide SlotId;
    n := 0;
    if scans > 0 && Occupied(q, sid, slot) {
      var rest := WalksOn(q, sid, slot + every, every, scans - 1);
      n := rest + 1;
      forall k: nat | k <= n
        ensures k > 0 ==> Later(slot, every, k) == Later(slot + every, every, k - 1)
      {
      }
      assert Later(slot, every, 0) == slot;
    }
  }

  /**
    An upsert of an interval schedule is refused exactly when, behind the withdrawal, the jobs of
    its slot and of the 32 slots after it all exist; else it goes to the first of them that is free.
   */
  lemma IntervalLands(q: Queue, sid: SchedulerId, entry: Scheduler, slot: int, opts: JobOpts, now: int)
    returns (n: nat)
    requires entry.every.Some?
    ensures var every, q1 := entry.every.value, Withdrawn(q, sid);
            var (q', reply) := UpsertSchedule(q, sid, entry, slot, opts, now);
            if forall k: nat :: k <= 32 ==> Occupied(q1, sid, Later(slot, every, k)) then
              q' == q1 && reply == Code(-11)
            else
              && reply == Code(0) && n <= 32 && !Occupied(q1, sid, Later(slot, every, n))
              && (forall k: nat :: k < n ==> Occupied(q1, sid, Later(slot, every, k)))
              && q'.repeat == q.repeat[sid := Later(slot, every, n)]
  {
    hide SlotId, Withdrawn, Walk, FirstIteration, Later;
    UpsertPlan(q, sid, entry, slot, opts, now);
    n := WalksOn(Withdrawn(q, sid), sid, slot, entry.every.value, MAX_SLOT_SCANS);
  }

  // ---------- what every run keeps ----------

  ghost predicate IsIteration(sid: SchedulerId, id: Id) {
    exists m :: id == SlotId(sid, m)
  }

  /** Jobs of a schedule are named as its iterations. */
  ghost predicate JobsOk(q: Queue) {
    forall id :: id in q.jobs && q.jobs[id].rjk.Some? ==> IsIteration(q.jobs[id].rjk.value, id)
  }

  predicate OffsetsOk(q: Queue) {
    forall sid :: sid in q.schedulers ==> q.schedulers[sid].offset >= 0
  }

  ghost predicate PlanOk(s: Plan) {
    && JobsOk(s.q) && OffsetsOk(s.q)
    && (forall r :: r in s.passes ==> IsIteration(s.passes[r].sid, s.passes[r].id))
  }

  lemma JobsStep(q: Queue, q': Queue, id: Id, sid: SchedulerId)
    requires JobsOk(q) && Tags(q, q', id, Some(sid)) && IsIteration(sid, id)
    ensures JobsOk(q')
  {
    hide IsIteration;
  }

  lemma DropsFrame(q: Queue, op: Op)
    requires !op.UpdateScheduler? && !op.Enter?
    ensures var q' := Apply(q, op).0;
            && (forall sid :: sid in q'.repeat ==> sid in q.repeat && q'.repeat[sid] == q.repeat[sid])
            && (forall sid :: sid in q'.schedulers ==>
                  sid in q.schedulers && q'.schedulers[sid] == q.schedulers[sid])
            && Tags(q, q', "", None)
  {
    hide AddJob, Acquire, FinishJob, Retry, DelayJob, Extend, Release, ScanStalled, PromoteJob, ReprocessJob,
      ResumeRound, DrainQueue, Remove, NextIteration, Withdrawn, EnterSchedule;
    if !TouchesPlan(op) {
      hide Apply;
      PlanFrame(q, op);
    }
  }

  lemma UpsertOk(s: Plan, step: Step)
    requires step.Upsert? && PlanOk(s) && Enabled(s, step)
    ensures PlanOk(Next(s, step))
  {
    hide Withdrawn, UpsertSchedule, SlotId, Landing;
    var q1, q' := Withdrawn(s.q, step.sid), Next(s, step).q;
    var m := Landing(q1, step.sid, step.entry, step.slot);
    UpsertPlan(s.q, step.sid, step.entry, step.slot, step.opts, step.now);
    JobsStep(s.q, q1, SlotId(step.sid, m), step.sid);
    if q' != q1 {
      JobsStep(q1, q', SlotId(step.sid, m), step.sid);
    }
  }

  lemma RescheduleOk(s: Plan, step: Step)
    requires step.Reschedule? && PlanOk(s) && Enabled(s, step)
    ensures PlanOk(Next(s, step))
  {
    hide NextIteration, SlotId, NextSlot, Timely;
    var pass := s.passes[step.r];
    var q' := Next(s, step).q;
    IterationPlan(s.q, pass.sid, pass.id, step.timing, step.opts, step.now);
    if q' != s.q {
      JobsStep(s.q, q', SlotId(pass.sid, NextSlot(s.q, pass.sid, step.timing, step.now)), pass.sid);
    }
  }

  lemma RunStepOk(s: Plan, op: Op)
    requires PlanOk(s) && Enabled(s, Run(op))
    ensures PlanOk(Next(s, Run(op)))
  {
    hide IsIteration, Apply;
    DropsFrame(s.q, op);
  }

  lemma PassStepOk(s: Plan, step: Step)
    requires (step.Dequeue? || step.Check?) && PlanOk(s) && Enabled(s, step)
    ensures PlanOk(Next(s, step))
  {
    hide IsIteration;
  }

  /** Every step keeps iterations named after their schedule, and offsets not negative. */
  lemma NextOk(s: Plan, step: Step)
    requires PlanOk(s) && Enabled(s, step)
    ensures PlanOk(Next(s, step))
  {
    hide PlanOk, UpsertSchedule, Successor, Apply, Timely, SlotId;
    match step
    case Run(op) => RunStepOk(s, op);
    case Upsert(_, _, _, _, _) => UpsertOk(s, step);
    case Dequeue(_, _) => PassStepOk(s, step);
    case Check(_) => PassStepOk(s, step);
    case Reschedule(_, _, _, _, _) => RescheduleOk(s, step);
  }

  lemma {:induction false} RunOk(run: seq<Plan>, steps: seq<Step>, n: nat)
    requires IsRun(run, steps) && n < |run|
    ensures PlanOk(run[n])
  {
    hide Next, Enabled;
    if n > 0 {
      hide PlanOk;
      RunOk(run, steps, n - 1);
      NextOk(run[n - 1], steps[n - 1]);
    }
  }

  lemma OffsetOk(s: Plan, sid: SchedulerId)
    requires PlanOk(s)
    ensures ReadEntry(s.q, sid).offset >= 0
  {
    hide JobsOk;
  }

  /** What keeps the queue sound: allowed scripts, and upserts that fit. */
  ghost predicate Fits(q: Queue, step: Step) {
    match step
    case Run(op) => Allowed(q, op)
    case Upsert(sid, entry, slot, opts, now) => UpsertFits(q, sid, entry, slot, opts, now)
    case _ => true
  }

  /** Passes and rescheduling always keep the queue sound, other scripts if allowed, upserts exactly if they fit. */
  lemma NextSound(s: Plan, step: Step)
    requires Sound(s.q) && Enabled(s, step)
    ensures step.Upsert? ==> (Sound(Next(s, step).q) <==> Fits(s.q, step))
    ensures Fits(s.q, step) ==> Sound(Next(s, step).q)
  {
    hide Sound, UpsertSchedule, UpsertFits, NextIteration, Apply, Allowed, Timely, SlotId;
    match step
    case Run(op) =>
      if Allowed(s.q, op) {
        StepSound(s.q, op);
      }
    case Upsert(sid, entry, slot, opts, now) => UpsertKeepsSound(s.q, sid, entry, slot, opts, now);
    case Reschedule(r, _, timing, opts, now) =>
      IterationSound(s.q, s.passes[r].sid, s.passes[r].id, timing, opts, now);
    case _ =>
  }

  lemma IterationSound(q: Queue, sid: SchedulerId, id: Id, timing: Timing, opts: JobOpts, now: int)
    requires Sound(q)
    ensures Sound(NextIteration(q, sid, id, timing, opts, now).0)
  {
    hide Sound, NextIteration;
    StepSound(q, UpdateScheduler(sid, id, timing, opts, now));
  }

  // ---------- one successor per iteration ----------

  /** Step i creates the successor of iteration id of sid. */
  predicate Creates(run: seq<Plan>, steps: seq<Step>, i: nat, sid: SchedulerId, id: Id) {
    && i < |steps| && i < |run| && steps[i].Reschedule? && steps[i].r in run[i].passes
    && run[i].passes[steps[i].r].sid == sid && run[i].passes[steps[i].r].id == id
    && Successor(run[i], steps[i].r, steps[i].timing, steps[i].opts, steps[i].now).1 == Code(1)
  }

  /** The schedule is beyond slot m, or does not exist. */
  predicate Beyond(q: Queue, sid: SchedulerId, m: int) {
    sid in q.repeat ==> m < q.repeat[sid]
  }

  /** Step k is an upsert of sid that puts it to slot m or before it. */
  predicate Rewinds(run: seq<Plan>, steps: seq<Step>, k: nat, sid: SchedulerId, m: int) {
    k < |steps| && k + 1 < |run| && steps[k].Upsert? && steps[k].sid == sid && !Beyond(run[k + 1].q, sid, m)
  }

  lemma StaysBeyond(s: Plan, step: Step, sid: SchedulerId, m: int)
    requires PlanOk(s) && Enabled(s, step) && Beyond(s.q, sid, m)
    requires !(step.Upsert? && step.sid == sid)
    ensures Beyond(Next(s, step).q, sid, m)
  {
    hide PlanOk, Apply, Withdrawn, UpsertSchedule, NextIteration, SlotId, NextSlot, Landing, Tags;
    if step.Run? {
      DropsFrame(s.q, step.op);
    } else if step.Upsert? {
      UpsertPlan(s.q, step.sid, step.entry, step.slot, step.opts, step.now);
    } else if step.Reschedule? {
      var pass := s.passes[step.r];
      OffsetOk(s, pass.sid);
      IterationPlan(s.q, pass.sid, pass.id, step.timing, step.opts, step.now);
      IterationAdvances(s.q, pass.sid, pass.id, step.clock, step.timing, step.opts, step.now);
    }
  }

  lemma {:induction false} BeyondUntilRewound(run: seq<Plan>, steps: seq<Step>, i: nat, n: nat, sid: SchedulerId,
                                              m: int)
    requires IsRun(run, steps) && i <= n < |run| && Beyond(run[i].q, sid, m)
    requires forall k: nat :: i <= k < n ==> !Rewinds(run, steps, k, sid, m)
    ensures Beyond(run[n].q, sid, m)
  {
    hide PlanOk, Next, Enabled, Beyond;
    if n > i {
      BeyondUntilRewound(run, steps, i, n - 1, sid, m);
      RunOk(run, steps, n - 1);
      assert !Rewinds(run, steps, n - 1, sid, m);
      if !(steps[n - 1].Upsert? && steps[n - 1].sid == sid) {
        StaysBeyond(run[n - 1], steps[n - 1], sid, m);
      }
    }
  }

  lemma CreatesCurrent(s: Plan, step: Step)
    requires PlanOk(s) && Enabled(s, step) && step.Reschedule?
    requires Successor(s, step.r, step.timing, step.opts, step.now).1 == Code(1)
    ensures var pass := s.passes[step.r];
            Current(s.q, pass.sid, pass.id) && Beyond(Next(s, step).q, pass.sid, s.q.repeat[pass.sid])
  {
    hide PlanOk, NextIteration, SlotId, NextSlot, Apply, UpsertSchedule, Tags;
    var pass := s.passes[step.r];
    OffsetOk(s, pass.sid);
    IterationPlan(s.q, pass.sid, pass.id, step.timing, step.opts, step.now);
    IterationAdvances(s.q, pass.sid, pass.id, step.clock, step.timing, step.opts, step.now);
  }

  /**
    However often an iteration is retried, delayed, stalled and run again, whoever runs it, and
    whatever else becomes of its schedule, a second successor is created only if in between an
    upsert has put the schedule back to the slot of the iteration or before it.
   */
  lemma SecondNeedsRewind(run: seq<Plan>, steps: seq<Step>, i: nat, j: nat, sid: SchedulerId, m: int)
    requires IsRun(run, steps) && i < j
    requires Creates(run, steps, i, sid, SlotId(sid, m)) && Creates(run, steps, j, sid, SlotId(sid, m))
    ensures exists k: nat :: i < k < j && Rewinds(run, steps, k, sid, m)
  {
    hide PlanOk, Next, Enabled, Successor, SlotId, Rewinds;
    RunOk(run, steps, i);
    RunOk(run, steps, j);
    CreatesCurrent(run[i], steps[i]);
    CreatesCurrent(run[j], steps[j]);
    SlotIdInjective(sid, m, sid, run[i].q.repeat[sid]);
    SlotIdInjective(sid, m, sid, run[j].q.repeat[sid]);
    if forall k: nat :: i + 1 <= k < j ==> !Rewinds(run, steps, k, sid, m) {
      BeyondUntilRewound(run, steps, i + 1, j, sid, m);
    }
  }

  /** No upsert puts its schedule to a slot that has created a successor, or before one. */
  ghost predicate Onward(run: seq<Plan>, steps: seq<Step>) {
    forall i: nat, k: nat, sid, m ::
      i < k && Creates(run, steps, i, sid, SlotId(sid, m)) ==> !Rewinds(run, steps, k, sid, m)
  }

  /**
    In runs in which no upsert goes back to a slot that has created a successor, every iteration
    creates at most one. Keeping the slot of an iteration that has not, and going to any other
    such slot, are included.
   */
  lemma OneSuccessor(run: seq<Plan>, steps: seq<Step>, i: nat, j: nat, sid: SchedulerId, m: int)
    requires IsRun(run, steps) && Onward(run, steps)
    requires Creates(run, steps, i, sid, SlotId(sid, m)) && Creates(run, steps, j, sid, SlotId(sid, m))
    ensures i == j
  {
    hide IsRun, Creates, SlotId, Rewinds;
    if i < j {
      SecondNeedsRewind(run, steps, i, j, sid, m);
    } else if j < i {
      SecondNeedsRewind(run, steps, j, i, sid, m);
    }
  }

  // ---------- iterations promoted early ----------

  /** A created successor lies after its producer exactly when it comes from an interval or the cron slot does. */
  lemma AdvancesExactlyWhen(q: Queue, sid: SchedulerId, id: Id, timing: Timing, opts: JobOpts, now: int)
    requires NextIteration(q, sid, id, timing, opts, now).1 == Code(1) && ReadEntry(q, sid).offset >= 0
    ensures var q' := NextIteration(q, sid, id, timing, opts, now).0;
            && sid in q.repeat && sid in q'.repeat
            && (q'.repeat[sid] > q.repeat[sid] <==> EveryMode(q, sid, timing) || timing.next > q.repeat[sid])
  {
    hide NextIteration, SlotId, NextSlot;
    IterationPlan(q, sid, id, timing, opts, now);
    EveryAdvances(q, sid, timing, now);
  }

  /**
    A pattern iteration promoted before its slot and deleted on completion creates its own
    slot again: after the call it is still the current iteration and may create another.
   */
  lemma EarlyIterationRepeats()
    ensures exists q, id, timing, now :: Sound(q) && Current(q, "s", id) && now < q.repeat["s"]
              && NextIteration(q, "s", id, timing, NO_OPTS, now).1 == Code(1)
              && Current(NextIteration(q, "s", id, timing, NO_OPTS, now).0, "s", id)
  {
    hide Store, SlotId, Current, Sound;
    var q := EMPTY.(repeat := map["s" := 60000], schedulers := map["s" := Scheduler(None, 0, 1, 0)]);
    var id, timing := SlotId("s", 60000), Timing(60000, None);
    OnlySchedules(q);
    CurrentAt(q, "s");
    var q' := NextIteration(q, "s", id, timing, NO_OPTS, 10).0;
    IterationPlan(q, "s", id, timing, NO_OPTS, 10);
    CurrentAt(q', "s");
    assert Sound(q) && Current(q, "s", id) && 10 < q.repeat["s"];
  }

  lemma OnlySchedules(q: Queue)
    requires q == EMPTY.(repeat := q.repeat, schedulers := q.schedulers)
    ensures Sound(q)
  {
    assert forall id :: Where(q, id) == 0;
  }

  lemma CurrentAt(q: Queue, sid: SchedulerId)
    requires sid in q.repeat
    ensures Current(q, sid, SlotId(sid, q.repeat[sid]))
  {
  }
}
