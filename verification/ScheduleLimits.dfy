/**
  The limit of a schedule. It is compared in one round trip and the count is raised in another;
  this is when the count stays within the limit all the same.
 */
module ScheduleLimits {
  import opened Wrappers
  import opened Queues
  import opened JobLife
  import opened Names
  import opened ScheduleFrames
  import opened Hazards
  import opened Schedules

  /** The entry an upsert writes. */
  function Written(s: Plan, step: Step): Scheduler
    requires step.Upsert?
  {
    step.entry.(ic := CountSoFar(s.q, step.sid))
  }

  predicate Within(entry: Scheduler) {
    entry.limit > 0 ==> entry.ic <= entry.limit
  }

  /** The slot to which an upsert goes, and whether it is accepted. */
  function Target(s: Plan, step: Step): int
    requires step.Upsert?
  {
    Landing(Withdrawn(s.q, step.sid), step.sid, step.entry, step.slot)
  }

  predicate Accepted(s: Plan, step: Step)
    requires step.Upsert?
  {
    UpsertSchedule(s.q, step.sid, step.entry, step.slot, step.opts, step.now).1 == Code(0)
  }

  predicate Tagged(q: Queue, sid: SchedulerId, id: Id) {
    id in q.jobs && q.jobs[id].rjk == Some(sid)
  }

  /** No iteration of the schedule that is stored behind the withdrawal lies beyond the slot. */
  ghost predicate NoneBeyond(q: Queue, sid: SchedulerId, slot: int) {
    forall m :: Tagged(q, sid, SlotId(sid, m)) ==> m <= slot
  }

  /** No pass of the schedule is beyond the slot; for one at it that has compared the limit, the entry has room. */
  ghost predicate PassesFit(s: Plan, sid: SchedulerId, slot: int, entry: Scheduler) {
    forall r, m :: r in s.passes && s.passes[r].sid == sid && s.passes[r].id == SlotId(sid, m) ==>
      m <= slot && (m == slot && s.passes[r].Checked? ==> Roomy(entry))
  }

  /**
    An upsert that is accepted sets no limit below the count and does not go behind an iteration
    that is stored or being run; if one that has compared the limit stands at the very slot, the
    new entry has room for it.
   */
  ghost predicate Orderly(s: Plan, step: Step) {
    step.Upsert? && Accepted(s, step) ==>
      && Within(Written(s, step)) && NoneBeyond(Withdrawn(s.q, step.sid), step.sid, Target(s, step))
      && PassesFit(s, step.sid, Target(s, step), Written(s, step))
  }

  /** The iteration is not one that the schedule has yet to come to. */
  ghost predicate Reached(q: Queue, sid: SchedulerId, id: Id) {
    sid in q.repeat ==> forall m :: id == SlotId(sid, m) ==> m <= q.repeat[sid]
  }

  /** Every stored iteration is reached. */
  ghost predicate StoredReached(q: Queue) {
    forall id, sid :: Tagged(q, sid, id) ==> Reached(q, sid, id)
  }

  ghost predicate PassOk(q: Queue, pass: Pass) {
    && Reached(q, pass.sid, pass.id)
    && (pass.Checked? && Current(q, pass.sid, pass.id) && pass.sid in q.schedulers ==> Roomy(q.schedulers[pass.sid]))
  }

  ghost predicate LimitsOk(s: Plan) {
    && StoredReached(s.q)
    && (forall sid :: sid in s.q.schedulers ==> Within(s.q.schedulers[sid]))
    && (forall r :: r in s.passes ==> PassOk(s.q, s.passes[r]))
  }

  /** Entries may go, and tags with their jobs; nothing new is stored. */
  lemma StoredStays(q: Queue, q': Queue)
    requires StoredReached(q) && Tags(q, q', "", None)
    requires forall sid :: sid in q'.repeat ==> sid in q.repeat && q'.repeat[sid] == q.repeat[sid]
    ensures StoredReached(q')
  {
    hide SlotId;
    forall id, sid | Tagged(q', sid, id)
      ensures Reached(q', sid, id)
    {
      assert Tagged(q, sid, id);
    }
  }

  /** A new iteration is stored at the slot to which its schedule goes, beyond which there is none. */
  lemma StoredJoins(q: Queue, q': Queue, sid: SchedulerId, slot: int)
    requires StoredReached(q) && Tags(q, q', SlotId(sid, slot), Some(sid)) && q'.repeat == q.repeat[sid := slot]
    requires NoneBeyond(q, sid, slot)
    ensures StoredReached(q')
  {
    hide SlotId;
    forall id, other | Tagged(q', other, id)
      ensures Reached(q', other, id)
    {
      if id == SlotId(sid, slot) && other == sid {
        OnlySlot(sid, slot);
      } else {
        assert Tagged(q, other, id);
      }
    }
  }

  lemma OnlySlot(sid: SchedulerId, slot: int)
    ensures forall m :: SlotId(sid, slot) == SlotId(sid, m) ==> m == slot
  {
    hide SlotId;
    forall m | SlotId(sid, slot) == SlotId(sid, m)
      ensures m == slot
    {
      SlotIdInjective(sid, slot, sid, m);
    }
  }

  lemma RunKeepsLimits(s: Plan, op: Op)
    requires LimitsOk(s) && Enabled(s, Run(op))
    ensures LimitsOk(Next(s, Run(op)))
  {
    hide Apply, SlotId, Tags, StoredReached;
    DropsFrame(s.q, op);
    StoredStays(s.q, Apply(s.q, op).0);
    forall r | r in s.passes
      ensures PassOk(Apply(s.q, op).0, s.passes[r])
    {
      assert PassOk(s.q, s.passes[r]);
    }
  }

  lemma UpsertKeepsLimits(s: Plan, step: Step)
    requires step.Upsert? && LimitsOk(s) && Enabled(s, step) && Orderly(s, step)
    ensures LimitsOk(Next(s, step))
  {
    hide SlotId, Withdrawn, UpsertSchedule, Landing, Roomy, Within, Tags, StoredReached, NoneBeyond;
    UpsertPlan(s.q, step.sid, step.entry, step.slot, step.opts, step.now);
    var q1, q' := Withdrawn(s.q, step.sid), Next(s, step).q;
    StoredStays(s.q, q1);
    if Accepted(s, step) {
      StoredJoins(q1, q', step.sid, Target(s, step));
    }
    forall r | r in s.passes
      ensures PassOk(q', s.passes[r])
    {
      assert PassOk(s.q, s.passes[r]);
    }
  }

  lemma RescheduleKeepsLimits(s: Plan, step: Step)
    requires step.Reschedule? && PlanOk(s) && LimitsOk(s) && Enabled(s, step)
    ensures LimitsOk(Next(s, step))
  {
    hide SlotId, NextIteration, NextSlot, PlanOk, Tags, StoredReached;
    var pass, q' := s.passes[step.r], Next(s, step).q;
    OffsetOk(s, pass.sid);
    IterationPlan(s.q, pass.sid, pass.id, step.timing, step.opts, step.now);
    IterationAdvances(s.q, pass.sid, pass.id, step.clock, step.timing, step.opts, step.now);
    if q' != s.q {
      ReachedBefore(s.q, pass.sid, q'.repeat[pass.sid]);
      StoredJoins(s.q, q', pass.sid, q'.repeat[pass.sid]);
    }
    assert PassOk(s.q, pass);
    forall r | r in Next(s, step).passes
      ensures PassOk(q', s.passes[r])
    {
      assert PassOk(s.q, s.passes[r]);
      StillReached(s.q, q', s.passes[r].sid, s.passes[r].id, pass.sid);
    }
  }

  lemma ReachedBefore(q: Queue, sid: SchedulerId, slot: int)
    requires StoredReached(q) && sid in q.repeat && q.repeat[sid] <= slot
    ensures NoneBeyond(q, sid, slot)
  {
    hide SlotId;
    forall m | Tagged(q, sid, SlotId(sid, m))
      ensures m <= slot
    {
      assert Reached(q, sid, SlotId(sid, m));
    }
  }

  predicate MovedAlone(q: Queue, q': Queue, moved: SchedulerId)
    requires moved in q.repeat && q'.repeat.Keys == q.repeat.Keys
  {
    && q'.repeat[moved] > q.repeat[moved]
    && forall other :: other in q.repeat && other != moved ==> q'.repeat[other] == q.repeat[other]
  }

  /** If the schedule has moved on, a pass of it is neither beyond it nor at it. */
  lemma StillReached(q: Queue, q': Queue, sid: SchedulerId, id: Id, moved: SchedulerId)
    requires Reached(q, sid, id)
    requires q' == q || (moved in q.repeat && q'.repeat.Keys == q.repeat.Keys && MovedAlone(q, q', moved))
    ensures Reached(q', sid, id)
    ensures q' != q && sid == moved ==> !Current(q', sid, id)
  {
    hide SlotId;
  }

  lemma PassKeepsLimits(s: Plan, step: Step)
    requires (step.Dequeue? || step.Check?) && LimitsOk(s) && Enabled(s, step)
    ensures LimitsOk(Next(s, step))
  {
    hide SlotId, Reached;
    if step.Dequeue? {
      assert Tagged(s.q, s.q.jobs[step.id].rjk.value, step.id);
    }
  }

  lemma NextKeepsLimits(s: Plan, step: Step)
    requires PlanOk(s) && LimitsOk(s) && Enabled(s, step) && Orderly(s, step)
    ensures LimitsOk(Next(s, step))
  {
    hide LimitsOk, Enabled, Next, Orderly, PlanOk;
    if step.Run? {
      RunKeepsLimits(s, step.op);
    } else if step.Upsert? {
      UpsertKeepsLimits(s, step);
    } else if step.Reschedule? {
      RescheduleKeepsLimits(s, step);
    } else {
      PassKeepsLimits(s, step);
    }
  }

  lemma {:induction false} RunKeepsOn(run: seq<Plan>, steps: seq<Step>, n: nat)
    requires IsRun(run, steps) && n < |run| && forall k :: 0 <= k < |steps| ==> Orderly(run[k], steps[k])
    ensures LimitsOk(run[n])
  {
    hide Next, Enabled, Orderly;
    if n > 0 {
      hide LimitsOk, PlanOk;
      RunKeepsOn(run, steps, n - 1);
      RunOk(run, steps, n - 1);
      NextKeepsLimits(run[n - 1], steps[n - 1]);
    }
  }

  /** In orderly runs the iteration count never passes the limit, however comparisons and increments interleave. */
  lemma LimitHolds(run: seq<Plan>, steps: seq<Step>, n: nat, sid: SchedulerId)
    requires IsRun(run, steps) && n < |run| && forall k :: 0 <= k < |steps| ==> Orderly(run[k], steps[k])
    requires sid in run[n].q.schedulers && run[n].q.schedulers[sid].limit > 0
    ensures run[n].q.schedulers[sid].ic <= run[n].q.schedulers[sid].limit
  {
    hide Next, Enabled, Orderly, PassOk, StoredReached;
    RunKeepsOn(run, steps, n);
  }

  // ---------- an upsert that keeps the slot ----------

  /**
    A schedule is redefined at the slot it has while a pass of the current iteration has compared
    the limit. If that pass then creates the successor, the count passes the limit exactly when
    the new entry has no room.
   */
  lemma KeptSlotPassesLimit(s: Plan, r: nat, up: Step, step: Step)
    requires up.Upsert? && Enabled(s, up) && Accepted(s, up) && up.sid in s.q.repeat
    requires Target(s, up) == s.q.repeat[up.sid]
    requires r in s.passes && s.passes[r].Checked? && s.passes[r].sid == up.sid && Current(s.q, up.sid, s.passes[r].id)
    requires step.Reschedule? && step.r == r && Enabled(Next(s, up), step)
    requires Successor(Next(s, up), r, step.timing, step.opts, step.now).1 == Code(1)
    ensures var q' := Next(Next(s, up), step).q;
            up.sid in q'.schedulers && (!Within(q'.schedulers[up.sid]) <==> !Roomy(Written(s, up)))
  {
    hide SlotId, NextIteration, NextSlot, Withdrawn, UpsertSchedule, Landing, Timely, Tags;
    var s1 := Next(s, up);
    UpsertPlan(s.q, up.sid, up.entry, up.slot, up.opts, up.now);
    IterationPlan(s1.q, up.sid, s1.passes[r].id, step.timing, step.opts, step.now);
  }

  /** Such a case: the limit is lowered to the count while the iteration waits for a retry. */
  lemma LoweredLimitIsPassed()
    ensures exists s: Plan, r: nat, up: Step, step: Step ::
              && Sound(s.q) && up.Upsert? && Enabled(s, up) && Within(Written(s, up)) && up.sid in s.q.repeat
              && Accepted(s, up) && Target(s, up) == s.q.repeat[up.sid] && MayGoOn(s.q, up.sid)
              && step.Reschedule? && step.r == r && r in s.passes && s.passes[r].Checked? && Enabled(Next(s, up), step)
              && (var q' := Next(Next(s, up), step).q; up.sid in q'.schedulers && !Within(q'.schedulers[up.sid]))
  {
    hide SlotId, Sound, EveryNext, NextIteration, UpsertSchedule, Withdrawn, Landing, Tags;
    var sid, id := "s", SlotId("s", 60);
    var q := EMPTY.(
      repeat := map[sid := 60], schedulers := map[sid := Scheduler(Some(10), 5, 4, 0)], delayed := map[id := 7],
      jobs := map[id := BLANK.(rjk := Some(sid))]);
    var s := Plan(q, map[0 := Checked(sid, id)]);
    var up := Upsert(sid, Scheduler(Some(10), 4, 4, 0), 60, NO_OPTS, 0);
    var step := Reschedule(0, 60, Timing(0, Some(10)), NO_OPTS, 0);
    OneDelayed(q, id);
    WithdrawnAll(q, id);
    assert Enabled(s, up);
    var q1 := Next(s, up).q;
    UpsertPlan(q, sid, up.entry, 60, NO_OPTS, 0);
    UpsertJobs(q, id, up.entry);
    assert Enabled(Next(s, up), step);
    Accepts(q1, id, step.timing);
    KeptSlotPassesLimit(s, 0, up, step);
  }

  lemma Accepts(q: Queue, id: Id, timing: Timing)
    requires id == SlotId("s", 60) && q.jobs.Keys == {id} && timing == Timing(0, Some(10))
    requires "s" in q.repeat && q.repeat["s"] == 60
    requires "s" in q.schedulers && q.schedulers["s"] == Scheduler(Some(10), 4, 4, 0)
    ensures NextIteration(q, "s", id, timing, NO_OPTS, 0).1 == Code(1)
  {
    hide Store, SlotId, EveryNext;
    EveryNextAdvances(60, 10, 0, 0);
    var next := NextSlot(q, "s", timing, 0);
    if SlotId("s", next) == id {
      SlotIdInjective("s", next, "s", 60);
    }
  }

  lemma OneDelayed(q: Queue, id: Id)
    requires id == SlotId("s", 60) && q.jobs.Keys == {id} && q.delayed.Keys == {id}
    requires q == EMPTY.(repeat := q.repeat, schedulers := q.schedulers, delayed := q.delayed, jobs := q.jobs)
    ensures Sound(q)
  {
    assert id[0] == 'r';
    forall x
      ensures Where(q, x) == if x in q.jobs then 1 else 0
    {
    }
  }

  lemma WithdrawnAll(q: Queue, id: Id)
    requires id == SlotId("s", 60) && q.jobs.Keys == {id} && id in q.delayed && "s" in q.repeat && q.repeat["s"] == 60
    ensures Withdrawn(q, "s").jobs.Keys == {}
  {
    hide SlotId;
  }

  lemma UpsertJobs(q: Queue, id: Id, entry: Scheduler)
    requires id == SlotId("s", 60) && Withdrawn(q, "s").jobs.Keys == {}
    ensures var (q', reply) := UpsertSchedule(q, "s", entry, 60, NO_OPTS, 0);
            reply == Code(0) && q'.jobs.Keys == {id} && Landing(Withdrawn(q, "s"), "s", entry, 60) == 60
  {
    hide SlotId, Withdrawn, Store;
    StoredPends(NewEntry(Withdrawn(q, "s"), "s", entry, 60), id, NO_OPTS, Some("s"), 60, 0);
  }
}
