/**
  A run, from nothing, in which one iteration creates two successors: a pattern schedule with a
  start date in the past is upserted a second time, which withdraws the first successor and goes
  back to the slot of the start date, although its job exists.
 */
module RewoundRun {
  import opened Wrappers
  import opened Queues
  import opened JobLife
  import opened Names
  import opened ScheduleFrames
  import opened Hazards
  import opened Schedules

  const SID: SchedulerId := "s"
  const FIRST: Id := SlotId(SID, 60)
  const SECOND: Id := SlotId(SID, 120)
  const THIRD: Id := SlotId(SID, 180)

  /** A pattern schedule without a limit. */
  const ENTRY := Scheduler(None, 0, 1, 0)

  const UP := Upsert(SID, ENTRY, 60, NO_OPTS, 60)

  /** A reschedule by the pass of the first iteration, a minute before the next slot of the pattern. */
  function Go(next: int): Step {
    Reschedule(0, next - 60, Timing(next, None), NO_OPTS, next - 60)
  }

  lemma SlotsDiffer()
    ensures FIRST != SECOND && SECOND != THIRD && FIRST != THIRD
  {
    hide SlotId;
    if FIRST == SECOND {
      SlotIdInjective(SID, 60, SID, 120);
    }
    if SECOND == THIRD {
      SlotIdInjective(SID, 120, SID, 180);
    }
    if FIRST == THIRD {
      SlotIdInjective(SID, 60, SID, 180);
    }
  }

  /** Nothing is stored, or the schedule has gone on to its second slot, whose job waits in delayed. */
  predicate Ready(q: Queue) {
    && (FIRST in q.jobs ==> SID in q.repeat)
    && (SID in q.repeat ==> q.repeat[SID] == 120 && SECOND in q.jobs && SECOND in q.delayed)
    && (SECOND in q.jobs ==> SID in q.repeat) && THIRD !in q.jobs
  }

  /** The schedule is at its first slot, and only the job of that is stored. */
  predicate Stands(q: Queue) {
    && SID in q.repeat && q.repeat[SID] == 60 && SID in q.schedulers && q.schedulers[SID].(ic := 0) == ENTRY.(ic := 0)
    && FIRST in q.jobs && q.jobs[FIRST].rjk == Some(SID) && SECOND !in q.jobs && THIRD !in q.jobs
  }

  /** The second job is withdrawn if it is there, and with that the first may be stored over. */
  lemma Withdrawal(q: Queue)
    requires Ready(q)
    ensures SECOND !in Withdrawn(q, SID).jobs && THIRD !in Withdrawn(q, SID).jobs
    ensures FIRST in Withdrawn(q, SID).jobs ==> Withdrawn(q, SID) != q
  {
    hide SlotId;
  }

  lemma UpsertStands(s: Plan)
    requires Ready(s.q)
    ensures Enabled(s, UP) && Stands(Next(s, UP).q) && Next(s, UP).passes == s.passes
  {
    hide SlotId, Withdrawn, Store, Apply, Successor, Tags;
    SlotsDiffer();
    Withdrawal(s.q);
    UpsertPlan(s.q, SID, ENTRY, 60, NO_OPTS, 60);
    StoredPends(NewEntry(Withdrawn(s.q, SID), SID, ENTRY, 60), FIRST, NO_OPTS, Some(SID), 0, 60);
  }

  /** A pass of the first iteration gets as far as rescheduling. */
  lemma PassStands(s: Plan, next: int)
    requires Stands(s.q) && next >= 120
    ensures Enabled(s, Dequeue(0, FIRST))
    ensures var s1 := Next(s, Dequeue(0, FIRST));
            && Enabled(s1, Check(0))
            && (var s2 := Next(s1, Check(0));
                s2 == s.(passes := s.passes[0 := Checked(SID, FIRST)]) && Enabled(s2, Go(next)))
  {
    hide SlotId, Apply, UpsertSchedule, NextIteration;
  }

  /** The next slot is free, so it is taken. */
  lemma GoCreates(q: Queue, next: int)
    requires Stands(q) && (next == 120 || next == 180)
    ensures var (q', reply) := NextIteration(q, SID, FIRST, Timing(next, None), NO_OPTS, next - 60);
            reply == Code(1) && (next == 120 ==> Ready(q'))
  {
    hide SlotId, Store;
    SlotsDiffer();
    var q1 := BumpIterations(q.(repeat := q.repeat[SID := 120], counter := q.counter + 1), SID);
    IterationPlan(q, SID, FIRST, Timing(next, None), NO_OPTS, next - 60);
    StoredPends(q1, SECOND, NO_OPTS, Some(SID), 60, 60);
    StoredDelayed(q1, SECOND);
  }

  lemma StoredDelayed(q: Queue, id: Id)
    ensures id in Store(q, id, NO_OPTS, Some(SID), 60, 60).delayed
  {
    hide DelayedScore, Stored;
  }

  /** From an upsert through a pass to the creation of another iteration. */
  lemma Round(s: Plan, next: int) returns (s1: Plan, s2: Plan, s3: Plan, s4: Plan)
    requires Ready(s.q) && (next == 120 || next == 180)
    ensures Enabled(s, UP) && s1 == Next(s, UP)
    ensures Enabled(s1, Dequeue(0, FIRST)) && s2 == Next(s1, Dequeue(0, FIRST))
    ensures Enabled(s2, Check(0)) && s3 == Next(s2, Check(0))
    ensures Enabled(s3, Go(next)) && s4 == Next(s3, Go(next)) && (next == 120 ==> Ready(s4.q))
    ensures 0 in s3.passes && s3.passes[0] == Checked(SID, FIRST)
    ensures Successor(s3, 0, Timing(next, None), NO_OPTS, next - 60).1 == Code(1)
  {
    hide Enabled, SlotId, Stands, Ready, Apply, UpsertSchedule, NextIteration;
    UpsertStands(s);
    s1 := Next(s, UP);
    PassStands(s1, next);
    s2 := Next(s1, Dequeue(0, FIRST));
    s3 := Next(s2, Check(0));
    GoCreates(s3.q, next);
    s4 := Next(s3, Go(next));
  }

  /**
    Two steps of the run create a successor of the same iteration, one at 120 and one at 180, and
    all that happens between them is that the upsert is repeated and the iteration run again.
   */
  lemma OneIterationCreatesTwice() returns (run: seq<Plan>, steps: seq<Step>)
    ensures IsRun(run, steps)
    ensures steps == [UP, Dequeue(0, FIRST), Check(0), Go(120), UP, Dequeue(0, FIRST), Check(0), Go(180)]
    ensures Creates(run, steps, 3, SID, FIRST) && Creates(run, steps, 7, SID, FIRST)
  {
    hide Enabled, Next, Successor, SlotId;
    var s0 := Plan(EMPTY, map[]);
    var s1, s2, s3, s4 := Round(s0, 120);
    hide Ready;
    var s5, s6, s7, s8 := Round(s4, 180);
    run := [s0, s1, s2, s3, s4, s5, s6, s7, s8];
    steps := [UP, Dequeue(0, FIRST), Check(0), Go(120), UP, Dequeue(0, FIRST), Check(0), Go(180)];
  }
}
