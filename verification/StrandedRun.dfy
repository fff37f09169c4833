/**
  A run, from nothing, in which a drained worker stops with its job still in active: one
  worker, one dispatcher, one job, and a lock that expires while the handler runs.
 */
module StrandedRun {
  import opened Wrappers
  import opened Lists
  import opened SortedSets
  import opened Queues
  import opened JobLife
  import opened Ledger
  import opened Books
  import opened Workers
  import opened WorkerSteps
  import opened Leases
  import opened Shutdown

  const JOB: Id := "a"

  const ADDED := EMPTY.(counter := 1, wait := [JOB], jobs := map[JOB := BLANK])

  const TAKEN: Job := BLANK.(ats := 1, processedOn := 7)

  const ACQUIRED := ADDED.(wait := [], active := [JOB], jobs := map[JOB := TAKEN], lock := map[JOB := 1])

  lemma AddGives()
    ensures Apply(EMPTY, Add(JOB, NO_OPTS, 0, 7)).0 == ADDED
  {
    hide DelayedScore;
    assert BLANK.(opts := NO_OPTS, rjk := None) == BLANK;
    assert [JOB] + [] == [JOB];
  }

  lemma NothingDue(q: Queue, now: int)
    requires q.delayed == map[]
    ensures PromoteDue(q, now) == q
  {
    assert Due(q.delayed, now) == [];
    assert q.delayed - Elements<Id>([]) == q.delayed;
  }

  lemma AcquireGives()
    ensures Apply(ADDED, MoveToActive(1, 7, false)) == (ACQUIRED, Got(JOB, TAKEN))
  {
    hide PromoteDue;
    NothingDue(ADDED, 7);
    assert ADDED.wait[..0] == [] && [JOB] + [] == [JOB];
    assert !IsMarker(JOB);
    assert PullBy(ADDED, false) == (ADDED.(wait := [], active := [JOB]), Some(JOB));
    assert map[JOB := BLANK][JOB := TAKEN] == map[JOB := TAKEN];
  }

  /** The first steps: hire, spawn, add, look, acquire, start, and then the beginning of a drain. */
  lemma Prelude(limit: int) returns (run: seq<System>, steps: seq<Step>, e: Exec)
    ensures IsRun(run, steps) && run[0] == Initial(limit)
    ensures var end := run[|run| - 1];
            LastAtWork(end, 0, e) && end.disp[0] == Dispatcher(0, Running(e), 0) && e.id == JOB
  {
    hide Apply, Note, Begin, Allowed, Ok, LocalPhase;
    var s0 := Initial(limit);
    steps := [
      Hire(0), Spawn(0, 0), Env(Add(JOB, NO_OPTS, 0, 7)), Check(0), Try(0, 1, 7, false), Start(0), CancelRun(0)];
    InitialOk(limit);
    var s1 := Next(s0, steps[0]);
    var s2 := Next(s1, steps[1]);
    AddEnabled();
    AddGives();
    var s3 := Next(s2, steps[2]);
    var s4 := Next(s3, steps[3]);
    LookedAt(s3.q, s3.workers[0]);
    AcquireGives();
    var s5 := Next(s4, steps[4]);
    var s6 := Next(s5, steps[5]);
    var s7 := Next(s6, steps[6]);
    run := [s0, s1, s2, s3, s4, s5, s6, s7];
    e := s5.disp[0].phase.e;
    RunOk(run, steps, 7);
  }

  lemma AddEnabled()
    ensures Allowed(EMPTY, Add(JOB, NO_OPTS, 0, 7))
  {
  }

  lemma LookedAt(q: Queue, w: Worker)
    requires !w.runCancelled
    ensures LocalPhase(q, w, Top(None), Check(0)) == Checked(None)
  {
  }

  lemma RunsJoin(a: seq<System>, x: seq<Step>, b: seq<System>, y: seq<Step>)
    requires IsRun(a, x) && IsRun(b, y) && a[|a| - 1] == b[0]
    ensures IsRun(a + b[1..], x + y)
  {
    hide Enabled, Next;
    var run, steps := a + b[1..], x + y;
    forall i | 0 <= i < |steps|
      ensures Enabled(run[i], steps[i]) && run[i + 1] == Next(run[i], steps[i])
    {
      if i >= |x| {
        var j := i - |x|;
        assert run[i] == b[j] && run[i + 1] == b[j + 1] && steps[i] == y[j];
      }
    }
  }

  /** A drain without cancelled jobs and failed calls does not always leave active empty of its jobs. */
  lemma DrainLeavesJob(limit: int) returns (run: seq<System>, steps: seq<Step>)
    ensures StartsEmpty(run, steps) && run[0].limit == limit
    ensures var end := run[|run| - 1];
            Stopped(end, 0) && 0 in end.workers && !Excused(end.workers[0]) && JOB in end.q.active
  {
    hide Enabled, Next, Stopped, Excused, Ok;
    var a, x, e := Prelude(limit);
    var b, y := ExpiryStrandsJob(a[|a| - 1], 0, e);
    RunsJoin(a, x, b, y);
    run, steps := a + b[1..], x + y;
    assert run[|run| - 1] == b[|b| - 1];
  }
}
