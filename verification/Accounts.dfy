/**
  Accounts of whole runs: the executions of a job that took effect, counted off the steps of
  the run, determine its attempts, its failure history, its place and its handler starts.
 */
module Accounts {
  import opened Wrappers
  import opened Lists
  import opened Queues
  import opened JobLife
  import opened Ledger
  import opened Books
  import opened Workers
  import opened WorkerSteps
  import opened Leases

  // ---------- what the steps of a run amount to ----------

  /** The step is an accepted finish, retry or delay of the k-th job ever created. */
  ghost predicate Reports(s: System, step: Step, k: nat) {
    && step.Submit? && step.d in s.disp && s.disp[step.d].phase.Sending? && s.disp[step.d].phase.e.serial == k
    && Accepted(s, step)
  }

  /** The executions of the k-th job that took effect in the first n steps, in order. */
  ghost function LogOf(run: seq<System>, steps: seq<Step>, n: nat, k: nat): seq<Entry>
    requires n <= |steps| < |run|
  {
    if n == 0 then
      []
    else
      var rest, s, step := LogOf(run, steps, n - 1, k), run[n - 1], steps[n - 1];
      if Reports(s, step, k) then rest + [s.disp[step.d].phase.entry] else rest
  }

  /** The step starts a handler on the k-th job. */
  predicate Starts(s: System, step: Step, k: nat) {
    step.Start? && step.d in s.disp && s.disp[step.d].phase.Begun? && s.disp[step.d].phase.e.serial == k
  }

  function StartsOf(run: seq<System>, steps: seq<Step>, n: nat, k: nat): nat
    requires n <= |steps| < |run|
  {
    if n == 0 then 0 else StartsOf(run, steps, n - 1, k) + if Starts(run[n - 1], steps[n - 1], k) then 1 else 0
  }

  /** The step is a RetryJob that takes effect on the k-th job; with keeping, one that leaves its attempts. */
  ghost predicate Revives(s: System, step: Step, k: nat, keeping: bool) {
    && k < |s.book.records| && OpOf(s, step).Some?
    && (var x := s.book.records[k].id;
        && x in s.book.serial && s.book.serial[x] == k
        && (var c := ChangeOf(s.q, OpOf(s, step).value, x); c.Revived? && (keeping ==> !c.resetAtm)))
  }

  /** The k-th job was retried by hand in the first n steps. */
  ghost predicate ManuallyRetried(run: seq<System>, steps: seq<Step>, n: nat, k: nat, keeping: bool) {
    exists j :: 0 <= j < n && j < |steps| && j < |run| && Revives(run[j], steps[j], k, keeping)
  }

  // ---------- the book says the same ----------

  lemma RevivedBy(q: Queue, op: Op, x: Id)
    ensures ChangeOf(q, op, x).Revived? ==> op.Reprocess? && op.id == x && ChangeOf(q, op, x).resetAtm == op.resetAtm
  {
    hide AddJob, Acquire, FinishJob, Retry, DelayJob, Extend, Release, ScanStalled, PromoteJob, ReprocessJob,
      ResumeRound, DrainQueue, Remove, NextIteration, NextSlot, SlotId, Digits, Withdrawn, EnterSchedule;
  }

  lemma UpdateShape(r: Record, v: View, c: Change, entry: Option<Entry>, lease: nat)
    ensures var r' := Update(r, v, c, entry, lease);
            && r'.id == r.id && r'.opts == r.opts && r'.recurring == r.recurring && r'.started == r.started
            && r'.log == (if Moves(c) && entry.Some? then r.log + [entry.value] else r.log)
            && (r'.retried <==> r.retried || c.Revived?)
            && (r'.kept <==> r.kept || (c.Revived? && !c.resetAtm))
  {
  }

  /** Only an accepted report of a job moves it. */
  lemma MovesOnlyByReport(s: System, step: Step, x: Id)
    requires Enabled(s, step) && OpOf(s, step).Some? && Ok(s)
    ensures var c := ChangeOf(s.q, OpOf(s, step).value, x);
            && (Moves(c) <==> step.Submit? && Accepted(s, step) && x == s.disp[step.d].phase.e.id)
            && (c.Revived? ==> step.Env?)
  {
    hide Apply, ChangeOf, Ok, Allowed, Accepted;
    var op := OpOf(s, step).value;
    RevivedBy(s.q, op, x);
    if step.Env? {
      EnvChange(s.q, op, x);
    } else if step.Submit? {
      SubmitReply(s, step);
      var p := s.disp[step.d].phase;
      ScriptChange(s.q, p.e, p.cmd, p.fetch, step.now, step.limited, x);
    } else {
      PlainChange(s.q, op, x);
    }
  }

  lemma ReportedRecord(s: System, step: Step)
    requires Enabled(s, step) && Ok(s) && step.Submit? && Accepted(s, step)
    ensures var e := s.disp[step.d].phase.e;
            && e.serial < |s.book.records| && s.book.records[e.serial].id == e.id
            && e.id in s.book.serial && s.book.serial[e.id] == e.serial
  {
    hide Apply, Script, HasHolder, Apart, Sound, Accepted, Consistent, LeaseOk, Capped;
    SubmitReply(s, step);
    OkAt(s, step.d);
    assert RecordOk(s.limit, s.q, s.book, s.disp[step.d].phase.e.id);
  }

  /** How the record of the k-th job changes in one step. */
  ghost predicate RecordMoves(s: System, step: Step, k: nat, r: Record, r': Record) {
    && r'.id == r.id && r'.opts == r.opts && r'.recurring == r.recurring
    && r'.log == (if Reports(s, step, k) then r.log + [s.disp[step.d].phase.entry] else r.log)
    && r'.started == (if Starts(s, step, k) then r.started + {s.disp[step.d].phase.e.lease} else r.started)
    && (r'.retried <==> r.retried || Revives(s, step, k, false))
    && (r'.kept <==> r.kept || Revives(s, step, k, true))
  }

  lemma RecordNoted(s: System, step: Step, k: nat)
    requires k < |s.book.records| && Enabled(s, step) && OpOf(s, step).Some? && Ok(s)
    ensures RecordMoves(s, step, k, s.book.records[k],
                        RecordAfter(s.book, s.q, OpOf(s, step).value, EntryOf(s, step), k))
  {
    hide Apply, ChangeOf, Script, Ok, Allowed, Accepted, Update, ViewOf;
    var op, r := OpOf(s, step).value, s.book.records[k];
    var c := ChangeOf(s.q, op, r.id);
    UpdateShape(r, ViewOf(s.q, r.id), c, EntryOf(s, step), |s.book.leases|);
    MovesOnlyByReport(s, step, r.id);
    RevivedBy(s.q, op, r.id);
    if step.Submit? && Accepted(s, step) {
      ReportedRecord(s, step);
    }
  }

  lemma RecordNext(s: System, step: Step, k: nat)
    requires k < |s.book.records| && Enabled(s, step) && Ok(s)
    ensures k < |Next(s, step).book.records|
    ensures RecordMoves(s, step, k, s.book.records[k], Next(s, step).book.records[k])
  {
    hide Apply, ChangeOf, Script, Ok, Allowed, Accepted, ViewOf, Next, RecordAfter, LeaseAfter, BornRecord, BornId;
    NextShared(s, step);
    if OpOf(s, step).Some? {
      RecordNoted(s, step, k);
    }
  }

  /** A record that a step adds is blank. */
  lemma RecordBorn(s: System, step: Step, k: nat)
    requires Enabled(s, step) && Ok(s) && |s.book.records| <= k < |Next(s, step).book.records|
    ensures var r := Next(s, step).book.records[k]; r.log == [] && r.started == {} && !r.retried && !r.kept
  {
    hide Apply, ChangeOf, Script, Ok, Allowed, Accepted, ViewOf, Next, RecordAfter, LeaseAfter, BornId;
    NextShared(s, step);
  }

  lemma SerialInBook(s: System, d: nat)
    requires d in s.disp && Held(s.disp[d].phase).Some? && Ok(s)
    ensures Held(s.disp[d].phase).value.serial < |s.book.records|
  {
    hide Sound, BookOk, HasHolder, Apart;
    OkAt(s, d);
  }

  lemma StartIsNew(s: System, step: Step, k: nat)
    requires Starts(s, step, k) && Enabled(s, step) && Ok(s)
    ensures k < |s.book.records| && s.disp[step.d].phase.e.lease !in s.book.records[k].started
  {
    hide Ok, Begin, Next;
    BegunLease(s, step.d);
  }

  /** The record of the k-th job, if it exists, is the account of the first n steps. */
  ghost predicate Accounted(run: seq<System>, steps: seq<Step>, n: nat, k: nat)
    requires n <= |steps| < |run|
  {
    if k < |run[n].book.records| then
      var r := run[n].book.records[k];
      && r.log == LogOf(run, steps, n, k) && |r.started| == StartsOf(run, steps, n, k)
      && (r.retried <==> ManuallyRetried(run, steps, n, k, false))
      && (r.kept <==> ManuallyRetried(run, steps, n, k, true))
    else
      && LogOf(run, steps, n, k) == [] && StartsOf(run, steps, n, k) == 0
      && !ManuallyRetried(run, steps, n, k, false) && !ManuallyRetried(run, steps, n, k, true)
  }

  lemma OneMoreRetry(run: seq<System>, steps: seq<Step>, n: nat, k: nat, keeping: bool)
    requires 0 < n <= |steps| && n < |run|
    ensures ManuallyRetried(run, steps, n, k, keeping)
       <==> ManuallyRetried(run, steps, n - 1, k, keeping) || Revives(run[n - 1], steps[n - 1], k, keeping)
  {
    hide Revives;
  }

  lemma NoRetryYet(run: seq<System>, steps: seq<Step>, k: nat, keeping: bool)
    ensures !ManuallyRetried(run, steps, 0, k, keeping)
  {
    hide Revives;
  }

  lemma RevivesKnown(s: System, step: Step, k: nat, keeping: bool)
    requires Revives(s, step, k, keeping)
    ensures k < |s.book.records|
  {
  }

  lemma {:induction false} BookIsAccount(run: seq<System>, steps: seq<Step>, n: nat, k: nat)
    requires IsRun(run, steps) && run[0].book.records == [] && Ok(run[0]) && n <= |steps|
    ensures Accounted(run, steps, n, k)
  {
    hide Ok, Enabled, Next, Accepted, Revives, ManuallyRetried;
    if n == 0 {
      NoRetryYet(run, steps, k, false);
      NoRetryYet(run, steps, k, true);
    } else {
      var s, step := run[n - 1], steps[n - 1];
      BookIsAccount(run, steps, n - 1, k);
      RunOk(run, steps, n - 1);
      OneMoreRetry(run, steps, n, k, false);
      OneMoreRetry(run, steps, n, k, true);
      if k < |s.book.records| {
        RecordNext(s, step, k);
        if Starts(s, step, k) {
          StartIsNew(s, step, k);
        }
      } else {
        if Reports(s, step, k) || Starts(s, step, k) {
          SerialInBook(s, step.d);
        }
        if Revives(s, step, k, false) {
          RevivesKnown(s, step, k, false);
        }
        if Revives(s, step, k, true) {
          RevivesKnown(s, step, k, true);
        }
        if k < |run[n].book.records| {
          RecordBorn(s, step, k);
        }
      }
    }
  }

  // ---------- what follows for every job in every run ----------

  lemma JobAccount(run: seq<System>, steps: seq<Step>, n: nat, x: Id)
    requires StartsEmpty(run, steps) && n <= |steps| && x in run[n].q.jobs
    ensures var k := SerialOf(run[n].book, x);
            && k < |run[n].book.records|
            && Consistent(run[n].limit, ViewOf(run[n].q, x), run[n].book.records[k])
            && run[n].book.records[k].log == LogOf(run, steps, n, k)
            && (run[n].book.records[k].retried <==> ManuallyRetried(run, steps, n, k, false))
            && (run[n].book.records[k].kept <==> ManuallyRetried(run, steps, n, k, true))
  {
    hide Enabled, Next, Accepted, Revives, ManuallyRetried, Sound, HasHolder, Apart, DispatcherOk, Consistent,
      LeaseOk, Capped;
    InitialOk(run[0].limit);
    RunOk(run, steps, n);
    BookIsAccount(run, steps, n, SerialOf(run[n].book, x));
    assert RecordOk(run[n].limit, run[n].q, run[n].book, x);
  }

  /**
    Attempts, failure history, start times and terminal outcome of a job are those of its
    executions with every DelayedError execution deleted.
   */
  lemma PostponementsLeaveNoTrace(run: seq<System>, steps: seq<Step>, n: nat, x: Id)
    requires StartsEmpty(run, steps) && n <= |steps| && x in run[n].q.jobs
    requires !ManuallyRetried(run, steps, n, SerialOf(run[n].book, x), false)
    ensures var log := LogOf(run, steps, n, SerialOf(run[n].book, x));
            Tallied(ViewOf(run[n].q, x), Fold(run[n].q.jobs[x].opts, Erase(log)))
  {
    hide Enabled, Next, Fold, Erase, LogOf, Tallied, ManuallyRetried, Capped, OnePlaced, AttemptsBounded,
      GrantsBounded;
    JobAccount(run, steps, n, x);
    DelaysEraseFromFold(run[n].q.jobs[x].opts, LogOf(run, steps, n, SerialOf(run[n].book, x)));
  }

  /** The stored stacktrace is the list of the failures, in order: one per attempt made, but for a success. */
  lemma FailureHistoryIsComplete(run: seq<System>, steps: seq<Step>, n: nat, x: Id)
    requires StartsEmpty(run, steps) && n <= |steps| && x in run[n].q.jobs
    requires !ManuallyRetried(run, steps, n, SerialOf(run[n].book, x), false)
    ensures var job := run[n].q.jobs[x];
            && job.trace == Failures(LogOf(run, steps, n, SerialOf(run[n].book, x)))
            && |job.trace| == job.atm - (if x in run[n].q.completed then 1 else 0)
  {
    hide Enabled, Next, Fold, Failures, LogOf, WellEnded, ManuallyRetried, OnePlaced, AttemptsBounded, GrantsBounded;
    JobAccount(run, steps, n, x);
    FoldHistory(run[n].q.jobs[x].opts, LogOf(run, steps, n, SerialOf(run[n].book, x)));
  }

  /** No job passes its attempts, and one that is still to run has an attempt left. */
  lemma AttemptsStayBounded(run: seq<System>, steps: seq<Step>, n: nat, x: Id)
    requires StartsEmpty(run, steps) && n <= |steps| && x in run[n].q.jobs
    requires !ManuallyRetried(run, steps, n, SerialOf(run[n].book, x), true)
    ensures var q := run[n].q;
            && 0 <= q.jobs[x].atm <= Attempts(q.jobs[x].opts)
            && (Pending(q, x) || x in q.active ==> q.jobs[x].atm <= Attempts(q.jobs[x].opts) - 1)
  {
    hide Enabled, Next, LogOf, Fold, Tallied, Capped, OnePlaced, GrantsBounded, ManuallyRetried;
    JobAccount(run, steps, n, x);
  }

  /**
    What has become of a job never retried by hand, by its executions alone: it has made as many
    attempts as there were executions other than postponements, it is completed exactly if the
    last of them succeeded, and failed exactly if that failed and was final or was the last
    attempt; else it is still to run.
   */
  lemma OutcomeIsExact(run: seq<System>, steps: seq<Step>, n: nat, x: Id)
    requires StartsEmpty(run, steps) && n <= |steps| && x in run[n].q.jobs
    requires !ManuallyRetried(run, steps, n, SerialOf(run[n].book, x), false)
    ensures var q, ran := run[n].q, Erase(LogOf(run, steps, n, SerialOf(run[n].book, x)));
            var attempts := Attempts(q.jobs[x].opts);
            && q.jobs[x].atm == |ran|
            && (x in q.completed <==> ran != [] && Succeeds(ran[|ran| - 1]))
            && (x in q.failed <==> ran != [] && !Succeeds(ran[|ran| - 1])
                                   && (GivesUp(ran[|ran| - 1]) || |ran| >= attempts))
            && (forall k :: 0 <= k < |ran| - 1 ==> !Succeeds(ran[k]) && !GivesUp(ran[k]) && k + 1 < attempts)
  {
    hide Enabled, Next, Fold, Erase, LogOf, WellEnded, ManuallyRetried, AttemptsBounded, GrantsBounded, Succeeds,
      GivesUp, Attempts;
    JobAccount(run, steps, n, x);
    var k := SerialOf(run[n].book, x);
    var log, opts := LogOf(run, steps, n, k), run[n].q.jobs[x].opts;
    FoldOutcome(opts, log);
    PlacedByStatus(ViewOf(run[n].q, x), Fold(opts, log));
  }

  lemma PlacedByStatus(v: View, t: Tally)
    requires v.job.Some? && OnePlaced(v) && Tallied(v, t)
    ensures v.job.value.atm == t.atm
    ensures v.completed <==> t.status == Ended(Completed)
    ensures v.failed <==> t.status == Ended(Failed)
  {
    if t.status.Ended? && t.status.bucket == Completed {
    } else if t.status.Ended? {
      assert t.status.bucket == Failed;
    } else {
    }
  }

  /** A failed job whose failures were none of them final has made every attempt it had. */
  lemma FailedHasUsedItsAttempts(run: seq<System>, steps: seq<Step>, n: nat, x: Id)
    requires StartsEmpty(run, steps) && n <= |steps| && x in run[n].q.jobs && x in run[n].q.failed
    requires !ManuallyRetried(run, steps, n, SerialOf(run[n].book, x), false)
    requires forall entry :: entry in LogOf(run, steps, n, SerialOf(run[n].book, x)) ==> !GivesUp(entry)
    ensures run[n].q.jobs[x].atm == Attempts(run[n].q.jobs[x].opts)
  {
    hide Enabled, Next, LogOf, Revives, GivesUp, Succeeds, SerialOf;
    var k := SerialOf(run[n].book, x);
    OutcomeIsExact(run, steps, n, x);
    ErasedFrom(LogOf(run, steps, n, k));
    FewerRetries(run, steps, n, k);
    AttemptsStayBounded(run, steps, n, x);
  }

  lemma FewerRetries(run: seq<System>, steps: seq<Step>, n: nat, k: nat)
    requires !ManuallyRetried(run, steps, n, k, false)
    ensures !ManuallyRetried(run, steps, n, k, true)
  {
    forall j | 0 <= j < n && j < |steps| && j < |run|
      ensures !Revives(run[j], steps[j], k, true)
    {
      assert !Revives(run[j], steps[j], k, false);
    }
  }

  lemma {:induction false} ErasedFrom(log: seq<Entry>)
    ensures forall entry :: entry in Erase(log) ==> entry in log
  {
    if log != [] {
      ErasedFrom(log[..|log| - 1]);
      assert log == log[..|log| - 1] + [log[|log| - 1]];
    }
  }

  /**
    Over the whole run the handler of a job that belongs to no schedule and was never retried
    by hand starts at most max(1, attempts) + max(0, stall limit) + (its postponements) times.
   */
  lemma HandlerStartsAreBounded(run: seq<System>, steps: seq<Step>, n: nat, k: nat)
    requires StartsEmpty(run, steps) && n <= |steps| && k < |run[n].book.records|
    requires !run[n].book.records[k].recurring && !ManuallyRetried(run, steps, n, k, false)
    ensures StartsOf(run, steps, n, k)
         <= Attempts(run[n].book.records[k].opts) + NonNegative(run[n].limit) + Delays(LogOf(run, steps, n, k))
  {
    hide Enabled, Next, Accepted, Revives, ManuallyRetried, Sound, HasHolder, Apart, DispatcherOk, LeaseOk,
      RecordOk, Delays, LogOf, StartsOf, WellEnded;
    InitialOk(run[0].limit);
    RunOk(run, steps, n);
    BookIsAccount(run, steps, n, k);
    var r := run[n].book.records[k];
    assert Capped(run[n].limit, r);
    SubsetSize(r.started, r.granted);
  }
}
