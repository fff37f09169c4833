/**
  Leases over whole runs: a finish, retry or delay takes effect only for the execution that
  has held the lock ever since it acquired the job, and every hold is ended at most once.
 */
module Leases {
  import opened Wrappers
  import opened Queues
  import opened JobLife
  import opened Ledger
  import opened Books
  import opened Workers
  import opened WorkerSteps

  // ---------- the script behind a step ----------

  /** The script a step runs, if any. */
  function OpOf(s: System, step: Step): Option<Op> {
    match step
    case Env(op) => Some(op)
    case Try(_, token, now, limited) => Some(MoveToActive(token, now, limited))
    case Beat(d) =>
      if d in s.disp && s.disp[d].phase.Running?
      then Some(ExtendLock(s.disp[d].phase.e.id, s.disp[d].phase.e.token)) else None
    case Submit(d, now, limited) =>
      if d in s.disp && s.disp[d].phase.Sending? then
        var p := s.disp[d].phase;
        Some(Script(p.e, p.cmd, p.fetch, now, limited))
      else None
    case Cleanup(d) =>
      if d in s.disp && s.disp[d].phase.Refused?
      then Some(ReleaseLock(s.disp[d].phase.e.id, s.disp[d].phase.e.token)) else None
    case Depart(d) =>
      if d in s.disp && s.disp[d].phase.Leaving? && s.disp[d].phase.held.Some?
      then Some(ReleaseLock(s.disp[d].phase.held.value.id, s.disp[d].phase.held.value.token)) else None
    case _ => None
  }

  function ActorOf(s: System, step: Step): nat {
    if step.Env? || step.Hire? || step.CancelRun? || step.CancelJobs? || step.Spawn? || step.d !in s.disp then 0
    else s.disp[step.d].worker
  }

  function EntryOf(s: System, step: Step): Option<Entry> {
    if step.Submit? && step.d in s.disp && s.disp[step.d].phase.Sending? then Some(s.disp[step.d].phase.entry) else None
  }

  ghost function BookAfter(s: System, step: Step): Book {
    var op := OpOf(s, step);
    if op.Some? then Note(s.book, s.q, op.value, ActorOf(s, step), EntryOf(s, step))
    else if step.Start? && step.d in s.disp && s.disp[step.d].phase.Begun? then Begin(s.book, s.disp[step.d].phase.e)
    else s.book
  }

  /** The shared state changes by the script of the step and in no other way. */
  lemma NextShared(s: System, step: Step)
    requires Enabled(s, step)
    ensures var s' := Next(s, step);
            && s'.q == (if OpOf(s, step).Some? then Apply(s.q, OpOf(s, step).value).0 else s.q)
            && s'.book == BookAfter(s, step) && s'.limit == s.limit
  {
    hide Apply, Note, Begin, LocalPhase, Allowed, Script;
  }

  lemma StepAllowed(s: System, step: Step)
    requires Enabled(s, step) && Ok(s) && OpOf(s, step).Some?
    ensures Allowed(s.q, OpOf(s, step).value)
  {
    hide Sound, BookOk, HasHolder, Apart, Allowed, Script;
    var op := OpOf(s, step).value;
    if step.Submit? {
      var p := s.disp[step.d].phase;
      TokenIsReal(s, step.d);
      ScriptAllowed(s.q, p.e, p.cmd, p.fetch, step.now, step.limited);
    } else if step.Try? {
      WorkerAllowed(s.q, op);
    } else if !step.Env? {
      PlainAllowed(s.q, op);
    }
  }

  // ---------- holding since acquisition ----------

  /** Dispatcher d has execution e in hand, and the queue still shows its lock. */
  predicate Holds(s: System, d: nat, e: Exec) {
    d in s.disp && Held(s.disp[d].phase) == Some(e) && Locked(s.q, e)
  }

  lemma OkAt(s: System, d: nat)
    requires Ok(s) && d in s.disp
    ensures DispatcherOk(s, d)
  {
  }

  /** What a dispatcher has in hand was in its hand before, or was acquired in this very step. */
  lemma HandBefore(s: System, step: Step, d: nat, e: Exec)
    requires Enabled(s, step) && d in Next(s, step).disp && Held(Next(s, step).disp[d].phase) == Some(e)
    requires Ok(s)
    ensures e.lease == |s.book.leases| || (d in s.disp && Held(s.disp[d].phase) == Some(e))
  {
    hide Apply, Allowed, Ok, Enabled, Next;
    if IsLocal(step) {
      LocalHand(s, step, d);
    } else {
      SharedHand(s, step, d, e);
    }
  }

  /** Steps inside a dispatcher keep what it has in hand. */
  lemma LocalHand(s: System, step: Step, d: nat)
    requires IsLocal(step) && Enabled(s, step) && d in Next(s, step).disp && Ok(s)
    ensures d in s.disp && Held(Next(s, step).disp[d].phase) == Held(s.disp[d].phase)
  {
    hide Apply, Note, Begin, LocalPhase, Allowed, Script, Ok, HoldOk;
    OkAt(s, step.d);
    LocalPhaseOk(s.q, s.book, s.workers[s.disp[step.d].worker], s.disp[step.d].phase, step);
  }

  lemma SharedHand(s: System, step: Step, d: nat, e: Exec)
    requires !IsLocal(step) && Enabled(s, step)
    requires d in Next(s, step).disp && Held(Next(s, step).disp[d].phase) == Some(e)
    ensures e.lease == |s.book.leases| || (d in s.disp && Held(s.disp[d].phase) == Some(e))
  {
    hide Apply, Note, Begin, LocalPhase, Allowed, Script;
  }

  lemma NewestLease(b: Book, q: Queue, op: Op, worker: nat, entry: Option<Entry>, x: Id)
    requires Sound(q) && Allowed(q, op) && ChangeOf(q, op, x).Taken?
    ensures var b' := Note(b, q, op, worker, entry); x in b'.lease && b'.lease[x] == |b.leases|
  {
    hide Apply, ChangeOf, Allowed, Sound, RecordAfter, LeaseAfter, BornId, BornRecord;
    TakenExactly(q, op, x);
  }

  /** A lock seen with its token was there before, unless the job was acquired in this very step. */
  lemma HeldBefore(s: System, step: Step, d: nat, e: Exec)
    requires Enabled(s, step) && Ok(s) && Holds(Next(s, step), d, e) && e.lease != |s.book.leases|
    ensures Holds(s, d, e)
  {
    hide Apply, Note, Next, Enabled, ChangeOf, Allowed, Script, Sound, BookOk, HasHolder, Apart, OpOf, BookAfter;
    var s' := Next(s, step);
    HandBefore(s, step, d, e);
    NextShared(s, step);
    NextOk(s, step);
    OkAt(s', d);
    if OpOf(s, step).Some? {
      StepAllowed(s, step);
      SharedBook(s, step);
      var op := OpOf(s, step).value;
      if ChangeOf(s.q, op, e.id).Taken? {
        NewestLease(s.book, s.q, op, ActorOf(s, step), EntryOf(s, step), e.id);
      } else {
        HoldStable(s.q, op, e.id, e.token);
      }
    }
  }

  lemma SharedBook(s: System, step: Step)
    requires OpOf(s, step).Some?
    ensures BookAfter(s, step) == Note(s.book, s.q, OpOf(s, step).value, ActorOf(s, step), EntryOf(s, step))
  {
    hide OpOf, Note;
  }

  /** From state i + 1 up to state j, dispatcher d held e, and the job was as e found it. */
  ghost predicate HeldFrom(run: seq<System>, i: nat, j: nat, d: nat, e: Exec)
    requires i < j < |run|
  {
    && |run[i].book.leases| == e.lease < |run[i + 1].book.leases|
    && forall k :: i < k <= j ==> Holds(run[k], d, e) && e.id in run[k].q.jobs && run[k].q.jobs[e.id] == e.snap
  }

  lemma HeldJob(s: System, d: nat, e: Exec)
    requires Ok(s) && Holds(s, d, e)
    ensures e.id in s.q.jobs && s.q.jobs[e.id] == e.snap && e.lease < |s.book.leases|
    ensures e.id in s.book.lease && s.book.lease[e.id] == e.lease
  {
    hide Sound, BookOk, HasHolder, Apart;
    OkAt(s, d);
  }

  /**
    A lock is never re-created: whoever sees its own token on the lock has held it without
    interruption since the step that acquired it, and the job HASH has not changed since.
   */
  lemma {:induction false} HeldContinuously(run: seq<System>, steps: seq<Step>, j: nat, d: nat, e: Exec)
    requires IsRun(run, steps) && run[0].disp == map[] && Ok(run[0]) && j < |run| && Holds(run[j], d, e)
    ensures exists i: nat :: i < j && HeldFrom(run, i, j, d, e)
  {
    hide Ok, Enabled, Next, Locked;
    RunOk(run, steps, j);
    HeldJob(run[j], d, e);
    if j > 0 {
      RunOk(run, steps, j - 1);
      if |run[j - 1].book.leases| == e.lease {
        assert HeldFrom(run, j - 1, j, d, e);
      } else {
        HeldBefore(run[j - 1], steps[j - 1], d, e);
        HeldContinuously(run, steps, j - 1, d, e);
        var i: nat :| i < j - 1 && HeldFrom(run, i, j - 1, d, e);
        assert HeldFrom(run, i, j, d, e);
      }
    }
  }

  // ---------- fencing ----------

  ghost predicate StartsEmpty(run: seq<System>, steps: seq<Step>) {
    IsRun(run, steps) && run[0] == Initial(run[0].limit)
  }

  /** Step j has dispatcher d send its finishing script. */
  predicate Submits(run: seq<System>, steps: seq<Step>, j: nat, d: nat) {
    j < |steps| && j < |run| && steps[j].Submit? && steps[j].d == d && d in run[j].disp && run[j].disp[d].phase.Sending?
  }

  ghost predicate Accepted(s: System, step: Step)
    requires OpOf(s, step).Some?
  {
    var reply := Apply(s.q, OpOf(s, step).value).1;
    !(reply.Code? && reply.code < 0)
  }

  lemma SubmitReply(s: System, step: Step)
    requires step.Submit? && step.d in s.disp && s.disp[step.d].phase.Sending? && Ok(s)
    ensures var e := s.disp[step.d].phase.e;
            && (Accepted(s, step) <==> Owns(s.q, e.id, e.token)) && (Accepted(s, step) <==> Locked(s.q, e))
            && Apply(s.q, OpOf(s, step).value).1 != Code(-3)
  {
    hide Apply, Script, HasHolder, Apart, BookOk, Sound;
    var p := s.disp[step.d].phase;
    OkAt(s, step.d);
    ScriptReply(s.q, p.e, p.cmd, p.fetch, step.now, step.limited);
  }

  /**
    Fencing: a finish, retry or delay takes effect exactly when its execution still holds the
    lock, and then it has held it without interruption since it acquired the job. The reply
    for a lock outside active is never given.
   */
  lemma Fencing(run: seq<System>, steps: seq<Step>, j: nat, d: nat)
    requires Submits(run, steps, j, d) && StartsEmpty(run, steps)
    ensures var e := run[j].disp[d].phase.e;
            && (Accepted(run[j], steps[j]) <==> Holds(run[j], d, e))
            && (Accepted(run[j], steps[j]) ==> exists i: nat :: i < j && HeldFrom(run, i, j, d, e))
            && Apply(run[j].q, OpOf(run[j], steps[j]).value).1 != Code(-3)
  {
    hide Ok, Enabled, Next, Apply, Script, Locked, Accepted;
    var e := run[j].disp[d].phase.e;
    InitialOk(run[0].limit);
    RunOk(run, steps, j);
    SubmitReply(run[j], steps[j]);
    if Accepted(run[j], steps[j]) {
      HeldContinuously(run, steps, j, d, e);
    }
  }

  /** An execution that lost its lock moves nothing and bumps nothing, for any id. */
  lemma LostLockIsHarmless(s: System, step: Step, x: Id)
    requires step.Submit? && step.d in s.disp && s.disp[step.d].phase.Sending?
    requires !Holds(s, step.d, s.disp[step.d].phase.e) && Enabled(s, step)
    requires Ok(s)
    ensures ViewOf(Next(s, step).q, x) == ViewOf(s.q, x)
    ensures Next(s, step).disp[step.d].phase == Refused(s.disp[step.d].phase.e)
  {
    hide Apply, Script, HasHolder, Apart, BookOk, Sound, Note, ChangeOf, Allowed, PhaseOk, DispatcherOk;
    var p := s.disp[step.d].phase;
    SubmitReply(s, step);
    ScriptChange(s.q, p.e, p.cmd, p.fetch, step.now, step.limited, x);
    StepAllowed(s, step);
    StepFollows(s.q, OpOf(s, step).value, x);
    hide Where, ViewOf;
  }

  /**
    finalise decides on a snapshot and on a separate read of atm, in earlier round trips. When
    its script takes effect the decision is the one the job HASH of that moment calls for.
   */
  lemma DecidedAsIfAtomic(s: System, step: Step)
    requires step.Submit? && step.d in s.disp && s.disp[step.d].phase.Sending? && Ok(s) && Accepted(s, step)
    ensures var p := s.disp[step.d].phase;
            && p.e.id in s.q.jobs && p.cmd == Decide(s.q.jobs[p.e.id], p.entry, s.q.jobs[p.e.id].atm)
            && s.q.jobs[p.e.id] == p.e.snap
  {
    hide Apply, Script, HasHolder, Apart, BookOk, Sound, Decide, Accepted;
    SubmitReply(s, step);
    OkAt(s, step.d);
  }

  lemma LeasesGrow(s: System, step: Step)
    requires Enabled(s, step)
    ensures |s.book.leases| <= |Next(s, step).book.leases|
  {
    hide Apply, Next, Enabled, OpOf, RecordAfter, LeaseAfter, BornRecord, BornId;
    NextShared(s, step);
  }

  lemma {:induction false} LeasesGrowOn(run: seq<System>, steps: seq<Step>, i: nat, j: nat)
    requires IsRun(run, steps) && i <= j < |run|
    ensures |run[i].book.leases| <= |run[j].book.leases|
  {
    hide Enabled, Next;
    if i < j {
      LeasesGrowOn(run, steps, i, j - 1);
      LeasesGrow(run[j - 1], steps[j - 1]);
    }
  }

  lemma HandInBook(s: System, d: nat, e: Exec)
    requires Ok(s) && d in s.disp && Held(s.disp[d].phase) == Some(e)
    ensures e.lease < |s.book.leases|
  {
    hide Sound, BookOk, HasHolder, Apart;
    OkAt(s, d);
  }

  lemma AtmReadIs(s: System, d: nat, stale: bool)
    requires Enabled(s, ReadAtm(d, stale))
    ensures var s' := Next(s, ReadAtm(d, stale));
            && d in s.disp && d in s'.disp && s'.disp[d].phase.AtmRead?
            && Held(s.disp[d].phase) == Some(s'.disp[d].phase.e)
  {
    hide Allowed, Attempt;
  }

  lemma ReadIsSnapshot(s: System, d: nat)
    requires Ok(s) && d in s.disp && s.disp[d].phase.AtmRead? && Locked(s.q, s.disp[d].phase.e)
    ensures s.disp[d].phase.atm == s.disp[d].phase.e.snap.atm
  {
    hide Sound, BookOk, HasHolder, Apart, HoldOk;
    OkAt(s, d);
  }

  /**
    fetchAtm and the script it decides on are separate round trips. Whenever the script takes
    effect, the value read, be it from the HASH or from the snapshot, is still the one stored.
   */
  lemma AtmReadIsCurrent(run: seq<System>, steps: seq<Step>, i: nat, j: nat, d: nat, stale: bool)
    requires i < j && Submits(run, steps, j, d) && Accepted(run[j], steps[j]) && StartsEmpty(run, steps)
    requires steps[i] == ReadAtm(d, stale) && d in run[i].disp
    requires Held(run[i].disp[d].phase) == Some(run[j].disp[d].phase.e)
    ensures var e := run[j].disp[d].phase.e;
            && d in run[i + 1].disp && run[i + 1].disp[d].phase.AtmRead? && e.id in run[j].q.jobs
            && run[i + 1].disp[d].phase.atm == run[j].q.jobs[e.id].atm
  {
    hide Ok, Accepted, Locked, Enabled, Next, OpOf;
    assert Enabled(run[i], steps[i]) && run[i + 1] == Next(run[i], steps[i]);
    AtmReadIs(run[i], d, stale);
    var e := run[j].disp[d].phase.e;
    Fencing(run, steps, j, d);
    var k: nat :| k < j && HeldFrom(run, k, j, d, e);
    InitialOk(run[0].limit);
    RunOk(run, steps, i);
    RunOk(run, steps, i + 1);
    HandInBook(run[i], d, e);
    if i <= k {
      LeasesGrowOn(run, steps, i, k);
    }
    assert Holds(run[i + 1], d, e) && Holds(run[j], d, e);
    ReadIsSnapshot(run[i + 1], d);
  }

  // ---------- every hold ends once ----------

  /** Step i acquires x. */
  ghost predicate Acquires(run: seq<System>, steps: seq<Step>, i: nat, x: Id) {
    && i < |steps| && i < |run| && OpOf(run[i], steps[i]).Some?
    && ChangeOf(run[i].q, OpOf(run[i], steps[i]).value, x).Taken?
  }

  /** Step i ends a hold on x: a finish, retry, delay or stall recovery takes effect. */
  ghost predicate EndsHold(run: seq<System>, steps: seq<Step>, i: nat, x: Id) {
    && i < |steps| && i < |run| && OpOf(run[i], steps[i]).Some?
    && (var c := ChangeOf(run[i].q, OpOf(run[i], steps[i]).value, x); Moves(c) || c.Reclaimed?)
  }

  lemma EndingVacates(s: System, step: Step, x: Id)
    requires Enabled(s, step) && Ok(s) && OpOf(s, step).Some?
    requires var c := ChangeOf(s.q, OpOf(s, step).value, x); Moves(c) || c.Reclaimed?
    ensures x in s.q.active && x !in Next(s, step).q.active
  {
    hide Apply, Note, Next, Enabled, ChangeOf, Allowed, Sound, BookOk, HasHolder, Apart, OpOf, BookAfter,
      DispatcherOk;
    NextShared(s, step);
    StepAllowed(s, step);
    StepFollows(s.q, OpOf(s, step).value, x);
    hide Where;
  }

  lemma ActiveBefore(s: System, step: Step, x: Id)
    requires Enabled(s, step) && Ok(s) && x in Next(s, step).q.active && x !in s.q.active
    ensures OpOf(s, step).Some? && ChangeOf(s.q, OpOf(s, step).value, x).Taken?
  {
    hide Apply, Note, Next, Enabled, ChangeOf, Allowed, Sound, BookOk, HasHolder, Apart, OpOf, BookAfter,
      DispatcherOk;
    NextShared(s, step);
    if OpOf(s, step).Some? {
      StepAllowed(s, step);
      ActiveChange(s.q, OpOf(s, step).value, x);
    }
  }

  lemma {:induction false} AcquiredBetween(run: seq<System>, steps: seq<Step>, i: nat, j: nat, x: Id)
    requires IsRun(run, steps) && Ok(run[0]) && i <= j < |run| && x !in run[i].q.active && x in run[j].q.active
    ensures exists k: nat :: i <= k < j && Acquires(run, steps, k, x)
  {
    hide Ok, Enabled, Next, OpOf, ChangeOf;
    RunOk(run, steps, j - 1);
    if x in run[j - 1].q.active {
      AcquiredBetween(run, steps, i, j - 1, x);
    } else {
      ActiveBefore(run[j - 1], steps[j - 1], x);
      assert Acquires(run, steps, j - 1, x);
    }
  }

  /** Between two endings of a hold on the same job there is an acquisition: none is ended twice. */
  lemma EndedOnce(run: seq<System>, steps: seq<Step>, i: nat, j: nat, x: Id)
    requires StartsEmpty(run, steps) && i < j && EndsHold(run, steps, i, x) && EndsHold(run, steps, j, x)
    ensures exists k: nat :: i < k < j && Acquires(run, steps, k, x)
  {
    hide Ok, Enabled, Next, OpOf, ChangeOf;
    InitialOk(run[0].limit);
    RunOk(run, steps, i);
    RunOk(run, steps, j);
    EndingVacates(run[i], steps[i], x);
    EndingVacates(run[j], steps[j], x);
    AcquiredBetween(run, steps, i + 1, j, x);
    var k: nat :| i + 1 <= k < j && Acquires(run, steps, k, x);
  }

  /** An accepted script ends the hold of its own execution: no newer acquisition of the job exists. */
  lemma EndsOwnLease(s: System, step: Step)
    requires step.Submit? && step.d in s.disp && s.disp[step.d].phase.Sending? && Ok(s) && Accepted(s, step)
    ensures var e := s.disp[step.d].phase.e;
            && e.id in s.book.lease && s.book.lease[e.id] == e.lease
            && Moves(ChangeOf(s.q, OpOf(s, step).value, e.id))
  {
    hide Apply, Script, Ok, ChangeOf, Accepted;
    SubmitReply(s, step);
    var p := s.disp[step.d].phase;
    ScriptChange(s.q, p.e, p.cmd, p.fetch, step.now, step.limited, p.e.id);
    HeldJob(s, step.d, p.e);
  }
}
