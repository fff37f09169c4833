/**
  Stop and Drain. After runCtx is cancelled every dispatcher starts at most one more handler;
  once all dispatchers of a worker are gone it holds no lock, and a worker that was drained
  leaves a job in active only if the lock of that job had expired on it.
 */
module Shutdown {
  import opened Wrappers
  import opened Queues
  import opened JobLife
  import opened Ledger
  import opened Books
  import opened Workers
  import opened WorkerSteps
  import opened Leases
  import opened Accounts

  // ---------- handlers started after the cancellation ----------

  /** How many of the steps i to n - 1 start a handler on dispatcher d. */
  function StartsBy(steps: seq<Step>, i: nat, n: nat, d: nat): nat
    requires i <= n <= |steps|
  {
    if n == i then 0 else StartsBy(steps, i, n - 1, d) + if steps[n - 1] == Start(d) then 1 else 0
  }

  predicate Cancelled(s: System, w: nat) {
    w in s.workers && s.workers[w].runCancelled
  }

  lemma LateStep(s: System, step: Step, d: nat)
    requires Enabled(s, step) && Ok(s) && d in s.disp && Cancelled(s, s.disp[d].worker)
    ensures var s' := Next(s, step);
            && d in s'.disp && s'.disp[d].worker == s.disp[d].worker && Cancelled(s', s.disp[d].worker)
            && s'.disp[d].late == s.disp[d].late + if step == Start(d) then 1 else 0
  {
    hide Apply, Note, Begin, LocalPhase, Allowed, Script, Ok;
  }

  lemma {:induction false} LateCounts(run: seq<System>, steps: seq<Step>, i: nat, n: nat, d: nat)
    requires IsRun(run, steps) && Ok(run[0]) && i <= n <= |steps|
    requires d in run[i].disp && Cancelled(run[i], run[i].disp[d].worker)
    ensures d in run[n].disp && run[n].disp[d].worker == run[i].disp[d].worker
    ensures Cancelled(run[n], run[i].disp[d].worker)
    ensures run[n].disp[d].late == run[i].disp[d].late + StartsBy(steps, i, n, d)
  {
    hide Ok, Enabled, Next;
    if n > i {
      LateCounts(run, steps, i, n - 1, d);
      RunOk(run, steps, n - 1);
      LateStep(run[n - 1], steps[n - 1], d);
    }
  }

  lemma LateAtMostOnce(s: System, d: nat)
    requires Ok(s) && d in s.disp
    ensures s.disp[d].late <= 1
  {
    hide Sound, BookOk, HasHolder, Apart, PhaseOk;
    OkAt(s, d);
  }

  /** From any moment at which runCtx is cancelled, a dispatcher starts at most one more handler. */
  lemma OneMoreHandler(run: seq<System>, steps: seq<Step>, i: nat, n: nat, d: nat)
    requires StartsEmpty(run, steps) && i <= n <= |steps|
    requires d in run[i].disp && Cancelled(run[i], run[i].disp[d].worker)
    ensures StartsBy(steps, i, n, d) <= 1
  {
    hide Ok, Enabled, Next;
    InitialOk(run[0].limit);
    LateCounts(run, steps, i, n, d);
    RunOk(run, steps, n);
    LateAtMostOnce(run[n], d);
  }

  // ---------- what a stopped worker leaves behind ----------

  /** Every dispatcher of w has returned, which is when Stop and Drain return nil. */
  predicate Stopped(s: System, w: nat) {
    forall d :: d in s.disp && s.disp[d].worker == w ==> s.disp[d].phase.Exited?
  }

  lemma LockIsHeld(s: System, x: Id) returns (d: nat)
    requires Ok(s) && x in s.q.lock
    ensures d in s.disp && Held(s.disp[d].phase).Some? && Held(s.disp[d].phase).value.id == x
    ensures Held(s.disp[d].phase).value.token == s.q.lock[x]
  {
    hide Sound, BookOk, Apart, DispatcherOk;
    assert HasHolder(s, x);
    d :| d in s.disp && Held(s.disp[d].phase).Some? && Held(s.disp[d].phase).value.id == x
         && Held(s.disp[d].phase).value.token == s.q.lock[x];
  }

  lemma HandOfWorker(s: System, d: nat)
    requires Ok(s) && d in s.disp && Held(s.disp[d].phase).Some?
    ensures var e := Held(s.disp[d].phase).value;
            && e.token in s.spent && s.spent[e.token] == s.disp[d].worker
            && e.lease < |s.book.leases| && s.book.leases[e.lease].worker == s.disp[d].worker
  {
    hide Sound, BookOk, Apart, HasHolder;
    OkAt(s, d);
  }

  /** Whoever has a lock is a dispatcher of the worker that drew its token, and its hold is the newest. */
  lemma LockHolder(s: System, x: Id) returns (d: nat)
    requires Ok(s) && x in s.q.lock
    ensures d in s.disp && !s.disp[d].phase.Exited?
    ensures s.q.lock[x] in s.spent && s.spent[s.q.lock[x]] == s.disp[d].worker
    ensures x in s.book.lease && s.book.lease[x] < |s.book.leases|
    ensures s.book.leases[s.book.lease[x]].worker == s.disp[d].worker
  {
    hide Ok;
    d := LockIsHeld(s, x);
    HandOfWorker(s, d);
    HeldJob(s, d, Held(s.disp[d].phase).value);
  }

  /** No lock remains under any token the stopped worker ever drew. */
  lemma NoLockRemains(run: seq<System>, steps: seq<Step>, n: nat, w: nat, x: Id)
    requires StartsEmpty(run, steps) && n <= |steps| && Stopped(run[n], w) && x in run[n].q.lock
    ensures run[n].q.lock[x] in run[n].spent && run[n].spent[run[n].q.lock[x]] != w
  {
    hide Ok, Enabled, Next;
    InitialOk(run[0].limit);
    RunOk(run, steps, n);
    var d := LockHolder(run[n], x);
  }

  /** Step j is the expiry of the lock held under lease l. */
  predicate Expires(s: System, step: Step, l: nat) {
    && step.Env? && step.op.ExpireLock? && step.op.id in s.q.lock
    && step.op.id in s.book.lease && s.book.lease[step.op.id] == l
  }

  predicate Expired(run: seq<System>, steps: seq<Step>, n: nat, l: nat) {
    exists j :: 0 <= j < n && j < |steps| && j < |run| && Expires(run[j], steps[j], l)
  }

  /** The step ends the hold under lease l, which is the newest on its job. */
  ghost predicate EndsLease(s: System, step: Step, l: nat) {
    && l < |s.book.leases| && OpOf(s, step).Some?
    && (var x := s.book.leases[l].id;
        x in s.book.lease && s.book.lease[x] == l && Ends(ChangeOf(s.q, OpOf(s, step).value, x)))
  }

  /** It does so by a stall recovery or a removal. */
  ghost predicate TakesAway(s: System, step: Step, l: nat) {
    && EndsLease(s, step, l)
    && (var c := ChangeOf(s.q, OpOf(s, step).value, s.book.leases[l].id); c.Reclaimed? || c.Gone?)
  }

  ghost predicate Ended(run: seq<System>, steps: seq<Step>, n: nat, l: nat) {
    exists j :: 0 <= j < n && j < |steps| && j < |run| && EndsLease(run[j], steps[j], l)
  }

  ghost predicate TakenAway(run: seq<System>, steps: seq<Step>, n: nat, l: nat) {
    exists j :: 0 <= j < n && j < |steps| && j < |run| && TakesAway(run[j], steps[j], l)
  }

  lemma StandingAt(s: System, x: Id)
    requires Ok(s) && x in s.book.lease
    ensures StandingOk(s.q, s.book, x)
  {
    hide Sound, HasHolder, Apart, DispatcherOk, RecordOk, LeaseOk, Capped, StandingOk;
  }

  lemma LockedIsActive(s: System, x: Id)
    requires Ok(s) && x in s.q.lock
    ensures x in s.q.active
  {
    hide BookOk, HasHolder, Apart, DispatcherOk;
  }

  lemma ExpiryUnlocks(q: Queue, op: Op, x: Id)
    requires op.ExpireLock?
    ensures ChangeOf(q, op, x).Unlocked? <==> x == op.id && x in q.lock
  {
    hide AddJob, Acquire, FinishJob, Retry, DelayJob, Extend, Release, ScanStalled, PromoteJob, ReprocessJob,
      ResumeRound, DrainQueue, Remove, NextIteration, NextSlot, SlotId, Digits, Deleted, Removable, Withdrawn,
      EnterSchedule, Withdraws;
  }

  /** A lease is lost exactly by an expiry, and ended exactly by a script that ends the hold. */
  lemma LeaseNext(s: System, step: Step, l: nat)
    requires l < |s.book.leases| && Enabled(s, step) && Ok(s)
    ensures l < |Next(s, step).book.leases|
    ensures var info, info' := s.book.leases[l], Next(s, step).book.leases[l];
            && info'.id == info.id && info'.worker == info.worker
            && (info'.lost <==> info.lost || Expires(s, step, l))
            && (info'.ended <==> info.ended || EndsLease(s, step, l))
  {
    hide Apply, ChangeOf, Script, Ok, Allowed, Next, Enabled, OpOf, Note, Expires, EndsLease, Begin;
    NextShared(s, step);
    if OpOf(s, step).Some? {
      LeaseNoted(s, step, l);
      ExpiryIs(s, step, l);
    } else {
      ExpireOp(s, step);
      NoOpNoEnd(s, step, l);
      BeginKeepsLeases(s, step);
    }
  }

  lemma BeginKeepsLeases(s: System, step: Step)
    requires OpOf(s, step).None?
    ensures BookAfter(s, step).leases == s.book.leases
  {
    hide OpOf;
  }

  lemma NoOpNoEnd(s: System, step: Step, l: nat)
    requires OpOf(s, step).None? && Enabled(s, step)
    ensures !EndsLease(s, step, l) && !Expires(s, step, l)
  {
    hide OpOf, Enabled;
    ExpireOp(s, step);
  }

  /** The lease after a script, in terms of the change to its job. */
  lemma LeaseNoted(s: System, step: Step, l: nat)
    requires l < |s.book.leases| && OpOf(s, step).Some?
    ensures var b, op := BookAfter(s, step), OpOf(s, step).value;
            l < |b.leases| && b.leases[l] == LeaseAfter(s.book, s.q, op, l)
  {
    hide Apply, OpOf, RecordAfter, LeaseAfter, BornRecord, BornId;
  }

  /** A lease is unlocked by an expiry exactly when the step expires it. */
  lemma ExpiryIs(s: System, step: Step, l: nat)
    requires l < |s.book.leases| && OpOf(s, step).Some? && Enabled(s, step) && Ok(s)
    ensures var info, info' := s.book.leases[l], LeaseAfter(s.book, s.q, OpOf(s, step).value, l);
            && info'.id == info.id && info'.worker == info.worker
            && (info'.lost <==> info.lost || Expires(s, step, l))
            && (info'.ended <==> info.ended || EndsLease(s, step, l))
  {
    hide Apply, ChangeOf, Ok, Enabled, OpOf, Ends;
    ExpireOp(s, step);
    if Expires(s, step, l) {
      StandingAt(s, step.op.id);
    }
    if OpOf(s, step).value.ExpireLock? {
      ExpiryUnlocks(s.q, OpOf(s, step).value, s.book.leases[l].id);
    }
  }

  lemma ExpireOp(s: System, step: Step)
    requires Enabled(s, step)
    ensures OpOf(s, step).Some? && OpOf(s, step).value.ExpireLock? ==> step.Env? && step.op == OpOf(s, step).value
    ensures step.Env? ==> OpOf(s, step) == Some(step.op)
  {
    hide Allowed;
  }

  lemma LeaseBorn(s: System, step: Step, l: nat)
    requires Enabled(s, step) && Ok(s) && |s.book.leases| <= l < |Next(s, step).book.leases|
    ensures !Next(s, step).book.leases[l].lost && !Next(s, step).book.leases[l].ended && !Expires(s, step, l)
  {
    hide Apply, ChangeOf, Script, Allowed, ViewOf, Next, RecordAfter, BornRecord, BornId, Enabled, OpOf, LeaseAfter,
      Ok;
    NextShared(s, step);
    if Expires(s, step, l) {
      StandingAt(s, step.op.id);
    }
  }

  /** The flags of a lease are the account of the steps so far. */
  lemma {:induction false} FlagsAccount(run: seq<System>, steps: seq<Step>, n: nat, l: nat)
    requires IsRun(run, steps) && Ok(run[0]) && run[0].book.leases == [] && n <= |steps|
    ensures l < |run[n].book.leases| ==>
              && (run[n].book.leases[l].lost <==> Expired(run, steps, n, l))
              && (run[n].book.leases[l].ended <==> Ended(run, steps, n, l))
    ensures l >= |run[n].book.leases| ==> !Expired(run, steps, n, l) && !Ended(run, steps, n, l)
  {
    hide Ok, Enabled, Next, Expires, EndsLease;
    if n > 0 {
      FlagsAccount(run, steps, n - 1, l);
      RunOk(run, steps, n - 1);
      OneMore(run, steps, n, l);
      if l < |run[n - 1].book.leases| {
        LeaseNext(run[n - 1], steps[n - 1], l);
      } else {
        NotYet(run[n - 1], steps[n - 1], l);
        if l < |run[n].book.leases| {
          LeaseBorn(run[n - 1], steps[n - 1], l);
        }
      }
    }
  }

  lemma NotYet(s: System, step: Step, l: nat)
    requires Ok(s) && l >= |s.book.leases|
    ensures !Expires(s, step, l) && !EndsLease(s, step, l)
  {
    hide Ok, ChangeOf, OpOf;
    if Expires(s, step, l) {
      StandingAt(s, step.op.id);
    }
  }

  lemma OneMore(run: seq<System>, steps: seq<Step>, n: nat, l: nat)
    requires 0 < n <= |steps| && n < |run|
    ensures Expired(run, steps, n, l) <==> Expired(run, steps, n - 1, l) || Expires(run[n - 1], steps[n - 1], l)
    ensures Ended(run, steps, n, l) <==> Ended(run, steps, n - 1, l) || EndsLease(run[n - 1], steps[n - 1], l)
  {
    hide Expires, EndsLease;
  }

  lemma LeftInActive(s: System, w: nat, x: Id)
    requires Ok(s) && w in s.workers && !Excused(s.workers[w]) && Stopped(s, w) && x in s.q.active
    ensures x in s.book.lease && s.book.lease[x] < |s.book.leases|
    ensures var info := s.book.leases[s.book.lease[x]]; info.worker == w ==> info.lost
  {
    hide Sound, HasHolder, Apart, DispatcherOk, RecordOk, Capped, StandingOk;
    assert LeaseOk(s.q, s.book, x);
    if x in s.q.lock {
      var d := LockHolder(s, x);
    }
  }

  /** A finish, retry or delay ends a hold whose lock is there, so that it has not expired. */
  lemma MoveHasLock(s: System, step: Step, l: nat)
    requires Ok(s) && Enabled(s, step) && EndsLease(s, step, l) && !TakesAway(s, step, l)
    ensures !s.book.leases[l].lost && !Expires(s, step, l)
  {
    hide Ok, ChangeOf, OpOf, Enabled, Allowed, Apply;
    var x := s.book.leases[l].id;
    StandingAt(s, x);
    StepAllowed(s, step);
    SoundIn(s);
    StepFollows(s.q, OpOf(s, step).value, x);
    ExpireOp(s, step);
    if Expires(s, step, l) {
      StandingAt(s, step.op.id);
      ExpiryUnlocks(s.q, step.op, x);
    }
    hide Where, Sound;
  }

  lemma SoundIn(s: System)
    requires Ok(s)
    ensures Sound(s.q)
  {
    hide Sound, BookOk, HasHolder, Apart, DispatcherOk;
  }

  /** A lease whose lock expired is ended by nothing but a stall recovery or a removal. */
  lemma ExpiredEndsOtherwise(run: seq<System>, steps: seq<Step>, n: nat, l: nat)
    requires IsRun(run, steps) && Ok(run[0]) && run[0].book.leases == [] && n <= |steps|
    requires Expired(run, steps, n, l) && Ended(run, steps, n, l)
    ensures TakenAway(run, steps, n, l)
  {
    hide Ok, Enabled, Next, Expires, EndsLease, TakesAway;
    var i: nat :| i < n && Expires(run[i], steps[i], l);
    var j: nat :| j < n && EndsLease(run[j], steps[j], l);
    if !TakesAway(run[j], steps[j], l) {
      RunOk(run, steps, i);
      RunOk(run, steps, j);
      InBook(run[j], steps[j], l);
      MoveHasLock(run[j], steps[j], l);
      FlagsAccount(run, steps, j, l);
      if j < i {
        assert Ended(run, steps, i, l);
        FlagsAccount(run, steps, i, l);
        ExpiryFindsOpen(run[i], steps[i], l);
      }
      assert false;
    }
  }

  lemma InBook(s: System, step: Step, l: nat)
    requires EndsLease(s, step, l)
    ensures l < |s.book.leases|
  {
  }

  lemma ExpiryFindsOpen(s: System, step: Step, l: nat)
    requires Ok(s) && Expires(s, step, l)
    ensures l < |s.book.leases| && !s.book.leases[l].ended
  {
    hide Ok;
    StandingAt(s, step.op.id);
    LockedIsActive(s, step.op.id);
  }

  /**
    Of a worker whose dispatchers have all returned, whose jobs were not cancelled and none of
    whose finishing calls failed: a job whose newest acquisition was its own is still in active
    exactly when the lock of that acquisition expired and neither a stall recovery nor a
    removal has taken the job away since.
   */
  lemma DrainedLeavesExactly(run: seq<System>, steps: seq<Step>, n: nat, w: nat, x: Id)
    requires StartsEmpty(run, steps) && n <= |steps| && x in run[n].book.lease
    requires w in run[n].workers && !Excused(run[n].workers[w]) && Stopped(run[n], w)
    ensures var b, l := run[n].book, run[n].book.lease[x];
            && l < |b.leases|
            && (b.leases[l].worker == w ==>
                  (x in run[n].q.active <==> Expired(run, steps, n, l) && !TakenAway(run, steps, n, l)))
  {
    hide Ok, Enabled, Next, Expires, EndsLease, TakesAway, Stopped, Excused;
    InitialOk(run[0].limit);
    RunOk(run, steps, n);
    StandingAt(run[n], x);
    var l := run[n].book.lease[x];
    FlagsAccount(run, steps, n, l);
    if x in run[n].q.active {
      LeftInActive(run[n], w, x);
      AwayIsEnded(run, steps, n, l);
    } else if Expired(run, steps, n, l) {
      ExpiredEndsOtherwise(run, steps, n, l);
    }
  }

  lemma AwayIsEnded(run: seq<System>, steps: seq<Step>, n: nat, l: nat)
    ensures TakenAway(run, steps, n, l) ==> Ended(run, steps, n, l)
  {
    hide EndsLease, OpOf, ChangeOf;
  }

  /** In particular nothing is left in active of a drained worker on which no lock expired. */
  lemma DrainedWithoutExpiry(run: seq<System>, steps: seq<Step>, n: nat, w: nat, x: Id)
    requires StartsEmpty(run, steps) && n <= |steps| && x in run[n].book.lease
    requires w in run[n].workers && !Excused(run[n].workers[w]) && Stopped(run[n], w)
    requires !Expired(run, steps, n, run[n].book.lease[x]) && x in run[n].q.active
    ensures run[n].book.lease[x] < |run[n].book.leases|
    ensures run[n].book.leases[run[n].book.lease[x]].worker != w
  {
    hide StartsEmpty, Stopped, Excused, Expired, TakenAway;
    DrainedLeavesExactly(run, steps, n, w, x);
  }

  // ---------- how an expiry strands a job ----------

  /** Dispatcher d is the last of its worker, which is being drained, and has e in hand. */
  ghost predicate LastAtWork(s: System, d: nat, e: Exec) {
    && Ok(s) && d in s.disp && Held(s.disp[d].phase) == Some(e) && Cancelled(s, s.disp[d].worker)
    && !Excused(s.workers[s.disp[d].worker]) && e.id in s.q.active
    && forall d' :: d' in s.disp && d' != d && s.disp[d'].worker == s.disp[d].worker ==> s.disp[d'].phase.Exited?
  }

  /** Nothing but the phase of d and, perhaps, the lock of e differs, and the lock is gone. */
  ghost predicate Stranded(s: System, s': System, d: nat, e: Exec) {
    && Ok(s') && d in s.disp && d in s'.disp && s'.workers == s.workers
    && s'.disp == s.disp[d := s'.disp[d]] && s'.disp[d].worker == s.disp[d].worker
    && e.id in s'.q.active && !Locked(s'.q, e)
  }

  lemma ExpireStep(s: System, d: nat, e: Exec)
    requires LastAtWork(s, d, e)
    ensures Enabled(s, Env(ExpireLock(e.id)))
    ensures var s' := Next(s, Env(ExpireLock(e.id))); Stranded(s, s', d, e) && s'.disp[d] == s.disp[d]
  {
    hide Ok, Note;
    NextOk(s, Env(ExpireLock(e.id)));
  }

  lemma LocalStep(s: System, s1: System, d: nat, e: Exec, step: Step)
    requires Stranded(s, s1, d, e) && IsLocal(step) && step.d == d && Enabled(s1, step)
    ensures var s' := Next(s1, step);
            && Stranded(s, s', d, e) && s1.disp[d].worker in s1.workers
            && s'.disp[d].phase == LocalPhase(s1.q, s1.workers[s1.disp[d].worker], s1.disp[d].phase, step)
  {
    hide Ok, LocalPhase, Allowed;
    NextOk(s1, step);
  }

  lemma RefusedStep(s: System, s1: System, d: nat, e: Exec)
    requires Stranded(s, s1, d, e) && s1.disp[d].worker in s1.workers
    requires s1.disp[d].phase.Sending? && s1.disp[d].phase.e == e
    ensures Enabled(s1, Submit(d, 0, false))
    ensures var s' := Next(s1, Submit(d, 0, false)); Stranded(s, s', d, e) && s'.disp[d].phase == Refused(e)
  {
    hide Ok, Apply, Note, Script, Grab, Where;
    var step := Submit(d, 0, false);
    NextOk(s1, step);
    LostLockIsHarmless(s1, step, e.id);
  }

  lemma CleanStep(s: System, s1: System, d: nat, e: Exec)
    requires Stranded(s, s1, d, e) && s1.disp[d].phase == Refused(e) && s1.disp[d].worker in s1.workers
    ensures Enabled(s1, Cleanup(d))
    ensures var s' := Next(s1, Cleanup(d)); Stranded(s, s', d, e) && s'.disp[d].phase == Top(None)
  {
    hide Ok, Note;
    NextOk(s1, Cleanup(d));
  }

  lemma ExitStep(s: System, s1: System, d: nat, e: Exec)
    requires Stranded(s, s1, d, e) && s1.disp[d].phase == Leaving(None) && s1.disp[d].worker in s1.workers
    ensures Enabled(s1, Depart(d))
    ensures var s' := Next(s1, Depart(d)); Stranded(s, s', d, e) && s'.disp[d].phase == Exited
  {
    hide Ok, Apply;
    NextOk(s1, Depart(d));
  }

  lemma HandlerEnds(s: System, s1: System, d: nat, e: Exec) returns (s2: System, s3: System)
    requires Stranded(s, s1, d, e) && s1.disp[d].phase == Running(e) && s1.disp[d].worker in s1.workers
    ensures Enabled(s1, Return(d, Success)) && s2 == Next(s1, Return(d, Success))
    ensures Enabled(s2, Resolve(d, 0)) && s3 == Next(s2, Resolve(d, 0))
    ensures Stranded(s, s3, d, e) && s3.disp[d].phase.Sending? && s3.disp[d].phase.e == e
  {
    hide Ok, Enabled, Next, Locked, Decide;
    ReturnEnabled(s1, d, e);
    LocalStep(s, s1, d, e, Return(d, Success));
    s2 := Next(s1, Return(d, Success));
    ResolveEnabled(s2, d, e);
    LocalStep(s, s2, d, e, Resolve(d, 0));
    s3 := Next(s2, Resolve(d, 0));
  }

  lemma DispatcherEnds(s: System, s5: System, d: nat, e: Exec) returns (s6: System, s7: System)
    requires Stranded(s, s5, d, e) && s5.disp[d].phase == Top(None) && Cancelled(s5, s5.disp[d].worker)
    ensures Enabled(s5, Check(d)) && s6 == Next(s5, Check(d))
    ensures Enabled(s6, Depart(d)) && s7 == Next(s6, Depart(d))
    ensures Stranded(s, s7, d, e) && s7.disp[d].phase == Exited
  {
    hide Ok, Enabled, Next, Locked;
    CheckEnabled(s5, d);
    LocalStep(s, s5, d, e, Check(d));
    s6 := Next(s5, Check(d));
    ExitStep(s, s6, d, e);
    s7 := Next(s6, Depart(d));
  }

  /**
    The condition is needed: whenever the last dispatcher of a draining worker runs a handler,
    an expiry of its lock lets the worker stop with the job left in active.
   */
  lemma ExpiryStrandsJob(s: System, d: nat, e: Exec) returns (run: seq<System>, steps: seq<Step>)
    requires LastAtWork(s, d, e) && s.disp[d].phase == Running(e)
    ensures IsRun(run, steps) && run[0] == s
    ensures var end, w := run[|run| - 1], s.disp[d].worker;
            && Stopped(end, w) && w in end.workers && !Excused(end.workers[w]) && e.id in end.q.active
  {
    hide Ok, Enabled, Next, Locked, Stopped, LastAtWork, Excused;
    WorkerKnown(s, d, e);
    steps := [
      Env(ExpireLock(e.id)), Return(d, Success), Resolve(d, 0), Submit(d, 0, false), Cleanup(d), Check(d), Depart(d)];
    ExpireStep(s, d, e);
    var s1 := Next(s, steps[0]);
    var s2, s3 := HandlerEnds(s, s1, d, e);
    RefusedStep(s, s3, d, e);
    var s4 := Next(s3, steps[3]);
    CleanStep(s, s4, d, e);
    var s5 := Next(s4, steps[4]);
    var s6, s7 := DispatcherEnds(s, s5, d, e);
    StoppedAtEnd(s, s7, d, e);
    run := [s, s1, s2, s3, s4, s5, s6, s7];
  }

  lemma WorkerKnown(s: System, d: nat, e: Exec)
    requires LastAtWork(s, d, e)
    ensures d in s.disp && s.disp[d].worker in s.workers && s.workers[s.disp[d].worker].runCancelled
  {
    hide Ok;
  }

  lemma StoppedAtEnd(s: System, s': System, d: nat, e: Exec)
    requires LastAtWork(s, d, e) && Stranded(s, s', d, e) && s'.disp[d].phase.Exited?
    ensures Stopped(s', s.disp[d].worker) && s.disp[d].worker in s'.workers && !Excused(s'.workers[s.disp[d].worker])
  {
    hide Ok, Locked;
  }

  lemma ReturnEnabled(s: System, d: nat, e: Exec)
    requires d in s.disp && s.disp[d].phase == Running(e) && s.disp[d].worker in s.workers
    ensures Enabled(s, Return(d, Success))
  {
    hide Allowed;
  }

  lemma ResolveEnabled(s: System, d: nat, e: Exec)
    requires d in s.disp && s.disp[d].phase == Returned(e, Success) && s.disp[d].worker in s.workers
    ensures Enabled(s, Resolve(d, 0))
  {
    hide Allowed;
  }

  lemma CheckEnabled(s: System, d: nat)
    requires d in s.disp && s.disp[d].phase.Top? && s.disp[d].worker in s.workers
    ensures Enabled(s, Check(d))
  {
    hide Allowed;
  }
}
