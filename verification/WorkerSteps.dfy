/**
  The remaining steps of the worker system keep its invariant: the scripts that end a lease,
  the clean-up of locks, handler starts, cancellation and hiring. Together with the steps of
  module Workers they give the invariant of every run.
 */
module WorkerSteps {
  import opened Wrappers
  import opened Queues
  import opened JobLife
  import opened Ledger
  import opened Books
  import opened Workers

  // ---------- the scripts that end a lease ----------

  lemma ScriptAllowed(q: Queue, e: Exec, cmd: Command, fetch: bool, now: int, limited: bool)
    requires e.token != NO_LOCK
    ensures Allowed(q, Script(e, cmd, fetch, now, limited)) && WorkerOp(Script(e, cmd, fetch, now, limited))
    ensures !Script(e, cmd, fetch, now, limited).ReleaseLock? && !Script(e, cmd, fetch, now, limited).ExpireLock?
    ensures Script(e, cmd, fetch, now, limited).token == e.token && !Script(e, cmd, fetch, now, limited).MoveToActive?
    ensures Script(e, cmd, fetch, now, limited).MoveToFinished? <==> cmd.Finish?
  {
  }

  /** The lock holder's script moves its own job as told; anybody else's changes nothing at all. */
  lemma ScriptChange(q: Queue, e: Exec, cmd: Command, fetch: bool, now: int, limited: bool, x: Id)
    ensures var c := ChangeOf(q, Script(e, cmd, fetch, now, limited), x);
            && !c.Reclaimed? && !c.Unlocked? && (!Owns(q, e.id, e.token) ==> c.Same?)
            && (Moves(c) <==> x == e.id && Owns(q, e.id, e.token))
            && (Moves(c) ==> Matches(c, cmd))
  {
    hide AddJob, Acquire, FinishJob, Retry, DelayJob, Extend, Release, ScanStalled, PromoteJob, ReprocessJob,
      ResumeRound, DrainQueue, Remove, NextIteration, NextSlot, SlotId, Digits, Owns, Withdrawn, EnterSchedule;
    match cmd
    case Finish(bucket, keep, history) =>
    case Requeue(lifo, history) =>
    case Postpone(delay, skip, history) =>
  }

  lemma RetryReply(q: Queue, id: Id, token: Token, lifo: bool, history: Option<History>, now: int)
    requires Sound(q) && token != NO_LOCK
    ensures var reply := Retry(q, id, token, lifo, history, now).1;
            reply.Code? && (reply.code < 0 <==> !Owns(q, id, token)) && reply.code != -3
  {
    hide Leave, Sound, PromoteDue, Enqueue, BumpAtm, Where;
    var q0 := PromoteDue(q, now);
    WaitHasNoMarker(q);
    PromoteDueEffect(q, now, id);
    PromoteDueSound(q, now);
    if Owns(q, id, token) {
      OwnerFacts(q0, id, token);
      LeaveEffect(q0, id, token, history, id);
    } else {
      LeaveRefused(q0, id, token, history);
    }
  }

  lemma DelayReply(q: Queue, id: Id, token: Token, now: int, delay: int, skip: bool, history: Option<History>)
    requires Sound(q) && token != NO_LOCK
    ensures var reply := DelayJob(q, id, token, now, delay, skip, history).1;
            reply.Code? && (reply.code < 0 <==> !Owns(q, id, token)) && reply.code != -3
  {
    hide Leave, Sound, DelayedScore, BumpAtm, Where;
    if Owns(q, id, token) {
      OwnerFacts(q, id, token);
      LeaveEffect(q, id, token, history, id);
    } else {
      LeaveRefused(q, id, token, history);
    }
  }

  lemma FinishNotMisplaced(q: Queue, id: Id, token: Token, bucket: Bucket, keep: Keep, history: Option<History>,
                           now: int, fetchNext: bool, limited: bool)
    requires Sound(q) && token != NO_LOCK
    ensures FinishJob(q, id, token, bucket, keep, history, now, fetchNext, limited).1 != Code(-3)
    ensures FinishJob(q, id, token, bucket, keep, history, now, fetchNext, limited).1.Got? ==> fetchNext
  {
    hide Leave, Sound, BumpAtm, Settle, Acquire, Where;
    FinishReply(q, id, token, bucket, keep, history, now, fetchNext, limited, id);
    if !Owns(q, id, token) {
      LeaveRefused(q, id, token, history);
    }
  }

  /**
    The reply tells exactly whether the lock was still held. The code for "lock removed but
    not in active" is never seen, and a fetched successor is never the job just finished.
   */
  lemma ScriptReply(q: Queue, e: Exec, cmd: Command, fetch: bool, now: int, limited: bool)
    requires Sound(q) && e.token != NO_LOCK
    ensures var reply := Apply(q, Script(e, cmd, fetch, now, limited)).1;
            && (reply.Code? && reply.code < 0 <==> !Owns(q, e.id, e.token))
            && reply != Code(-3)
            && (reply.Got? ==> cmd.Finish? && fetch && reply.id != e.id && Owns(q, e.id, e.token))
  {
    hide FinishJob, Retry, DelayJob, Sound, Owns;
    match cmd
    case Finish(bucket, keep, history) =>
      FinishReply(q, e.id, e.token, bucket, keep, history, now, fetch, limited, e.id);
      FinishNotMisplaced(q, e.id, e.token, bucket, keep, history, now, fetch, limited);
    case Requeue(lifo, history) => RetryReply(q, e.id, e.token, lifo, history, now);
    case Postpone(delay, skip, history) => DelayReply(q, e.id, e.token, now, delay, skip, history);
  }

  lemma ScriptFaithful(s: System, d: nat, now: int, limited: bool)
    requires d in s.disp && s.disp[d].phase.Sending? && Ok(s)
    ensures var p := s.disp[d].phase;
            AllFaithful(s.limit, s.q, Script(p.e, p.cmd, p.fetch, now, limited), Some(p.entry))
  {
    hide Apply, ChangeOf, Allowed, Sound, BookOk, HasHolder, Apart, Decide, Matches, Moves;
    assert DispatcherOk(s, d);
    var p := s.disp[d].phase;
    var op := Script(p.e, p.cmd, p.fetch, now, limited);
    forall x
      ensures Faithful(s.limit, ViewOf(s.q, x), ChangeOf(s.q, op, x), Some(p.entry))
    {
      ScriptChange(s.q, p.e, p.cmd, p.fetch, now, limited, x);
    }
  }

  /** A refused script leaves the queue as it was to everybody, and its dispatcher without the lock. */
  lemma RefusedOk(s: System, d: nat, now: int, limited: bool)
    requires d in s.disp && s.disp[d].phase.Sending? && !Owns(s.q, s.disp[d].phase.e.id, s.disp[d].phase.e.token)
    requires Ok(s)
    ensures Ok(AfterSubmit(s, d, now, limited))
  {
    hide Apply, ChangeOf, Allowed, Sound, Note, BookOk, HasHolder, Apart, AllFaithful, Script;
    assert DispatcherOk(s, d);
    var p := s.disp[d].phase;
    var op := Script(p.e, p.cmd, p.fetch, now, limited);
    ScriptFaithful(s, d, now, limited);
    ScriptAllowed(s.q, p.e, p.cmd, p.fetch, now, limited);
    ScriptReply(s.q, p.e, p.cmd, p.fetch, now, limited);
    forall x
      ensures !ChangeOf(s.q, op, x).Taken?
    {
      ScriptChange(s.q, p.e, p.cmd, p.fetch, now, limited, x);
    }
    PassiveOk(s, op, s.disp[d].worker, Some(p.entry));
    var s1 := Perform(s, op, s.disp[d].worker, Some(p.entry));
    ExecStable(s.q, s.book, op, s.disp[d].worker, Some(p.entry), p.e);
    assert DispatcherOk(s1, d);
    PutOk(s1, d, Refused(p.e));
  }

  lemma SubmitDispatcher(s: System, d: nat, now: int, limited: bool)
    requires d in s.disp && s.disp[d].phase.Sending? && Owns(s.q, s.disp[d].phase.e.id, s.disp[d].phase.e.token)
    requires Ok(s)
    ensures DispatcherOk(AfterSubmit(s, d, now, limited), d)
  {
    hide Apply, ChangeOf, Allowed, Sound, Note, BookOk, HasHolder, Apart, AllFaithful, Script;
    assert DispatcherOk(s, d);
    var p := s.disp[d].phase;
    var op := Script(p.e, p.cmd, p.fetch, now, limited);
    ScriptFaithful(s, d, now, limited);
    ScriptAllowed(s.q, p.e, p.cmd, p.fetch, now, limited);
    ScriptReply(s.q, p.e, p.cmd, p.fetch, now, limited);
    if Apply(s.q, op).1.Got? {
      GrabbedOk(s, op, s.disp[d].worker, Some(p.entry));
    }
  }

  lemma MovedUnlocked(q: Queue, e: Exec, cmd: Command, fetch: bool, now: int, limited: bool)
    requires Sound(q) && e.token != NO_LOCK && Owns(q, e.id, e.token)
    ensures e.id !in Apply(q, Script(e, cmd, fetch, now, limited)).0.lock
  {
    hide Apply, ChangeOf, Allowed, Script, Sound;
    ScriptAllowed(q, e, cmd, fetch, now, limited);
    ScriptChange(q, e, cmd, fetch, now, limited, e.id);
    StepFollows(q, Script(e, cmd, fetch, now, limited), e.id);
    hide Where;
  }

  lemma OwnToken(s: System, d: nat, d': nat)
    requires Ok(s) && d in s.disp && d' in s.disp && d != d'
    requires Held(s.disp[d].phase).Some? && Held(s.disp[d'].phase).Some?
    ensures Held(s.disp[d].phase).value.token != Held(s.disp[d'].phase).value.token
  {
    hide Sound, BookOk, HasHolder, DispatcherOk;
    assert Apart(s, d, d');
  }

  lemma SubmittedOk(s: System, d: nat, now: int, limited: bool)
    requires d in s.disp && s.disp[d].phase.Sending? && Owns(s.q, s.disp[d].phase.e.id, s.disp[d].phase.e.token)
    requires Ok(s)
    ensures Ok(AfterSubmit(s, d, now, limited))
  {
    hide Apply, ChangeOf, Allowed, Sound, Note, BookOk, HasHolder, PhaseOk, Apart, AllFaithful, Script, DispatcherOk;
    var p, worker := s.disp[d].phase, s.disp[d].worker;
    var op := Script(p.e, p.cmd, p.fetch, now, limited);
    var s' := AfterSubmit(s, d, now, limited);
    TokenIsReal(s, d);
    ScriptFaithful(s, d, now, limited);
    ScriptAllowed(s.q, p.e, p.cmd, p.fetch, now, limited);
    ScriptReply(s.q, p.e, p.cmd, p.fetch, now, limited);
    MovedUnlocked(s.q, p.e, p.cmd, p.fetch, now, limited);
    SubmitDispatcher(s, d, now, limited);
    forall d' | d' in s.disp
      ensures Apart(s', d, d') && Apart(s', d', d)
      ensures d' != d && Held(s.disp[d'].phase).Some? ==> Held(s.disp[d'].phase).value.token != p.e.token
    {
      if d' != d && Held(s.disp[d'].phase).Some? {
        OwnToken(s, d, d');
      }
      FreshApart(s, s', d, d');
    }
    forall id | id in s'.q.lock
      ensures HasHolder(s', id)
    {
      TakenExactly(s.q, op, id);
      HolderStep(s, op, worker, Some(p.entry), d, s', id);
    }
    forall l | 0 <= l < |s'.book.leases| && s'.book.leases[l].dropped
      ensures s'.book.leases[l].worker in s'.workers && Excused(s'.workers[s'.book.leases[l].worker])
    {
      DroppedStep(s, op, worker, Some(p.entry), d, s', l);
    }
    ActedOk(s, op, worker, Some(p.entry), d, s');
  }

  lemma TokenIsReal(s: System, d: nat)
    requires Ok(s) && d in s.disp && Held(s.disp[d].phase).Some?
    ensures Held(s.disp[d].phase).value.token != NO_LOCK
  {
    hide Sound, BookOk, HasHolder, Apart;
    assert DispatcherOk(s, d);
  }

  lemma SubmitOk(s: System, d: nat, now: int, limited: bool)
    requires d in s.disp && s.disp[d].phase.Sending? && Ok(s)
    ensures Ok(AfterSubmit(s, d, now, limited))
  {
    hide Ok, AfterSubmit, Owns;
    var p := s.disp[d].phase;
    if Owns(s.q, p.e.id, p.e.token) {
      SubmittedOk(s, d, now, limited);
    } else {
      RefusedOk(s, d, now, limited);
    }
  }

  // ---------- clean-up ----------

  lemma ReleaseUnlocks(q: Queue, id: Id, token: Token)
    ensures var q' := Apply(q, ReleaseLock(id, token)).0; !(id in q'.lock && q'.lock[id] == token)
  {
  }

  /** Giving a lock back is allowed to a dispatcher that no longer has it, or that was told to drop its jobs. */
  lemma ReleaseOk(s: System, d: nat, phase: Phase)
    requires Ok(s) && d in s.disp && Held(s.disp[d].phase).Some?
    requires Held(phase).None? && !phase.Checked? && MayStart(phase) == 0
    requires || !Locked(s.q, Held(s.disp[d].phase).value)
             || (s.disp[d].worker in s.workers && Excused(s.workers[s.disp[d].worker]))
    ensures Ok(AfterRelease(s, d, Held(s.disp[d].phase).value, phase))
  {
    hide Apply, ChangeOf, Allowed, Sound, Note, BookOk, HasHolder, Apart, AllFaithful;
    var e, worker := Held(s.disp[d].phase).value, s.disp[d].worker;
    var op := ReleaseLock(e.id, e.token);
    assert DispatcherOk(s, d);
    PlainAllowed(s.q, op);
    PlainFaithful(s.limit, s.q, op);
    NoneTaken(s.q, op);
    forall x | ChangeOf(s.q, op, x).Unlocked? && x in s.book.lease && s.book.lease[x] < |s.book.leases|
      ensures var w := s.book.leases[s.book.lease[x]].worker; w in s.workers && Excused(s.workers[w])
    {
      PlainChange(s.q, op, x);
    }
    PassiveOk(s, op, worker, None);
    var s1 := Perform(s, op, worker, None);
    assert DispatcherOk(s1, d);
    ReleaseUnlocks(s.q, e.id, e.token);
    PutOk(s1, d, phase);
  }

  lemma CleanupOk(s: System, d: nat)
    requires Ok(s) && Enabled(s, Cleanup(d))
    ensures Ok(Next(s, Cleanup(d)))
  {
    hide Sound, BookOk, HasHolder, Apart, AfterRelease, HoldOk;
    assert DispatcherOk(s, d);
    ReleaseOk(s, d, Top(None));
  }

  lemma DepartOk(s: System, d: nat)
    requires Ok(s) && Enabled(s, Depart(d))
    ensures Ok(Next(s, Depart(d)))
  {
    hide Sound, BookOk, HasHolder, Apart, AfterRelease, HoldOk;
    assert DispatcherOk(s, d);
    if s.disp[d].phase.held.None? {
      PutOk(s, d, Exited);
    } else {
      ReleaseOk(s, d, Exited);
    }
  }

  // ---------- starting a handler ----------

  lemma StartedConsistent(limit: int, v: View, r: Record, l: nat)
    requires l in r.granted
    ensures Capped(limit, r) ==> Capped(limit, r.(started := r.started + {l}))
    ensures Consistent(limit, v, r) ==> Consistent(limit, v, r.(started := r.started + {l}))
  {
    hide Fold, Delays, WellEnded, OnePlaced, AttemptsBounded;
  }

  lemma BeginBook(limit: int, q: Queue, b: Book, e: Exec)
    requires BookOk(limit, q, b) && e.serial < |b.records| && e.lease in b.records[e.serial].granted
    ensures BookOk(limit, q, Begin(b, e))
  {
    hide Consistent, Capped, ViewOf;
    var b' := Begin(b, e);
    forall x | x in q.jobs
      ensures RecordOk(limit, q, b', x)
    {
      assert RecordOk(limit, q, b, x);
      StartedConsistent(limit, ViewOf(q, x), b.records[e.serial], e.lease);
    }
    forall x | x in q.active
      ensures LeaseOk(q, b', x)
    {
      assert LeaseOk(q, b, x);
    }
    forall x | x in b'.lease
      ensures StandingOk(q, b', x)
    {
      assert StandingOk(q, b, x);
    }
    StartedConsistent(limit, ABSENT, b.records[e.serial], e.lease);
  }

  lemma StartDispatcher(s: System, d: nat, d': nat)
    requires d in s.disp && s.disp[d].phase.Begun? && !s.disp[d].phase.e.snap.defa && d' in s.disp
    requires Ok(s)
    ensures DispatcherOk(AfterStart(s, d), d')
  {
    hide Sound, BookOk, HasHolder, Allowed;
    assert DispatcherOk(s, d) && DispatcherOk(s, d') && Apart(s, d, d');
    if d' == d {
    } else {
    }
  }

  lemma StartOk(s: System, d: nat)
    requires d in s.disp && s.disp[d].phase.Begun? && !s.disp[d].phase.e.snap.defa
    requires Ok(s)
    ensures Ok(AfterStart(s, d))
  {
    hide Sound, BookOk, PhaseOk;
    var e, s' := s.disp[d].phase.e, AfterStart(s, d);
    forall d' | d' in s'.disp
      ensures DispatcherOk(s', d')
    {
      StartDispatcher(s, d, d');
    }
    forall d1, d2 | d1 in s'.disp && d2 in s'.disp
      ensures Apart(s', d1, d2)
    {
      assert Apart(s, d1, d2);
    }
    forall id | id in s'.q.lock
      ensures HasHolder(s', id)
    {
      assert HasHolder(s, id);
      var d0 :| d0 in s.disp && Held(s.disp[d0].phase).Some? && Held(s.disp[d0].phase).value.id == id
                && Held(s.disp[d0].phase).value.token == s.q.lock[id];
      assert Held(s'.disp[d0].phase) == Held(s.disp[d0].phase);
    }
    assert e.serial < |s.book.records| && e.lease in s.book.records[e.serial].granted by {
      BegunLease(s, d);
    }
    BeginBook(s.limit, s.q, s.book, e);
  }

  lemma BegunLease(s: System, d: nat)
    requires d in s.disp && s.disp[d].phase.Begun? && !s.disp[d].phase.e.snap.defa
    requires Ok(s)
    ensures var e := s.disp[d].phase.e;
            && e.serial < |s.book.records| && e.lease in s.book.records[e.serial].granted
            && e.lease !in s.book.records[e.serial].started
  {
    hide Sound, BookOk, HasHolder;
    assert DispatcherOk(s, d);
  }

  // ---------- cancelling, hiring, spawning ----------

  /** A worker appears, or its two cancel flags only rise. */
  predicate Raised(workers: map<nat, Worker>, workers': map<nat, Worker>) {
    && workers.Keys <= workers'.Keys
    && forall w :: w in workers ==>
         && (workers[w].runCancelled ==> workers'[w].runCancelled)
         && (workers[w].jobsCancelled ==> workers'[w].jobsCancelled)
         && (workers[w].faulted ==> workers'[w].faulted)
  }

  lemma FlagsOk(s: System, workers: map<nat, Worker>)
    requires Ok(s) && Raised(s.workers, workers)
    ensures Ok(s.(workers := workers))
  {
    hide Sound, BookOk, PhaseOk;
    var s' := s.(workers := workers);
    forall d | d in s'.disp
      ensures DispatcherOk(s', d)
    {
      assert DispatcherOk(s, d);
    }
    forall d, d' | d in s'.disp && d' in s'.disp
      ensures Apart(s', d, d')
    {
      assert Apart(s, d, d');
    }
    forall id | id in s'.q.lock
      ensures HasHolder(s', id)
    {
      assert HasHolder(s, id);
    }
  }

  lemma FaultOk(s: System, d: nat)
    requires d in s.disp && s.disp[d].phase.Sending? && s.disp[d].worker in s.workers && Ok(s)
    ensures Ok(AfterFault(s, d))
  {
    hide Sound, BookOk, HasHolder, Apart, HoldOk;
    var w := s.disp[d].worker;
    var s1 := s.(workers := s.workers[w := s.workers[w].(faulted := true)]);
    FlagsOk(s, s1.workers);
    assert DispatcherOk(s1, d);
    PutOk(s1, d, Refused(s.disp[d].phase.e));
  }

  lemma SpawnOk(s: System, w: nat, d: nat)
    requires w in s.workers && !s.workers[w].runCancelled && d !in s.disp && Ok(s)
    ensures Ok(s.(disp := s.disp[d := Dispatcher(w, Top(None), 0)]))
  {
    hide Sound, BookOk, HoldOk;
    var s' := s.(disp := s.disp[d := Dispatcher(w, Top(None), 0)]);
    forall d' | d' in s'.disp
      ensures DispatcherOk(s', d')
    {
      if d' != d {
        assert DispatcherOk(s, d');
      }
    }
    forall d1, d2 | d1 in s'.disp && d2 in s'.disp
      ensures Apart(s', d1, d2)
    {
      if d1 != d && d2 != d {
        assert Apart(s, d1, d2);
      }
    }
    forall id | id in s'.q.lock
      ensures HasHolder(s', id)
    {
      assert HasHolder(s, id);
      var d0 :| d0 in s.disp && Held(s.disp[d0].phase).Some? && Held(s.disp[d0].phase).value.id == id
                && Held(s.disp[d0].phase).value.token == s.q.lock[id];
      assert s'.disp[d0] == s.disp[d0];
    }
  }

  // ---------- every step, every run ----------

  /** The invariant is kept by every step of every dispatcher, administrator and clock. */
  lemma NextOk(s: System, step: Step)
    requires Enabled(s, step) && Ok(s)
    ensures Ok(Next(s, step))
  {
    hide Ok, Perform, AfterTry, AfterSubmit, AfterRelease, AfterStart, AfterFault, LocalPhase, Allowed, Put;
    match step
    case Env(op) => EnvOk(s, op);
    case Hire(w) => FlagsOk(s, s.workers[w := Worker(false, false, false)]);
    case CancelRun(w) => FlagsOk(s, s.workers[w := s.workers[w].(runCancelled := true)]);
    case CancelJobs(w) => FlagsOk(s, s.workers[w := s.workers[w].(jobsCancelled := true)]);
    case Spawn(w, d) => SpawnOk(s, w, d);
    case Try(d, token, now, limited) => TryOk(s, d, token, now, limited);
    case Start(d) => StartOk(s, d);
    case Beat(d) => BeatOk(s, d);
    case Submit(d, now, limited) => SubmitOk(s, d, now, limited);
    case SubmitFails(d) => FaultOk(s, d);
    case Cleanup(d) => CleanupOk(s, d);
    case Depart(d) => DepartOk(s, d);
    case _ => LocalOk(s, step);
  }

  /** A run: each state is the next of the one before, by an enabled step. */
  ghost predicate IsRun(run: seq<System>, steps: seq<Step>) {
    && |run| == |steps| + 1
    && forall i :: 0 <= i < |steps| ==> Enabled(run[i], steps[i]) && run[i + 1] == Next(run[i], steps[i])
  }

  /** No queue, no worker, nothing noted yet; limit is the stall limit all workers share. */
  function Initial(limit: int): System {
    System(EMPTY, Book(map[], [], map[], []), map[], map[], map[], limit)
  }

  lemma InitialOk(limit: int)
    ensures Ok(Initial(limit))
  {
    hide Consistent, Capped, PhaseOk;
    assert Sound(EMPTY) by {
      assert forall id :: Where(EMPTY, id) == 0;
    }
  }

  /** In every state of every run the invariant holds. */
  lemma {:induction false} RunOk(run: seq<System>, steps: seq<Step>, i: nat)
    requires IsRun(run, steps) && i < |run| && Ok(run[0])
    ensures Ok(run[i])
  {
    hide Ok, Enabled, Next;
    if i > 0 {
      RunOk(run, steps, i - 1);
      NextOk(run[i - 1], steps[i - 1]);
    }
  }
}
