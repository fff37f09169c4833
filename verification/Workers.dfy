/**
  Workers sharing one queue. Every dispatcher of every worker is a small state machine; each
  Lua script and each separate read is one step, and lock expiry and administration happen
  at any point in between.
 */
module Workers {
  import opened Wrappers
  import opened Queues
  import opened JobLife
  import opened Ledger
  import opened Books

  /** A job in hand: what moveToActive or fetchNextJob replied, and under which token. */
  datatype Exec = Exec(id: Id, token: Token, snap: Job, serial: nat, lease: nat)

  datatype Phase =
    | Top(held: Option<Exec>) // head of dispatchLoop, perhaps with a prefetched job
    | Checked(held: Option<Exec>) // past the runCtx check
    | Parked // in awaitMarker or sleep
    | Begun(e: Exec) // runJob entered
    | Running(e: Exec) // handler running, heartbeat alive
    | Returned(e: Exec, out: Outcome) // handler done, heartbeat stopped
    | AtmRead(e: Exec, out: Outcome, atm: int) // fetchAtm answered
    | Sending(e: Exec, entry: Entry, cmd: Command, fetch: bool) // arguments fixed, script not yet run
    | Refused(e: Exec) // script failed or answered an error code, releaseLock pending
    | Leaving(held: Option<Exec>) // deferred releasePrefetchedLock pending
    | Exited

  /** faulted: some finishing script of the worker failed without having run. */
  datatype Worker = Worker(runCancelled: bool, jobsCancelled: bool, faulted: bool)

  /** A worker that may give up a lock it still holds. */
  predicate Excused(w: Worker) {
    w.jobsCancelled || w.faulted
  }

  /** late counts the handlers started after runCtx was cancelled. */
  datatype Dispatcher = Dispatcher(worker: nat, phase: Phase, late: nat)

  datatype System = System(
    q: Queue, book: Book, workers: map<nat, Worker>, disp: map<nat, Dispatcher>, spent: map<Token, nat>, limit: int)

  function Held(p: Phase): Option<Exec> {
    match p
    case Top(held) => held
    case Checked(held) => held
    case Leaving(held) => held
    case Parked => None
    case Exited => None
    case Begun(e) => Some(e)
    case Running(e) => Some(e)
    case Returned(e, _) => Some(e)
    case AtmRead(e, _, _) => Some(e)
    case Sending(e, _, _, _) => Some(e)
    case Refused(e) => Some(e)
  }

  datatype Step =
    | Env(op: Op)
    | Hire(w: nat)
    | CancelRun(w: nat)
    | CancelJobs(w: nat)
    | Spawn(w: nat, d: nat)
    | Check(d: nat)
    | Consume(d: nat)
    | Try(d: nat, token: Token, now: int, limited: bool)
    | TryFails(d: nat)
    | Wake(d: nat)
    | Start(d: nat)
    | Short(d: nat)
    | Beat(d: nat)
    | Return(d: nat, out: Outcome)
    | ReadAtm(d: nat, stale: bool)
    | Resolve(d: nat, backoff: int)
    | Submit(d: nat, now: int, limited: bool)
    | SubmitFails(d: nat)
    | Cleanup(d: nat)
    | Depart(d: nat)

  /** The script a decision turns into. */
  function Script(e: Exec, cmd: Command, fetch: bool, now: int, limited: bool): Op {
    match cmd
    case Finish(bucket, keep, history) => MoveToFinished(e.id, e.token, bucket, keep, history, now, fetch, limited)
    case Requeue(lifo, history) => RetryJob(e.id, e.token, lifo, history, now)
    case Postpone(delay, skip, history) => MoveToDelayed(e.id, e.token, now, delay, skip, history)
  }

  predicate HasPhase(s: System, d: nat) {
    d in s.disp && s.disp[d].worker in s.workers
  }

  ghost predicate Enabled(s: System, step: Step) {
    match step
    case Env(op) => !WorkerOp(op) && Allowed(s.q, op) && (op.MoveStalled? ==> op.limit == s.limit)
    case Hire(w) => w !in s.workers
    case CancelRun(w) => w in s.workers
    case CancelJobs(w) => w in s.workers
    case Spawn(w, d) => w in s.workers && !s.workers[w].runCancelled && d !in s.disp
    case Check(d) => HasPhase(s, d) && s.disp[d].phase.Top?
    case Consume(d) => HasPhase(s, d) && s.disp[d].phase.Checked? && s.disp[d].phase.held.Some?
    case Try(d, token, _, _) =>
      HasPhase(s, d) && s.disp[d].phase == Checked(None) && token != NO_LOCK && token !in s.spent
    case TryFails(d) => HasPhase(s, d) && s.disp[d].phase == Checked(None)
    case Wake(d) => HasPhase(s, d) && s.disp[d].phase.Parked?
    case Start(d) => HasPhase(s, d) && s.disp[d].phase.Begun? && !s.disp[d].phase.e.snap.defa
    case Short(d) => HasPhase(s, d) && s.disp[d].phase.Begun? && s.disp[d].phase.e.snap.defa
    case Beat(d) => HasPhase(s, d) && s.disp[d].phase.Running?
    case Return(d, _) => HasPhase(s, d) && s.disp[d].phase.Running?
    case ReadAtm(d, _) => HasPhase(s, d) && s.disp[d].phase.Returned? && NeedsAtm(s.disp[d].phase.out)
    case Resolve(d, _) =>
      HasPhase(s, d)
      && (s.disp[d].phase.AtmRead? || (s.disp[d].phase.Returned? && !NeedsAtm(s.disp[d].phase.out)))
    case Submit(d, _, _) => HasPhase(s, d) && s.disp[d].phase.Sending?
    case SubmitFails(d) => HasPhase(s, d) && s.disp[d].phase.Sending?
    case Cleanup(d) => HasPhase(s, d) && s.disp[d].phase.Refused?
    case Depart(d) => HasPhase(s, d) && s.disp[d].phase.Leaving?
  }

  predicate NeedsAtm(out: Outcome) {
    out.Fail? && out.delay.None?
  }

  function Put(s: System, d: nat, phase: Phase): System
    requires d in s.disp
  {
    s.(disp := s.disp[d := s.disp[d].(phase := phase)])
  }

  ghost function Perform(s: System, op: Op, worker: nat, entry: Option<Entry>): System {
    s.(q := Apply(s.q, op).0, book := Note(s.book, s.q, op, worker, entry))
  }

  /** The job a reply puts in a dispatcher's hands. */
  function Grab(s: System, reply: Reply, token: Token): Option<Exec> {
    if reply.Got? then Some(Exec(reply.id, token, reply.job, SerialOf(s.book, reply.id), |s.book.leases|)) else None
  }

  ghost function Begin(book: Book, e: Exec): Book {
    if e.serial < |book.records| then
      var r := book.records[e.serial];
      book.(records := book.records[e.serial := r.(started := r.started + {e.lease})])
    else
      book
  }

  /** What fetchAtm reads: the HASH, or on an error the snapshot. */
  function Attempt(q: Queue, e: Exec, stale: bool): int {
    if stale || e.id !in q.jobs then e.snap.atm else q.jobs[e.id].atm
  }

  // ---------- steps that run a script ----------

  ghost function AfterTry(s: System, d: nat, token: Token, now: int, limited: bool): (s': System)
    requires d in s.disp
    ensures d in s'.disp
  {
    var op := MoveToActive(token, now, limited);
    var e := Grab(s, Apply(s.q, op).1, token);
    var s1 := Perform(s, op, s.disp[d].worker, None);
    Put(s1.(spent := s1.spent[token := s.disp[d].worker]), d, if e.Some? then Begun(e.value) else Parked)
  }

  ghost function AfterSubmit(s: System, d: nat, now: int, limited: bool): System
    requires d in s.disp && s.disp[d].phase.Sending?
  {
    var p := s.disp[d].phase;
    var op := Script(p.e, p.cmd, p.fetch, now, limited);
    var reply := Apply(s.q, op).1;
    var s1 := Perform(s, op, s.disp[d].worker, Some(p.entry));
    Put(s1, d, if reply.Code? && reply.code < 0 then Refused(p.e) else Top(Grab(s, reply, p.e.token)))
  }

  /** The call failed before the script ran. */
  function AfterFault(s: System, d: nat): System
    requires d in s.disp && s.disp[d].phase.Sending? && s.disp[d].worker in s.workers
  {
    var w := s.disp[d].worker;
    Put(s.(workers := s.workers[w := s.workers[w].(faulted := true)]), d, Refused(s.disp[d].phase.e))
  }

  ghost function AfterRelease(s: System, d: nat, e: Exec, phase: Phase): System
    requires d in s.disp
  {
    Put(Perform(s, ReleaseLock(e.id, e.token), s.disp[d].worker, None), d, phase)
  }

  // ---------- steps inside one dispatcher ----------

  /** The next phase of a dispatcher whose step touches nothing shared. */
  function LocalPhase(q: Queue, w: Worker, p: Phase, step: Step): Phase {
    match step
    case Check(_) =>
      if p.Top? then
        if w.runCancelled && (p.held.None? || w.jobsCancelled) then Leaving(p.held) else Checked(p.held)
      else p
    case Consume(_) => if p.Checked? && p.held.Some? then Begun(p.held.value) else p
    case TryFails(_) => Phase.Parked
    case Wake(_) => if w.runCancelled then Leaving(None) else Top(None)
    case Short(_) =>
      if p.Begun? then
        var entry := StalledOut(p.e.snap.processedOn);
        Sending(p.e, entry, Decide(p.e.snap, entry, p.e.snap.atm), !w.runCancelled)
      else p
    case Return(_, out) => if p.Running? then Returned(p.e, out) else p
    case ReadAtm(_, stale) => if p.Returned? then AtmRead(p.e, p.out, Attempt(q, p.e, stale)) else p
    case Resolve(_, backoff) =>
      if p.AtmRead? || p.Returned? then
        var entry := Ran(p.out, backoff, p.e.snap.processedOn);
        var cmd := Decide(p.e.snap, entry, if p.AtmRead? then p.atm else p.e.snap.atm);
        Sending(p.e, entry, cmd, cmd.Finish? && !w.runCancelled)
      else p
    case _ => p
  }

  ghost function AfterStart(s: System, d: nat): System
    requires d in s.disp && s.disp[d].phase.Begun?
  {
    var e, p := s.disp[d].phase.e, s.disp[d];
    var late := if p.worker in s.workers && s.workers[p.worker].runCancelled then p.late + 1 else p.late;
    s.(book := Begin(s.book, e), disp := s.disp[d := Dispatcher(p.worker, Running(e), late)])
  }

  ghost function Next(s: System, step: Step): System
    requires Enabled(s, step)
  {
    match step
    case Env(op) => Perform(s, op, 0, None)
    case Hire(w) => s.(workers := s.workers[w := Worker(false, false, false)])
    case CancelRun(w) => s.(workers := s.workers[w := s.workers[w].(runCancelled := true)])
    case CancelJobs(w) => s.(workers := s.workers[w := s.workers[w].(jobsCancelled := true)])
    case Spawn(w, d) => s.(disp := s.disp[d := Dispatcher(w, Top(None), 0)])
    case Try(d, token, now, limited) => AfterTry(s, d, token, now, limited)
    case Start(d) => AfterStart(s, d)
    case Beat(d) => Perform(s, ExtendLock(s.disp[d].phase.e.id, s.disp[d].phase.e.token), s.disp[d].worker, None)
    case Submit(d, now, limited) => AfterSubmit(s, d, now, limited)
    case SubmitFails(d) => AfterFault(s, d)
    case Cleanup(d) => AfterRelease(s, d, s.disp[d].phase.e, Top(None))
    case Depart(d) =>
      if s.disp[d].phase.held.None? then Put(s, d, Exited) else AfterRelease(s, d, s.disp[d].phase.held.value, Exited)
    case _ =>
      var d := step.d;
      Put(s, d, LocalPhase(s.q, s.workers[s.disp[d].worker], s.disp[d].phase, step))
  }

  // ---------- the invariant ----------

  predicate Locked(q: Queue, e: Exec) {
    e.id in q.lock && q.lock[e.id] == e.token
  }

  /** While the lock is still ours, nothing about the job has changed since it was acquired. */
  ghost predicate HoldOk(q: Queue, b: Book, e: Exec) {
    && e.token != NO_LOCK && e.lease < |b.leases| && e.serial < |b.records|
    && (!e.snap.defa ==> e.lease in b.records[e.serial].granted)
    && (Locked(q, e) ==>
          && e.id in q.jobs && q.jobs[e.id] == e.snap
          && e.id in b.serial && b.serial[e.id] == e.serial
          && e.id in b.lease && b.lease[e.id] == e.lease)
  }

  predicate Unstarted(p: Phase) {
    p.Top? || p.Checked? || p.Begun? || p.Leaving?
  }

  ghost predicate PhaseOk(q: Queue, b: Book, p: Phase) {
    && (Held(p).Some? ==> HoldOk(q, b, Held(p).value))
    && (Held(p).Some? && Unstarted(p) ==> Held(p).value.lease !in b.records[Held(p).value.serial].started)
    && (p.Running? || p.Returned? || p.AtmRead? ==> !p.e.snap.defa)
    && (p.AtmRead? ==> NeedsAtm(p.out) && (Locked(q, p.e) ==> p.atm == p.e.snap.atm))
    && (p.Sending? ==>
          && p.entry.at == p.e.snap.processedOn && p.entry.StalledOut? == p.e.snap.defa
          && (Locked(q, p.e) ==> p.cmd == Decide(p.e.snap, p.entry, p.e.snap.atm)))
  }

  /** Whether a handler may still be started without another check of runCtx. */
  function MayStart(p: Phase): nat {
    match p
    case Top(held) => if held.Some? then 1 else 0
    case Checked(_) => 1
    case Begun(_) => 1
    case Sending(_, _, _, fetch) => if fetch then 1 else 0
    case _ => 0
  }

  ghost predicate DispatcherOk(s: System, d: nat)
    requires d in s.disp
  {
    var p := s.disp[d];
    && p.worker in s.workers
    && PhaseOk(s.q, s.book, p.phase)
    && (Held(p.phase).Some? ==>
          && Held(p.phase).value.token in s.spent && s.spent[Held(p.phase).value.token] == p.worker
          && s.book.leases[Held(p.phase).value.lease].worker == p.worker)
    && (if s.workers[p.worker].runCancelled then p.late + MayStart(p.phase) <= 1 else p.late == 0)
    && (p.phase.Leaving? && p.phase.held.Some? ==> s.workers[p.worker].jobsCancelled)
    && (p.phase.Refused? && Locked(s.q, p.phase.e) ==> s.workers[p.worker].faulted)
  }

  ghost predicate Apart(s: System, d: nat, d': nat)
    requires d in s.disp && d' in s.disp
  {
    var h, h' := Held(s.disp[d].phase), Held(s.disp[d'].phase);
    d != d' && h.Some? && h'.Some? ==> h.value.token != h'.value.token && h.value.lease != h'.value.lease
  }

  ghost predicate HasHolder(s: System, id: Id)
    requires id in s.q.lock
  {
    exists d :: d in s.disp && Held(s.disp[d].phase).Some? && Held(s.disp[d].phase).value.id == id
                && Held(s.disp[d].phase).value.token == s.q.lock[id]
  }

  ghost predicate Ok(s: System) {
    && Sound(s.q) && BookOk(s.limit, s.q, s.book)
    && (forall d :: d in s.disp ==> DispatcherOk(s, d))
    && (forall d, d' :: d in s.disp && d' in s.disp ==> Apart(s, d, d'))
    && (forall id :: id in s.q.lock ==> HasHolder(s, id))
    && (forall l :: 0 <= l < |s.book.leases| && s.book.leases[l].dropped ==>
          s.book.leases[l].worker in s.workers && Excused(s.workers[s.book.leases[l].worker]))
  }

  // ---------- what a script leaves alone ----------

  /** A lock seen under a token that did not just acquire it was there before, over the same job. */
  lemma HoldStable(q: Queue, op: Op, x: Id, token: Token)
    requires Sound(q) && Allowed(q, op)
    requires x in Apply(q, op).0.lock && Apply(q, op).0.lock[x] == token
    requires !(ChangeOf(q, op, x).Taken? && ChangeOf(q, op, x).token == token)
    ensures x in q.lock && q.lock[x] == token && ChangeOf(q, op, x).Same?
    ensures x in q.jobs && x in Apply(q, op).0.jobs && Apply(q, op).0.jobs[x] == q.jobs[x]
  {
    hide Apply, ChangeOf, Allowed;
    StepFollows(q, op, x);
    assert x in q.lock ==> x in q.jobs by {
      if x in q.lock {
        ActiveIsJob(q, x);
      }
    }
    hide Sound, Where;
  }

  /** The script does not acquire anything under this token. */
  predicate NotTaker(op: Op, token: Token) {
    !((op.MoveToActive? || op.MoveToFinished?) && op.token == token)
  }

  lemma BookGrows(q: Queue, b: Book, op: Op, worker: nat, entry: Option<Entry>, k: nat, l: nat)
    requires k < |b.records| && l < |b.leases|
    ensures var b' := Note(b, q, op, worker, entry);
            && k < |b'.records| && l < |b'.leases|
            && b.records[k].granted <= b'.records[k].granted && b'.records[k].started == b.records[k].started
            && b'.leases[l].worker == b.leases[l].worker
  {
    hide Apply, ChangeOf, ViewOf, BornId, Update;
    var r := b.records[k];
    UpdateKeepsId(r, ViewOf(q, r.id), ChangeOf(q, op, r.id), entry, |b.leases|);
  }

  lemma ExecStable(q: Queue, b: Book, op: Op, worker: nat, entry: Option<Entry>, e: Exec)
    requires Sound(q) && Allowed(q, op) && HoldOk(q, b, e)
    requires ChangeOf(q, op, e.id).Taken? ==> ChangeOf(q, op, e.id).token != e.token
    ensures HoldOk(Apply(q, op).0, Note(b, q, op, worker, entry), e)
    ensures Locked(Apply(q, op).0, e) ==> Locked(q, e)
  {
    hide Apply, ChangeOf, Allowed, ViewOf, BornId, Update, Sound;
    BookGrows(q, b, op, worker, entry, e.serial, e.lease);
    BornExactly(q, op, e.id);
    TakenExactly(q, op, e.id);
    if Locked(Apply(q, op).0, e) {
      HoldStable(q, op, e.id, e.token);
    }
  }

  lemma PhaseStable(q: Queue, b: Book, op: Op, worker: nat, entry: Option<Entry>, p: Phase)
    requires Sound(q) && Allowed(q, op) && PhaseOk(q, b, p)
    requires Held(p).Some? ==>
               var e := Held(p).value; ChangeOf(q, op, e.id).Taken? ==> ChangeOf(q, op, e.id).token != e.token
    ensures PhaseOk(Apply(q, op).0, Note(b, q, op, worker, entry), p)
  {
    hide Apply, ChangeOf, Allowed, Sound, Note, HoldOk, Locked, Decide;
    if Held(p).Some? {
      var e := Held(p).value;
      ExecStable(q, b, op, worker, entry, e);
      BookGrowsHold(q, b, op, worker, entry, e);
    }
  }

  lemma BookGrowsHold(q: Queue, b: Book, op: Op, worker: nat, entry: Option<Entry>, e: Exec)
    requires HoldOk(q, b, e)
    ensures var b' := Note(b, q, op, worker, entry);
            && e.serial < |b.records| && e.serial < |b'.records|
            && b'.records[e.serial].started == b.records[e.serial].started
            && e.lease < |b.leases| && e.lease < |b'.leases| && b'.leases[e.lease].worker == b.leases[e.lease].worker
  {
    BookGrows(q, b, op, worker, entry, e.serial, e.lease);
    hide *;
  }

  /** A dispatcher that did not act keeps its invariant whatever script ran. */
  lemma BystanderOk(s: System, op: Op, worker: nat, entry: Option<Entry>, d: nat)
    requires Sound(s.q) && Allowed(s.q, op) && d in s.disp && DispatcherOk(s, d)
    requires Held(s.disp[d].phase).Some? ==>
               var e := Held(s.disp[d].phase).value;
               ChangeOf(s.q, op, e.id).Taken? ==> ChangeOf(s.q, op, e.id).token != e.token
    ensures DispatcherOk(Perform(s, op, worker, entry), d)
  {
    hide Apply, ChangeOf, Allowed, Sound, Note;
    var p := s.disp[d].phase;
    PhaseStable(s.q, s.book, op, worker, entry, p);
    if Held(p).Some? {
      ExecStable(s.q, s.book, op, worker, entry, Held(p).value);
      BookGrowsHold(s.q, s.book, op, worker, entry, Held(p).value);
    }
  }

  // ---------- pieces of the step proofs ----------

  /** s' is s after op, with at most dispatcher d changed. */
  ghost predicate Acted(s: System, op: Op, worker: nat, entry: Option<Entry>, d: nat, s': System) {
    && s'.q == Apply(s.q, op).0 && s'.book == Note(s.book, s.q, op, worker, entry)
    && s'.workers == s.workers && s'.limit == s.limit
    && s'.disp.Keys == s.disp.Keys
    && (forall d' :: d' in s.disp && d' != d ==> s'.disp[d'] == s.disp[d'])
    && (forall token :: token in s.spent ==> token in s'.spent && s'.spent[token] == s.spent[token])
  }

  /** No dispatcher but d can see the script acquire under its own token. */
  ghost predicate Foreign(s: System, op: Op, d: nat) {
    forall d' :: d' in s.disp && d' != d && Held(s.disp[d'].phase).Some? ==>
                   NotTaker(op, Held(s.disp[d'].phase).value.token)
  }

  lemma OthersStep(s: System, op: Op, worker: nat, entry: Option<Entry>, d: nat, s': System, d': nat)
    requires Ok(s) && Allowed(s.q, op) && Acted(s, op, worker, entry, d, s') && Foreign(s, op, d)
    requires d' in s.disp && d' != d
    ensures DispatcherOk(s', d')
  {
    hide Apply, ChangeOf, Allowed, Sound, Note, BookOk, HasHolder, Apart, PhaseOk;
    assert DispatcherOk(s, d');
    if Held(s.disp[d'].phase).Some? {
      TakenExactly(s.q, op, Held(s.disp[d'].phase).value.id);
    }
    BystanderOk(s, op, worker, entry, d');
  }

  lemma HolderStep(s: System, op: Op, worker: nat, entry: Option<Entry>, d: nat, s': System, id: Id)
    requires Ok(s) && Allowed(s.q, op) && Acted(s, op, worker, entry, d, s') && id in s'.q.lock
    requires ChangeOf(s.q, op, id).Taken? ==>
               d in s'.disp && Held(s'.disp[d].phase).Some? && Held(s'.disp[d].phase).value.id == id
               && Held(s'.disp[d].phase).value.token == ChangeOf(s.q, op, id).token
    requires d in s.disp && Held(s.disp[d].phase).Some? && Held(s.disp[d].phase).value.id == id ==>
               Locked(s'.q, Held(s.disp[d].phase).value) ==> Held(s'.disp[d].phase) == Held(s.disp[d].phase)
    ensures HasHolder(s', id)
  {
    hide Apply, ChangeOf, Allowed, Note, BookOk, DispatcherOk, Apart, Sound, Where;
    StepFollows(s.q, op, id);
    if ChangeOf(s.q, op, id).Taken? {
      assert s'.q.lock[id] == ChangeOf(s.q, op, id).token;
    } else {
      HoldStable(s.q, op, id, s'.q.lock[id]);
      assert HasHolder(s, id);
      var d0 :| d0 in s.disp && Held(s.disp[d0].phase).Some? && Held(s.disp[d0].phase).value.id == id
                && Held(s.disp[d0].phase).value.token == s.q.lock[id];
      assert Held(s'.disp[d0].phase) == Held(s.disp[d0].phase);
    }
  }

  lemma DroppedStep(s: System, op: Op, worker: nat, entry: Option<Entry>, d: nat, s': System, l: nat)
    requires Ok(s) && Acted(s, op, worker, entry, d, s') && l < |s'.book.leases| && s'.book.leases[l].dropped
    requires op.ReleaseLock? ==>
               forall x :: ChangeOf(s.q, op, x).Unlocked? && x in s.book.lease && s.book.lease[x] < |s.book.leases| ==>
                 var w := s.book.leases[s.book.lease[x]].worker; w in s.workers && Excused(s.workers[w])
    ensures s'.book.leases[l].worker in s'.workers && Excused(s'.workers[s'.book.leases[l].worker])
  {
    hide Apply, ChangeOf, BookOk, DispatcherOk, Apart, Sound, BornId, RecordAfter, BornRecord, HasHolder;
    assert l < |s.book.leases|;
    assert s'.book.leases[l] == LeaseAfter(s.book, s.q, op, l);
  }

  /** The parts put together. */
  lemma ActedOk(s: System, op: Op, worker: nat, entry: Option<Entry>, d: nat, s': System)
    requires Ok(s) && Allowed(s.q, op) && Acted(s, op, worker, entry, d, s') && Foreign(s, op, d)
    requires AllFaithful(s.limit, s.q, op, entry)
    requires d in s.disp ==> DispatcherOk(s', d) && forall d' :: d' in s.disp ==> Apart(s', d, d') && Apart(s', d', d)
    requires forall id :: id in s'.q.lock ==> HasHolder(s', id)
    requires forall l :: 0 <= l < |s'.book.leases| && s'.book.leases[l].dropped ==>
               s'.book.leases[l].worker in s'.workers && Excused(s'.workers[s'.book.leases[l].worker])
    ensures Ok(s')
  {
    hide Apply, ChangeOf, Allowed, Sound, Note, BookOk, HasHolder, DispatcherOk, AllFaithful;
    StepSound(s.q, op);
    BookStep(s.limit, s.q, s.book, op, worker, entry);
    forall d' | d' in s'.disp
      ensures DispatcherOk(s', d')
    {
      if d' != d {
        OthersStep(s, op, worker, entry, d, s', d');
      }
    }
    forall d1, d2 | d1 in s'.disp && d2 in s'.disp
      ensures Apart(s', d1, d2)
    {
      if d1 != d && d2 != d {
        assert Apart(s, d1, d2);
      }
    }
  }

  // ---------- steps taken outside the workers ----------

  /** A script that hands no job to any dispatcher. */
  lemma PassiveOk(s: System, op: Op, worker: nat, entry: Option<Entry>)
    requires Ok(s) && Allowed(s.q, op) && AllFaithful(s.limit, s.q, op, entry)
    requires forall x :: !ChangeOf(s.q, op, x).Taken?
    requires op.ReleaseLock? ==>
               forall x :: ChangeOf(s.q, op, x).Unlocked? && x in s.book.lease && s.book.lease[x] < |s.book.leases| ==>
                 var w := s.book.leases[s.book.lease[x]].worker; w in s.workers && Excused(s.workers[w])
    ensures Ok(Perform(s, op, worker, entry))
  {
    hide Apply, ChangeOf, Allowed, Sound, Note, BookOk, HasHolder, DispatcherOk, Apart, AllFaithful;
    var s' := Perform(s, op, worker, entry);
    FreshKey(s.disp);
    var d: nat :| d !in s.disp;
    forall id | id in s'.q.lock
      ensures HasHolder(s', id)
    {
      HolderStep(s, op, worker, entry, d, s', id);
    }
    forall l | 0 <= l < |s'.book.leases| && s'.book.leases[l].dropped
      ensures s'.book.leases[l].worker in s'.workers && Excused(s'.workers[s'.book.leases[l].worker])
    {
      DroppedStep(s, op, worker, entry, d, s', l);
    }
    forall d' | d' in s'.disp
      ensures DispatcherOk(s', d')
    {
      PassiveDispatcher(s, op, worker, entry, d');
    }
    StepSound(s.q, op);
    BookStep(s.limit, s.q, s.book, op, worker, entry);
    forall d1, d2 | d1 in s'.disp && d2 in s'.disp
      ensures Apart(s', d1, d2)
    {
      assert Apart(s, d1, d2);
      ApartSame(s, s', d1, d2);
    }
  }

  lemma ApartSame(s: System, s': System, d: nat, d': nat)
    requires d in s.disp && d' in s.disp && s'.disp == s.disp && Apart(s, d, d')
    ensures Apart(s', d, d')
  {
  }

  lemma PassiveDispatcher(s: System, op: Op, worker: nat, entry: Option<Entry>, d: nat)
    requires Ok(s) && Allowed(s.q, op) && d in s.disp && forall x :: !ChangeOf(s.q, op, x).Taken?
    ensures DispatcherOk(Perform(s, op, worker, entry), d)
  {
    hide Apply, ChangeOf, Allowed, Sound, Note, BookOk, HasHolder, Apart, DispatcherOk;
    BystanderOk(s, op, worker, entry, d);
  }

  lemma EnvOk(s: System, op: Op)
    requires Ok(s) && Enabled(s, Env(op))
    ensures Ok(Next(s, Env(op)))
  {
    hide Apply, ChangeOf, Allowed, Sound, Note, BookOk, HasHolder, DispatcherOk, Apart;
    forall x
      ensures Faithful(s.limit, ViewOf(s.q, x), ChangeOf(s.q, op, x), None)
      ensures !ChangeOf(s.q, op, x).Taken?
    {
      EnvChange(s.q, op, x);
    }
    PassiveOk(s, op, 0, None);
  }

  lemma FreshKey<T>(m: map<nat, T>)
    ensures exists d: nat :: d !in m
  {
    var bound := BoundKeys(m.Keys);
    assert bound !in m;
  }

  ghost function BoundKeys(keys: set<nat>): (n: nat)
    ensures forall k :: k in keys ==> k < n
  {
    if keys == {} then
      0
    else
      var k :| k in keys;
      var rest := BoundKeys(keys - {k});
      assert forall j :: j in keys ==> j == k || j in keys - {k};
      if k < rest then rest else k + 1
  }

  // ---------- scripts run by a dispatcher ----------

  lemma PlainChange(q: Queue, op: Op, x: Id)
    requires op.MoveToActive? || op.ExtendLock? || op.ReleaseLock?
    ensures var c := ChangeOf(q, op, x); !Moves(c) && !c.Reclaimed?
    ensures op.ReleaseLock? && ChangeOf(q, op, x).Unlocked? ==> x == op.id && Owns(q, op.id, op.token)
  {
    hide AddJob, Acquire, FinishJob, Retry, DelayJob, Extend, Release, ScanStalled, PromoteJob, ReprocessJob,
      ResumeRound, DrainQueue, Remove, NextIteration, NextSlot, SlotId, Digits, Withdrawn, EnterSchedule;
  }

  lemma WorkerAllowed(q: Queue, op: Op)
    requires WorkerOp(op) && op.token != NO_LOCK
    ensures Allowed(q, op)
  {
  }

  lemma PlainFaithful(limit: int, q: Queue, op: Op)
    requires op.MoveToActive? || op.ExtendLock? || op.ReleaseLock?
    ensures AllFaithful(limit, q, op, None)
  {
    hide ChangeOf, ViewOf;
    forall x
      ensures Faithful(limit, ViewOf(q, x), ChangeOf(q, op, x), None)
    {
      PlainChange(q, op, x);
    }
  }

  /** What a dispatcher has just been given is exactly what the queue and the book say. */
  lemma GrabbedOk(s: System, op: Op, worker: nat, entry: Option<Entry>)
    requires (op.MoveToActive? || op.MoveToFinished?) && Apply(s.q, op).1.Got?
    requires Allowed(s.q, op) && AllFaithful(s.limit, s.q, op, entry)
    requires Ok(s)
    ensures var reply := Apply(s.q, op).1;
            var e := Grab(s, reply, op.token).value;
            var s' := Perform(s, op, worker, entry);
            && HoldOk(s'.q, s'.book, e) && e.lease !in s'.book.records[e.serial].started
            && s'.book.leases[e.lease].worker == worker && Locked(s'.q, e)
  {
    hide Apply, ChangeOf, Allowed, Where, Consistent, Capped, AllFaithful, DispatcherOk, Apart, HasHolder, BornRecord;
    var reply := Apply(s.q, op).1;
    var x := reply.id;
    TakenExactly(s.q, op, x);
    StepFollows(s.q, op, x);
    BornExactly(s.q, op, x);
    var v, c := ViewOf(s.q, x), ChangeOf(s.q, op, x);
    hide Sound, BornId;
    assert RecordOk(s.limit, s.q, s.book, x);
    var k := s.book.serial[x];
    var b' := Note(s.book, s.q, op, worker, entry);
    assert b'.records[k] == Update(s.book.records[k], v, c, entry, |s.book.leases|);
    UpdateKeepsId(s.book.records[k], v, c, entry, |s.book.leases|);
    assert b'.leases[|s.book.leases|] == LeaseInfo(x, worker, k, false, false, false);
    assert |s.book.leases| !in s.book.records[k].started by {
      assert Capped(s.limit, s.book.records[k]);
      StartedOld(s.limit, s.book.records[k], |s.book.leases|);
    }
  }

  lemma StartedOld(limit: int, r: Record, n: nat)
    requires Capped(limit, r) && forall l :: l in r.granted ==> l < n
    ensures n !in r.started
  {
  }

  /** A freshly grabbed job stays apart from what others hold: newer lease, other token. */
  lemma FreshApart(s: System, s': System, d: nat, d': nat)
    requires Ok(s) && d in s.disp && d' in s.disp && d' in s'.disp && d in s'.disp
    requires d' != d ==> s'.disp[d'] == s.disp[d']
    requires Held(s'.disp[d].phase).Some? ==>
               var e := Held(s'.disp[d].phase).value;
               && e.lease == |s.book.leases|
               && (d' != d && Held(s.disp[d'].phase).Some? ==> Held(s.disp[d'].phase).value.token != e.token)
    ensures Apart(s', d, d') && Apart(s', d', d)
  {
    hide Sound, BookOk, HasHolder;
    assert DispatcherOk(s, d');
  }

  /** A dispatcher about to fetch has not started a handler since its worker was cancelled. */
  lemma NotYetLate(s: System, d: nat)
    requires Ok(s) && d in s.disp && s.disp[d].phase.Checked?
    ensures s.disp[d].worker in s.workers && s.disp[d].late == 0
  {
    hide Sound, BookOk, HasHolder, Apart, PhaseOk;
    assert DispatcherOk(s, d);
  }

  lemma TryDispatcher(s: System, d: nat, token: Token, now: int, limited: bool)
    requires d in s.disp && Enabled(s, Try(d, token, now, limited))
    requires Ok(s)
    ensures DispatcherOk(AfterTry(s, d, token, now, limited), d)
  {
    hide Apply, ChangeOf, Allowed, Sound, Note, BookOk, HasHolder, AllFaithful, Apart, Ok, HoldOk;
    var op := MoveToActive(token, now, limited);
    WorkerAllowed(s.q, op);
    PlainFaithful(s.limit, s.q, op);
    NotYetLate(s, d);
    if Apply(s.q, op).1.Got? {
      GrabbedOk(s, op, s.disp[d].worker, None);
    }
  }

  lemma TokenFresh(s: System, d': nat, token: Token)
    requires Ok(s) && d' in s.disp && token !in s.spent && Held(s.disp[d'].phase).Some?
    ensures Held(s.disp[d'].phase).value.token != token
  {
    hide Sound, BookOk, HasHolder, PhaseOk;
    assert DispatcherOk(s, d');
  }

  lemma TryOk(s: System, d: nat, token: Token, now: int, limited: bool)
    requires Enabled(s, Try(d, token, now, limited)) && Ok(s)
    ensures Ok(AfterTry(s, d, token, now, limited))
  {
    hide Apply, ChangeOf, Allowed, Sound, Note, BookOk, HasHolder, DispatcherOk, Apart, AllFaithful;
    var op := MoveToActive(token, now, limited);
    WorkerAllowed(s.q, op);
    TryDispatcher(s, d, token, now, limited);
    var worker := s.disp[d].worker;
    var s' := AfterTry(s, d, token, now, limited);
    PlainFaithful(s.limit, s.q, op);
    forall d' | d' in s.disp
      ensures Apart(s', d, d') && Apart(s', d', d)
      ensures Held(s.disp[d'].phase).Some? ==> Held(s.disp[d'].phase).value.token != token
    {
      if Held(s.disp[d'].phase).Some? {
        TokenFresh(s, d', token);
      }
      FreshApart(s, s', d, d');
    }
    forall id | id in s'.q.lock
      ensures HasHolder(s', id)
    {
      TakenExactly(s.q, op, id);
      HolderStep(s, op, worker, None, d, s', id);
    }
    forall l | 0 <= l < |s'.book.leases| && s'.book.leases[l].dropped
      ensures s'.book.leases[l].worker in s'.workers && Excused(s'.workers[s'.book.leases[l].worker])
    {
      DroppedStep(s, op, worker, None, d, s', l);
    }
    ActedOk(s, op, worker, None, d, s');
  }

  lemma NoneTaken(q: Queue, op: Op)
    requires Sound(q) && Allowed(q, op) && !op.MoveToActive? && !op.MoveToFinished?
    ensures forall x :: !ChangeOf(q, op, x).Taken?
  {
    hide Apply, ChangeOf, Allowed, Sound;
    forall x
      ensures !ChangeOf(q, op, x).Taken?
    {
      TakenExactly(q, op, x);
    }
  }

  lemma BeatOk(s: System, d: nat)
    requires Ok(s) && Enabled(s, Beat(d))
    ensures Ok(Next(s, Beat(d)))
  {
    hide Apply, ChangeOf, Allowed, Sound, Note, BookOk, HasHolder, Apart, AllFaithful, PhaseOk, HoldOk;
    var e := s.disp[d].phase.e;
    var op := ExtendLock(e.id, e.token);
    PlainAllowed(s.q, op);
    PlainFaithful(s.limit, s.q, op);
    NoneTaken(s.q, op);
    PassiveOk(s, op, s.disp[d].worker, None);
  }

  lemma PlainAllowed(q: Queue, op: Op)
    requires op.ExtendLock? || op.ReleaseLock?
    ensures Allowed(q, op)
  {
  }

  /** One dispatcher changes phase and gives up at most a job whose lock it no longer has. */
  lemma PutOk(s: System, d: nat, phase: Phase)
    requires Ok(s) && d in s.disp && DispatcherOk(Put(s, d, phase), d)
    requires || Held(phase) == Held(s.disp[d].phase)
             || (Held(phase).None? && (Held(s.disp[d].phase).Some? ==> !Locked(s.q, Held(s.disp[d].phase).value)))
    ensures Ok(Put(s, d, phase))
  {
    hide Sound, BookOk, PhaseOk;
    var s' := Put(s, d, phase);
    forall d' | d' in s'.disp
      ensures DispatcherOk(s', d')
    {
      if d' != d {
        assert DispatcherOk(s, d');
      }
    }
    forall d1, d2 | d1 in s'.disp && d2 in s'.disp
      ensures Apart(s', d1, d2)
    {
      assert Apart(s, d1, d2);
    }
    forall id | id in s'.q.lock
      ensures HasHolder(s', id)
    {
      assert HasHolder(s, id);
      var d0 :| d0 in s.disp && Held(s.disp[d0].phase).Some? && Held(s.disp[d0].phase).value.id == id
                && Held(s.disp[d0].phase).value.token == s.q.lock[id];
      assert Held(s'.disp[d0].phase) == Held(s.disp[d0].phase);
    }
  }

  /** Steps of a dispatcher that touch nothing shared. */
  predicate IsLocal(step: Step) {
    step.Check? || step.Consume? || step.TryFails? || step.Wake? || step.Short? || step.Return? || step.ReadAtm?
    || step.Resolve?
  }

  lemma LocalPhaseOk(q: Queue, b: Book, w: Worker, p: Phase, step: Step)
    requires IsLocal(step) && PhaseOk(q, b, p)
    requires step.Check? ==> p.Top?
    requires step.Consume? ==> p.Checked? && p.held.Some?
    requires step.TryFails? ==> p == Checked(None)
    requires step.Wake? ==> p.Parked?
    requires step.Short? ==> p.Begun? && p.e.snap.defa
    requires step.Return? ==> p.Running?
    requires step.ReadAtm? ==> p.Returned? && NeedsAtm(p.out)
    requires step.Resolve? ==> p.AtmRead? || (p.Returned? && !NeedsAtm(p.out))
    ensures var p' := LocalPhase(q, w, p, step);
            && PhaseOk(q, b, p') && Held(p') == Held(p)
            && (w.runCancelled ==> MayStart(p') <= MayStart(p))
            && (p'.Leaving? && p'.held.Some? ==> w.jobsCancelled) && !p'.Refused?
  {
  }

  lemma LocalOk(s: System, step: Step)
    requires Ok(s) && Enabled(s, step) && IsLocal(step)
    ensures Ok(Next(s, step))
  {
    hide Sound, BookOk, PhaseOk, Apart, HasHolder, LocalPhase, Allowed, Apply;
    var d := step.d;
    assert DispatcherOk(s, d);
    var p, w := s.disp[d].phase, s.workers[s.disp[d].worker];
    LocalPhaseOk(s.q, s.book, w, p, step);
    PutOk(s, d, LocalPhase(s.q, w, p, step));
  }
}
