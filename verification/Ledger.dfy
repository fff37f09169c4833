/**
  The retry policy of finalise, and what it does to one job over its whole life. A record
  keeps the executions of a job that took effect; attempts, failure history, place and the
  number of handler starts are tied to that record by an invariant of the one-job automaton.
 */
module Ledger {
  import opened Wrappers
  import opened Queues
  import opened JobLife

  // ---------- outcomes and decisions ----------

  /** What a handler returned; delay is set when the error wraps a DelayedError. */
  datatype Outcome = Success | Fail(reason: string, delay: Option<int>, unrecoverable: bool)

  /**
    One execution: an outcome, the delay the backoff configuration chose for it and the start
    time of the attempt; or the failure of a job that stalled too often.
   */
  datatype Entry = Ran(out: Outcome, backoff: int, at: int) | StalledOut(at: int)

  datatype Command =
    | Finish(bucket: Bucket, keep: Keep, history: Option<History>)
    | Requeue(lifo: bool, history: Option<History>)
    | Postpone(delay: int, skipAttempt: bool, history: Option<History>)

  const STALLED_REASON := "job stalled more than allowable limit"

  predicate ShouldRetry(opts: JobOpts, atm: int, unrecoverable: bool) {
    !unrecoverable && opts.attempts > 0 && atm + 1 < opts.attempts
  }

  /** buildFailureHistory. */
  function Append(job: Job, reason: string): History {
    History(job.trace + [reason], if job.processedOn > 0 then job.starts + [job.processedOn] else job.starts)
  }

  function AtLeastOne(ms: int): int {
    if ms < 1 then 1 else ms
  }

  /** finalise, and the short path of runJob: job is the snapshot taken at dequeue. */
  function Decide(job: Job, entry: Entry, atm: int): Command {
    match entry
    case StalledOut(_) => Finish(Failed, job.opts.keepFailed, Some(Append(job, STALLED_REASON)))
    case Ran(Success, _, _) => Finish(Completed, job.opts.keepCompleted, None)
    case Ran(Fail(reason, delay, unrecoverable), backoff, _) =>
      if delay.Some? then
        Postpone(AtLeastOne(delay.value), true, None)
      else if !ShouldRetry(job.opts, atm, unrecoverable) || backoff < 0 then
        Finish(Failed, job.opts.keepFailed, Some(Append(job, reason)))
      else if backoff > 0 then
        Postpone(AtLeastOne(backoff), false, Some(Append(job, reason)))
      else
        Requeue(job.opts.lifo, Some(Append(job, reason)))
  }

  // ---------- the effect of a list of executions ----------

  datatype Status = InPlay | Ended(bucket: Bucket)

  datatype Tally = Tally(atm: int, trace: seq<string>, starts: seq<int>, status: Status)

  predicate IsDelay(entry: Entry) {
    entry.Ran? && entry.out.Fail? && entry.out.delay.Some?
  }

  function Reason(entry: Entry): string
    requires entry.Ran? ==> entry.out.Fail?
  {
    if entry.StalledOut? then STALLED_REASON else entry.out.reason
  }

  /** One execution, in terms of attempts, history and status only. */
  function Count(opts: JobOpts, t: Tally, entry: Entry): Tally {
    if IsDelay(entry) then
      t
    else if entry.Ran? && entry.out.Success? then
      t.(atm := t.atm + 1, status := Ended(Completed))
    else
      var again := entry.Ran? && ShouldRetry(opts, t.atm, entry.out.unrecoverable) && entry.backoff >= 0;
      Tally(
        t.atm + 1, t.trace + [Reason(entry)], if entry.at > 0 then t.starts + [entry.at] else t.starts,
        if again then InPlay else Ended(Failed))
  }

  function Fold(opts: JobOpts, log: seq<Entry>): Tally {
    if log == [] then Tally(0, [], [], InPlay) else Count(opts, Fold(opts, log[..|log| - 1]), log[|log| - 1])
  }

  function Delays(log: seq<Entry>): nat {
    if log == [] then 0 else Delays(log[..|log| - 1]) + if IsDelay(log[|log| - 1]) then 1 else 0
  }

  /** The executions that were not postponements. */
  function Erase(log: seq<Entry>): seq<Entry> {
    if log == [] then
      []
    else
      var rest := Erase(log[..|log| - 1]);
      if IsDelay(log[|log| - 1]) then rest else rest + [log[|log| - 1]]
  }

  /** Postponements leave no trace: the rest of the executions give the same tally. */
  lemma {:induction false} DelaysEraseFromFold(opts: JobOpts, log: seq<Entry>)
    ensures Fold(opts, Erase(log)) == Fold(opts, log)
  {
    if log != [] {
      var front, last := log[..|log| - 1], log[|log| - 1];
      DelaysEraseFromFold(opts, front);
      if !IsDelay(last) {
        var erased := Erase(log);
        assert erased[..|erased| - 1] == Erase(front);
      }
    }
  }

  /** The retry decision, too, is the same with the postponements deleted. */
  lemma DelaysEraseFromDecision(job: Job, log: seq<Entry>, entry: Entry)
    ensures Decide(job, entry, Fold(job.opts, Erase(log)).atm) == Decide(job, entry, Fold(job.opts, log).atm)
  {
    DelaysEraseFromFold(job.opts, log);
  }

  /** The failures of a log, in order. */
  function Failures(log: seq<Entry>): seq<string> {
    if log == [] then
      []
    else
      var rest, last := Failures(log[..|log| - 1]), log[|log| - 1];
      if IsDelay(last) || (last.Ran? && last.out.Success?) then rest else rest + [Reason(last)]
  }

  /** Nothing follows an entry that ended the job. */
  predicate WellEnded(opts: JobOpts, log: seq<Entry>) {
    forall k :: 0 <= k < |log| ==> Fold(opts, log[..k]).status.InPlay?
  }

  lemma {:induction false} FoldHistory(opts: JobOpts, log: seq<Entry>)
    requires WellEnded(opts, log)
    ensures var t := Fold(opts, log);
            && t.trace == Failures(log)
            && |t.trace| == (if t.status == Ended(Completed) then t.atm - 1 else t.atm)
  {
    if log != [] {
      var n := |log| - 1;
      assert forall k :: 0 <= k < n ==> log[..n][..k] == log[..k];
      FoldHistory(opts, log[..n]);
      assert log[..n] == log[..n][..n];
      assert Fold(opts, log[..n]).status.InPlay?;
    }
  }

  predicate Succeeds(entry: Entry) {
    entry.Ran? && entry.out.Success?
  }

  /** A failure that is final however many attempts are left. */
  predicate GivesUp(entry: Entry) {
    entry.StalledOut? || (entry.out.Fail? && entry.out.delay.None? && (entry.out.unrecoverable || entry.backoff < 0))
  }

  /**
    The attempts made are the executions that were not postponements. All but the last of them
    failed without being final; the last decides: a success completes the job, and a failure
    fails it if and only if it is final or the attempts are used up.
   */
  lemma {:induction false} FoldOutcome(opts: JobOpts, log: seq<Entry>)
    requires WellEnded(opts, log)
    ensures var t, ran := Fold(opts, log), Erase(log);
            && t.atm == |ran|
            && (forall k :: 0 <= k < |ran| - 1 ==> !Succeeds(ran[k]) && !GivesUp(ran[k]) && k + 1 < Attempts(opts))
            && (t.status == Ended(Completed) <==> ran != [] && Succeeds(ran[|ran| - 1]))
            && (t.status == Ended(Failed) <==> ran != [] && !Succeeds(ran[|ran| - 1])
                                               && (GivesUp(ran[|ran| - 1]) || |ran| >= Attempts(opts)))
  {
    if log != [] {
      var n := |log| - 1;
      assert forall k :: 0 <= k < n ==> log[..n][..k] == log[..k];
      FoldOutcome(opts, log[..n]);
      assert Fold(opts, log[..n]).status.InPlay?;
    }
  }

  /**
    A failure without a delay of its own is final if and only if it is unrecoverable, no attempt
    is left, or the backoff is negative; else the job goes back at once, or after the backoff.
   */
  lemma FailureDecision(job: Job, reason: string, unrecoverable: bool, backoff: int, at: int, atm: int)
    ensures var cmd := Decide(job, Ran(Fail(reason, None, unrecoverable), backoff, at), atm);
            var history := Some(Append(job, reason));
            if unrecoverable || job.opts.attempts <= 0 || job.opts.attempts <= atm + 1 || backoff < 0 then
              cmd == Finish(Failed, job.opts.keepFailed, history)
            else if backoff == 0 then
              cmd == Requeue(job.opts.lifo, history)
            else
              cmd == Postpone(backoff, false, history)
  {
  }

  // ---------- one job ----------

  /** opts and recurring describe the job; granted and started are lease numbers. */
  datatype Record = Record(
    id: Id, opts: JobOpts, recurring: bool, log: seq<Entry>, granted: set<nat>, started: set<nat>, retried: bool,
    kept: bool)

  function NewRecord(id: Id, opts: JobOpts, rjk: Option<SchedulerId>): Record {
    Record(id, opts, rjk.Some?, [], {}, {}, false, false)
  }

  function Attempts(opts: JobOpts): int {
    if opts.attempts < 1 then 1 else opts.attempts
  }

  function NonNegative(n: int): nat {
    if n < 0 then 0 else n
  }

  /** Exactly one place for a stored job, none for an absent one; locked only while active. */
  predicate OnePlaced(v: View) {
    && v.job.Some? == (v.pending || v.active || v.completed || v.failed)
    && !(v.pending && v.active) && !(v.pending && v.completed) && !(v.pending && v.failed)
    && !(v.active && v.completed) && !(v.active && v.failed) && !(v.completed && v.failed)
    && (v.lock.Some? ==> v.active)
  }

  /** The job's attempts, history and place are what the logged executions make them. */
  predicate Tallied(v: View, t: Tally)
    requires v.job.Some?
  {
    var job := v.job.value;
    && job.atm == t.atm && job.trace == t.trace && job.starts == t.starts
    && (t.status.InPlay? <==> v.pending || v.active)
    && (t.status == Ended(Completed) <==> v.completed)
  }

  predicate AttemptsBounded(v: View)
    requires v.job.Some?
  {
    var job := v.job.value;
    0 <= job.atm <= Attempts(job.opts) - if v.pending || v.active then 1 else 0
  }

  /** Handlers granted so far, for one shared stall limit. */
  predicate GrantsBounded(limit: int, v: View, r: Record)
    requires v.job.Some?
  {
    var job := v.job.value;
    if v.completed || v.failed || job.defa then
      |r.granted| <= Attempts(r.opts) + NonNegative(limit) + Delays(r.log)
    else
      && 0 <= job.stc <= NonNegative(limit)
      && |r.granted| <= job.atm + job.stc + Delays(r.log) + if v.active then 1 else 0
  }

  /** The bound that outlives the job. */
  predicate Capped(limit: int, r: Record) {
    && r.started <= r.granted
    && (r.kept ==> r.retried)
    && (!r.retried && !r.recurring ==> |r.granted| <= Attempts(r.opts) + NonNegative(limit) + Delays(r.log))
    && (!r.retried ==> WellEnded(r.opts, r.log))
  }

  predicate Consistent(limit: int, v: View, r: Record) {
    && OnePlaced(v) && Capped(limit, r)
    && (v.job.Some? ==>
          && v.job.value.opts == r.opts && v.job.value.rjk.Some? == r.recurring
          && (!r.retried ==> Tallied(v, Fold(r.opts, r.log)))
          && (!r.kept ==> AttemptsBounded(v))
          && (!r.retried && !r.recurring ==> GrantsBounded(limit, v, r)))
  }

  predicate Moves(c: Change) {
    c.Done? || c.Requeued? || c.Postponed?
  }

  predicate Matches(c: Change, cmd: Command) {
    match cmd
    case Finish(bucket, _, history) => c.Done? && c.bucket == bucket && c.history == history
    case Requeue(_, history) => c.Requeued? && c.history == history
    case Postpone(_, skip, history) => c.Postponed? && c.skipAttempt == skip && c.history == history
  }

  /** A move carries an entry, and is what finalise decided for it on the job as it now is. */
  predicate Faithful(limit: int, v: View, c: Change, entry: Option<Entry>) {
    && (Moves(c) ==>
          && v.job.Some? && entry.Some? && entry.value.at == v.job.value.processedOn
          && entry.value.StalledOut? == v.job.value.defa
          && Matches(c, Decide(v.job.value, entry.value, v.job.value.atm)))
    && (c.Reclaimed? ==> c.limit == limit && (c.repeatable ==> v.job.Some? && v.job.value.rjk.Some?))
  }

  function Update(r: Record, v: View, c: Change, entry: Option<Entry>, lease: nat): Record {
    match c
    case Taken(_, _) => if v.job.Some? && v.job.value.defa then r else r.(granted := r.granted + {lease})
    case Revived(resetAtm, _) => r.(retried := true, kept := r.kept || !resetAtm)
    case _ => if Moves(c) && entry.Some? then r.(log := r.log + [entry.value]) else r
  }

  lemma LogGrows(opts: JobOpts, log: seq<Entry>, entry: Entry)
    ensures Fold(opts, log + [entry]) == Count(opts, Fold(opts, log), entry)
    ensures Delays(log + [entry]) == Delays(log) + if IsDelay(entry) then 1 else 0
    ensures WellEnded(opts, log) && Fold(opts, log).status.InPlay? ==> WellEnded(opts, log + [entry])
  {
    var log' := log + [entry];
    assert log'[..|log|] == log;
    if WellEnded(opts, log) && Fold(opts, log).status.InPlay? {
      forall k | 0 <= k < |log'|
        ensures Fold(opts, log'[..k]).status.InPlay?
      {
        if k < |log| {
          assert log'[..k] == log[..k];
        } else {
          assert log'[..k] == log;
        }
      }
    }
  }

  /** A move by the lock holder, as finalise decided it. */
  lemma MoveConsistent(limit: int, v: View, c: Change, r: Record, entry: Entry, lease: nat)
    requires Legal(v, c) && Consistent(limit, v, r) && Moves(c) && Faithful(limit, v, c, Some(entry))
    ensures Consistent(limit, After(v, c), Update(r, v, c, Some(entry), lease))
  {
    hide Fold, Delays, WellEnded;
    LogGrows(r.opts, r.log, entry);
  }

  /** The invariant of one job is kept by every legal change. */
  lemma ChangeConsistent(limit: int, v: View, c: Change, r: Record, entry: Option<Entry>, lease: nat)
    requires Legal(v, c) && Consistent(limit, v, r) && Faithful(limit, v, c, entry) && !c.Born? && lease !in r.granted
    ensures Consistent(limit, After(v, c), Update(r, v, c, entry, lease))
  {
    hide Fold, Delays, WellEnded;
    if Moves(c) {
      MoveConsistent(limit, v, c, r, entry.value, lease);
    } else if c.Taken? {
      assert |r.granted + {lease}| == |r.granted| + 1;
    }
  }

  lemma BornConsistent(limit: int, id: Id, c: Change)
    requires c.Born?
    ensures Consistent(limit, After(ABSENT, c), NewRecord(id, c.opts, c.rjk))
  {
  }
}
