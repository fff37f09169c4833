/** What becomes of a job when the verdict of its execution is accepted: finalise and the script behind it, as one. */
module Verdicts {
  import opened Wrappers
  import opened Queues
  import opened JobLife
  import opened Ledger
  import opened Books
  import opened Workers
  import opened WorkerSteps
  import opened Leases
  import opened Retention
  import opened DueTimes
  import opened Placement

  /** Step is an accepted submission of the given entry. */
  ghost predicate Reported(s: System, step: Step, entry: Entry) {
    && step.Submit? && step.d in s.disp && s.disp[step.d].phase.Sending? && s.disp[step.d].phase.entry == entry
    && Accepted(s, step)
  }

  lemma Ruling(s: System, step: Step, entry: Entry)
    requires Reported(s, step, entry) && Enabled(s, step) && Ok(s)
    ensures var p := s.disp[step.d].phase;
            && Owns(s.q, p.e.id, p.e.token) && p.e.token != NO_LOCK && Sound(s.q)
            && p.cmd == Decide(s.q.jobs[p.e.id], entry, s.q.jobs[p.e.id].atm)
            && Next(s, step).q == Apply(s.q, Script(p.e, p.cmd, p.fetch, step.now, step.limited)).0
  {
    hide Apply, Script, HasHolder, Apart, BookOk, Sound, Decide, Accepted, Next, Enabled, DispatcherOk;
    SubmitReply(s, step);
    DecidedAsIfAtomic(s, step);
    TokenIsReal(s, step.d);
    NextShared(s, step);
  }

  lemma ScriptIs(q: Queue, e: Exec, cmd: Command, fetch: bool, now: int, limited: bool)
    ensures var q' := Apply(q, Script(e, cmd, fetch, now, limited)).0;
            match cmd
            case Finish(bucket, keep, history) =>
              q' == FinishJob(q, e.id, e.token, bucket, keep, history, now, fetch, limited).0
            case Requeue(lifo, history) => q' == Retry(q, e.id, e.token, lifo, history, now).0
            case Postpone(delay, skip, history) =>
              q' == DelayJob(q, e.id, e.token, now, delay, skip, history).0
  {
    hide FinishJob, Retry, DelayJob;
  }

  /**
    A failure with no delay of its own, accepted in any state the workers can reach. Without a
    further attempt the job is kept among the failed as its options say; else it joins the ready
    jobs at once, at the end its options say, or is due after the backoff. Attempts and retention
    are those of the HASH at that moment.
   */
  lemma FailureTakesEffect(s: System, step: Step, reason: string, unrecoverable: bool, backoff: int, at: int)
    returns (mid: map<Id, int>)
    requires Reported(s, step, Ran(Fail(reason, None, unrecoverable), backoff, at)) && Enabled(s, step) && Ok(s)
    ensures var q, q', id := s.q, Next(s, step).q, s.disp[step.d].phase.e.id;
            && id in q.jobs
            && var opts, atm := q.jobs[id].opts, q.jobs[id].atm;
               if unrecoverable || opts.attempts <= 0 || opts.attempts <= atm + 1 || backoff < 0 then
                 Keeps(q, q', id, Failed, opts.keepFailed, step.now, mid)
               else if backoff == 0 then
                 Joined(PromoteDue(q, step.now), q', id, opts.priority, opts.lifo)
               else
                 DueOn(q.delayed, q'.delayed, id, step.now + backoff)
  {
    hide Apply, Script, Ok, Decide, Accepted, Next, Enabled, Sound, Keeps, Joined, DueOn, FinishJob, Retry, DelayJob;
    var p := s.disp[step.d].phase;
    var e, cmd := p.e, p.cmd;
    Ruling(s, step, p.entry);
    var job := s.q.jobs[e.id];
    ScriptIs(s.q, e, cmd, p.fetch, step.now, step.limited);
    FailureDecision(job, reason, unrecoverable, backoff, at, job.atm);
    mid := map[];
    match cmd
    case Finish(bucket, keep, history) =>
      mid := FinishKeeps(s.q, e.id, e.token, bucket, keep, history, step.now, p.fetch, step.limited);
    case Requeue(lifo, history) => RetriedGoes(s.q, e.id, e.token, lifo, history, step.now);
    case Postpone(delay, skip, history) =>
      PostponedUntil(s.q, e.id, e.token, step.now, delay, skip, history);
  }

  /** A DelayedError is due after its delay, of at least a millisecond, and costs no attempt. */
  lemma DelayTakesEffect(s: System, step: Step, reason: string, delay: int, unrecoverable: bool, backoff: int, at: int)
    requires Reported(s, step, Ran(Fail(reason, Some(delay), unrecoverable), backoff, at)) && Enabled(s, step) && Ok(s)
    ensures var q, q', id := s.q, Next(s, step).q, s.disp[step.d].phase.e.id;
            && id in q.jobs && id in q'.jobs && q'.jobs[id] == q.jobs[id]
            && DueOn(q.delayed, q'.delayed, id, step.now + if delay > 1 then delay else 1)
  {
    hide Apply, Script, Ok, Accepted, Next, Enabled, Sound, DueOn, DelayJob, Where;
    var p := s.disp[step.d].phase;
    Ruling(s, step, p.entry);
    ScriptIs(s.q, p.e, p.cmd, p.fetch, step.now, step.limited);
    PostponedUntil(s.q, p.e.id, p.e.token, step.now, AtLeastOne(delay), true, None);
    DelayFollows(s.q, p.e.id, p.e.token, step.now, AtLeastOne(delay), true, None, p.e.id);
  }

  /** A success is kept among the completed, and a job that stalled too often among the failed, as its options say. */
  lemma EndTakesEffect(s: System, step: Step, entry: Entry) returns (mid: map<Id, int>)
    requires Succeeds(entry) || entry.StalledOut?
    requires Reported(s, step, entry) && Enabled(s, step) && Ok(s)
    ensures var q, q', id := s.q, Next(s, step).q, s.disp[step.d].phase.e.id;
            && id in q.jobs
            && if entry.StalledOut? then Keeps(q, q', id, Failed, q.jobs[id].opts.keepFailed, step.now, mid)
               else Keeps(q, q', id, Completed, q.jobs[id].opts.keepCompleted, step.now, mid)
  {
    hide Apply, Script, Ok, Accepted, Next, Enabled, Sound, Keeps, FinishJob, Append;
    var p := s.disp[step.d].phase;
    Ruling(s, step, entry);
    ScriptIs(s.q, p.e, p.cmd, p.fetch, step.now, step.limited);
    var cmd := p.cmd;
    mid := FinishKeeps(s.q, p.e.id, p.e.token, cmd.bucket, cmd.keep, cmd.history, step.now, p.fetch, step.limited);
  }
}
