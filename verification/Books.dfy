/**
  Bookkeeping beside a queue: which incarnation of a job each id stands for, every
  acquisition ever made, and how each of them ended. Nothing in the queue depends on it.
 */
module Books {
  import opened Wrappers
  import opened Queues
  import opened JobLife
  import opened Ledger

  /** One acquisition of a job by a worker. */
  datatype LeaseInfo = LeaseInfo(id: Id, worker: nat, serial: nat, ended: bool, lost: bool, dropped: bool)

  /** serial and lease give, per id, the newest index into records and leases. */
  datatype Book = Book(serial: map<Id, nat>, records: seq<Record>, lease: map<Id, nat>, leases: seq<LeaseInfo>)

  function BornId(q: Queue, op: Op): Option<Id> {
    match op
    case Add(custom, _, _, _) => if NewId(q, custom) !in q.jobs then Some(NewId(q, custom)) else None
    case UpdateScheduler(sid, producer, timing, opts, now) =>
      if NextIteration(q, sid, producer, timing, opts, now).1 == Code(1) && sid in q.repeat
      then Some(SlotId(sid, NextSlot(q, sid, timing, now))) else None
    case Enter(sid, _, slot, _, _, _) => if SlotId(sid, slot) !in q.jobs then Some(SlotId(sid, slot)) else None
    case _ => None
  }

  predicate Ends(c: Change) {
    Moves(c) || c.Reclaimed? || c.Gone?
  }

  function UpdateLease(info: LeaseInfo, c: Change, op: Op): LeaseInfo {
    info.(ended := info.ended || Ends(c),
          lost := info.lost || (c.Unlocked? && op.ExpireLock?),
          dropped := info.dropped || (c.Unlocked? && op.ReleaseLock?))
  }

  /** The change to the id of record k, if k is still the newest record of that id. */
  ghost function RecordAfter(b: Book, q: Queue, op: Op, entry: Option<Entry>, k: nat): Record
    requires k < |b.records|
  {
    var r := b.records[k];
    if r.id in b.serial && b.serial[r.id] == k then
      Update(r, ViewOf(q, r.id), ChangeOf(q, op, r.id), entry, |b.leases|)
    else
      r
  }

  ghost function LeaseAfter(b: Book, q: Queue, op: Op, l: nat): LeaseInfo
    requires l < |b.leases|
  {
    var info := b.leases[l];
    if info.id in b.lease && b.lease[info.id] == l then UpdateLease(info, ChangeOf(q, op, info.id), op) else info
  }

  ghost function BornRecord(q: Queue, op: Op, id: Id): Record {
    var c := ChangeOf(q, op, id);
    if c.Born? then NewRecord(id, c.opts, c.rjk) else NewRecord(id, NO_OPTS, None)
  }

  function SerialOf(b: Book, id: Id): nat {
    if id in b.serial then b.serial[id] else 0
  }

  /** The book after worker has had op run, with the execution that op reports, if any. */
  ghost function Note(b: Book, q: Queue, op: Op, worker: nat, entry: Option<Entry>): Book {
    var reply, born := Apply(q, op).1, BornId(q, op);
    var records := seq(|b.records|, k requires 0 <= k < |b.records| => RecordAfter(b, q, op, entry, k));
    var leases := seq(|b.leases|, l requires 0 <= l < |b.leases| => LeaseAfter(b, q, op, l));
    Book(
      if born.Some? then b.serial[born.value := |b.records|] else b.serial,
      if born.Some? then records + [BornRecord(q, op, born.value)] else records,
      if reply.Got? then b.lease[reply.id := |b.leases|] else b.lease,
      if reply.Got? then leases + [LeaseInfo(reply.id, worker, SerialOf(b, reply.id), false, false, false)] else leases)
  }

  // ---------- the invariant ----------

  ghost predicate RecordOk(limit: int, q: Queue, b: Book, x: Id) {
    && x in b.serial && b.serial[x] < |b.records| && b.records[b.serial[x]].id == x
    && Consistent(limit, ViewOf(q, x), b.records[b.serial[x]])
  }

  /** The newest lease of an active id is open, and its lock is there unless it expired or was dropped. */
  ghost predicate LeaseOk(q: Queue, b: Book, x: Id) {
    && x in b.lease && b.lease[x] < |b.leases|
    && var info := b.leases[b.lease[x]];
       && info.id == x && x in b.serial && info.serial == b.serial[x] && !info.ended
       && (x in q.lock || info.lost || info.dropped)
  }

  /** The newest lease of an id is open exactly while the id is active; once expired, it has no lock. */
  ghost predicate StandingOk(q: Queue, b: Book, x: Id)
    requires x in b.lease
  {
    && b.lease[x] < |b.leases|
    && var info := b.leases[b.lease[x]];
       info.id == x && (!info.ended <==> x in q.active) && (info.lost ==> x !in q.lock)
  }

  ghost predicate BookOk(limit: int, q: Queue, b: Book) {
    && (forall x :: x in q.jobs ==> RecordOk(limit, q, b, x))
    && (forall x :: x in q.active ==> LeaseOk(q, b, x))
    && (forall x :: x in b.lease ==> StandingOk(q, b, x))
    && (forall k :: 0 <= k < |b.records| ==> Capped(limit, b.records[k]))
    && (forall k, l :: 0 <= k < |b.records| && l in b.records[k].granted ==> l < |b.leases|)
  }

  // ---------- which changes which scripts make ----------

  /** Scripts that only a dispatcher runs. */
  predicate WorkerOp(op: Op) {
    op.MoveToActive? || op.MoveToFinished? || op.RetryJob? || op.MoveToDelayed? || op.ExtendLock? || op.ReleaseLock?
  }

  lemma BornExactly(q: Queue, op: Op, x: Id)
    ensures ChangeOf(q, op, x).Born? <==> BornId(q, op) == Some(x)
  {
    hide AddJob, Acquire, FinishJob, Retry, DelayJob, Extend, Release, ScanStalled, PromoteJob, ReprocessJob,
      ResumeRound, DrainQueue, Remove, NextIteration, NextSlot, SlotId, Digits, Withdrawn, EnterSchedule;
  }

  /** Only acquiring scripts take a job, under their own token; the reply says which. */
  lemma TakenExactly(q: Queue, op: Op, x: Id)
    requires Sound(q) && Allowed(q, op)
    ensures var reply, c := Apply(q, op).1, ChangeOf(q, op, x);
            && (c.Taken? <==> reply.Got? && reply.id == x)
            && (c.Taken? ==> (op.MoveToActive? || op.MoveToFinished?) && c.token == op.token && c.now == op.now)
            && (reply.Got? ==> (op.MoveToActive? || op.MoveToFinished?)
                               && reply.id in Apply(q, op).0.jobs && reply.job == Apply(q, op).0.jobs[reply.id])
  {
    hide Sound, AddJob, Acquire, Leave, Settle, BumpAtm, Retry, DelayJob, ScanStalled, PromoteJob, ReprocessJob,
      ResumeRound, DrainQueue, Remove, NextIteration, NextSlot, SlotId, Digits, ViewOf, Where, Withdrawn,
      EnterSchedule;
    match op
    case MoveToActive(token, now, limited) => AcquireEffect(q, token, now, limited, false, x);
    case MoveToFinished(id, token, bucket, keep, history, now, fetchNext, limited) =>
      FinishReply(q, id, token, bucket, keep, history, now, fetchNext, limited, x);
    case RetryJob(_, _, _, _, _) => NoFetch(q, op);
    case _ => NoFetch(q, op);
  }

  lemma NoFetch(q: Queue, op: Op)
    requires !op.MoveToActive? && !op.MoveToFinished?
    ensures !Apply(q, op).1.Got?
  {
    hide Leave, Settle, BumpAtm, ScanStalled, NextSlot, SlotId, Digits, PromoteDue, Enqueue, DelayedScore,
      CurrentIteration, RemoveFromAnyState, Acquire, FinishJob, DrainQueue, Store;
  }

  lemma FetchedAnother(q: Queue, q1: Queue, q2: Queue, reply: Reply, id: Id, token: Token, bucket: Bucket,
                       history: Option<History>, now: int)
    requires reply.Got? && Owns(q, id, token)
    requires forall x :: x == id || x == reply.id ==>
               Follows(q, q1, FinishChange(q, q1, Code(0), id, token, bucket, history, now, x), x)
    requires Fetched(q1, q2, reply, token, now, reply.id)
    ensures reply.id != id && reply.id in q.jobs && reply.id in q2.jobs && reply.job == q2.jobs[reply.id]
  {
    hide Where;
    assert Follows(q, q1, FinishChange(q, q1, Code(0), id, token, bucket, history, now, id), id);
    assert Follows(q, q1, FinishChange(q, q1, Code(0), id, token, bucket, history, now, reply.id), reply.id);
  }

  /** A finish that did not own its job fetches nothing; one that did never gets the same job back. */
  lemma FinishReply(q: Queue, id: Id, token: Token, bucket: Bucket, keep: Keep, history: Option<History>, now: int,
                    fetchNext: bool, limited: bool, x: Id)
    requires Sound(q) && token != NO_LOCK
    ensures var (q', reply) := FinishJob(q, id, token, bucket, keep, history, now, fetchNext, limited);
            && (reply.Got? ==> Owns(q, id, token) && reply.id != id && reply.id in q.jobs)
            && (reply.Got? ==> reply.id in q'.jobs && reply.job == q'.jobs[reply.id])
            && (Owns(q, id, token) <==> !(reply.Code? && reply.code < 0))
  {
    hide Leave, Sound, BumpAtm, Settle, Where, ViewOf, Acquire, Follows, FinishChange;
    if !Owns(q, id, token) {
      LeaveRefused(q, id, token, history);
    } else {
      var (q1, code) := FinishJob(q, id, token, bucket, keep, history, now, false, false);
      FinishAlone(q, id, token, bucket, keep, history, now, id);
      if fetchNext {
        FinishAloneSound(q, id, token, bucket, keep, history, now);
        var (q2, reply) := Acquire(q1, token, now, limited, true);
        AcquireEffect(q1, token, now, limited, true, id);
        if reply.Got? {
          AcquireEffect(q1, token, now, limited, true, reply.id);
          FinishAlone(q, id, token, bucket, keep, history, now, reply.id);
          FetchedAnother(q, q1, q2, reply, id, token, bucket, history, now);
        }
      }
    }
  }

  lemma EnvChange(q: Queue, op: Op, x: Id)
    requires !WorkerOp(op)
    ensures var c := ChangeOf(q, op, x);
            && !Moves(c) && !c.Taken?
            && (c.Reclaimed? ==> op.MoveStalled? && c.limit == op.limit && (c.repeatable ==> JobOf(q, x).rjk.Some?))
            && (c.Unlocked? ==> op.ExpireLock?)
  {
    hide AddJob, Acquire, FinishJob, Retry, DelayJob, Extend, Release, ScanStalled, PromoteJob, ReprocessJob,
      ResumeRound, DrainQueue, Remove, NextIteration, NextSlot, SlotId, Digits, Withdrawn, EnterSchedule;
  }

  // ---------- the invariant is kept ----------

  /** Whatever the script moved was moved as finalise decided. */
  ghost predicate AllFaithful(limit: int, q: Queue, op: Op, entry: Option<Entry>) {
    forall x :: Faithful(limit, ViewOf(q, x), ChangeOf(q, op, x), entry)
  }

  lemma AbsentChange(q: Queue, op: Op, x: Id)
    requires Sound(q) && Allowed(q, op) && x !in q.jobs
    ensures ChangeOf(q, op, x).Same? || ChangeOf(q, op, x).Born?
  {
    hide Apply, ChangeOf, Allowed;
    StepFollows(q, op, x);
    AbsentFacts(q, x);
    hide Where, Sound;
  }

  lemma BornStep(limit: int, q: Queue, b: Book, op: Op, worker: nat, entry: Option<Entry>, x: Id)
    requires Follows(q, Apply(q, op).0, ChangeOf(q, op, x), x) && ChangeOf(q, op, x).Born?
    ensures RecordOk(limit, Apply(q, op).0, Note(b, q, op, worker, entry), x)
  {
    hide Apply, ChangeOf, Where, Consistent, LeaseAfter, RecordAfter, BornId, ViewOf;
    BornExactly(q, op, x);
    BornConsistent(limit, x, ChangeOf(q, op, x));
    assert Note(b, q, op, worker, entry).records[|b.records|] == BornRecord(q, op, x);
  }

  lemma KeptStep(limit: int, q: Queue, b: Book, op: Op, worker: nat, entry: Option<Entry>, x: Id)
    requires Follows(q, Apply(q, op).0, ChangeOf(q, op, x), x) && !ChangeOf(q, op, x).Born?
    requires BookOk(limit, q, b) && x in q.jobs && Faithful(limit, ViewOf(q, x), ChangeOf(q, op, x), entry)
    ensures RecordOk(limit, Apply(q, op).0, Note(b, q, op, worker, entry), x)
  {
    hide Apply, ChangeOf, Where, Consistent, Update, Faithful, Capped, BornId, LeaseAfter, BornRecord, ViewOf,
      LeaseOk;
    BornExactly(q, op, x);
    assert RecordOk(limit, q, b, x);
    var c, b', r := ChangeOf(q, op, x), Note(b, q, op, worker, entry), b.records[b.serial[x]];
    ChangeConsistent(limit, ViewOf(q, x), c, r, entry, |b.leases|);
    assert b'.records[b.serial[x]] == Update(r, ViewOf(q, x), c, entry, |b.leases|);
    UpdateKeepsId(r, ViewOf(q, x), c, entry, |b.leases|);
  }

  lemma RecordStep(limit: int, q: Queue, b: Book, op: Op, worker: nat, entry: Option<Entry>, x: Id)
    requires Sound(q) && Allowed(q, op) && BookOk(limit, q, b) && AllFaithful(limit, q, op, entry)
    requires x in Apply(q, op).0.jobs
    ensures RecordOk(limit, Apply(q, op).0, Note(b, q, op, worker, entry), x)
  {
    hide Apply, ChangeOf, Allowed, Sound, Where, Faithful, BookOk, RecordOk, Note;
    StepFollows(q, op, x);
    if ChangeOf(q, op, x).Born? {
      BornStep(limit, q, b, op, worker, entry, x);
    } else {
      if x !in q.jobs {
        AbsentChange(q, op, x);
      }
      assert Faithful(limit, ViewOf(q, x), ChangeOf(q, op, x), entry);
      KeptStep(limit, q, b, op, worker, entry, x);
    }
  }

  lemma UpdateKeepsId(r: Record, v: View, c: Change, entry: Option<Entry>, lease: nat)
    ensures Update(r, v, c, entry, lease).id == r.id
    ensures Update(r, v, c, entry, lease).granted <= r.granted + {lease}
    ensures r.granted <= Update(r, v, c, entry, lease).granted
    ensures Update(r, v, c, entry, lease).started == r.started
    ensures c.Taken? && v.job.Some? && !v.job.value.defa ==> lease in Update(r, v, c, entry, lease).granted
    ensures !c.Taken? ==> Update(r, v, c, entry, lease).granted == r.granted
  {
  }

  lemma ActiveChange(q: Queue, op: Op, x: Id)
    requires Sound(q) && Allowed(q, op) && x in Apply(q, op).0.active
    ensures var c, q' := ChangeOf(q, op, x), Apply(q, op).0;
            && x in q.jobs
            && if c.Taken? then x in q'.lock
               else x in q.active && (c.Unlocked? || (c.Same? && (x in q.lock ==> x in q'.lock)))
  {
    hide Apply, ChangeOf, Allowed;
    StepFollows(q, op, x);
    if x in q.active {
      ActiveIsJob(q, x);
    }
    hide Sound, Where;
  }

  lemma LeaseStep(limit: int, q: Queue, b: Book, op: Op, worker: nat, entry: Option<Entry>, x: Id)
    requires Sound(q) && Allowed(q, op) && BookOk(limit, q, b)
    requires x in Apply(q, op).0.active
    ensures LeaseOk(Apply(q, op).0, Note(b, q, op, worker, entry), x)
  {
    hide Apply, ChangeOf, Allowed, Where, Sound, Consistent, Update, BornId, RecordAfter, Capped, ViewOf;
    ActiveChange(q, op, x);
    BornExactly(q, op, x);
    TakenExactly(q, op, x);
    UnlockedBy(q, op, x);
    var c, b' := ChangeOf(q, op, x), Note(b, q, op, worker, entry);
    assert RecordOk(limit, q, b, x);
    if c.Taken? {
      assert b'.leases[|b.leases|] == LeaseInfo(x, worker, SerialOf(b, x), false, false, false);
    } else {
      assert LeaseOk(q, b, x);
      assert b'.leases[b.lease[x]] == UpdateLease(b.leases[b.lease[x]], c, op);
    }
  }

  /** What a script does to the place and the lock of an id, by the change it makes. */
  lemma ChangeStands(q: Queue, op: Op, x: Id)
    requires Sound(q) && Allowed(q, op) && !ChangeOf(q, op, x).Taken?
    ensures var c, q' := ChangeOf(q, op, x), Apply(q, op).0;
            && (x in q'.active <==> x in q.active && !Ends(c))
            && (x in q'.lock ==> x in q.lock && !c.Unlocked?)
  {
    hide Apply, ChangeOf, Allowed;
    StepFollows(q, op, x);
    if x in q.active {
      OneActive(q, x);
    }
    hide Sound, Where;
  }

  lemma OneActive(q: Queue, x: Id)
    requires Sound(q) && x in q.active
    ensures x in q.jobs && !Pending(q, x) && x !in q.completed && x !in q.failed
  {
    assert Where(q, x) == if x in q.jobs then 1 else 0;
  }

  lemma StandingStep(limit: int, q: Queue, b: Book, op: Op, worker: nat, entry: Option<Entry>, x: Id)
    requires Sound(q) && Allowed(q, op) && BookOk(limit, q, b) && x in Note(b, q, op, worker, entry).lease
    ensures StandingOk(Apply(q, op).0, Note(b, q, op, worker, entry), x)
  {
    hide Apply, ChangeOf, Allowed, Where, Sound, Ends, Consistent, Update, BornId, RecordAfter, BornRecord, Capped,
      ViewOf, RecordOk, LeaseOk;
    TakenExactly(q, op, x);
    var c, b' := ChangeOf(q, op, x), Note(b, q, op, worker, entry);
    if c.Taken? {
      TakenStands(q, op, x);
      assert b'.leases[|b.leases|] == LeaseInfo(x, worker, SerialOf(b, x), false, false, false);
    } else {
      assert StandingOk(q, b, x);
      ChangeStands(q, op, x);
      assert b'.leases[b.lease[x]] == UpdateLease(b.leases[b.lease[x]], c, op);
    }
  }

  lemma TakenStands(q: Queue, op: Op, x: Id)
    requires Sound(q) && Allowed(q, op) && ChangeOf(q, op, x).Taken?
    ensures x in Apply(q, op).0.active
  {
    hide Apply, ChangeOf, Allowed;
    StepFollows(q, op, x);
    hide Sound, Where;
  }

  lemma UnlockedBy(q: Queue, op: Op, x: Id)
    ensures ChangeOf(q, op, x).Unlocked? ==> op.ExpireLock? || op.ReleaseLock?
  {
    hide AddJob, Acquire, FinishJob, Retry, DelayJob, Extend, Release, ScanStalled, PromoteJob, ReprocessJob,
      ResumeRound, DrainQueue, Remove, NextIteration, NextSlot, SlotId, Digits, Withdrawn, EnterSchedule;
  }

  lemma CapStep(limit: int, q: Queue, b: Book, op: Op, worker: nat, entry: Option<Entry>, k: nat)
    requires Sound(q) && Allowed(q, op) && BookOk(limit, q, b) && AllFaithful(limit, q, op, entry)
    requires k < |b.records|
    ensures Capped(limit, RecordAfter(b, q, op, entry, k))
    ensures RecordAfter(b, q, op, entry, k).granted
         <= b.records[k].granted + if Apply(q, op).1.Got? then {|b.leases|} else {}
  {
    hide Apply, ChangeOf, Allowed, Where, Faithful, Capped;
    var r := b.records[k];
    var x := r.id;
    var v, c := ViewOf(q, x), ChangeOf(q, op, x);
    if x in b.serial && b.serial[x] == k {
      TakenExactly(q, op, x);
      UpdateKeepsId(r, v, c, entry, |b.leases|);
      if x !in q.jobs {
        AbsentChange(q, op, x);
      } else {
        StepFollows(q, op, x);
        hide Sound, Update;
        assert Faithful(limit, v, c, entry);
        BornExactly(q, op, x);
        assert !c.Born?;
        ChangeConsistent(limit, v, c, r, entry, |b.leases|);
      }
    }
  }

  lemma BookStep(limit: int, q: Queue, b: Book, op: Op, worker: nat, entry: Option<Entry>)
    requires Sound(q) && Allowed(q, op) && BookOk(limit, q, b) && AllFaithful(limit, q, op, entry)
    ensures BookOk(limit, Apply(q, op).0, Note(b, q, op, worker, entry))
  {
    hide Apply, ChangeOf, Allowed, Where, Sound, Consistent, Update, Faithful, Capped, AllFaithful, BornId,
      RecordAfter, RecordOk, LeaseOk, StandingOk;
    var q', b' := Apply(q, op).0, Note(b, q, op, worker, entry);
    forall x | x in q'.jobs
      ensures RecordOk(limit, q', b', x)
    {
      RecordStep(limit, q, b, op, worker, entry, x);
    }
    forall x | x in q'.active
      ensures LeaseOk(q', b', x)
    {
      LeaseStep(limit, q, b, op, worker, entry, x);
    }
    forall x | x in b'.lease
      ensures StandingOk(q', b', x)
    {
      StandingStep(limit, q, b, op, worker, entry, x);
    }
    forall k | 0 <= k < |b'.records|
      ensures Capped(limit, b'.records[k])
      ensures forall l :: l in b'.records[k].granted ==> l < |b'.leases|
    {
      if k < |b.records| {
        CapStep(limit, q, b, op, worker, entry, k);
        assert b'.records[k] == RecordAfter(b, q, op, entry, k);
      } else {
        var id := BornId(q, op).value;
        BornExactly(q, op, id);
        BornConsistent(limit, id, ChangeOf(q, op, id));
        ConsistentCapped(limit, After(ABSENT, ChangeOf(q, op, id)), BornRecord(q, op, id));
      }
    }
  }

  lemma ConsistentCapped(limit: int, v: View, r: Record)
    requires Consistent(limit, v, r)
    ensures Capped(limit, r)
  {
  }
}
