/**
  Calls of the administration interface that take several round trips: resuming a queue with a
  legacy paused list, and listing a page of jobs.
 */
module Inspector {
  import opened Wrappers
  import opened Lists
  import opened SortedSets
  import opened Queues
  import opened JobLife
  import opened Store
  import opened Pagination

  // ---------- Resume ----------

  const LEGACY_DRAIN_ROUNDS := 100

  /** Resume has room for this many parked jobs. */
  const LEGACY_CAPACITY := 700000

  function Rounds(q: Queue, n: nat): Queue {
    if n == 0 then q else ResumeRound(Rounds(q, n - 1)).0
  }

  /** Whatever the number of rounds, no job is lost or overtaken, and each full round moves 7000. */
  lemma {:induction false} RoundsConserve(q: Queue, n: nat)
    ensures Rounds(q, n).wait + Rounds(q, n).parked == q.wait + q.parked
    ensures q.wait != [] ==>
              |Rounds(q, n).parked| == (if RESUME_BATCH * n < |q.parked| then |q.parked| - RESUME_BATCH * n else 0)
  {
    hide ResumeRound;
    if n > 0 {
      RoundsConserve(q, n - 1);
      var q1 := Rounds(q, n - 1);
      OneRound(q1);
      if q.wait != [] {
        StaysFilled(q, n - 1);
      }
    }
  }

  lemma OneRound(q: Queue)
    ensures var q' := ResumeRound(q).0;
            && q'.wait + q'.parked == q.wait + q.parked && ResumeRound(q).1 == Code(|q'.parked|)
            && q' == q.(paused := false, wait := q'.wait, parked := q'.parked)
            && (q.wait == [] ==> q'.parked == [])
            && (q.wait != [] ==>
                  && q'.wait != []
                  && |q'.parked| == (if |q.parked| <= RESUME_BATCH then 0 else |q.parked| - RESUME_BATCH))
  {
    hide ResumeRound;
    ResumeMoves(q);
    var b := Batch(q);
    assert q.parked == q.parked[..b] + q.parked[b..];
    assert q.wait + q.parked[..b] + q.parked[b..] == q.wait + q.parked;
  }

  lemma {:induction false} StaysFilled(q: Queue, n: nat)
    requires q.wait != []
    ensures Rounds(q, n).wait != []
  {
    hide ResumeRound;
    if n > 0 {
      StaysFilled(q, n - 1);
      OneRound(Rounds(q, n - 1));
    }
  }

  /**
    pauseResume with "resumed". Uninterrupted, it keeps wait followed by paused as one sequence;
    it succeeds exactly when wait was empty or at most 700000 jobs were parked, and then none is
    parked any more; otherwise it reports what is.
   */
  method Resume(keys: Keys) returns (error: Option<nat>)
    modifies keys
    ensures keys.Snapshot() == old(keys.Snapshot()).(paused := false, wait := keys.wait, parked := keys.parked)
    ensures keys.wait + keys.parked == old(keys.wait + keys.parked)
    ensures error.None? <==> old(keys.wait) == [] || |old(keys.parked)| <= LEGACY_CAPACITY
    ensures error.None? ==> keys.parked == [] && keys.wait == old(keys.wait + keys.parked)
    ensures error.Some? ==> error.value == |keys.parked| == |old(keys.parked)| - LEGACY_CAPACITY
  {
    hide ResumeRound;
    ghost var q := keys.Snapshot();
    var round := 0;
    while true
      invariant 0 <= round < LEGACY_DRAIN_ROUNDS
      invariant keys.wait + keys.parked == q.wait + q.parked
      invariant keys.Snapshot() == q.(paused := keys.paused, wait := keys.wait, parked := keys.parked)
      invariant round == 0 ==> keys.Snapshot() == q
      invariant round > 0 ==> q.wait != [] && keys.wait != [] && keys.parked != []
      invariant |keys.parked| == |q.parked| - RESUME_BATCH * round
      decreases LEGACY_DRAIN_ROUNDS - round
    {
      OneRound(keys.Snapshot());
      var remaining := keys.ResumeOnce();
      if remaining == 0 {
        return None;
      }
      if round + 1 >= LEGACY_DRAIN_ROUNDS {
        return Some(remaining);
      }
      round := round + 1;
    }
  }

  // ---------- ListJobs ----------

  datatype JobBucket =
    | WaitBucket | ActiveBucket | PausedBucket | PrioritizedBucket | DelayedBucket | CompletedBucket | FailedBucket

  predicate IsListBucket(b: JobBucket) {
    b.WaitBucket? || b.PausedBucket? || b.ActiveBucket?
  }

  /** Which bucket is read: the legacy paused list while it has jobs, else wait while the queue is paused. */
  function SourceOf(q: Queue, bucket: JobBucket): Option<JobBucket> {
    if bucket.PausedBucket? && q.parked == [] then
      if q.paused then Some(WaitBucket) else None
    else
      Some(bucket)
  }

  function ListOf(q: Queue, source: JobBucket): seq<Id>
    requires IsListBucket(source)
  {
    if source.WaitBucket? then q.wait else if source.ActiveBucket? then q.active else q.parked
  }

  function SetOf(q: Queue, source: JobBucket): ZSet
    requires !IsListBucket(source)
  {
    match source
    case PrioritizedBucket => q.prioritized
    case DelayedBucket => q.delayed
    case CompletedBucket => q.completed
    case FailedBucket => q.failed
  }

  predicate EndsInMarker(s: seq<Id>) {
    s != [] && IsMarker(s[|s| - 1])
  }

  /** The list without a legacy marker at its tail; a marker alone stays but is not shown. */
  function Unmarked(s: seq<Id>): seq<Id> {
    if EndsInMarker(s) then s[..|s| - 1] else s
  }

  /** Every job of a bucket, in the order in which pages run through it. */
  function Contents(q: Queue, source: JobBucket, asc: bool): seq<Id> {
    if IsListBucket(source) then
      InOrder(if source.ActiveBucket? then q.active else Unmarked(ListOf(q, source)), asc)
    else
      InOrder(Ascending(SetOf(q, source)), !asc)
  }

  /** Reading drops a legacy marker from a list that has a job beside it. */
  function Cleared(q: Queue, source: JobBucket): Queue {
    if source.WaitBucket? && |q.wait| > 1 then q.(wait := Unmarked(q.wait))
    else if source.PausedBucket? && |q.parked| > 1 then q.(parked := Unmarked(q.parked))
    else q
  }

  method ToArray(s: seq<Id>) returns (a: array<Id>)
    ensures fresh(a) && a[..] == s
  {
    a := new Id[|s|](i requires 0 <= i < |s| => s[i]);
  }

  /** getRanges-1.lua for one bucket. */
  method GetRanges(keys: Keys, source: JobBucket, start: int, end: int, asc: bool) returns (ids: array<Id>)
    modifies keys
    ensures fresh(ids) && keys.Snapshot() == Cleared(old(keys.Snapshot()), source)
    ensures IsListBucket(source) ==>
              ids[..] == RangeInList(if source.ActiveBucket? then old(keys.active)
                                     else Unmarked(ListOf(old(keys.Snapshot()), source)), asc, start, end)
    ensures !IsListBucket(source) ==>
              ids[..] == LRange(InOrder(Ascending(SetOf(old(keys.Snapshot()), source)), !asc), start, end)
  {
    hide Ascending, IsMarker;
    if source.WaitBucket? {
      if EndsInMarker(keys.wait) {
        if |keys.wait| > 1 {
          keys.wait := keys.wait[..|keys.wait| - 1];
          ids := ToArray(RangeInList(keys.wait, asc, start, end));
        } else {
          ids := ToArray([]);
        }
      } else {
        ids := ToArray(RangeInList(keys.wait, asc, start, end));
      }
    } else if source.PausedBucket? {
      if EndsInMarker(keys.parked) {
        if |keys.parked| > 1 {
          keys.parked := keys.parked[..|keys.parked| - 1];
          ids := ToArray(RangeInList(keys.parked, asc, start, end));
        } else {
          ids := ToArray([]);
        }
      } else {
        ids := ToArray(RangeInList(keys.parked, asc, start, end));
      }
    } else if source.ActiveBucket? {
      ids := ToArray(RangeInList(keys.active, asc, start, end));
    } else {
      var members := Ascending(SetOf(keys.Snapshot(), source));
      ids := ToArray(LRange(InOrder(members, !asc), start, end));
    }
  }

  /** The stored jobs among ids, in order. */
  function Stored(ids: seq<Id>, jobs: map<Id, Job>): seq<(Id, Job)> {
    if ids == [] then
      []
    else
      var n := |ids| - 1;
      Stored(ids[..n], jobs) + if ids[n] in jobs then [(ids[n], jobs[ids[n]])] else []
  }

  /** fetchJobs: an id whose HASH is gone is skipped. */
  method FetchJobs(keys: Keys, ids: array<Id>) returns (out: seq<(Id, Job)>)
    ensures out == Stored(ids[..], keys.jobs)
  {
    out := [];
    for i := 0 to ids.Length
      invariant out == Stored(ids[..i], keys.jobs)
    {
      assert ids[..i + 1][..i] == ids[..i];
      if ids[i] in keys.jobs {
        out := out + [(ids[i], keys.jobs[ids[i]])];
      }
    }
    assert ids[..ids.Length] == ids[..];
  }

  /** A page: the window of the contents in the requested order, as LRANGE would cut it, less what has no HASH. */
  function Listing(q: Queue, bucket: JobBucket, start: int, end: int, asc: bool): seq<(Id, Job)> {
    var source := SourceOf(q, bucket);
    if source.None? then [] else Stored(LRange(Contents(q, source.value, asc), start, end), q.jobs)
  }

  /** ListJobs returns that page and drops at most a legacy marker. */
  method ListJobs(keys: Keys, bucket: JobBucket, start: int, end: int, ascending: bool) returns (out: seq<(Id, Job)>)
    modifies keys
    ensures out == Listing(old(keys.Snapshot()), bucket, start, end, ascending)
    ensures var q := old(keys.Snapshot());
            keys.Snapshot() == if SourceOf(q, bucket).None? then q else Cleared(q, SourceOf(q, bucket).value)
  {
    hide Ascending, Cleared, Unmarked, LRange, RangeInList;
    var source := bucket;
    if bucket.PausedBucket? && keys.parked == [] {
      if !keys.paused {
        return [];
      }
      source := WaitBucket;
    }
    ghost var q := keys.Snapshot();
    var ids := GetRanges(keys, source, start, end, ascending);
    WindowOf(q, source, start, end, ascending, ids[..]);
    if ascending && IsListBucket(source) {
      TurnRound(ids);
    }
    ClearedJobs(q, source);
    out := FetchJobs(keys, ids);
  }

  lemma ClearedJobs(q: Queue, source: JobBucket)
    ensures Cleared(q, source).jobs == q.jobs
  {
    hide Unmarked;
  }

  lemma WindowOf(q: Queue, source: JobBucket, start: int, end: int, asc: bool, ids: seq<Id>)
    requires IsListBucket(source) ==>
               ids == RangeInList(if source.ActiveBucket? then q.active else Unmarked(ListOf(q, source)),
                                  asc, start, end)
    requires !IsListBucket(source) ==> ids == LRange(InOrder(Ascending(SetOf(q, source)), !asc), start, end)
    ensures (if asc && IsListBucket(source) then Reverse(ids) else ids) == LRange(Contents(q, source, asc), start, end)
  {
    hide Ascending, Unmarked, LRange, RangeInList, Reverse;
    if IsListBucket(source) {
      var s := if source.ActiveBucket? then q.active else Unmarked(ListOf(q, source));
      if asc {
        AscendingWindow(s, start, end);
      } else {
        Descending(s, start, end);
      }
    }
  }

  // ---------- a sound queue lists every job ----------

  lemma {:induction false} AllStored(ids: seq<Id>, jobs: map<Id, Job>)
    requires forall id :: id in ids ==> id in jobs
    ensures |Stored(ids, jobs)| == |ids|
    ensures forall i :: 0 <= i < |ids| ==> Stored(ids, jobs)[i] == (ids[i], jobs[ids[i]])
  {
    if ids != [] {
      AllStored(ids[..|ids| - 1], jobs);
    }
  }

  lemma ContentsAreJobs(q: Queue, source: JobBucket, asc: bool)
    requires Sound(q)
    ensures forall id :: id in Contents(q, source, asc) ==> id in q.jobs
  {
    hide Ascending;
    forall id | id in Contents(q, source, asc)
      ensures id in q.jobs
    {
      assert Where(q, id) == if id in q.jobs then 1 else 0;
    }
  }

  lemma WindowMembers<T>(s: seq<T>, start: int, end: int)
    ensures forall x :: x in LRange(s, start, end) ==> x in s
  {
  }

  /** On a sound queue the page shows exactly the window: no id is dropped, each comes with its job. */
  lemma PageIsWindow(q: Queue, source: JobBucket, asc: bool, start: int, end: int)
    requires Sound(q)
    ensures var window := LRange(Contents(q, source, asc), start, end);
            var page := Stored(window, q.jobs);
            && |page| == |window|
            && forall i :: 0 <= i < |window| ==> window[i] in q.jobs && page[i] == (window[i], q.jobs[window[i]])
  {
    hide Contents, LRange, Sound, Stored;
    var window := LRange(Contents(q, source, asc), start, end);
    ContentsAreJobs(q, source, asc);
    WindowMembers(Contents(q, source, asc), start, end);
    AllStored(window, q.jobs);
  }

  lemma {:induction false} StoredJoins(a: seq<Id>, b: seq<Id>, jobs: map<Id, Job>)
    ensures Stored(a + b, jobs) == Stored(a, jobs) + Stored(b, jobs)
  {
    if b == [] {
      assert a + b == a;
    } else {
      var n := |b| - 1;
      assert (a + b)[..|a| + n] == a + b[..n];
      StoredJoins(a, b[..n], jobs);
    }
  }

  /** Calling ListJobs for one page of the given size after the other, until the bucket is exhausted. */
  function Listings(q: Queue, bucket: JobBucket, source: JobBucket, asc: bool, size: nat, start: nat): seq<(Id, Job)>
    requires size > 0
    decreases |Contents(q, source, asc)| - start
  {
    if start >= |Contents(q, source, asc)| then
      []
    else
      Listing(q, bucket, start, start + size - 1, asc) + Listings(q, bucket, source, asc, size, start + size)
  }

  lemma {:induction false} ListingsAre(q: Queue, bucket: JobBucket, source: JobBucket, asc: bool, size: nat, start: nat)
    requires size > 0 && SourceOf(q, bucket) == Some(source)
    ensures Listings(q, bucket, source, asc, size, start)
         == Stored(Pages(Contents(q, source, asc), size, start), q.jobs)
    decreases |Contents(q, source, asc)| - start
  {
    hide Contents, LRange, SourceOf;
    var contents := Contents(q, source, asc);
    if start < |contents| {
      ListingsAre(q, bucket, source, asc, size, start + size);
      StoredJoins(LRange(contents, start, start + size - 1), Pages(contents, size, start + size), q.jobs);
    }
  }

  /** Reading a sound queue changes nothing, so that successive calls see the same. */
  lemma ReadingIsHarmless(q: Queue, source: JobBucket)
    requires Sound(q)
    ensures Cleared(q, source) == q
  {
    assert forall id :: id in q.wait || id in q.parked ==> !IsMarker(id) by {
      forall id | id in q.wait || id in q.parked
        ensures !IsMarker(id)
      {
        assert Where(q, id) == if id in q.jobs then 1 else 0;
      }
    }
    hide Sound, IsMarker;
    assert q.wait != [] ==> q.wait[|q.wait| - 1] in q.wait;
    assert q.parked != [] ==> q.parked[|q.parked| - 1] in q.parked;
  }

  /**
    On a sound queue the pages of a bucket, of any size, put together are all its jobs in order,
    oldest first when ascending: none is skipped, none is repeated, and each comes with its HASH.
   */
  lemma PagesListBucket(q: Queue, bucket: JobBucket, source: JobBucket, asc: bool, size: nat)
    requires Sound(q) && size > 0 && SourceOf(q, bucket) == Some(source)
    ensures var contents, pages := Contents(q, source, asc), Listings(q, bucket, source, asc, size, 0);
            && Cleared(q, source) == q && pages == Stored(contents, q.jobs) && |pages| == |contents|
            && forall i :: 0 <= i < |contents| ==>
                 contents[i] in q.jobs && pages[i] == (contents[i], q.jobs[contents[i]])
  {
    hide Contents, Listings, Sound, Stored, Cleared, SourceOf;
    ReadingIsHarmless(q, source);
    ListingsAre(q, bucket, source, asc, size, 0);
    PagesCoverContents(Contents(q, source, asc), size);
    ContentsAreJobs(q, source, asc);
    AllStored(Contents(q, source, asc), q.jobs);
  }
}
