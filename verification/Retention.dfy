/** What a finish keeps of the completed or failed jobs. */
module Retention {
  import opened Wrappers
  import opened Lists
  import opened SortedSets
  import opened Queues
  import opened JobLife
  import opened Shapes

  /** z' is what is left of z, scores unchanged. */
  ghost predicate LeftOf(z: ZSet, z': ZSet) {
    forall x :: x in z' ==> x in z && z'[x] == z[x]
  }

  function Min(a: int, b: int): int {
    if a <= b then a else b
  }

  /** Of z the n last entries are left, or all if n is not positive: nothing dropped comes behind anything kept. */
  ghost predicate KeepsNewest(z: ZSet, z': ZSet, n: int) {
    && LeftOf(z, z') && |z'| == (if n > 0 then Min(n, |z|) else |z|)
    && forall x, y :: x in z && x !in z' && y in z' && y in z ==> Leq(z, x, y)
  }

  function Expired(z: ZSet, now: int, age: int): (ids: set<Id>) {
    set x | x in z && z[x] <= now - age * 1000
  }

  const MAX_EXPIRED := 1000

  /** Exactly the expired entries are dropped; of more than a thousand, the thousand last. */
  ghost predicate DropsExpired(z: ZSet, z': ZSet, now: int, age: int) {
    var stale := Expired(z, now, age);
    && LeftOf(z, z') && z.Keys - z'.Keys <= stale
    && (if |stale| <= MAX_EXPIRED then z'.Keys == z.Keys - stale else |z.Keys - z'.Keys| == MAX_EXPIRED)
    && forall x, y :: x in stale && x in z' && y in z && y !in z' ==> Leq(z, x, y)
  }

  // ---------- the ascending order ----------

  ghost predicate InOrder(z: ZSet, s: seq<Id>) {
    && (forall x :: x in s ==> x in z)
    && forall i, j :: 0 <= i < j < |s| ==> s[i] in z && s[j] in z && Leq(z, s[i], s[j])
  }

  lemma {:induction false} AscendingInOrder(z: ZSet)
    ensures InOrder(z, Ascending(z))
    decreases |z|
  {
    hide LexLe;
    if z != map[] {
      var a := First(z);
      var rest := z - {a};
      assert rest.Keys == z.Keys - {a};
      AscendingInOrder(rest);
      var s := Ascending(rest);
      assert Ascending(z) == [a] + s;
      hide Ascending, First;
      FirstInOrder(z, a, s);
    }
  }

  lemma FirstInOrder(z: ZSet, a: Id, s: seq<Id>)
    requires IsFirst(z, a) && InOrder(z - {a}, s)
    ensures InOrder(z, [a] + s)
  {
    hide LexLe;
    var r := [a] + s;
    forall x | x in r
      ensures x in z
    {
      if x != a {
        assert x in s;
      }
    }
    forall i, j | 0 <= i < j < |r|
      ensures Leq(z, r[i], r[j])
    {
      assert r[j] == s[j - 1] && r[j] in s;
      if i > 0 {
        assert r[i] == s[i - 1] && Leq(z - {a}, r[i], r[j]);
      }
    }
  }

  lemma {:induction false} FilterInOrder(z: ZSet, s: seq<Id>, keep: Id -> bool)
    requires InOrder(z, s)
    ensures InOrder(z, Filter(s, keep))
  {
    hide Leq;
    if s != [] {
      var rest := s[1..];
      assert forall i :: 0 <= i < |rest| ==> rest[i] == s[i + 1];
      FilterInOrder(z, rest, keep);
      var r := Filter(rest, keep);
      forall j | 0 <= j < |r|
        ensures Leq(z, s[0], r[j])
      {
        assert r[j] in rest;
        var k :| 0 <= k < |rest| && rest[k] == r[j];
      }
    }
  }

  lemma DropSize(z: ZSet, ids: set<Id>)
    requires ids <= z.Keys
    ensures |z - ids| == |z| - |ids|
  {
    var z' := z - ids;
    assert z'.Keys == z.Keys - ids;
    assert |z'| == |z'.Keys| && |z| == |z.Keys|;
  }

  /** What stands before a cut comes no later than what stands behind it. */
  lemma CutInOrder(z: ZSet, s: seq<Id>, cut: nat, x: Id, y: Id)
    requires InOrder(z, s) && cut <= |s| && x in s[..cut] && y in s[cut..]
    ensures x in z && y in z && Leq(z, x, y)
  {
    hide Leq;
    var i :| 0 <= i < cut && s[..cut][i] == x;
    var j :| 0 <= j < |s| - cut && s[cut..][j] == y;
    assert s[i] == x && s[cut + j] == y;
  }

  lemma CutMembers(s: seq<Id>, cut: nat, x: Id)
    requires cut <= |s|
    ensures x in s <==> x in s[..cut] || x in s[cut..]
  {
    assert s == s[..cut] + s[cut..];
  }

  lemma CutDistinct(s: seq<Id>, cut: nat)
    requires Distinct(s) && cut <= |s|
    ensures |Elements(s[..cut])| == cut && |Elements(s[cut..])| == |s| - cut
  {
    DistinctSize(s[..cut]);
    DistinctSize(s[cut..]);
  }

  // ---------- the two trims ----------

  lemma SurplusKeepsNewest(z: ZSet, n: int)
    ensures KeepsNewest(z, z - Surplus(z, n), n)
  {
    hide Ascending, Leq;
    var all := Ascending(z);
    if 0 < n < |all| {
      var cut := |all| - n;
      AscendingInOrder(z);
      assert Surplus(z, n) == Elements(all[..cut]);
      hide InOrder, Surplus;
      CutDistinct(all, cut);
      hide Distinct;
      FirstGo(z, all, cut);
    } else {
      assert Surplus(z, n) == {};
      assert z - {} == z;
    }
  }

  lemma FirstGo(z: ZSet, all: seq<Id>, cut: nat)
    requires InOrder(z, all) && cut < |all| == |z| && |Elements(all[..cut])| == cut
    requires forall x :: x in all <==> x in z
    ensures KeepsNewest(z, z - Elements(all[..cut]), |all| - cut)
  {
    hide InOrder, Leq;
    var gone := Elements(all[..cut]);
    forall x, y | x in gone && y in z && y !in gone
      ensures x in z && Leq(z, x, y)
    {
      CutMembers(all, cut, y);
      CutInOrder(z, all, cut, x, y);
    }
    assert gone <= z.Keys by {
      forall x | x in gone
        ensures x in z
      {
        CutMembers(all, cut, x);
      }
    }
    DropSize(z, gone);
  }

  lemma AgedOutDropsExpired(z: ZSet, now: int, age: int)
    ensures DropsExpired(z, z - AgedOut(z, now, age), now, age)
  {
    hide Ascending, Leq;
    var keep := (id: Id) => id in z && z[id] <= now - age * 1000;
    var stale := Filter(Ascending(z), keep);
    AscendingInOrder(z);
    FilterInOrder(z, Ascending(z), keep);
    FilterDistinct(Ascending(z), keep);
    DistinctSize(stale);
    assert Elements(stale) == Expired(z, now, age);
    hide Filter;
    var gone := if |stale| < MAX_EXPIRED then stale else stale[|stale| - MAX_EXPIRED..];
    assert AgedOut(z, now, age) == Elements(gone);
    hide AgedOut;
    LastOnes(z, stale, gone, now, age);
  }

  lemma LastGo(z: ZSet, stale: seq<Id>, cut: nat)
    requires InOrder(z, stale) && cut <= |stale|
    ensures var gone := Elements(stale[cut..]);
            var z' := z - gone;
            && LeftOf(z, z') && z.Keys - z'.Keys == gone <= Elements(stale)
            && forall x, y :: x in Elements(stale) && x in z' && y in z && y !in z' ==> Leq(z, x, y)
  {
    hide Leq;
    var gone := Elements(stale[cut..]);
    forall x | x in gone
      ensures x in z && x in stale
    {
      CutMembers(stale, cut, x);
    }
    hide InOrder;
    forall x, y | x in stale && x !in gone && y in gone
      ensures x in z && y in z && Leq(z, x, y)
    {
      CutMembers(stale, cut, x);
      CutInOrder(z, stale, cut, x, y);
    }
  }

  lemma LastOnes(z: ZSet, stale: seq<Id>, gone: seq<Id>, now: int, age: int)
    requires InOrder(z, stale) && Distinct(stale) && Elements(stale) == Expired(z, now, age)
    requires |Elements(stale)| == |stale|
    requires gone == if |stale| < MAX_EXPIRED then stale else stale[|stale| - MAX_EXPIRED..]
    ensures DropsExpired(z, z - Elements(gone), now, age)
  {
    var cut := |stale| - |gone|;
    assert gone == stale[cut..];
    CutDistinct(stale, cut);
    LastGo(z, stale, cut);
    hide InOrder, Leq, Distinct, LeftOf, Elements, Expired;
    if |stale| <= MAX_EXPIRED {
      assert gone == stale;
    }
  }

  // ---------- a finish ----------

  /** Filing at now, the age and then the count, from the bucket z to z'. */
  ghost predicate Retains(z: ZSet, id: Id, now: int, keep: Keep, mid: ZSet, z': ZSet) {
    && (if keep.age.Some? then DropsExpired(z[id := now], mid, now, keep.age.value) else mid == z[id := now])
    && (if keep.count.Some? then KeepsNewest(mid, z', keep.count.value) else z' == mid)
  }

  lemma TrimRetains(q: Queue, bucket: Bucket, keep: Keep, now: int) returns (mid: ZSet)
    ensures var z, z' := Finished(q, bucket), Finished(Trim(q, bucket, keep, now), bucket);
            && (if keep.age.Some? then DropsExpired(z, mid, now, keep.age.value) else mid == z)
            && (if keep.count.Some? then KeepsNewest(mid, z', keep.count.value) else z' == mid)
            && Trim(q, bucket, keep, now).jobs.Keys == q.jobs.Keys - (z.Keys - z'.Keys)
            && Other(Trim(q, bucket, keep, now), bucket) == Other(q, bucket)
  {
    hide Evict, AgedOut, Surplus, Finished, DropsExpired, KeepsNewest, Other;
    var q1 := q;
    if keep.age.Some? {
      var ids := AgedOut(Finished(q, bucket), now, keep.age.value);
      AgedOutMembers(Finished(q, bucket), now, keep.age.value);
      EvictShape(q, bucket, ids);
      EvictOther(q, bucket, ids);
      AgedOutDropsExpired(Finished(q, bucket), now, keep.age.value);
      q1 := Evict(q, bucket, ids);
    }
    mid := Finished(q1, bucket);
    if keep.count.Some? {
      var ids := Surplus(mid, keep.count.value);
      SurplusMembers(mid, keep.count.value);
      EvictShape(q1, bucket, ids);
      EvictOther(q1, bucket, ids);
      SurplusKeepsNewest(mid, keep.count.value);
    }
  }

  /** The other finished set. */
  function Other(q: Queue, bucket: Bucket): ZSet {
    if bucket == Completed then q.failed else q.completed
  }

  lemma EvictOther(q: Queue, bucket: Bucket, ids: set<Id>)
    ensures Other(Evict(q, bucket, ids), bucket) == Other(q, bucket)
  {
  }

  lemma FileOther(q: Queue, id: Id, bucket: Bucket, now: int)
    ensures Other(File(q, id, bucket, now), bucket) == Other(q, bucket)
  {
  }

  /** What a finish, accepted, leaves of the finished sets and the HASHes. */
  ghost predicate Keeps(q: Queue, q': Queue, id: Id, bucket: Bucket, keep: Keep, now: int, mid: ZSet) {
    var z, z' := Finished(q, bucket), Finished(q', bucket);
    && Other(q', bucket) == Other(q, bucket)
    && if keep.count == Some(0) then
         z' == z && q'.jobs.Keys == q.jobs.Keys - {id}
       else
         Retains(z, id, now, keep, mid, z') && q'.jobs.Keys == q.jobs.Keys - (z[id := now].Keys - z'.Keys)
  }

  lemma SettleKeeps(q: Queue, id: Id, bucket: Bucket, keep: Keep, now: int) returns (mid: ZSet)
    requires id in q.jobs
    ensures Keeps(q, Settle(q, id, bucket, keep, now), id, bucket, keep, now, mid)
  {
    hide File, Trim, DropsExpired, KeepsNewest;
    mid := map[];
    if keep.count != Some(0) {
      FileShape(q, id, bucket, now);
      FileOther(q, id, bucket, now);
      mid := TrimRetains(File(q, id, bucket, now), bucket, keep, now);
    }
  }

  lemma KeepsOn(q: Queue, q2: Queue, q3: Queue, q': Queue, id: Id, bucket: Bucket, keep: Keep, now: int, mid: ZSet)
    requires Keeps(q2, q3, id, bucket, keep, now, mid)
    requires q2.completed == q.completed && q2.failed == q.failed && q2.jobs.Keys == q.jobs.Keys
    requires q'.completed == q3.completed && q'.failed == q3.failed && q'.jobs.Keys == q3.jobs.Keys
    ensures Keeps(q, q', id, bucket, keep, now, mid)
  {
    hide DropsExpired, KeepsNewest;
  }

  /**
    An accepted finish, with or without a fetch, files the job at its finish time, then drops the
    expired entries, then all but the newest; with a count of zero it deletes the job and leaves the
    sets. The HASHes that go are exactly those of the entries that go.
   */
  lemma FinishKeeps(q: Queue, id: Id, token: Token, bucket: Bucket, keep: Keep, history: Option<History>, now: int,
                    fetchNext: bool, limited: bool) returns (mid: ZSet)
    requires Sound(q) && token != NO_LOCK && Owns(q, id, token)
    ensures var q' := FinishJob(q, id, token, bucket, keep, history, now, fetchNext, limited).0;
            id !in Finished(q, bucket) && Keeps(q, q', id, bucket, keep, now, mid)
  {
    hide Leave, Settle, Acquire, BumpAtm, Sound, Where, Keeps;
    var q1 := Leave(q, id, token, history).0;
    var q2 := BumpAtm(q1, id);
    var q3 := Settle(q2, id, bucket, keep, now);
    var q' := FinishJob(q, id, token, bucket, keep, history, now, fetchNext, limited).0;
    OwnerFacts(q, id, token);
    LeaveShape(q, id, token, history);
    BumpShape(q1, id);
    mid := SettleKeeps(q2, id, bucket, keep, now);
    FinishAlone(q, id, token, bucket, keep, history, now, "");
    FinishAloneSound(q, id, token, bucket, keep, history, now);
    AcquireShape(q3, token, now, limited, true);
    KeepsOn(q, q2, q3, q', id, bucket, keep, now, mid);
  }

  /** With a count alone: so many entries are left, and the job that finished last is one of them. */
  lemma CountKept(q: Queue, id: Id, token: Token, bucket: Bucket, n: int, history: Option<History>, now: int,
                  fetchNext: bool, limited: bool)
    requires Sound(q) && token != NO_LOCK && Owns(q, id, token) && n > 0
    ensures var q' := FinishJob(q, id, token, bucket, Keep(Some(n), None), history, now, fetchNext, limited).0;
            var z, z' := Finished(q, bucket), Finished(q', bucket);
            && |z'| == Min(n, |z| + 1)
            && ((forall x :: x in z ==> z[x] < now) ==> id in z' && id in q'.jobs)
  {
    hide Sound, FinishJob, Owns, Finished, KeepsNewest;
    var q' := FinishJob(q, id, token, bucket, Keep(Some(n), None), history, now, fetchNext, limited).0;
    var mid := FinishKeeps(q, id, token, bucket, Keep(Some(n), None), history, now, fetchNext, limited);
    NewestIsKept(Finished(q, bucket), id, now, n, Finished(q', bucket));
    OwnedStored(q, id, token);
  }

  lemma NewestIsKept(z: ZSet, id: Id, now: int, n: int, z': ZSet)
    requires id !in z && n > 0 && KeepsNewest(z[id := now], z', n)
    ensures |z'| == Min(n, |z| + 1)
    ensures (forall x :: x in z ==> z[x] < now) ==> id in z'
  {
    var mid := z[id := now];
    assert mid.Keys == z.Keys + {id} && |mid| == |mid.Keys| && |z| == |z.Keys|;
    if (forall x :: x in z ==> z[x] < now) && id !in z' {
      assert |z'| > 0 && z' != map[];
      var y :| y in z';
      assert Leq(mid, id, y);
    }
  }

  lemma OwnedStored(q: Queue, id: Id, token: Token)
    requires Owns(q, id, token)
    ensures id in q.jobs
  {
  }
}
