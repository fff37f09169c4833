/** In which order jobs leave: wait from the tail, then priorities, and delayed jobs by their due time. */
module Ordering {
  import opened Wrappers
  import opened Lists
  import opened SortedSets
  import opened Queues
  import opened JobLife

  // ---------- sorted sets ----------

  ghost predicate Sorted(m: ZSet, s: seq<Member>) {
    && (forall x :: x in s ==> x in m)
    && forall i, j :: 0 <= i < j < |s| ==> s[i] in m && s[j] in m && m[s[i]] <= m[s[j]]
  }

  lemma {:induction false} AscendingSorted(m: ZSet)
    ensures Sorted(m, Ascending(m))
    decreases |m|
  {
    if m != map[] {
      var a := First(m);
      var rest := m - {a};
      assert rest.Keys == m.Keys - {a};
      AscendingSorted(rest);
      assert Ascending(m) == [a] + Ascending(rest);
      hide Ascending, First;
      FirstThenRest(m, a, Ascending(rest));
    }
  }

  lemma FirstThenRest(m: ZSet, a: Member, s: seq<Member>)
    requires IsFirst(m, a) && Sorted(m - {a}, s)
    ensures Sorted(m, [a] + s)
  {
    hide LexLe;
    var r := [a] + s;
    forall x | x in r
      ensures x in m && m[a] <= m[x]
    {
      if x != a {
        assert x in s;
      }
      assert Leq(m, a, x);
    }
    forall i, j | 0 <= i < j < |r|
      ensures m[r[i]] <= m[r[j]]
    {
      assert r[j] == s[j - 1] && r[j] in r;
      if i > 0 {
        assert r[i] == s[i - 1];
      }
    }
  }

  lemma {:induction false} FilterSorted(m: ZSet, s: seq<Member>, keep: Member -> bool)
    requires Sorted(m, s)
    ensures Sorted(m, Filter(s, keep))
  {
    if s != [] {
      FilterSorted(m, s[1..], keep);
      assert s == [s[0]] + s[1..];
      var r := Filter(s[1..], keep);
      forall j | 0 <= j < |r|
        ensures m[s[0]] <= m[r[j]]
      {
        assert r[j] in s[1..];
        var k :| 0 <= k < |s[1..]| && s[1..][k] == r[j];
        assert s[k + 1] == r[j];
      }
    }
  }

  lemma RangeSorted(z: ZSet, lo: int, hi: int)
    ensures Sorted(z, InScoreRange(z, lo, hi))
    ensures forall id :: id in InScoreRange(z, lo, hi) <==> id in z && lo <= z[id] <= hi
  {
    AscendingSorted(z);
    FilterSorted(z, Ascending(z), id => id in z && lo <= z[id] <= hi);
  }

  // ---------- delayed jobs ----------

  /** The instant a delayed score stands for. */
  function DueAt(score: int): int {
    score / 0x1000
  }

  lemma LastIsGreatest(z: ZSet, lo: int, hi: int, id: Id)
    requires id in z && lo <= z[id] <= hi
    ensures var taken := InScoreRange(z, lo, hi);
            taken != [] && taken[|taken| - 1] in z && lo <= z[id] <= z[taken[|taken| - 1]] <= hi
  {
    RangeSorted(z, lo, hi);
    var taken := InScoreRange(z, lo, hi);
    hide InScoreRange;
    assert id in taken;
    var k :| 0 <= k < |taken| && taken[k] == id;
    assert taken[|taken| - 1] in taken;
  }

  /**
    A new delayed job gets a score of its own millisecond, behind every job already due in that
    millisecond as long as its 4096 scores are not used up.
   */
  lemma DelayedInOrder(delayed: ZSet, now: int, delay: int, id: Id)
    ensures var score := DelayedScore(delayed, now, delay);
            && DueAt(score) == (if delay > 0 then now + delay else now)
            && (id in delayed && DueAt(delayed[id]) == DueAt(score) ==>
                  delayed[id] < score || score == DueAt(score) * 0x1000 + 0xFFF)
  {
    hide InScoreRange;
    var at := if delay > 0 then now + delay else now;
    var lo, hi := at * 0x1000, (at + 1) * 0x1000 - 1;
    var taken := InScoreRange(delayed, lo, hi);
    if taken != [] {
      RangeSorted(delayed, lo, hi);
      assert taken[|taken| - 1] in taken;
    }
    if id in delayed && DueAt(delayed[id]) == at {
      LastIsGreatest(delayed, lo, hi, id);
    }
  }

  /** promoteDelayedJobs takes jobs that are due, the earliest first, and all of them unless over a thousand are. */
  lemma PromotesDueJobs(delayed: ZSet, now: int, id: Id)
    ensures var ids := Due(delayed, now);
            && Sorted(delayed, ids)
            && (id in ids ==> id in delayed && 0 <= delayed[id] && DueAt(delayed[id]) <= now)
            && (id in delayed && 0 <= delayed[id] && DueAt(delayed[id]) <= now && id !in ids ==>
                  |ids| == 1000 && forall other :: other in ids ==> delayed[other] <= delayed[id])
  {
    hide InScoreRange;
    var hi := (now + 1) * 0x1000 - 1;
    RangeSorted(delayed, 0, hi);
    var all, ids := InScoreRange(delayed, 0, hi), Due(delayed, now);
    if |all| > 1000 {
      assert ids == all[..1000];
      if id in all && id !in ids {
        var k :| 0 <= k < |all| && all[k] == id;
        assert forall j :: 0 <= j < 1000 ==> ids[j] == all[j];
        assert k >= 1000;
        forall other | other in ids
          ensures delayed[other] <= delayed[id]
        {
          var j :| 0 <= j < 1000 && ids[j] == other;
          assert all[j] == other;
        }
      }
    }
  }

  // ---------- priorities ----------

  /** A smaller priority number goes first; within one priority, up to 2^32 jobs keep their order. */
  lemma PriorityOrder(p: int, c: nat, p': int, c': nat)
    ensures PriorityScore(p, c) < PriorityScore(p', c')
       <==> p < p' || (p == p' && c % 0x1_0000_0000 < c' % 0x1_0000_0000)
  {
  }

  /** With wait empty the job of the least score is taken. */
  lemma LeastScoreFirst(q: Queue, id: Id)
    requires q.wait == [] && q.prioritized != map[] && id in q.prioritized
    ensures var taken := Pull(q).1;
            taken.Some? && taken.value in q.prioritized && q.prioritized[taken.value] <= q.prioritized[id]
  {
    assert Leq(q.prioritized, First(q.prioritized), id);
  }

  // ---------- wait ----------

  /** No marker among the waiting ids. */
  predicate NoMarkers(s: seq<Id>) {
    forall id :: id in s ==> !IsMarker(id)
  }

  /** The ids that n fetches in a row take off the lists. */
  function Fetches(q: Queue, next: bool, n: nat): seq<Option<Id>>
    decreases n
  {
    if n == 0 then [] else var (q', id) := PullBy(q, next); [id] + Fetches(q', next, n - 1)
  }

  /** Waiting jobs are fetched from the tail of wait, one after the other, before any prioritized job. */
  lemma {:induction false} WaitLeavesFromTail(q: Queue, next: bool, n: nat, i: nat)
    requires NoMarkers(q.wait) && i < n <= |q.wait|
    ensures |Fetches(q, next, n)| == n && Fetches(q, next, n)[i] == Some(q.wait[|q.wait| - 1 - i])
    decreases n
  {
    var (q', id) := PullBy(q, next);
    var last := |q.wait| - 1;
    assert q.wait[last] in q.wait;
    assert q'.wait == q.wait[..last] && id == Some(q.wait[last]) by {
      if next {
      } else {
      }
    }
    if n > 1 {
      assert NoMarkers(q'.wait);
      WaitLeavesFromTail(q', next, n - 1, if i > 0 then i - 1 else 0);
    }
  }

  // ---------- a stalled scan ----------

  lemma {:induction false} ReclaimEachAppends(q: Queue, ids: seq<Id>, limit: int, keep: Id -> bool)
    requires Distinct(ids) && forall id :: id in ids ==> !IsMarker(id) && keep(id) == (id in q.active && id !in q.lock)
    ensures ReclaimEach(q, ids, limit).wait == q.wait + Filter(ids, keep)
    decreases |ids|
  {
    hide Reclaim, Filter;
    if ids != [] {
      var q1, id := Reclaim(q, ids[0], limit), ids[0];
      FilterHead(ids, keep);
      ReclaimAppends(q, id, limit, keep(id));
      forall other | other in ids[1..]
        ensures other in q1.active <==> other in q.active
      {
        ReclaimKeepsOthers(q, id, limit, other);
      }
      ReclaimEachAppends(q1, ids[1..], limit, keep);
    } else {
      FilterNone(keep);
    }
  }

  lemma FilterHead(ids: seq<Id>, keep: Id -> bool)
    requires ids != []
    ensures Filter(ids, keep) == (if keep(ids[0]) then [ids[0]] else []) + Filter(ids[1..], keep)
  {
  }

  lemma FilterNone(keep: Id -> bool)
    ensures Filter([], keep) == []
  {
  }

  lemma ReclaimAppends(q: Queue, id: Id, limit: int, stalled: bool)
    requires !IsMarker(id) && stalled == (id in q.active && id !in q.lock)
    ensures var q' := Reclaim(q, id, limit);
            q'.wait == (if stalled then q.wait + [id] else q.wait) && q'.lock == q.lock
  {
    hide RemoveFirst, Repeatable;
  }

  lemma ReclaimKeepsOthers(q: Queue, id: Id, limit: int, other: Id)
    requires !IsMarker(id) && other != id
    ensures other in Reclaim(q, id, limit).active <==> other in q.active
  {
    hide RemoveFirst, Repeatable;
    RemoveFirstCounts(q.active, id, other);
  }

  /** An effective scan puts the jobs it reclaims behind each other at the tail of wait, in the order it found them. */
  lemma ScanAppends(q: Queue, limit: int, order: seq<Id>)
    requires Sound(q) && !q.checking && Distinct(order) && Elements(order) == q.stalled
    ensures ScanStalled(q, limit, order).wait == q.wait + Filter(order, id => id !in q.lock)
  {
    var q0 := q.(stalled := {}, checking := true);
    forall id | id in order
      ensures !IsMarker(id) && id in q.active
    {
      assert id in Elements(order);
      MarkedAreJobs(q, order, id);
    }
    hide ReclaimEach, Filter;
    ReclaimEachAppends(q0, order, limit, id => id !in q.lock);
  }

  lemma ScanLeavesNoMarker(q: Queue, limit: int, order: seq<Id>)
    requires Sound(q) && Distinct(order) && Elements(order) == q.stalled
    ensures NoMarkers(ScanStalled(q, limit, order).wait)
  {
    hide ScanStalled, Sound;
    StepSound(q, MoveStalled(limit, order));
    WaitHasNoMarker(ScanStalled(q, limit, order));
  }

  /**
    After an effective scan the reclaimed jobs are fetched first, the last one found before the
    others, and then the jobs that were waiting before, as they would have been.
   */
  lemma ReclaimedGoFirst(q: Queue, limit: int, order: seq<Id>, next: bool, n: nat, i: nat)
    requires Sound(q) && !q.checking && Distinct(order) && Elements(order) == q.stalled
    requires var r := Filter(order, id => id !in q.lock); i < n <= |q.wait| + |r|
    ensures var r := Filter(order, id => id !in q.lock);
            && |Fetches(ScanStalled(q, limit, order), next, n)| == n
            && Fetches(ScanStalled(q, limit, order), next, n)[i]
            == Some(if i < |r| then r[|r| - 1 - i] else q.wait[|q.wait| - 1 - (i - |r|)])
  {
    hide ScanStalled, Filter, Fetches, Sound, NoMarkers;
    ScanAppends(q, limit, order);
    ScanLeavesNoMarker(q, limit, order);
    WaitLeavesFromTail(ScanStalled(q, limit, order), next, n, i);
  }
}
