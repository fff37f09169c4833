/**
  Pages of a bucket. A LIST holds its newest job at the head, so ascending pages are cut with
  negative indices from the tail by the script and turned round by the client.
 */
module Pagination {
  import opened Wrappers
  import opened Lists
  import opened SortedSets
  import opened Queues

  // ---------- LRANGE ----------

  function FromEnd(i: int, n: nat): int {
    if i < 0 then i + n else i
  }

  function Low(i: int, n: nat): nat {
    if FromEnd(i, n) < 0 then 0 else FromEnd(i, n)
  }

  function High(i: int, n: nat): int {
    if FromEnd(i, n) >= n then n - 1 else FromEnd(i, n)
  }

  /** LRANGE: negative indices count from the tail, and the window is clamped to the list. */
  function LRange<T>(s: seq<T>, start: int, end: int): seq<T> {
    var lo, hi := Low(start, |s|), High(end, |s|);
    if lo > hi || lo >= |s| then [] else s[lo..hi + 1]
  }

  /** The index translation of getRangeInList. */
  function Mirrored(i: int): int {
    if i == -1 then 0 else -(i + 1)
  }

  function RangeInList<T>(s: seq<T>, asc: bool, start: int, end: int): seq<T> {
    if asc then LRange(s, Mirrored(end), Mirrored(start)) else LRange(s, start, end)
  }

  lemma {:induction false} ReverseSlice<T>(s: seq<T>, lo: nat, hi: nat)
    requires lo <= hi <= |s|
    ensures Reverse(s[lo..hi]) == Reverse(s)[|s| - hi..|s| - lo]
  {
    hide Reverse;
    var a, b := Reverse(s[lo..hi]), Reverse(s)[|s| - hi..|s| - lo];
    forall k | 0 <= k < hi - lo
      ensures a[k] == b[k]
    {
      assert s[lo..hi][hi - lo - 1 - k] == s[hi - 1 - k];
      assert Reverse(s)[|s| - hi + k] == s[hi - 1 - k];
    }
  }

  /** The window from the tail is empty exactly when the other is, and otherwise its mirror image. */
  lemma MirrorBounds(start: int, end: int, n: nat)
    ensures var lo, hi := Low(Mirrored(end), n), High(Mirrored(start), n);
            var lo', hi' := Low(start, n), High(end, n);
            && hi < n && hi' < n && (lo > hi || lo >= n <==> lo' > hi' || lo' >= n)
            && (lo <= hi && lo < n ==> lo' == n - 1 - hi && hi' == n - 1 - lo)
  {
  }

  /** Cutting from the tail and turning round is cutting from the head of the reversed list, for all indices. */
  lemma {:induction false} AscendingWindow<T>(s: seq<T>, start: int, end: int)
    ensures Reverse(RangeInList(s, true, start, end)) == LRange(Reverse(s), start, end)
  {
    var lo, hi := Low(Mirrored(end), |s|), High(Mirrored(start), |s|);
    MirrorBounds(start, end, |s|);
    hide Low, High, Mirrored, Reverse;
    if lo <= hi && lo < |s| {
      ReverseSlice(s, lo, hi + 1);
      assert RangeInList(s, true, start, end) == s[lo..hi + 1];
    } else {
      assert RangeInList(s, true, start, end) == [];
    }
  }

  // ---------- pages ----------

  /** A list as it is, or oldest first. */
  function InOrder<T>(s: seq<T>, asc: bool): seq<T> {
    if asc then Reverse(s) else s
  }

  lemma Descending<T>(s: seq<T>, start: int, end: int)
    ensures RangeInList(s, false, start, end) == LRange(s, start, end)
  {
  }

  /** Page after page of the given size, from index start until the contents are exhausted. */
  function Pages<T>(contents: seq<T>, size: nat, start: nat): seq<T>
    requires size > 0
    decreases |contents| - start
  {
    if start >= |contents| then [] else LRange(contents, start, start + size - 1) + Pages(contents, size, start + size)
  }

  lemma PageIs<T>(contents: seq<T>, size: nat, start: nat)
    requires size > 0 && start < |contents|
    ensures LRange(contents, start, start + size - 1)
         == contents[start..if start + size < |contents| then start + size else |contents|]
  {
  }

  lemma {:induction false} PagesAre<T>(contents: seq<T>, size: nat, start: nat)
    requires size > 0 && start <= |contents|
    ensures Pages(contents, size, start) == contents[start..]
    decreases |contents| - start
  {
    hide LRange;
    if start < |contents| {
      PageIs(contents, size, start);
      if start + size < |contents| {
        PagesAre(contents, size, start + size);
        assert contents[start..] == contents[start..start + size] + contents[start + size..];
      } else {
        assert contents[start..] == contents[start..|contents|] + [];
      }
    }
  }

  /** Pages of any size, put together, are the whole contents: no job is skipped and none is repeated. */
  lemma PagesCoverContents<T>(contents: seq<T>, size: nat)
    requires size > 0
    ensures Pages(contents, size, 0) == contents
  {
    PagesAre(contents, size, 0);
  }

  // ---------- the calls ----------

  /** slices.Reverse. */
  method TurnRound(ids: array<Id>)
    modifies ids
    ensures ids[..] == Reverse(old(ids[..]))
  {
    var i, j := 0, ids.Length - 1;
    while i < j
      invariant 0 <= i && i + j == ids.Length - 1 && -1 <= j
      invariant forall k :: 0 <= k < i ==> ids[k] == old(ids[ids.Length - 1 - k])
      invariant forall k :: j < k < ids.Length ==> ids[k] == old(ids[ids.Length - 1 - k])
      invariant forall k :: i <= k <= j ==> ids[k] == old(ids[k])
    {
      ids[i], ids[j] := ids[j], ids[i];
      i, j := i + 1, j - 1;
    }
    assert forall k :: 0 <= k < ids.Length ==> ids[..][k] == Reverse(old(ids[..]))[k];
  }
}
