/** The Redis LIST operations the scripts use. Index 0 is the head (left end). */
module Lists {
  /** LREM key 1 x: drop the occurrence of x closest to the head. */
  function RemoveFirst<T(==)>(s: seq<T>, x: T): seq<T> {
    if s == [] then [] else if s[0] == x then s[1..] else [s[0]] + RemoveFirst(s[1..], x)
  }

  /** LREM key -1 x: drop the occurrence of x closest to the tail. */
  function RemoveLast<T(==)>(s: seq<T>, x: T): seq<T> {
    if s == [] then
      []
    else
      var n := |s| - 1;
      if s[n] == x then s[..n] else RemoveLast(s[..n], x) + [s[n]]
  }

  /** Either removal takes out one occurrence of x, if there is one, and nothing else. */
  lemma RemoveFirstCounts<T>(s: seq<T>, x: T, y: T)
    ensures multiset(RemoveFirst(s, x))[y] == multiset(s)[y] - (if y == x && x in s then 1 else 0)
    ensures x !in s ==> RemoveFirst(s, x) == s
  {
    if s != [] {
      assert s == [s[0]] + s[1..];
      RemoveFirstCounts(s[1..], x, y);
    }
  }

  lemma RemoveLastCounts<T>(s: seq<T>, x: T, y: T)
    ensures multiset(RemoveLast(s, x))[y] == multiset(s)[y] - (if y == x && x in s then 1 else 0)
    ensures x !in s ==> RemoveLast(s, x) == s
  {
    if s != [] {
      var n := |s| - 1;
      assert s == s[..n] + [s[n]];
      RemoveLastCounts(s[..n], x, y);
    }
  }

  /** The elements of s that satisfy keep, in order. */
  function Filter<T(!new)>(s: seq<T>, keep: T -> bool): (r: seq<T>)
    ensures |r| <= |s|
    ensures forall x :: x in r <==> x in s && keep(x)
  {
    if s == [] then
      []
    else
      assert s == [s[0]] + s[1..];
      if keep(s[0]) then [s[0]] + Filter(s[1..], keep) else Filter(s[1..], keep)
  }

  function Reverse<T>(s: seq<T>): (r: seq<T>)
    ensures |r| == |s|
    ensures forall i :: 0 <= i < |s| ==> r[i] == s[|s| - 1 - i]
  {
    if s == [] then [] else Reverse(s[1..]) + [s[0]]
  }

  ghost predicate Distinct<T>(s: seq<T>) {
    forall i, j :: 0 <= i < j < |s| ==> s[i] != s[j]
  }

  lemma DistinctCounts<T>(s: seq<T>, x: T)
    requires Distinct(s)
    ensures multiset(s)[x] == if x in s then 1 else 0
  {
    if s != [] {
      assert s == [s[0]] + s[1..];
      DistinctCounts(s[1..], x);
    }
  }

  lemma SubsetSize<T>(a: set<T>, b: set<T>)
    requires a <= b
    ensures |a| <= |b|
  {
    if a != {} {
      var x :| x in a;
      SubsetSize(a - {x}, b - {x});
    }
  }
}
