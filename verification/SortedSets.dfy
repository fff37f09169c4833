/**
  Redis sorted sets, kept as maps from member to score. Members are ordered by score and,
  for equal scores, lexicographically; that makes the least member, and therefore the whole
  ascending order, unique.
 */
module SortedSets {
  import opened Lists

  type Member = string
  type ZSet = map<Member, int>

  /** Lexicographic order on member names. */
  predicate LexLe(a: string, b: string) {
    if a == "" then
      true
    else if b == "" then
      false
    else if a[0] != b[0] then
      a[0] < b[0]
    else
      LexLe(a[1..], b[1..])
  }

  lemma LexTotal(a: string, b: string)
    ensures LexLe(a, b) || LexLe(b, a)
  {
  }

  lemma {:induction false} LexAntisymmetric(a: string, b: string)
    requires LexLe(a, b) && LexLe(b, a)
    ensures a == b
  {
    if a != "" && b != "" {
      LexAntisymmetric(a[1..], b[1..]);
      assert a == [a[0]] + a[1..] && b == [b[0]] + b[1..];
    }
  }

  lemma {:induction false} LexTransitive(a: string, b: string, c: string)
    requires LexLe(a, b) && LexLe(b, c)
    ensures LexLe(a, c)
  {
    if a != "" && b != "" && c != "" && a[0] == b[0] == c[0] {
      LexTransitive(a[1..], b[1..], c[1..]);
    }
  }

  /** a comes no later than b in the sorted set m. */
  predicate Leq(m: ZSet, a: Member, b: Member)
    requires a in m && b in m
  {
    m[a] < m[b] || (m[a] == m[b] && LexLe(a, b))
  }

  predicate IsFirst(m: ZSet, a: Member) {
    a in m && forall b :: b in m ==> Leq(m, a, b)
  }

  lemma FirstExists(m: ZSet)
    requires m != map[]
    ensures exists a :: IsFirst(m, a)
    decreases |m|
  {
    var a :| a in m;
    var rest := m - {a};
    LexTotal(a, a);
    if rest == map[] {
      assert forall b :: b in m && b != a ==> b in rest;
      assert IsFirst(m, a);
    } else {
      assert rest.Keys == m.Keys - {a};
      FirstExists(rest);
      var b :| IsFirst(rest, b);
      LexTotal(a, b);
      var least := if Leq(m, a, b) then a else b;
      forall c | c in m
        ensures Leq(m, least, c)
      {
        if c != a {
          assert c in rest;
          assert Leq(rest, b, c);
          if least == a && m[a] == m[b] == m[c] {
            LexTransitive(a, b, c);
          }
        }
      }
      assert IsFirst(m, least);
    }
  }

  lemma FirstUnique(m: ZSet, a: Member, b: Member)
    requires IsFirst(m, a) && IsFirst(m, b)
    ensures a == b
  {
    assert Leq(m, a, b) && Leq(m, b, a);
    LexAntisymmetric(a, b);
  }

  /** The member ZPOPMIN returns. */
  function First(m: ZSet): (a: Member)
    requires m != map[]
    ensures IsFirst(m, a)
  {
    FirstExists(m);
    assert forall a, b :: IsFirst(m, a) && IsFirst(m, b) ==> a == b by {
      forall a, b | IsFirst(m, a) && IsFirst(m, b)
        ensures a == b
      {
        FirstUnique(m, a, b);
      }
    }
    var a :| a in m && IsFirst(m, a);
    a
  }

  /** ZRANGE key 0 -1: every member once, in ascending order. */
  function Ascending(m: ZSet): (s: seq<Member>)
    ensures forall x :: x in s <==> x in m
    ensures Distinct(s) && |s| == |m|
    decreases |m|
  {
    if m == map[] then
      []
    else
      var a := First(m);
      var rest := m - {a};
      assert rest.Keys == m.Keys - {a};
      [a] + Ascending(rest)
  }
}
