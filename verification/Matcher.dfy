/**
  The include directive and the search for all of its occurrences. A directive begins at a line
  start: white space, three dashes, white space, the word @include, white space, a quoted name,
  and white space up to a line end. Every part of it but the last is determined by the text
  alone; the last takes as much white space as lets the match end at a line end.
 */
module Matcher {
  import opened Wrappers

  /** A directive: its span in the text, which may include blank lines around it, and the name it quotes. */
  datatype Match = Match(start: nat, end: nat, ref: string)

  predicate IsSpace(c: char) {
    c == ' ' || c == '\t' || c == '\n' || c == '\r' || c == '\U{0C}'
  }

  /** The end of the white space that begins at p. */
  function SkipSpace(data: string, p: nat): (q: nat)
    requires p <= |data|
    ensures p <= q <= |data| && (forall k :: p <= k < q ==> IsSpace(data[k])) && (q < |data| ==> !IsSpace(data[q]))
    decreases |data| - p
  {
    if p < |data| && IsSpace(data[p]) then SkipSpace(data, p + 1) else p
  }

  predicate HasAt(data: string, p: nat, word: string) {
    p + |word| <= |data| && data[p..p + |word|] == word
  }

  /** The next quotation mark at or behind p. */
  function NextQuote(data: string, p: nat): (q: nat)
    requires p <= |data|
    ensures p <= q <= |data| && (forall k :: p <= k < q ==> data[k] != '"') && (q < |data| ==> data[q] == '"')
    decreases |data| - p
  {
    if p < |data| && data[p] != '"' then NextQuote(data, p + 1) else p
  }

  predicate AtLineStart(data: string, p: nat)
    requires p <= |data|
  {
    p == 0 || data[p - 1] == '\n'
  }

  predicate AtLineEnd(data: string, p: nat)
    requires p <= |data|
  {
    p == |data| || data[p] == '\n'
  }

  /** The last line end from lo to hi. */
  function LastLineEnd(data: string, lo: nat, hi: nat): (e: Option<nat>)
    requires lo <= hi <= |data|
    ensures e.Some? ==> lo <= e.value <= hi && AtLineEnd(data, e.value)
    ensures forall k :: lo <= k <= hi && AtLineEnd(data, k) ==> e.Some? && k <= e.value
    decreases hi
  {
    if AtLineEnd(data, hi) then Some(hi) else if hi > lo then LastLineEnd(data, lo, hi - 1) else None
  }

  /** The match that begins at p, if there is one. */
  function MatchAt(data: string, p: nat): (m: Option<Match>)
    requires p <= |data|
    ensures m.Some? ==> m.value.start == p < m.value.end <= |data|
    ensures m.Some? ==> AtLineStart(data, p) && AtLineEnd(data, m.value.end)
  {
    var a := SkipSpace(data, p);
    if !AtLineStart(data, p) || !HasAt(data, a, "---") then None else
    var b := SkipSpace(data, a + 3);
    if !HasAt(data, b, "@include") then None else
    var c := SkipSpace(data, b + 8);
    if c == b + 8 || !HasAt(data, c, "\"") then None else
    var d := NextQuote(data, c + 1);
    if d == c + 1 || d == |data| then None else
    var e := LastLineEnd(data, d + 1, SkipSpace(data, d + 1));
    if e.None? then None else Some(Match(p, e.value, data[c + 1..d]))
  }

  /** The first match that begins at or behind p. */
  function FindFrom(data: string, p: nat): (m: Option<Match>)
    requires p <= |data|
    ensures m.Some? ==> p <= m.value.start < m.value.end <= |data| && MatchAt(data, m.value.start) == m
    ensures forall k :: p <= k <= |data| && (m.Some? ==> k < m.value.start) ==> MatchAt(data, k).None?
    decreases |data| - p
  {
    if MatchAt(data, p).Some? then MatchAt(data, p) else if p < |data| then FindFrom(data, p + 1) else None
  }

  /** All matches, left to right, each search resuming at the end of the match before. */
  function FindAll(data: string, p: nat): seq<Match>
    requires p <= |data|
    decreases |data| - p
  {
    var m := FindFrom(data, p);
    if m.None? then [] else [m.value] + FindAll(data, m.value.end)
  }

  function ResumeAt(p: nat, matches: seq<Match>, i: nat): nat
    requires i <= |matches|
  {
    if i == 0 then p else matches[i - 1].end
  }

  /** No match begins between two successive matches, before the first or behind the last. */
  ghost predicate NothingAt(data: string, p: nat, matches: seq<Match>, i: nat, k: nat)
    requires i <= |matches|
  {
    ResumeAt(p, matches, i) <= k <= |data| && (i < |matches| ==> k < matches[i].start) ==> MatchAt(data, k).None?
  }

  /** The matches are in order, do not overlap, and nothing matches in between. */
  ghost predicate Complete(data: string, p: nat, matches: seq<Match>) {
    && (forall i :: 0 <= i < |matches| ==>
          && ResumeAt(p, matches, i) <= matches[i].start < matches[i].end <= |data|
          && MatchAt(data, matches[i].start) == Some(matches[i]))
    && (forall i: nat, k: nat :: i <= |matches| ==> NothingAt(data, p, matches, i, k))
  }

  lemma {:induction false} FindAllComplete(data: string, p: nat)
    requires p <= |data|
    ensures Complete(data, p, FindAll(data, p))
    decreases |data| - p
  {
    hide MatchAt;
    var m := FindFrom(data, p);
    if m.Some? {
      FindAllComplete(data, m.value.end);
      var rest, all := FindAll(data, m.value.end), FindAll(data, p);
      assert all == [m.value] + rest;
      forall i: nat, k: nat | i <= |all|
        ensures NothingAt(data, p, all, i, k)
      {
        if i > 0 {
          assert NothingAt(data, m.value.end, rest, i - 1, k);
        }
      }
    }
  }

  /** Matches begin and end at the lines' ends. */
  lemma AtLines(data: string, p: nat, matches: seq<Match>, i: nat)
    requires Complete(data, p, matches) && i < |matches|
    ensures ResumeAt(p, matches, i) <= matches[i].start < matches[i].end <= |data|
    ensures AtLineStart(data, matches[i].start) && AtLineEnd(data, matches[i].end)
  {
    hide MatchAt, AtLineStart, AtLineEnd, NothingAt;
    assert MatchAt(data, matches[i].start) == Some(matches[i]);
  }

  // ---------- matches in a part of a text ----------

  lemma SpaceEnds(data: string, p: nat, q: nat)
    requires p <= q < |data| && (forall k :: p <= k < q ==> IsSpace(data[k])) && !IsSpace(data[q])
    ensures SkipSpace(data, p) == q
  {
    hide SkipSpace;
  }

  /** t is the part of data that begins at c. */
  ghost predicate PartOf(data: string, t: string, c: nat) {
    c + |t| <= |data| && forall k :: 0 <= k < |t| ==> t[k] == data[c + k]
  }

  /** White space and a word behind it, within a part, are the same in the whole. */
  lemma WordInPart(data: string, t: string, c: nat, p: nat, word: string)
    requires PartOf(data, t, c) && p <= |t| && word != "" && !IsSpace(word[0]) && HasAt(t, SkipSpace(t, p), word)
    ensures c + p <= |data| && SkipSpace(data, c + p) == c + SkipSpace(t, p) && HasAt(data, c + SkipSpace(t, p), word)
  {
    hide SkipSpace, IsSpace;
    var q, n := SkipSpace(t, p), |word|;
    assert t[q] == t[q..q + n][0] == word[0];
    forall k | c + p <= k < c + q
      ensures IsSpace(data[k])
    {
      assert t[k - c] == data[k];
    }
    SpaceEnds(data, c + p, c + q);
    var u, v := t[q..q + n], data[c + q..c + q + n];
    assert forall k :: 0 <= k < n ==> u[k] == t[q + k] && v[k] == data[c + (q + k)];
    assert u == v;
  }

  lemma QuoteInPart(data: string, t: string, c: nat, p: nat)
    requires PartOf(data, t, c) && p <= |t| && NextQuote(t, p) < |t|
    ensures c + p <= |data| && NextQuote(data, c + p) == c + NextQuote(t, p)
  {
    hide NextQuote;
    var q := NextQuote(t, p);
    assert t[q] == data[c + q];
    assert forall k :: c + p <= k < c + q ==> data[k] == t[k - c];
  }

  /** The white space behind the closing quote reaches a line end of the whole, too. */
  lemma EndInPart(data: string, t: string, c: nat, d: nat)
    requires PartOf(data, t, c) && (c + |t| == |data| || AtLineStart(data, c + |t|)) && d < |t| && t[d] == '"'
    requires LastLineEnd(t, d + 1, SkipSpace(t, d + 1)).Some?
    ensures LastLineEnd(data, c + d + 1, SkipSpace(data, c + d + 1)).Some?
  {
    hide SkipSpace, LastLineEnd;
    var q, s := SkipSpace(t, d + 1), c + |t|;
    var e := LastLineEnd(t, d + 1, q).value;
    assert t[d] == data[c + d];
    assert forall j :: c + d + 1 <= j < c + q ==> data[j] == t[j - c];
    var k := if e < |t| || s == |data| then c + e else s - 1;
    assert AtLineEnd(data, k) by {
      if e < |t| {
        assert t[e] == data[c + e];
      }
    }
    RunReaches(data, c + d + 1, k);
  }

  lemma RunReaches(data: string, p: nat, k: nat)
    requires p <= k <= |data| && forall j :: p <= j < k ==> IsSpace(data[j])
    ensures k <= SkipSpace(data, p)
  {
    hide SkipSpace;
  }

  /** What a match consists of: dashes at a, the word at b, quotation marks at x and d. */
  ghost predicate Parts(data: string, p: nat, a: nat, b: nat, x: nat, d: nat) {
    && p <= |data| && AtLineStart(data, p) && a == SkipSpace(data, p)
    && a + 3 <= |data| && HasAt(data, a, "---") && b == SkipSpace(data, a + 3)
    && b + 8 <= |data| && HasAt(data, b, "@include") && x == SkipSpace(data, b + 8)
    && b + 8 < x < |data| && HasAt(data, x, "\"") && d == NextQuote(data, x + 1)
    && x + 1 < d < |data| && LastLineEnd(data, d + 1, SkipSpace(data, d + 1)).Some?
  }

  lemma PartsOf(data: string, p: nat) returns (a: nat, b: nat, x: nat, d: nat)
    requires p <= |data| && MatchAt(data, p).Some?
    ensures Parts(data, p, a, b, x, d)
  {
    hide SkipSpace, NextQuote, LastLineEnd;
    a := SkipSpace(data, p);
    b := SkipSpace(data, a + 3);
    x := SkipSpace(data, b + 8);
    d := NextQuote(data, x + 1);
  }

  lemma FromParts(data: string, p: nat, a: nat, b: nat, x: nat, d: nat)
    requires Parts(data, p, a, b, x, d)
    ensures MatchAt(data, p) == Some(Match(p, LastLineEnd(data, d + 1, SkipSpace(data, d + 1)).value, data[x + 1..d]))
  {
    hide SkipSpace, NextQuote, LastLineEnd, HasAt;
  }

  ghost predicate Blank(data: string, p: nat, q: nat) {
    p <= q <= |data| && forall k :: p <= k < q ==> IsSpace(data[k])
  }

  /** The expression, spelled out: its parts begin at p, a, b, x and d, and it ends at e. */
  ghost predicate Spelled(data: string, p: nat, a: nat, b: nat, x: nat, d: nat, e: nat) {
    && p <= e <= |data| && AtLineStart(data, p) && AtLineEnd(data, e)
    && Blank(data, p, a) && HasAt(data, a, "---")
    && Blank(data, a + 3, b) && HasAt(data, b, "@include")
    && Blank(data, b + 8, x) && b + 8 < x < |data| && data[x] == '"'
    && x + 1 < d < |data| && data[d] == '"' && (forall k :: x < k < d ==> data[k] != '"')
    && Blank(data, d + 1, e)
  }

  lemma WordBegins(data: string, p: nat, word: string)
    requires HasAt(data, p, word) && word != ""
    ensures p < |data| && data[p] == word[0]
  {
    assert data[p..p + |word|][0] == word[0];
  }

  lemma QuoteEnds(data: string, p: nat, q: nat)
    requires p <= q < |data| && data[q] == '"' && forall k :: p <= k < q ==> data[k] != '"'
    ensures NextQuote(data, p) == q
  {
    hide NextQuote;
  }

  /** Wherever the expression can be spelled out there is a match, with that name, and no shorter. */
  lemma SpelledMatches(data: string, p: nat, a: nat, b: nat, x: nat, d: nat, e: nat)
    requires p <= |data| && Spelled(data, p, a, b, x, d, e)
    ensures MatchAt(data, p).Some? && e <= MatchAt(data, p).value.end && MatchAt(data, p).value.ref == data[x + 1..d]
  {
    hide SkipSpace, NextQuote, LastLineEnd, HasAt, AtLineStart, AtLineEnd;
    NotSpaces();
    WordBegins(data, a, "---");
    WordBegins(data, b, "@include");
    SpaceEnds(data, p, a);
    SpaceEnds(data, a + 3, b);
    SpaceEnds(data, b + 8, x);
    QuoteEnds(data, x + 1, d);
    RunReaches(data, d + 1, e);
    OneQuote(data, x);
    hide IsSpace, Blank;
  }

  lemma OneQuote(data: string, x: nat)
    requires x < |data| && data[x] == '"'
    ensures HasAt(data, x, "\"")
  {
    assert data[x..x + 1] == "\"";
  }

  /** And every match is spelled out like that. */
  lemma MatchIsSpelled(data: string, p: nat) returns (a: nat, b: nat, x: nat, d: nat)
    requires p <= |data| && MatchAt(data, p).Some?
    ensures var m := MatchAt(data, p).value;
            Spelled(data, p, a, b, x, d, m.end) && m.start == p && m.ref == data[x + 1..d]
  {
    hide SkipSpace, NextQuote, LastLineEnd, HasAt, MatchAt, AtLineStart, AtLineEnd;
    a, b, x, d := PartsOf(data, p);
    FromParts(data, p, a, b, x, d);
    WordBegins(data, x, "\"");
  }

  lemma StartInPart(data: string, t: string, c: nat, p: nat)
    requires PartOf(data, t, c) && AtLineStart(data, c) && p <= |t| && AtLineStart(t, p)
    ensures c + p <= |data| && AtLineStart(data, c + p)
  {
    if p > 0 {
      assert t[p - 1] == data[c + (p - 1)];
    }
  }

  lemma PartsInPart(data: string, t: string, c: nat, p: nat, a: nat, b: nat, x: nat, d: nat)
    requires PartOf(data, t, c) && AtLineStart(data, c) && (c + |t| == |data| || AtLineStart(data, c + |t|))
    requires Parts(t, p, a, b, x, d)
    ensures Parts(data, c + p, c + a, c + b, c + x, c + d)
  {
    hide SkipSpace, NextQuote, LastLineEnd, HasAt, PartOf, AtLineStart, AtLineEnd, IsSpace;
    StartInPart(data, t, c, p);
    WordsInPart(data, t, c, p, a, b, x, d);
    QuoteInPart(data, t, c, x + 1);
    EndInPart(data, t, c, d);
  }

  lemma WordsInPart(data: string, t: string, c: nat, p: nat, a: nat, b: nat, x: nat, d: nat)
    requires PartOf(data, t, c) && Parts(t, p, a, b, x, d)
    ensures c + x < |data| && c + a == SkipSpace(data, c + p) && HasAt(data, c + a, "---")
    ensures c + b == SkipSpace(data, c + a + 3) && HasAt(data, c + b, "@include")
    ensures c + x == SkipSpace(data, c + b + 8) && HasAt(data, c + x, "\"")
  {
    hide SkipSpace, NextQuote, LastLineEnd, HasAt, AtLineStart, AtLineEnd, IsSpace;
    NotSpaces();
    WordInPart(data, t, c, p, "---");
    WordInPart(data, t, c, a + 3, "@include");
    WordInPart(data, t, c, b + 8, "\"");
  }

  /** A match in a part that begins at a line start and ends at one, or at the end, is a match in the whole. */
  lemma MatchInPart(data: string, t: string, c: nat, p: nat)
    requires PartOf(data, t, c) && AtLineStart(data, c) && (c + |t| == |data| || AtLineStart(data, c + |t|)) && p <= |t|
    requires MatchAt(t, p).Some?
    ensures c + p <= |data| && MatchAt(data, c + p).Some?
  {
    hide SkipSpace, NextQuote, LastLineEnd, HasAt, MatchAt, AtLineStart, AtLineEnd, IsSpace, Parts;
    var a, b, x, d := PartsOf(t, p);
    PartsInPart(data, t, c, p, a, b, x, d);
    FromParts(data, c + p, c + a, c + b, c + x, c + d);
  }

  lemma NotSpaces()
    ensures !IsSpace("---"[0]) && !IsSpace("@include"[0]) && !IsSpace("\""[0])
  {
  }

  /** Fewer than fifteen characters hold no directive. */
  lemma TooShort(data: string, p: nat)
    requires p <= |data| < p + 15
    ensures MatchAt(data, p).None?
  {
    hide SkipSpace, NextQuote, LastLineEnd, HasAt, MatchAt;
    if MatchAt(data, p).Some? {
      var a, b, x, d := PartsOf(data, p);
    }
  }

  lemma NothingBehind(data: string, p: nat)
    requires p <= |data| < p + 15
    ensures FindAll(data, p) == []
  {
    hide MatchAt;
    if FindFrom(data, p).Some? {
      TooShort(data, FindFrom(data, p).value.start);
    }
  }

  // ---------- directives as they are written ----------

  const HEAD := "--- @include \""

  lemma HeadWords()
    ensures |HEAD| == 14 && HEAD[0..3] == "---" && HEAD[4..12] == "@include" && HEAD[13..14] == "\""
    ensures HEAD[0] == '-' && HEAD[3] == ' ' && HEAD[4] == '@' && HEAD[12] == ' ' && HEAD[13] == '"'
  {
  }

  lemma CharAt(t: string, h: nat, word: string, i: nat)
    requires HasAt(t, h, word) && i < |word|
    ensures t[h + i] == word[i]
  {
    assert t[h..h + |word|][i] == t[h + i];
  }

  lemma WordWithin(t: string, h: nat, word: string, i: nat, j: nat)
    requires HasAt(t, h, word) && i <= j <= |word|
    ensures HasAt(t, h + i, word[i..j])
  {
    var u, v := t[h + i..h + j], word[i..j];
    forall k | 0 <= k < j - i
      ensures u[k] == v[k]
    {
      CharAt(t, h, word, i + k);
    }
    assert u == v;
  }

  lemma HeadSpaces(t: string, p: nat, h: nat)
    requires p <= h && h + 14 <= |t| && (forall k :: p <= k < h ==> IsSpace(t[k])) && HasAt(t, h, HEAD)
    ensures SkipSpace(t, p) == h && SkipSpace(t, h + 3) == h + 4 && SkipSpace(t, h + 12) == h + 13
  {
    HeadWords();
    hide SkipSpace, HasAt, HEAD;
    CharAt(t, h, HEAD, 0);
    CharAt(t, h, HEAD, 3);
    CharAt(t, h, HEAD, 4);
    CharAt(t, h, HEAD, 12);
    CharAt(t, h, HEAD, 13);
    SpaceEnds(t, p, h);
    SpaceEnds(t, h + 3, h + 4);
    SpaceEnds(t, h + 12, h + 13);
  }

  lemma HeadHas(t: string, h: nat)
    requires HasAt(t, h, HEAD)
    ensures h + 14 <= |t| && HasAt(t, h, "---") && HasAt(t, h + 4, "@include") && HasAt(t, h + 13, "\"")
  {
    HeadWords();
    WordWithin(t, h, HEAD, 0, 3);
    WordWithin(t, h, HEAD, 4, 12);
    WordWithin(t, h, HEAD, 13, 14);
    hide HEAD;
  }

  lemma QuoteBehind(t: string, q: nat, ref: string)
    requires HasAt(t, q, ref) && '"' !in ref && q + |ref| < |t| && t[q + |ref|] == '"'
    ensures NextQuote(t, q) == q + |ref|
  {
    hide NextQuote, HasAt;
    forall k | q <= k < q + |ref|
      ensures t[k] != '"'
    {
      CharAt(t, q, ref, k - q);
    }
  }

  /** White space, the head and a name up to its closing quotation mark at d. */
  lemma DirectiveParts(t: string, p: nat, h: nat, ref: string, d: nat)
    requires p <= h && h + 14 + |ref| == d < |t| && AtLineStart(t, p) && (forall k :: p <= k < h ==> IsSpace(t[k]))
    requires HasAt(t, h, HEAD) && HasAt(t, h + 14, ref) && ref != "" && '"' !in ref && t[d] == '"'
    requires LastLineEnd(t, d + 1, SkipSpace(t, d + 1)).Some?
    ensures Parts(t, p, h, h + 4, h + 13, d)
  {
    hide SkipSpace, NextQuote, LastLineEnd, HasAt, HEAD, AtLineStart;
    HeadSpaces(t, p, h);
    HeadHas(t, h);
    QuoteBehind(t, h + 14, ref);
  }

  /** The match of a written directive quotes its name. */
  lemma WrittenMatches(t: string, p: nat, h: nat, ref: string, d: nat, e: nat)
    requires p <= h && h + 14 + |ref| == d < |t| && AtLineStart(t, p) && (forall k :: p <= k < h ==> IsSpace(t[k]))
    requires HasAt(t, h, HEAD) && HasAt(t, h + 14, ref) && ref != "" && '"' !in ref && t[d] == '"'
    requires LastLineEnd(t, d + 1, SkipSpace(t, d + 1)) == Some(e)
    ensures MatchAt(t, p) == Some(Match(p, e, ref))
  {
    hide MatchAt, SkipSpace, NextQuote, LastLineEnd, Parts, HEAD, AtLineStart, AtLineEnd, IsSpace;
    DirectiveParts(t, p, h, ref, d);
    FromParts(t, p, h, h + 4, h + 13, d);
  }

  /** A directive line without its newline. */
  function Directive(ref: string): string {
    HEAD + ref + "\""
  }

  lemma DirectiveWithin(pre: string, ref: string, post: string)
    ensures var t, h := pre + Directive(ref) + post, |pre|;
            && |HEAD| == 14 && |t| == h + 15 + |ref| + |post|
            && HasAt(t, h, HEAD) && HasAt(t, h + 14, ref) && t[h + 14 + |ref|] == '"'
            && (forall k :: 0 <= k < |pre| ==> t[k] == pre[k])
            && (forall k :: 0 <= k < |post| ==> t[h + 15 + |ref| + k] == post[k])
  {
    HeadWords();
    hide HEAD;
    var t, h := pre + Directive(ref) + post, |pre|;
    assert t == pre + HEAD + ref + "\"" + post;
    assert t[h..h + 14] == HEAD;
    assert t[h + 14..h + 14 + |ref|] == ref;
  }
}
