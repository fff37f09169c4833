/**
  Directives in the output. No piece that is written out holds one, but the end of one piece and
  the beginning of the next can spell one; the output is not searched again. This says exactly
  when that happens, and gives two scripts with which it does.
 */
module Remnants {
  import opened Wrappers
  import opened Lists
  import opened Paths
  import opened Matcher
  import opened Includes
  import opened IncludeOnce
  import opened Preprocessor

  // ---------- beginnings of directives ----------

  /** r is what a directive looks like from its dashes on, cut off before its closing quotation mark. */
  predicate Opens(r: string) {
    if |r| < 3 then r == "---"[..|r|] else HasAt(r, 0, "---") && OpensBeyond(r, SkipSpace(r, 3))
  }

  /** Some line of t, with the rest of t behind it, is the beginning of a directive and not a whole one. */
  ghost predicate Unfinished(t: string) {
    exists q: nat :: UnfinishedAt(t, q)
  }

  ghost predicate UnfinishedAt(t: string, q: nat) {
    q <= |t| && AtLineStart(t, q) && SkipSpace(t, q) < |t| && Opens(t[SkipSpace(t, q)..])
  }

  /** The text up to here ends in a line that holds nothing but white space. */
  ghost predicate FreshLine(pre: string) {
    exists p: nat :: BlankFrom(pre, p)
  }

  ghost predicate BlankFrom(pre: string, p: nat) {
    p <= |pre| && AtLineStart(pre, p) && forall k :: p <= k < |pre| ==> IsSpace(pre[k])
  }

  // ---------- a match of the whole, seen from a part ----------

  ghost predicate Blank(data: string, lo: nat, hi: nat) {
    lo <= hi <= |data| && forall k :: lo <= k < hi ==> IsSpace(data[k])
  }

  lemma WordOfPart(data: string, t: string, c: nat, p: nat, q: nat, word: string)
    requires PartOf(data, t, c) && p <= q && q + |word| <= |t| && word != "" && !IsSpace(word[0])
    requires Blank(data, c + p, c + q) && HasAt(data, c + q, word)
    ensures SkipSpace(t, p) == q && HasAt(t, q, word)
  {
    hide SkipSpace, IsSpace;
    CharAt(data, c + q, word, 0);
    assert t[q] == data[c + q];
    forall k | p <= k < q
      ensures IsSpace(t[k])
    {
      assert t[k] == data[c + k];
    }
    SpaceEnds(t, p, q);
    var u := t[q..q + |word|];
    forall k | 0 <= k < |word|
      ensures u[k] == word[k]
    {
      CharAt(data, c + q, word, k);
      assert t[q + k] == data[c + (q + k)];
    }
    assert u == word;
  }

  lemma SkippedIsBlank(data: string, p: nat)
    requires p <= |data|
    ensures Blank(data, p, SkipSpace(data, p))
  {
    hide SkipSpace, IsSpace;
  }

  lemma QuoteOfPart(data: string, t: string, c: nat, p: nat, d: nat)
    requires PartOf(data, t, c) && p <= |t| && c + p <= |data| && NextQuote(data, c + p) == c + d && d < |t|
    ensures NextQuote(t, p) == d && t[d] == '"'
  {
    hide NextQuote;
    assert t[d] == data[c + d];
    assert forall k :: p <= k < d ==> t[k] == data[c + k];
  }

  lemma EndOfPart(data: string, t: string, c: nat, d: nat)
    requires PartOf(data, t, c) && d < |t|
    requires LastLineEnd(data, c + d + 1, SkipSpace(data, c + d + 1)).Some?
    ensures LastLineEnd(t, d + 1, SkipSpace(t, d + 1)).Some?
  {
    hide SkipSpace, LastLineEnd, IsSpace;
    var q, e := SkipSpace(data, c + d + 1), LastLineEnd(data, c + d + 1, SkipSpace(data, c + d + 1)).value;
    var k := if q >= c + |t| then |t| else e - c;
    assert forall j :: d + 1 <= j < k ==> t[j] == data[c + j];
    RunReaches(t, d + 1, k);
    assert AtLineEnd(t, k) by {
      if k < |t| {
        assert t[k] == data[c + k];
      }
    }
  }

  /** A match whose closing quotation mark lies in a part is a match of that part, too. */
  lemma MatchOfPart(data: string, t: string, c: nat, p: nat, q: nat, a: nat, b: nat, x: nat, d: nat)
    requires PartOf(data, t, c) && Parts(data, p, a, b, x, d) && c <= a && d < c + |t|
    requires q <= a - c && q <= |t| && AtLineStart(t, q) && Blank(data, c + q, a)
    ensures MatchAt(t, q).Some?
  {
    hide SkipSpace, NextQuote, LastLineEnd, HasAt, MatchAt, PartOf, AtLineStart, IsSpace, Blank;
    NotSpaces();
    Bounds(data, p, a, b, x, d);
    WordOfPart(data, t, c, q, a - c, "---");
    SkippedIsBlank(data, a + 3);
    WordOfPart(data, t, c, a - c + 3, b - c, "@include");
    SkippedIsBlank(data, b + 8);
    WordOfPart(data, t, c, b - c + 8, x - c, "\"");
    QuoteOfPart(data, t, c, x - c + 1, d - c);
    EndOfPart(data, t, c, d - c);
    FromParts(t, q, a - c, b - c, x - c, d - c);
  }

  lemma Bounds(data: string, p: nat, a: nat, b: nat, x: nat, d: nat)
    requires Parts(data, p, a, b, x, d)
    ensures p <= a && a + 3 <= b && b + 8 < x && x + 1 < d < |data|
  {
    hide SkipSpace, NextQuote, LastLineEnd, HasAt;
  }

  // ---------- a beginning is the beginning of what was cut ----------

  lemma SliceChar(data: string, a: nat, e: nat, k: nat)
    requires a + k < e <= |data|
    ensures data[a..e][k] == data[a + k]
  {
  }

  /** Skipping white space in a slice that ends within it, and in one that goes beyond it. */
  lemma SkipInSlice(data: string, a: nat, e: nat, p: nat)
    requires a + p <= e <= |data|
    ensures var q := SkipSpace(data, a + p);
            SkipSpace(data[a..e], p) == (if q >= e then e - a else q - a)
  {
    hide SkipSpace, IsSpace;
    var r, q := data[a..e], SkipSpace(data, a + p);
    var n := if q >= e then e - a else q - a;
    forall k | p <= k < n
      ensures IsSpace(r[k])
    {
      SliceChar(data, a, e, k);
    }
    if q < e {
      SliceChar(data, a, e, q - a);
      SpaceEnds(r, p, n);
    } else {
      RunReaches(r, p, n);
    }
  }

  /** A word, or the part of it that is in the slice. */
  lemma WordInSlice(data: string, a: nat, e: nat, q: nat, word: string)
    requires a <= q <= e <= |data| && HasAt(data, q, word)
    ensures e - q < |word| ==> data[a..e][q - a..] == word[..e - q]
    ensures e - q >= |word| ==> HasAt(data[a..e], q - a, word)
  {
    var n := if e - q < |word| then e - q else |word|;
    var u := data[a..e][q - a..q - a + n];
    forall k | 0 <= k < n
      ensures u[k] == word[k]
    {
      CharAt(data, q, word, k);
    }
    assert u == word[..n];
    assert data[a..e][q - a..e - a] == data[a..e][q - a..];
    assert word[..|word|] == word;
  }

  lemma NoQuoteInSlice(data: string, a: nat, e: nat, x: nat, d: nat)
    requires a <= x && x + 1 <= e <= d <= |data| && NextQuote(data, x + 1) == d
    ensures '"' !in data[a..e][x - a + 1..]
  {
    hide NextQuote;
    var u := data[a..e][x - a + 1..];
    forall k | 0 <= k < |u|
      ensures u[k] != '"'
    {
      assert u[k] == data[x + 1 + k];
    }
  }

  /** The beginning of a directive that reaches to its word or beyond. */
  predicate OpensBeyond(r: string, b: nat)
    requires b <= |r|
  {
    if |r| - b < 8 then
      r[b..] == "@include"[..|r| - b]
    else
      var x := SkipSpace(r, b + 8);
      HasAt(r, b, "@include") && (x == |r| || (x > b + 8 && r[x] == '"' && '"' !in r[x + 1..]))
  }

  lemma CutBeyond(data: string, p: nat, a: nat, b: nat, x: nat, d: nat, e: nat)
    requires Parts(data, p, a, b, x, d) && a < b <= e <= d
    ensures OpensBeyond(data[a..e], b - a)
  {
    hide SkipSpace, NextQuote, LastLineEnd, HasAt, AtLineStart;
    Bounds(data, p, a, b, x, d);
    WordInSlice(data, a, e, b, "@include");
    if e - b >= 8 {
      SkipInSlice(data, a, e, b - a + 8);
      if e > x {
        CharAt(data, x, "\"", 0);
        SliceChar(data, a, e, x - a);
        NoQuoteInSlice(data, a, e, x, d);
      }
    }
  }

  /** A directive cut anywhere between its first dash and its closing quotation mark opens one. */
  lemma CutOpens(data: string, p: nat, a: nat, b: nat, x: nat, d: nat, e: nat)
    requires Parts(data, p, a, b, x, d) && a < e <= d
    ensures Opens(data[a..e])
  {
    hide SkipSpace, NextQuote, LastLineEnd, HasAt, AtLineStart, OpensBeyond;
    Bounds(data, p, a, b, x, d);
    WordInSlice(data, a, e, a, "---");
    if e - a >= 3 {
      SkipInSlice(data, a, e, 3);
      if e >= b {
        CutBeyond(data, p, a, b, x, d, e);
      } else {
        OpensNothing(data[a..e]);
      }
    }
  }

  lemma OpensNothing(r: string)
    ensures OpensBeyond(r, |r|)
  {
  }

  // ---------- the output in pieces ----------

  ghost predicate AllWritten(files: Files, trace: seq<Piece>)
    requires AllSearched(files)
  {
    forall piece :: piece in trace ==> Written(files, piece)
  }

  /** The text of piece k. */
  ghost function PieceText(files: Files, trace: seq<Piece>, k: nat): string
    requires AllSearched(files) && AllWritten(files, trace) && k < |trace|
  {
    assert Written(files, trace[k]);
    Chunk(files[trace[k].path], trace[k].index)
  }

  lemma {:induction false} RenderSplits(files: Files, trace: seq<Piece>, k: nat)
    requires AllSearched(files) && AllWritten(files, trace) && k < |trace|
    ensures AllWritten(files, trace[..k]) && AllWritten(files, trace[k + 1..])
    ensures Render(files, trace)
         == Render(files, trace[..k]) + PieceText(files, trace, k) + Render(files, trace[k + 1..])
    decreases |trace|
  {
    hide Chunk, Written, AllSearched;
    var n := |trace| - 1;
    if k == n {
      assert trace[k + 1..] == [];
    } else {
      var front, last := trace[..n], PieceText(files, trace, n);
      RenderSplits(files, front, k);
      assert front[..k] == trace[..k];
      var rest := trace[k + 1..];
      assert front[k + 1..] == rest[..|rest| - 1] && rest[|rest| - 1] == trace[n];
      assert Render(files, rest) == Render(files, front[k + 1..]) + last;
      Regroup(Render(files, trace[..k]), PieceText(files, trace, k), Render(files, front[k + 1..]), last);
    }
  }

  lemma Regroup(a: string, b: string, c: string, d: string)
    ensures a + b + c + d == a + b + (c + d)
  {
  }

  /** Every position of the output lies in a piece. */
  lemma {:induction false} PieceAt(files: Files, trace: seq<Piece>, a: nat) returns (k: nat)
    requires AllSearched(files) && AllWritten(files, trace) && a < |Render(files, trace)|
    ensures k < |trace| && AllWritten(files, trace[..k])
    ensures |Render(files, trace[..k])| <= a < |Render(files, trace[..k])| + |PieceText(files, trace, k)|
    decreases |trace|
  {
    hide Chunk, Written, AllSearched;
    var n := |trace| - 1;
    if a < |Render(files, trace[..n])| {
      k := PieceAt(files, trace[..n], a);
      assert trace[..n][..k] == trace[..k];
    } else {
      k := n;
    }
  }

  // ---------- exactly when a directive remains ----------

  /**
    Position a of piece k stands on a fresh line of the output, the rest of the piece is the
    beginning of a directive, and the pieces behind it complete the directive.
   */
  ghost predicate Completed(files: Files, trace: seq<Piece>, k: nat, a: nat)
    requires AllSearched(files) && AllWritten(files, trace)
  {
    && k < |trace| && a < |PieceText(files, trace, k)|
    && AllWritten(files, trace[..k]) && AllWritten(files, trace[k + 1..])
    && (var t := PieceText(files, trace, k);
        && FreshLine(Render(files, trace[..k]) + t[..a]) && Opens(t[a..])
        && MatchAt(t[a..] + Render(files, trace[k + 1..]), 0).Some?)
  }

  /** No piece holds a directive of its own. */
  ghost predicate Clean(files: Files, trace: seq<Piece>)
    requires AllSearched(files) && AllWritten(files, trace)
  {
    forall k, q :: 0 <= k < |trace| && 0 <= q <= |PieceText(files, trace, k)| ==>
      MatchAt(PieceText(files, trace, k), q).None?
  }

  /** The line on which a directive begins, as the piece with its dashes sees it. */
  lemma LineInPiece(text: string, t: string, off: nat, p: nat, a: nat) returns (q: nat)
    requires PartOf(text, t, off) && off <= a < off + |t|
    requires p <= a < |text| && AtLineStart(text, p) && Blank(text, p, a)
    ensures q <= a - off && AtLineStart(t, q) && Blank(text, off + q, a)
  {
    hide IsSpace;
    q := if p >= off then p - off else 0;
    if q > 0 {
      assert t[q - 1] == text[off + (q - 1)];
    }
  }

  lemma AfterDashes(text: string, p: nat, a: nat, b: nat, x: nat, d: nat)
    requires Parts(text, p, a, b, x, d)
    ensures a < |text| && MatchAt(text[a..], 0).Some? && FreshLine(text[..a])
  {
    hide SkipSpace, NextQuote, LastLineEnd, HasAt, MatchAt, IsSpace;
    Bounds(text, p, a, b, x, d);
    MatchOfPart(text, text[a..], a, p, 0, a, b, x, d);
    SkippedIsBlank(text, p);
    assert BlankFrom(text[..a], p);
  }

  lemma RemainsCompleted(files: Files, trace: seq<Piece>, p: nat) returns (k: nat, a: nat)
    requires AllSearched(files) && AllWritten(files, trace) && Clean(files, trace)
    requires p <= |Render(files, trace)| && MatchAt(Render(files, trace), p).Some?
    ensures Completed(files, trace, k, a)
  {
    hide MatchAt, Render, PieceText, Parts, Opens, FreshLine, AllSearched, Written, PartOf, Blank;
    var text := Render(files, trace);
    var dash, b, x, d := PartsOf(text, p);
    AfterDashes(text, p, dash, b, x, d);
    k := PieceAt(files, trace, dash);
    RenderSplits(files, trace, k);
    var pre, t, post := Render(files, trace[..k]), PieceText(files, trace, k), Render(files, trace[k + 1..]);
    var off := |pre|;
    MiddleIsPart(pre, t, post);
    a := dash - off;
    DashLine(text, p, dash, b, x, d);
    var q := LineInPiece(text, t, off, p, dash);
    assert MatchAt(t, q).None?;
    if d < off + |t| {
      MatchOfPart(text, t, off, p, q, dash, b, x, d);
    }
    CutOpens(text, p, dash, b, x, d, off + |t|);
    CutAround(pre, t, post, a);
  }

  lemma MiddleIsPart(pre: string, t: string, post: string)
    ensures PartOf(pre + t + post, t, |pre|)
  {
  }

  lemma DashLine(text: string, p: nat, a: nat, b: nat, x: nat, d: nat)
    requires Parts(text, p, a, b, x, d)
    ensures p <= a < |text| && AtLineStart(text, p) && Blank(text, p, a)
  {
    hide SkipSpace, NextQuote, LastLineEnd, HasAt, IsSpace;
    SkippedIsBlank(text, p);
    Bounds(text, p, a, b, x, d);
  }

  lemma CutAround(pre: string, t: string, post: string, a: nat)
    requires a <= |t|
    ensures var text, off := pre + t + post, |pre|;
            && text[..off + a] == pre + t[..a] && text[off + a..] == t[a..] + post
            && text[off + a..off + |t|] == t[a..]
  {
  }

  lemma PartsBehind(data: string, u: string, c: nat, p: nat, b: nat, x: nat, d: nat)
    requires PartOf(data, u, c) && c + |u| == |data| && Parts(u, 0, 0, b, x, d)
    requires p <= c && AtLineStart(data, p) && SkipSpace(data, p) == c
    ensures Parts(data, p, c, c + b, c + x, c + d)
  {
    hide SkipSpace, NextQuote, LastLineEnd, HasAt, PartOf, AtLineStart, IsSpace;
    NotSpaces();
    WordInPart(data, u, c, 0, "---");
    WordInPart(data, u, c, 3, "@include");
    WordInPart(data, u, c, b + 8, "\"");
    QuoteInPart(data, u, c, x + 1);
    EndInPart(data, u, c, d);
  }

  /** A directive behind white space on its line. */
  lemma MatchBehindSpace(pre: string, u: string, p: nat)
    requires BlankFrom(pre, p) && u != "" && u[0] == '-' && MatchAt(u, 0).Some?
    ensures MatchAt(pre + u, p).Some?
  {
    hide SkipSpace, NextQuote, LastLineEnd, HasAt, MatchAt, PartOf, IsSpace, Parts;
    var data, c := pre + u, |pre|;
    var a, b, x, d := PartsOf(u, 0);
    DashIsNotSpace();
    SpaceEnds(u, 0, 0);
    StartsThere(u, 0, a, b, x, d);
    assert data == pre + u + "";
    MiddleIsPart(pre, u, "");
    SpaceEnds(data, p, c);
    PartsBehind(data, u, c, p, b, x, d);
    FromParts(data, p, c, c + b, c + x, c + d);
  }

  lemma StartsThere(u: string, p: nat, a: nat, b: nat, x: nat, d: nat)
    requires Parts(u, p, a, b, x, d)
    ensures p <= |u| && a == SkipSpace(u, p)
  {
    hide SkipSpace, NextQuote, LastLineEnd, HasAt;
  }

  lemma DashIsNotSpace()
    ensures !IsSpace('-')
  {
  }

  lemma OpensWithDash(r: string)
    requires r != "" && Opens(r)
    ensures r[0] == '-'
  {
    hide SkipSpace;
    if |r| >= 3 {
      CharAt(r, 0, "---", 0);
    } else {
      assert r[0] == "---"[..|r|][0];
    }
  }

  lemma CompletedRemains(files: Files, trace: seq<Piece>, k: nat, a: nat) returns (p: nat)
    requires AllSearched(files) && AllWritten(files, trace) && Completed(files, trace, k, a)
    ensures p <= |Render(files, trace)| && MatchAt(Render(files, trace), p).Some?
  {
    hide MatchAt, Render, PieceText, Opens, BlankFrom, AllSearched, Written;
    RenderSplits(files, trace, k);
    var pre, t, post := Render(files, trace[..k]), PieceText(files, trace, k), Render(files, trace[k + 1..]);
    CutAround(pre, t, post, a);
    p :| BlankFrom(pre + t[..a], p);
    OpensWithDash(t[a..]);
    BlankInside(pre + t[..a], p);
    MatchBehindSpace(pre + t[..a], t[a..] + post, p);
    assert pre + t + post == (pre + t[..a]) + (t[a..] + post);
  }

  lemma BlankInside(pre: string, p: nat)
    requires BlankFrom(pre, p)
    ensures p <= |pre|
  {
  }

  lemma SearchFinds(text: string)
    ensures FindAll(text, 0) != [] <==> exists p: nat :: p <= |text| && MatchAt(text, p).Some?
  {
    hide MatchAt;
    if FindAll(text, 0) != [] {
      assert MatchAt(text, FindFrom(text, 0).value.start).Some?;
    }
  }

  /** The output of clean pieces holds a directive exactly if some piece begins one that the next pieces complete. */
  lemma RemainsExactlyWhen(files: Files, trace: seq<Piece>)
    requires AllSearched(files) && AllWritten(files, trace) && Clean(files, trace)
    ensures FindAll(Render(files, trace), 0) != [] <==> exists k, a :: Completed(files, trace, k, a)
  {
    hide MatchAt, Render, FindAll, Clean, Completed, Written, AllSearched;
    var text := Render(files, trace);
    SearchFinds(text);
    if p: nat :| p <= |text| && MatchAt(text, p).Some? {
      var k, a := RemainsCompleted(files, trace, p);
    }
    if k, a :| Completed(files, trace, k, a) {
      var p := CompletedRemains(files, trace, k, a);
    }
  }

  /** A piece in which a completed directive begins is unfinished. */
  lemma CompletedIsUnfinished(files: Files, trace: seq<Piece>, k: nat, a: nat)
    requires AllSearched(files) && AllWritten(files, trace) && Completed(files, trace, k, a)
    ensures Unfinished(PieceText(files, trace, k))
  {
    hide MatchAt, Render, PieceText, Opens, BlankFrom, AllSearched, Written;
    var pre, t := Render(files, trace[..k]), PieceText(files, trace, k);
    var p :| BlankFrom(pre + t[..a], p);
    OpensWithDash(t[a..]);
    FreshInPiece(pre, t, a, p);
  }

  lemma FreshInPiece(pre: string, t: string, a: nat, p: nat)
    requires a < |t| && t[a] == '-' && BlankFrom(pre + t[..a], p) && Opens(t[a..])
    ensures Unfinished(t)
  {
    hide SkipSpace, Opens;
    var u := pre + t[..a];
    var q := if p >= |pre| then p - |pre| else 0;
    assert forall k :: 0 <= k < a ==> u[|pre| + k] == t[k];
    forall k | q <= k < a
      ensures IsSpace(t[k])
    {
      assert u[|pre| + k] == t[k];
    }
    if q > 0 {
      assert u[p - 1] == t[q - 1];
    }
    SpaceEnds(t, q, a);
    assert UnfinishedAt(t, q);
  }

  // ---------- what preprocess writes ----------

  /** The outcome of preprocess on these scripts. */
  function Expansion(texts: map<Path, string>, entry: Path): Outcome
    ensures AllSearched(Load(texts))
  {
    LoadSearched(texts);
    Includes.Preprocess(Load(texts), entry)
  }

  lemma WrittenPiece(texts: map<Path, string>, entry: Path, k: nat)
    requires Expansion(texts, entry).Done? && k < |Expansion(texts, entry).trace|
    ensures var piece := Expansion(texts, entry).trace[k];
            && Written(Load(texts), piece) && piece.path in texts
            && Searched(Parse(texts[piece.path])) && Apart(Parse(texts[piece.path]))
            && Load(texts)[piece.path] == Parse(texts[piece.path])
  {
    hide Includes.Preprocess, Reachable, Parse, AcyclicFrom;
    var files, trace := Load(texts), Expansion(texts, entry).trace;
    Succeeded(files, entry);
    TextMeansSoundGraph(files, entry);
    assert GroundedAt(files, trace, k);
    assert trace[k] in trace;
    assert Proper(files, trace[k].path);
  }

  lemma OutputIsClean(texts: map<Path, string>, entry: Path)
    requires Expansion(texts, entry).Done?
    ensures AllWritten(Load(texts), Expansion(texts, entry).trace)
    ensures Clean(Load(texts), Expansion(texts, entry).trace)
  {
    hide Expansion, Parse, MatchAt, Chunk, Load, AllSearched;
    var files, trace := Load(texts), Expansion(texts, entry).trace;
    forall k: nat | k < |trace|
      ensures Written(files, trace[k])
    {
      WrittenPiece(texts, entry, k);
    }
    assert AllWritten(files, trace);
    forall k, q | 0 <= k < |trace| && 0 <= q <= |PieceText(files, trace, k)|
      ensures MatchAt(PieceText(files, trace, k), q).None?
    {
      WrittenPiece(texts, entry, k);
      PieceIsClean(texts[trace[k].path], trace[k].index, q);
    }
  }

  lemma PieceIsClean(data: string, i: nat, q: nat)
    requires Searched(Parse(data)) && Apart(Parse(data)) && i <= |Parse(data).matches| && q <= |Chunk(Parse(data), i)|
    ensures MatchAt(Chunk(Parse(data), i), q).None?
  {
    hide MatchAt, Chunk, Complete, FindAll;
    ParseSearched(data);
    NoMatchInPiece(Parse(data), i, q);
  }

  /**
    The text that preprocess returns holds a directive if and only if, somewhere on a fresh
    line, the rest of a piece is the beginning of a directive that the pieces behind it
    complete.
   */
  lemma DirectiveRemainsExactlyWhen(texts: map<Path, string>, entry: Path)
    requires Expansion(texts, entry).Done?
    ensures var files, trace := Load(texts), Expansion(texts, entry).trace;
            && AllWritten(files, trace)
            && (FindAll(Render(files, trace), 0) != [] <==> exists k, a :: Completed(files, trace, k, a))
  {
    hide Expansion, Load, AllSearched, Written, Render, Completed, FindAll, Clean;
    OutputIsClean(texts, entry);
    RemainsExactlyWhen(Load(texts), Expansion(texts, entry).trace);
  }

  /** If no piece is unfinished, no directive remains. */
  lemma NoDirectiveRemains(texts: map<Path, string>, entry: Path)
    requires Expansion(texts, entry).Done?
    requires var files, trace := Load(texts), Expansion(texts, entry).trace;
             AllWritten(files, trace) && forall k :: 0 <= k < |trace| ==> !Unfinished(PieceText(files, trace, k))
    ensures FindAll(Render(Load(texts), Expansion(texts, entry).trace), 0) == []
  {
    hide Expansion, Load, AllSearched, Written, Render, Completed, FindAll, Clean, Unfinished, PieceText;
    var files, trace := Load(texts), Expansion(texts, entry).trace;
    DirectiveRemainsExactlyWhen(texts, entry);
    if k, a :| Completed(files, trace, k, a) {
      InTrace(files, trace, k, a);
      CompletedIsUnfinished(files, trace, k, a);
    }
  }

  lemma InTrace(files: Files, trace: seq<Piece>, k: nat, a: nat)
    requires AllSearched(files) && AllWritten(files, trace) && Completed(files, trace, k, a)
    ensures k < |trace|
  {
    hide MatchAt, Render, PieceText, Opens, FreshLine, AllSearched, Written;
  }

  // ---------- two scripts with which a directive remains ----------

  const ENTRY: Path := ROOT + "/" + "e.lua"
  const PART: Path := ROOT + "/" + "a" + ".lua"

  const DASHES := "---\n"
  const REST := "@include \"x\"\n"

  /** The entry includes a script of three dashes and goes on with the rest of a directive. */
  const SCRIPTS: map<Path, string> := map[ENTRY := Directive("a") + "\n" + REST, PART := DASHES]

  lemma RestText()
    ensures |DASHES| == 4 && |REST| == 13 && REST[0] == '@' && REST[..8] == "@include" && REST[8] == ' '
    ensures REST[9] == '"' && REST[10] == 'x' && REST[11] == '"' && REST[12] == '\n' && DASHES == "---" + "\n"
  {
  }

  lemma EntryMatch()
    ensures var t := Directive("a") + "\n" + REST; |t| == 30 && MatchAt(t, 0) == Some(Match(0, 16, "a"))
    ensures var t := Directive("a") + "\n" + REST; t[16] == '\n' && t[17..] == REST
  {
    RestText();
    var t, post := Directive("a") + "\n" + REST, "\n" + REST;
    assert t == "" + Directive("a") + post;
    DirectiveWithin("", "a", post);
    hide MatchAt, SkipSpace, LastLineEnd, HasAt, HEAD, Directive, REST;
    assert t[16] == post[0] && t[17] == post[1] && post[1] == REST[0];
    SpaceEnds(t, 16, 17);
    assert AtLineEnd(t, 16) && !AtLineEnd(t, 17);
    WrittenMatches(t, 0, 0, "a", 15, 16);
    assert t[17..] == REST;
  }

  lemma PathsDiffer()
    ensures ENTRY != PART && Resolve(Dir(ENTRY), "a") == Some(PART)
  {
    assert ENTRY[8] == 'e' && PART[8] == 'a';
    SiblingResolves("e.lua", "a");
  }

  lemma EntryParsed()
    ensures var t := Directive("a") + "\n" + REST; Parse(t) == File(t, [Match(0, 16, "a")])
  {
    hide MatchAt, Directive, REST;
    EntryMatch();
    var t := Directive("a") + "\n" + REST;
    NothingBehind(t, 16);
    assert FindFrom(t, 0) == Some(Match(0, 16, "a"));
  }

  lemma PartParsed()
    ensures Parse(DASHES) == File(DASHES, [])
  {
    hide FindAll;
    NothingBehind(DASHES, 0);
  }

  lemma ScriptsFound()
    ensures ENTRY != PART && ENTRY in SCRIPTS && PART in SCRIPTS
    ensures Parse(SCRIPTS[ENTRY]) == File(Directive("a") + "\n" + REST, [Match(0, 16, "a")])
    ensures Parse(SCRIPTS[PART]) == File(DASHES, [])
    ensures Resolve(Dir(ENTRY), "a") == Some(PART)
  {
    hide Parse, Directive, REST, DASHES, Resolve, Dir, ENTRY, PART;
    PathsDiffer();
    EntryParsed();
    PartParsed();
  }

  lemma ScriptsExpand()
    ensures Expansion(SCRIPTS, ENTRY) == Done({PART}, [Piece(ENTRY, 0), Piece(PART, 0), Piece(ENTRY, 1)])
  {
    hide Parse, Directive, REST, Resolve, Dir, ENTRY, PART;
    ScriptsFound();
    LoadSearched(SCRIPTS);
    var files := Load(SCRIPTS);
    assert files[ENTRY] == Parse(SCRIPTS[ENTRY]) && files[PART] == Parse(SCRIPTS[PART]);
    var trace1 := [Piece(ENTRY, 0)];
    var trace2 := trace1 + [Piece(PART, 0)];
    assert TargetOf(files, ENTRY, 0) == Some(PART);
    assert Cursor(files[ENTRY], 0) == 0;
    assert Expand(files, PART, {PART}, trace1, [ENTRY]) == Done({PART}, trace2);
    assert Directives(files, ENTRY, 1, {PART}, trace2, []) == Done({PART}, trace2 + [Piece(ENTRY, 1)]);
    assert {} + {PART} == {PART} && [] + [Piece(ENTRY, 0)] == trace1 && [] + [ENTRY] == [ENTRY];
    assert Directives(files, ENTRY, 0, {}, [], []) == Done({PART}, trace2 + [Piece(ENTRY, 1)]);
  }

  lemma EntryChunks(file: File)
    requires file.data == Directive("a") + "\n" + REST && file.matches == [Match(0, 16, "a")] && Searched(file)
    ensures Cursor(file, 0) == 0 && Chunk(file, 0) == "" && Chunk(file, 1) == REST
  {
    hide Directive, REST, MatchAt;
    EntryMatch();
    assert Cursor(file, 1) == 17;
  }

  lemma PartChunk(file: File)
    requires file == File(DASHES, []) && Searched(file)
    ensures Chunk(file, 0) == DASHES
  {
  }

  lemma LoadedScripts(files: Files)
    requires files == Load(SCRIPTS)
    ensures ENTRY in files && files[ENTRY] == File(Directive("a") + "\n" + REST, [Match(0, 16, "a")])
    ensures PART in files && files[PART] == File(DASHES, [])
  {
    hide Parse, Directive, REST, DASHES, ENTRY, PART;
    ScriptsFound();
  }

  lemma ScriptsText()
    ensures var files, o := Load(SCRIPTS), Expansion(SCRIPTS, ENTRY);
            o.Done? && AllWritten(files, o.trace) && Render(files, o.trace) == DASHES + REST
  {
    hide Expansion, Load, Directive, REST, DASHES, ENTRY, PART, MatchAt, Chunk, Render, SCRIPTS;
    ScriptsExpand();
    OutputIsClean(SCRIPTS, ENTRY);
    var files, trace := Load(SCRIPTS), Expansion(SCRIPTS, ENTRY).trace;
    LoadedScripts(files);
    EntryChunks(files[ENTRY]);
    PartChunk(files[PART]);
    ThreePieces(files, trace);
  }

  lemma ThreePieces(files: Files, trace: seq<Piece>)
    requires AllSearched(files) && AllWritten(files, trace) && |trace| == 3
    ensures Render(files, trace) == PieceText(files, trace, 0) + PieceText(files, trace, 1) + PieceText(files, trace, 2)
  {
    hide Chunk, Written, AllSearched;
    var two, one := trace[..2], trace[..1];
    assert two[..1] == one && one[..0] == [];
    assert Render(files, one) == "" + PieceText(files, trace, 0);
    assert Render(files, two) == Render(files, one) + PieceText(files, trace, 1);
  }

  lemma SpelledOut()
    ensures MatchAt(DASHES + REST, 0).Some?
  {
    RestText();
    hide MatchAt, SkipSpace, NextQuote, LastLineEnd, REST, DASHES;
    var t := DASHES + REST;
    assert t[0..3] == "---" && t[4..12] == REST[0..8] && t[13..14] == "\"";
    assert t[0] == '-' && t[3] == '\n' && t[4] == '@' && t[12] == ' ' && t[13] == '"' && t[14] == 'x' && t[15] == '"';
    SpaceEnds(t, 0, 0);
    SpaceEnds(t, 3, 4);
    SpaceEnds(t, 12, 13);
    assert NextQuote(t, 14) == 15;
    assert t[16] == '\n' && AtLineEnd(t, 16);
    RunReaches(t, 16, 16);
    FromParts(t, 0, 0, 4, 13, 15);
  }

  /** With these scripts preprocess succeeds, and its text is a directive. */
  lemma DirectiveCanRemain()
    ensures var files, o := Load(SCRIPTS), Expansion(SCRIPTS, ENTRY);
            && o.Done? && AllWritten(files, o.trace) && Render(files, o.trace) == DASHES + REST
            && FindAll(Render(files, o.trace), 0) != []
  {
    hide Expansion, Render, FindAll, MatchAt, Load, Written;
    ScriptsExpand();
    ScriptsText();
    SpelledOut();
    SearchFinds(DASHES + REST);
  }
}
