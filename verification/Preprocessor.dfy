/**
  The preprocessor as it runs: one buffer and two sets of paths, updated by a recursive method
  with a loop and a moving cursor. It computes the expansion of module Includes.
 */
module Preprocessor {
  import opened Wrappers
  import opened Lists
  import opened Paths
  import opened Includes
  import opened Matcher

  /** The text of a piece. */
  function Chunk(file: File, i: nat): (text: string)
    requires Searched(file) && i <= |file.matches| && (i < |file.matches| ==> Cursor(file, i) <= file.matches[i].start)
  {
    if i == |file.matches| then file.data[Cursor(file, i)..] else file.data[Cursor(file, i)..file.matches[i].start]
  }

  predicate Written(files: Files, piece: Piece)
    requires AllSearched(files)
  {
    && piece.path in files && piece.index <= |files[piece.path].matches|
    && var file := files[piece.path];
       piece.index < |file.matches| ==> Cursor(file, piece.index) <= file.matches[piece.index].start
  }

  /** The text of a list of pieces. */
  ghost function Render(files: Files, trace: seq<Piece>): string
    requires AllSearched(files) && forall piece :: piece in trace ==> Written(files, piece)
  {
    if trace == [] then
      ""
    else
      var n := |trace| - 1;
      assert Written(files, trace[n]);
      Render(files, trace[..n]) + Chunk(files[trace[n].path], trace[n].index)
  }

  /** What a file's pieces leave out are its directives, each with the newline that closes it. */
  function Restored(file: File, i: nat): string
    requires Searched(file) && Apart(file) && i <= |file.matches|
    decreases |file.matches| - i
  {
    if i == |file.matches| then
      Chunk(file, i)
    else
      Chunk(file, i) + file.data[file.matches[i].start..Cursor(file, i + 1)] + Restored(file, i + 1)
  }

  /** Nothing of a file is lost or repeated: pieces and directives together are its text. */
  lemma {:induction false} PiecesAndDirectives(file: File, i: nat)
    requires Searched(file) && Apart(file) && i <= |file.matches|
    ensures Restored(file, i) == file.data[Cursor(file, i)..]
    decreases |file.matches| - i
  {
    hide Apart, Cursor;
    if i < |file.matches| {
      InOrder(file, i);
      PiecesAndDirectives(file, i + 1);
      SliceInThree(file.data, Cursor(file, i), file.matches[i].start, Cursor(file, i + 1));
    }
  }

  lemma InOrder(file: File, i: nat)
    requires Searched(file) && Apart(file) && i < |file.matches|
    ensures Cursor(file, i) <= file.matches[i].start <= Cursor(file, i + 1)
  {
  }

  lemma SliceInThree(s: string, a: nat, b: nat, c: nat)
    requires a <= b <= c <= |s|
    ensures s[a..] == s[a..b] + s[b..c] + s[c..]
  {
  }

  lemma ChunkIsPart(file: File, i: nat)
    requires Searched(file) && Apart(file) && i <= |file.matches|
    ensures var t, c := Chunk(file, i), Cursor(file, i);
            PartOf(file.data, t, c) && c + |t| == (if i < |file.matches| then file.matches[i].start else |file.data|)
  {
    hide Cursor;
  }

  /** A piece that is not empty begins and ends at line starts, or ends with the text. */
  lemma PieceAtLines(file: File, i: nat)
    requires Searched(file) && Apart(file) && Complete(file.data, 0, file.matches) && i <= |file.matches|
    requires Chunk(file, i) != ""
    ensures var c, s := Cursor(file, i), Cursor(file, i) + |Chunk(file, i)|;
            s <= |file.data| && AtLineStart(file.data, c) && (s == |file.data| || AtLineStart(file.data, s))
  {
    hide Complete, PartOf, Searched, Chunk;
    ChunkIsPart(file, i);
    if i > 0 {
      AtLines(file.data, 0, file.matches, i - 1);
    }
    if i < |file.matches| {
      AtLines(file.data, 0, file.matches, i);
    }
  }

  lemma NothingBetween(data: string, matches: seq<Match>, i: nat, k: nat)
    requires Complete(data, 0, matches) && i <= |matches| && ResumeAt(0, matches, i) <= k <= |data|
    requires i < |matches| ==> k < matches[i].start
    ensures MatchAt(data, k).None?
  {
    hide MatchAt;
    assert NothingAt(data, 0, matches, i, k);
  }

  lemma CursorBehind(file: File, i: nat)
    requires Searched(file) && i <= |file.matches|
    ensures ResumeAt(0, file.matches, i) <= Cursor(file, i)
  {
  }

  lemma NoMatchInPiece(file: File, i: nat, p: nat)
    requires Searched(file) && Apart(file) && Complete(file.data, 0, file.matches) && i <= |file.matches|
    requires p <= |Chunk(file, i)|
    ensures MatchAt(Chunk(file, i), p).None?
  {
    hide MatchAt, AtLineStart, AtLineEnd, Complete, Chunk, PartOf, Cursor;
    var t, c := Chunk(file, i), Cursor(file, i);
    if MatchAt(t, p).Some? {
      PieceAtLines(file, i);
      ChunkIsPart(file, i);
      CursorBehind(file, i);
      MatchInPart(file.data, t, c, p);
      NothingBetween(file.data, file.matches, i, c + p);
    }
  }

  /** No directive remains in a piece. */
  lemma PieceHasNoDirective(data: string, i: nat)
    requires Searched(Parse(data)) && Apart(Parse(data)) && i <= |Parse(data).matches|
    ensures FindAll(Chunk(Parse(data), i), 0) == []
  {
    hide MatchAt, FindFrom, Complete, Chunk, Searched;
    FindAllComplete(data, 0);
    var t := Chunk(Parse(data), i);
    if FindFrom(t, 0).Some? {
      NoMatchInPiece(Parse(data), i, FindFrom(t, 0).value.start);
    }
  }

  class Expander {
    const files: Files
    var buf: string
    var included: set<Path>
    var stack: set<Path>
    ghost var trace: seq<Piece>

    constructor (files: Files)
      requires AllSearched(files)
      ensures this.files == files && buf == "" && included == {} && stack == {} && trace == [] && Valid()
    {
      this.files := files;
      buf, included, stack, trace := "", {}, {}, [];
    }

    ghost predicate Valid()
      reads this
    {
      && AllSearched(files)
      && (forall piece :: piece in trace ==> Written(files, piece))
      && buf == Render(files, trace)
    }

    /** buf.Write of the piece before directive i of path. */
    method Write(path: Path, i: nat)
      requires Valid() && Written(files, Piece(path, i))
      modifies this`buf, this`trace
      ensures Valid() && trace == old(trace) + [Piece(path, i)]
    {
      buf := buf + Chunk(files[path], i);
      trace := trace + [Piece(path, i)];
      assert trace[..|trace| - 1] == old(trace);
    }

    /** expand: the outcome, and on success the buffer and the included set, are those of the specification. */
    method Expand(path: Path, depth: nat, ghost chain: seq<Path>) returns (error: Option<Error>)
      requires Valid() && stack == (set x | x in chain) && depth == |chain| <= MAX_DEPTH + 1
      modifies this`buf, this`included, this`stack, this`trace
      ensures Valid() && stack == old(stack)
      ensures var o := Includes.Expand(files, path, old(included), old(trace), chain);
              if error.Some? then o == Failed(error.value) else o == Done(included, trace)
      decreases MAX_DEPTH + 1 - depth
    {
      hide Render, Resolve, Dir, Chunk, Searched;
      if depth > MAX_DEPTH {
        return Some(TooDeep(path));
      }
      if path in stack {
        return Some(Cycle(path, path));
      }
      stack := stack + {path};
      ghost var onStack := stack;
      if path !in files {
        stack := stack - {path};
        return Some(Missing(path));
      }
      var file := files[path];
      var dir, n := Dir(path), |file.matches|;
      ghost var spec := Directives(files, path, 0, included, trace, chain);
      var cursor, i := 0, 0;
      error := None;
      while i < n && error.None?
        invariant Valid() && 0 <= i <= n && stack == onStack == (set x | x in chain + [path])
        invariant error.None? ==> cursor == Cursor(file, i)
        invariant error.None? ==> spec == Directives(files, path, i, included, trace, chain)
        invariant error.Some? ==> spec == Failed(error.value)
        decreases n - i, error.None?
      {
        var m := file.matches[i];
        if cursor > m.start {
          error := Some(Panics(path));
        } else {
          Write(path, i);
          var target := Resolve(dir, m.ref);
          if target.None? {
            error := Some(Escapes(path, m.ref));
          } else if target.value in stack {
            error := Some(Cycle(path, target.value));
          } else {
            if target.value !in included {
              included := included + {target.value};
              error := Expand(target.value, depth + 1, chain + [path]);
            }
            if error.None? {
              cursor := m.end;
              if cursor < |file.data| && file.data[cursor] == '\n' {
                cursor := cursor + 1;
              }
              i := i + 1;
            }
          }
        }
      }
      if error.None? {
        Write(path, n);
      }
      stack := stack - {path};
    }
  }

  /** preprocess: text exactly when the specification succeeds, and then the text of its pieces. */
  method Preprocess(texts: map<Path, string>, name: string) returns (text: Option<string>, error: Option<Error>)
    ensures AllSearched(Load(texts))
    ensures var files := Load(texts);
            var o := Includes.Preprocess(files, Join(ROOT, name + ".lua"));
            if o.Done? then
              && error.None? && (forall piece :: piece in o.trace ==> Written(files, piece))
              && text == Some(Render(files, o.trace))
            else text.None? && error == Some(o.error)
  {
    LoadSearched(texts);
    var expander := new Expander(Load(texts));
    error := expander.Expand(Join(ROOT, name + ".lua"), 0, []);
    text := if error.None? then Some(expander.buf) else None;
  }
}
