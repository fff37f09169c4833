/**
  The include graph of a set of scripts and the depth-first expansion over it. A file is its
  text and the directives found in it; the expansion yields the pieces of text between
  directives, in the order in which they are written out.
 */
module Includes {
  import opened Wrappers
  import opened Lists
  import opened Paths
  import opened Matcher

  /** A script and the directives found in it. */
  datatype File = File(data: string, matches: seq<Match>)

  type Files = map<Path, File>

  /** The text of a file before its index-th directive; behind the last one for index |matches|. */
  datatype Piece = Piece(path: Path, index: nat)

  /** Panics: the slice data[cursor:fullStart] with cursor > fullStart. */
  datatype Error =
    | TooDeep(path: Path)
    | Cycle(path: Path, target: Path)
    | Missing(path: Path)
    | Escapes(path: Path, ref: string)
    | Panics(path: Path)

  datatype Outcome = Done(included: set<Path>, trace: seq<Piece>) | Failed(error: Error)

  const MAX_DEPTH := 32

  /** What a leftmost, non-overlapping search for all matches returns. */
  predicate Searched(file: File) {
    && (forall i :: 0 <= i < |file.matches| ==> file.matches[i].start <= file.matches[i].end <= |file.data|)
    && (forall i :: 0 < i < |file.matches| ==> file.matches[i - 1].end <= file.matches[i].start)
  }

  predicate AllSearched(files: Files) {
    forall path :: path in files ==> Searched(files[path])
  }

  function Parse(data: string): File {
    File(data, FindAll(data, 0))
  }

  /** The scripts of a file system, each with its directives. */
  function Load(texts: map<Path, string>): Files {
    map path | path in texts :: Parse(texts[path])
  }

  lemma ParseSearched(data: string)
    ensures Searched(Parse(data)) && Complete(data, 0, Parse(data).matches)
  {
    hide FindAll, Complete, AtLineStart, AtLineEnd;
    FindAllComplete(data, 0);
    var matches := Parse(data).matches;
    forall i: nat | i < |matches|
      ensures matches[i].start <= matches[i].end <= |data| && (i > 0 ==> matches[i - 1].end <= matches[i].start)
    {
      AtLines(data, 0, matches, i);
    }
  }

  lemma LoadSearched(texts: map<Path, string>)
    ensures AllSearched(Load(texts))
  {
    hide Parse, Searched;
    forall path | path in texts
      ensures Searched(Parse(texts[path]))
    {
      ParseSearched(texts[path]);
    }
  }

  /** Where the text resumes before directive i: behind directive i - 1 and one newline. */
  function Cursor(file: File, i: nat): (c: nat)
    requires i <= |file.matches| && Searched(file)
    ensures c <= |file.data|
  {
    if i == 0 then
      0
    else
      var end := file.matches[i - 1].end;
      if end < |file.data| && file.data[end] == '\n' then end + 1 else end
  }

  /** No directive begins on the newline that closes the one before it. */
  predicate Apart(file: File)
    requires Searched(file)
  {
    forall i :: 0 <= i < |file.matches| ==> Cursor(file, i) <= file.matches[i].start
  }

  /** That is so exactly when no directive begins where the one before it ends. */
  lemma ApartExactly(data: string)
    ensures Searched(Parse(data))
    ensures var matches := Parse(data).matches;
            Apart(Parse(data)) <==> forall i :: 0 < i < |matches| ==> matches[i - 1].end < matches[i].start
  {
    hide Parse, Cursor, Complete;
    ParseSearched(data);
    var file := Parse(data);
    ParsedText(data);
    var matches := file.matches;
    if Apart(file) {
      forall i | 0 < i < |matches|
        ensures matches[i - 1].end < matches[i].start
      {
        ApartAt(file, i);
      }
    } else {
      var i :| 0 <= i < |matches| && Cursor(file, i) > matches[i].start;
      StartsAtZero(file);
      ApartAt(file, i);
    }
  }

  lemma ParsedText(data: string)
    ensures Parse(data).data == data
  {
  }

  lemma StartsAtZero(file: File)
    requires Searched(file)
    ensures Cursor(file, 0) == 0
  {
  }

  lemma ApartAt(file: File, i: nat)
    requires Searched(file) && Complete(file.data, 0, file.matches) && 0 < i < |file.matches|
    ensures Cursor(file, i) <= file.matches[i].start <==> file.matches[i - 1].end < file.matches[i].start
  {
    hide Complete, Searched;
    AtLines(file.data, 0, file.matches, i - 1);
    AtLines(file.data, 0, file.matches, i);
  }

  function TargetOf(files: Files, path: Path, i: nat): Option<Path>
    requires path in files && i < |files[path].matches|
  {
    Resolve(Dir(path), files[path].matches[i].ref)
  }

  // ---------- expansion ----------

  /** expand; chain is the recursion path, whose elements are the stack and whose length is the depth. */
  function Expand(files: Files, path: Path, included: set<Path>, trace: seq<Piece>, chain: seq<Path>): Outcome
    requires AllSearched(files)
    decreases MAX_DEPTH + 1 - |chain|, 1, 0
  {
    if |chain| > MAX_DEPTH then Failed(TooDeep(path))
    else if path in chain then Failed(Cycle(path, path))
    else if path !in files then Failed(Missing(path))
    else Directives(files, path, 0, included, trace, chain)
  }

  /** The loop of expand, from directive i on. */
  function Directives(files: Files, path: Path, i: nat, included: set<Path>, trace: seq<Piece>, chain: seq<Path>)
    : Outcome
    requires AllSearched(files) && path in files && i <= |files[path].matches| && |chain| <= MAX_DEPTH
    decreases MAX_DEPTH + 1 - |chain|, 0, |files[path].matches| - i
  {
    var file := files[path];
    if i == |file.matches| then
      Done(included, trace + [Piece(path, i)])
    else if Cursor(file, i) > file.matches[i].start then
      Failed(Panics(path))
    else
      var trace1 := trace + [Piece(path, i)];
      var target := TargetOf(files, path, i);
      if target.None? then Failed(Escapes(path, file.matches[i].ref))
      else if target.value in chain + [path] then Failed(Cycle(path, target.value))
      else if target.value in included then Directives(files, path, i + 1, included, trace1, chain)
      else
        match Expand(files, target.value, included + {target.value}, trace1, chain + [path])
        case Failed(error) => Failed(error)
        case Done(included', trace') => Directives(files, path, i + 1, included', trace', chain)
  }

  function Preprocess(files: Files, entry: Path): Outcome
    requires AllSearched(files)
  {
    Expand(files, entry, {}, [], [])
  }

  // ---------- the include graph ----------

  ghost predicate Edge(files: Files, a: Path, b: Path) {
    a in files && exists i: nat :: i < |files[a].matches| && TargetOf(files, a, i) == Some(b)
  }

  ghost predicate IsPath(files: Files, p: seq<Path>) {
    p != [] && forall i :: 0 <= i < |p| - 1 ==> Edge(files, p[i], p[i + 1])
  }

  ghost predicate PathTo(files: Files, p: seq<Path>, a: Path, b: Path) {
    IsPath(files, p) && p[0] == a && p[|p| - 1] == b
  }

  ghost predicate Reachable(files: Files, a: Path, b: Path) {
    exists p :: PathTo(files, p, a, b)
  }

  /**
    Every directive of every script that an entry leads to is resolved from the directory of that
    script: its components follow those of the directory.
   */
  lemma EdgesFollowDirectories(files: Files, name: string, path: Path, i: nat)
    returns (dirs: seq<string>, file: string)
    requires '/' !in name && Reachable(files, Join(ROOT, name + ".lua"), path)
    requires path in files && i < |files[path].matches|
    ensures Below(path, dirs, file)
    ensures var ref, target := files[path].matches[i].ref, TargetOf(files, path, i);
            var parts := Visible(Split(ref));
            if HasPrefix(ref, "/") || Contains(ref, "..") || |dirs| + |parts| == 1 then target == None
            else target == Some(JoinParts(dirs + parts) + ".lua")
  {
    hide Join, Dir, Resolve, Split, Visible, Contains, ROOT, JoinParts, HasPrefix;
    var p :| PathTo(files, p, Join(ROOT, name + ".lua"), path);
    var n := |p| - 1;
    if n == 0 {
      EntryBelow(name);
      dirs, file := [ROOT], name + ".lua";
    } else {
      assert Edge(files, p[n - 1], p[n]);
      var k: nat :| k < |files[p[n - 1]].matches| && TargetOf(files, p[n - 1], k) == Some(path);
      dirs, file := ResolvedBelow(Dir(p[n - 1]), files[p[n - 1]].matches[k].ref);
    }
    ResolvesExactly(dirs, file, files[path].matches[i].ref);
  }

  /** The file exists, its references resolve inside the root, and its directives are apart. */
  ghost predicate Proper(files: Files, path: Path)
    requires AllSearched(files)
  {
    && path in files && Apart(files[path])
    && forall i: nat :: i < |files[path].matches| ==> TargetOf(files, path, i).Some?
  }

  ghost predicate AcyclicFrom(files: Files, entry: Path) {
    forall p :: IsPath(files, p) && p[0] == entry ==> Distinct(p)
  }

  lemma PathExtends(files: Files, p: seq<Path>, b: Path)
    requires IsPath(files, p) && Edge(files, p[|p| - 1], b)
    ensures IsPath(files, p + [b])
  {
    hide Edge;
    var p' := p + [b];
    forall i | 0 <= i < |p'| - 1
      ensures Edge(files, p'[i], p'[i + 1])
    {
      if i < |p| - 1 {
        assert p'[i] == p[i] && p'[i + 1] == p[i + 1];
      }
    }
  }

  lemma EdgeAt(files: Files, a: Path, i: nat, b: Path)
    requires a in files && i < |files[a].matches| && TargetOf(files, a, i) == Some(b)
    ensures Edge(files, a, b)
  {
  }

  // ---------- every error is real ----------

  /** What an error says about the files that can be reached from the entry. */
  ghost predicate Blames(files: Files, entry: Path, error: Error)
    requires AllSearched(files)
  {
    match error
    case TooDeep(path) => exists p :: PathTo(files, p, entry, path) && |p| == MAX_DEPTH + 2
    case Cycle(path, target) => exists p :: PathTo(files, p, entry, path) && target in p && Edge(files, path, target)
    case Missing(path) => Reachable(files, entry, path) && path !in files
    case Escapes(path, ref) =>
      Reachable(files, entry, path) && path in files
      && exists i: nat ::
           i < |files[path].matches| && files[path].matches[i].ref == ref && TargetOf(files, path, i).None?
    case Panics(path) => Reachable(files, entry, path) && path in files && !Apart(files[path])
  }

  lemma {:induction false} ExpandBlames(files: Files, path: Path, included: set<Path>, trace: seq<Piece>,
                                        chain: seq<Path>)
    requires AllSearched(files) && IsPath(files, chain + [path]) && |chain| <= MAX_DEPTH + 1 && path !in chain
    ensures var o := Expand(files, path, included, trace, chain);
            o.Failed? ==> Blames(files, (chain + [path])[0], o.error)
    decreases MAX_DEPTH + 1 - |chain|, 1, 0
  {
    var p := chain + [path];
    assert PathTo(files, p, p[0], path);
    if |chain| <= MAX_DEPTH && path in files {
      DirectivesBlame(files, path, 0, included, trace, chain);
    }
  }

  lemma BlameHere(files: Files, p: seq<Path>, path: Path, i: nat, error: Error)
    requires AllSearched(files) && p != [] && PathTo(files, p, p[0], path) && path in files && i < |files[path].matches|
    requires match error
             case Panics(at) => at == path && Cursor(files[path], i) > files[path].matches[i].start
             case Escapes(at, ref) => at == path && ref == files[path].matches[i].ref && TargetOf(files, path, i).None?
             case Cycle(at, target) => at == path && TargetOf(files, path, i) == Some(target) && target in p
             case _ => false
    ensures Blames(files, p[0], error)
  {
    hide Cursor, TargetOf, IsPath;
    if error.Cycle? {
      EdgeAt(files, path, i, error.target);
    }
  }

  lemma {:induction false} DirectivesBlame(files: Files, path: Path, i: nat, included: set<Path>, trace: seq<Piece>,
                                           chain: seq<Path>)
    requires AllSearched(files) && path in files && i <= |files[path].matches| && |chain| <= MAX_DEPTH
    requires IsPath(files, chain + [path])
    ensures var o := Directives(files, path, i, included, trace, chain);
            o.Failed? ==> Blames(files, (chain + [path])[0], o.error)
    decreases MAX_DEPTH + 1 - |chain|, 0, |files[path].matches| - i
  {
    hide Blames, Cursor, TargetOf, IsPath, Searched;
    var file, p, o := files[path], chain + [path], Directives(files, path, i, included, trace, chain);
    assert PathTo(files, p, p[0], path);
    if o.Failed? && i < |file.matches| {
      var trace1, target := trace + [Piece(path, i)], TargetOf(files, path, i);
      if Cursor(file, i) > file.matches[i].start || target.None? || target.value in p {
        BlameHere(files, p, path, i, o.error);
      } else if target.value in included {
        DirectivesBlame(files, path, i + 1, included, trace1, chain);
      } else {
        EdgeAt(files, path, i, target.value);
        PathExtends(files, p, target.value);
        assert (p + [target.value])[0] == p[0];
        ExpandBlames(files, target.value, included + {target.value}, trace1, p);
        var deeper := Expand(files, target.value, included + {target.value}, trace1, p);
        if deeper.Done? {
          DirectivesBlame(files, path, i + 1, deeper.included, deeper.trace, chain);
        }
      }
    }
  }
}
