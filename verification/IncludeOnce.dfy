/**
  What a successful expansion has established: the include graph is sound and acyclic, every
  reachable body has been written exactly once, and text behind a directive comes after the
  whole expansion of what the directive names.
 */
module IncludeOnce {
  import opened Wrappers
  import opened Lists
  import opened Paths
  import opened Includes
  import opened Matcher

  // ---------- traces ----------

  function Tail(files: Files, path: Path): Piece {
    Piece(path, if path in files then |files[path].matches| else 0)
  }

  ghost predicate Before(trace: seq<Piece>, k: int, piece: Piece) {
    exists j :: 0 <= j < k && j < |trace| && trace[j] == piece
  }

  /** All of path, including everything it includes, has been written. */
  ghost predicate Finished(files: Files, trace: seq<Piece>, path: Path) {
    path in files && Tail(files, path) in trace
  }

  /**
    Piece k belongs to a file, stands behind the piece before it, and behind the end of the
    file that the directive between the two names.
   */
  ghost predicate GroundedAt(files: Files, trace: seq<Piece>, k: nat)
    requires k < |trace| && AllSearched(files)
  {
    var path, i := trace[k].path, trace[k].index;
    && path in files && i <= |files[path].matches|
    && (i < |files[path].matches| ==> Cursor(files[path], i) <= files[path].matches[i].start)
    && (i > 0 ==>
          && Before(trace, k, Piece(path, i - 1))
          && TargetOf(files, path, i - 1).Some? && TargetOf(files, path, i - 1).value in files
          && Before(trace, k, Tail(files, TargetOf(files, path, i - 1).value)))
  }

  ghost predicate Grounded(files: Files, trace: seq<Piece>)
    requires AllSearched(files)
  {
    Distinct(trace) && forall k: nat :: k < |trace| ==> GroundedAt(files, trace, k)
  }

  lemma BeforeGrows(trace: seq<Piece>, more: seq<Piece>, k: nat, piece: Piece)
    requires Before(trace, k, piece)
    ensures Before(trace + more, k, piece)
  {
    var j :| 0 <= j < k && j < |trace| && trace[j] == piece;
    assert (trace + more)[j] == piece;
  }

  lemma BeforeEnd(trace: seq<Piece>, piece: Piece, last: Piece)
    requires piece in trace
    ensures Before(trace + [last], |trace|, piece)
  {
    var j :| 0 <= j < |trace| && trace[j] == piece;
    assert (trace + [last])[j] == piece;
  }

  lemma GroundedGrows(files: Files, trace: seq<Piece>, path: Path, i: nat)
    requires AllSearched(files) && Grounded(files, trace) && Piece(path, i) !in trace
    requires path in files && i <= |files[path].matches|
    requires i < |files[path].matches| ==> Cursor(files[path], i) <= files[path].matches[i].start
    requires i > 0 ==>
               && Piece(path, i - 1) in trace && TargetOf(files, path, i - 1).Some?
               && Finished(files, trace, TargetOf(files, path, i - 1).value)
    ensures Grounded(files, trace + [Piece(path, i)])
  {
    var trace' := trace + [Piece(path, i)];
    forall k: nat | k < |trace'|
      ensures GroundedAt(files, trace', k)
    {
      if k < |trace| {
        assert GroundedAt(files, trace, k) && trace'[k] == trace[k];
        if trace[k].index > 0 {
          BeforeGrows(trace, [Piece(path, i)], k, Piece(trace[k].path, trace[k].index - 1));
          var target := TargetOf(files, trace[k].path, trace[k].index - 1).value;
          BeforeGrows(trace, [Piece(path, i)], k, Tail(files, target));
        }
      } else if i > 0 {
        BeforeEnd(trace, Piece(path, i - 1), Piece(path, i));
        BeforeEnd(trace, Tail(files, TargetOf(files, path, i - 1).value), Piece(path, i));
      }
    }
  }

  // ---------- the invariant of the search ----------

  /** Included but no longer on the stack means fully written; nothing else has been touched. */
  ghost predicate Steady(files: Files, included: set<Path>, trace: seq<Piece>, chain: seq<Path>)
    requires AllSearched(files)
  {
    && Grounded(files, trace)
    && (forall t :: t in included && t !in chain ==> Finished(files, trace, t))
    && (forall piece :: piece in trace ==> piece.path in included || piece.path in chain)
  }

  /** The part written since trace belongs to files reachable from path, none of them on the stack. */
  ghost predicate Fresh(files: Files, trace: seq<Piece>, trace': seq<Piece>, chain: seq<Path>, path: Path) {
    && trace <= trace'
    && forall k :: |trace| <= k < |trace'| ==> trace'[k].path !in chain && Reachable(files, path, trace'[k].path)
  }

  ghost predicate Completes(files: Files, path: Path, included: set<Path>, trace: seq<Piece>, chain: seq<Path>,
                            o: Outcome)
    requires AllSearched(files)
  {
    o.Done? ==>
      && included <= o.included && Steady(files, o.included + {path}, o.trace, chain)
      && Finished(files, o.trace, path) && Fresh(files, trace, o.trace, chain, path)
  }

  /** The loop has written the pieces of path below i, and what the last directive names. */
  ghost predicate At(files: Files, path: Path, i: nat, trace: seq<Piece>)
    requires path in files && i <= |files[path].matches|
  {
    && (forall piece :: piece in trace && piece.path == path ==> piece.index < i)
    && (i > 0 ==>
          && Piece(path, i - 1) in trace && TargetOf(files, path, i - 1).Some?
          && Finished(files, trace, TargetOf(files, path, i - 1).value))
  }

  lemma ReachesSelf(files: Files, a: Path)
    ensures Reachable(files, a, a)
  {
    assert PathTo(files, [a], a, a);
  }

  lemma ReachesOn(files: Files, a: Path, b: Path, c: Path)
    requires Edge(files, a, b) && Reachable(files, b, c)
    ensures Reachable(files, a, c)
  {
    var p :| PathTo(files, p, b, c);
    var p' := [a] + p;
    forall i | 0 <= i < |p'| - 1
      ensures Edge(files, p'[i], p'[i + 1])
    {
      if i > 0 {
        assert p'[i] == p[i - 1] && p'[i + 1] == p[i];
      }
    }
    assert PathTo(files, p', a, c);
  }

  /** Writing one piece of path. */
  lemma PieceWritten(files: Files, path: Path, i: nat, included: set<Path>, trace: seq<Piece>, chain: seq<Path>)
    requires AllSearched(files) && path in files && i <= |files[path].matches|
    requires i < |files[path].matches| ==> Cursor(files[path], i) <= files[path].matches[i].start
    requires Steady(files, included, trace, chain + [path]) && At(files, path, i, trace) && path !in chain
    ensures Steady(files, included, trace + [Piece(path, i)], chain + [path])
    ensures Fresh(files, trace, trace + [Piece(path, i)], chain, path)
  {
    hide Grounded;
    GroundedGrows(files, trace, path, i);
    ReachesSelf(files, path);
  }

  lemma FreshThen(files: Files, a: seq<Piece>, b: seq<Piece>, c: seq<Piece>, chain: seq<Path>, path: Path)
    requires Fresh(files, a, b, chain, path) && Fresh(files, b, c, chain, path)
    ensures Fresh(files, a, c, chain, path)
  {
    hide Reachable;
    forall k | |a| <= k < |c|
      ensures c[k].path !in chain && Reachable(files, path, c[k].path)
    {
      if k < |b| {
        assert c[k] == b[k];
      }
    }
  }

  lemma FreshBelow(files: Files, trace: seq<Piece>, trace': seq<Piece>, chain: seq<Path>, path: Path, target: Path)
    requires Fresh(files, trace, trace', chain + [path], target) && Edge(files, path, target)
    ensures Fresh(files, trace, trace', chain, path)
  {
    hide Reachable, Edge;
    forall k | |trace| <= k < |trace'|
      ensures trace'[k].path !in chain && Reachable(files, path, trace'[k].path)
    {
      ReachesOn(files, path, target, trace'[k].path);
    }
  }

  // ---------- the search keeps it ----------

  lemma {:induction false} ExpandCompletes(files: Files, path: Path, included: set<Path>, trace: seq<Piece>,
                                           chain: seq<Path>)
    requires AllSearched(files) && path !in chain
    requires Steady(files, included, trace, chain + [path]) && forall piece :: piece in trace ==> piece.path != path
    ensures Completes(files, path, included, trace, chain, Expand(files, path, included, trace, chain))
    decreases MAX_DEPTH + 1 - |chain|, 1, 0
  {
    hide Steady, Fresh, Finished;
    if |chain| <= MAX_DEPTH && path in files {
      DirectivesComplete(files, path, 0, included, trace, chain);
    }
  }

  lemma {:induction false} DirectivesComplete(files: Files, path: Path, i: nat, included: set<Path>, trace: seq<Piece>,
                                              chain: seq<Path>)
    requires AllSearched(files) && path in files && i <= |files[path].matches| && |chain| <= MAX_DEPTH && path !in chain
    requires Steady(files, included, trace, chain + [path]) && At(files, path, i, trace)
    ensures Completes(files, path, included, trace, chain, Directives(files, path, i, included, trace, chain))
    decreases MAX_DEPTH + 1 - |chain|, 0, |files[path].matches| - i
  {
    hide Steady, Fresh, Finished, At, Completes, Cursor, TargetOf;
    var file, trace1 := files[path], trace + [Piece(path, i)];
    var outcome := Directives(files, path, i, included, trace, chain);
    if outcome.Failed? {
      Vacuous(files, path, included, trace, chain, outcome);
    } else if i == |file.matches| {
      LastPiece(files, path, included, trace, chain);
    } else {
      var target := TargetOf(files, path, i).value;
      PieceWritten(files, path, i, included, trace, chain);
      EdgeAt(files, path, i, target);
      if target in included {
        SkipIncluded(files, path, i, included, trace, chain, target);
        DirectivesComplete(files, path, i + 1, included, trace1, chain);
        Combine(files, path, included, trace, included, trace1, chain, outcome);
      } else {
        EnterTarget(files, path, i, included, trace, chain, target);
        ExpandCompletes(files, target, included + {target}, trace1, chain + [path]);
        var o := Expand(files, target, included + {target}, trace1, chain + [path]);
        LeaveTarget(files, path, i, included, trace, chain, target, o);
        DirectivesComplete(files, path, i + 1, o.included, o.trace, chain);
        Combine(files, path, included, trace, o.included, o.trace, chain, outcome);
      }
    }
  }

  lemma Vacuous(files: Files, path: Path, included: set<Path>, trace: seq<Piece>, chain: seq<Path>, o: Outcome)
    requires AllSearched(files) && o.Failed?
    ensures Completes(files, path, included, trace, chain, o)
  {
    hide Steady, Fresh, Finished;
  }

  lemma LastPiece(files: Files, path: Path, included: set<Path>, trace: seq<Piece>, chain: seq<Path>)
    requires AllSearched(files) && path in files && path !in chain
    requires Steady(files, included, trace, chain + [path]) && At(files, path, |files[path].matches|, trace)
    ensures Completes(files, path, included, trace, chain, Done(included, trace + [Tail(files, path)]))
  {
    hide Grounded;
    GroundedGrows(files, trace, path, |files[path].matches|);
    ReachesSelf(files, path);
  }

  lemma SkipIncluded(files: Files, path: Path, i: nat, included: set<Path>, trace: seq<Piece>, chain: seq<Path>,
                     target: Path)
    requires AllSearched(files) && path in files && i < |files[path].matches|
    requires TargetOf(files, path, i) == Some(target) && target in included && target !in chain + [path]
    requires At(files, path, i, trace) && Steady(files, included, trace, chain + [path])
    ensures At(files, path, i + 1, trace + [Piece(path, i)])
  {
    hide Grounded;
  }

  lemma EnterTarget(files: Files, path: Path, i: nat, included: set<Path>, trace: seq<Piece>, chain: seq<Path>,
                    target: Path)
    requires AllSearched(files) && path in files && target !in included && target !in chain + [path]
    requires Steady(files, included, trace + [Piece(path, i)], chain + [path])
    ensures Steady(files, included + {target}, trace + [Piece(path, i)], chain + [path] + [target])
    ensures forall piece :: piece in trace + [Piece(path, i)] ==> piece.path != target
  {
    hide Grounded;
  }

  lemma LeaveTarget(files: Files, path: Path, i: nat, included: set<Path>, trace: seq<Piece>, chain: seq<Path>,
                    target: Path, o: Outcome)
    requires AllSearched(files) && path in files && i < |files[path].matches| && o.Done?
    requires TargetOf(files, path, i) == Some(target) && Edge(files, path, target) && At(files, path, i, trace)
    requires Fresh(files, trace, trace + [Piece(path, i)], chain, path)
    requires Completes(files, target, included + {target}, trace + [Piece(path, i)], chain + [path], o)
    ensures included <= o.included && Steady(files, o.included, o.trace, chain + [path])
    ensures At(files, path, i + 1, o.trace) && Fresh(files, trace, o.trace, chain, path)
  {
    hide Grounded, Reachable, Edge;
    assert o.included + {target} == o.included;
    var trace1 := trace + [Piece(path, i)];
    FreshBelow(files, trace1, o.trace, chain, path, target);
    FreshThen(files, trace, trace1, o.trace, chain, path);
    assert o.trace[|trace|] == trace1[|trace|];
    forall piece | piece in o.trace && piece.path == path
      ensures piece.index < i + 1
    {
      var k :| 0 <= k < |o.trace| && o.trace[k] == piece;
      if k < |trace1| {
        assert trace1[k] == piece;
      }
    }
  }

  lemma Combine(files: Files, path: Path, included: set<Path>, trace: seq<Piece>, included1: set<Path>,
                trace1: seq<Piece>, chain: seq<Path>, o: Outcome)
    requires AllSearched(files) && included <= included1 && Fresh(files, trace, trace1, chain, path)
    requires Completes(files, path, included1, trace1, chain, o)
    ensures Completes(files, path, included, trace, chain, o)
  {
    hide Steady, Fresh, Finished;
    if o.Done? {
      FreshThen(files, trace, trace1, o.trace, chain, path);
    }
  }

  // ---------- what success means ----------

  lemma Succeeded(files: Files, entry: Path)
    requires AllSearched(files) && Preprocess(files, entry).Done?
    ensures var trace := Preprocess(files, entry).trace;
            && Grounded(files, trace) && Finished(files, trace, entry)
            && forall piece :: piece in trace ==> Reachable(files, entry, piece.path)
  {
    hide Reachable, Expand;
    assert Steady(files, {}, [], [] + [entry]);
    ExpandCompletes(files, entry, {}, [], []);
  }

  /** In a grounded trace a finished file has all its pieces written, after all it includes. */
  lemma {:induction false} PiecesBelow(files: Files, trace: seq<Piece>, k: nat, i: nat)
    requires AllSearched(files) && Grounded(files, trace) && k < |trace| && i < trace[k].index
    ensures var path := trace[k].path;
            && path in files && i < |files[path].matches| && Cursor(files[path], i) <= files[path].matches[i].start
            && Before(trace, k, Piece(path, i)) && TargetOf(files, path, i).Some?
            && TargetOf(files, path, i).value in files && Before(trace, k, Tail(files, TargetOf(files, path, i).value))
    decreases trace[k].index
  {
    assert GroundedAt(files, trace, k);
    if i < trace[k].index - 1 {
      var j :| 0 <= j < k && trace[j] == Piece(trace[k].path, trace[k].index - 1);
      PiecesBelow(files, trace, j, i);
      BeforeLater(trace, j, k, Piece(trace[k].path, i));
      BeforeLater(trace, j, k, Tail(files, TargetOf(files, trace[k].path, i).value));
    } else {
      var j :| 0 <= j < k && trace[j] == Piece(trace[k].path, i);
      assert GroundedAt(files, trace, j);
    }
  }

  lemma BeforeLater(trace: seq<Piece>, j: nat, k: nat, piece: Piece)
    requires Before(trace, j, piece) && j <= k
    ensures Before(trace, k, piece)
  {
  }

  /** Finished files are proper, and what they name was finished earlier. */
  lemma FinishedProper(files: Files, trace: seq<Piece>, k: nat)
    requires AllSearched(files) && Grounded(files, trace) && k < |trace| && trace[k] == Tail(files, trace[k].path)
    ensures Proper(files, trace[k].path)
    ensures forall b :: Edge(files, trace[k].path, b) ==> b in files && Before(trace, k, Tail(files, b))
  {
    var path := trace[k].path;
    assert GroundedAt(files, trace, k);
    forall i: nat | i < |files[path].matches|
      ensures Cursor(files[path], i) <= files[path].matches[i].start && TargetOf(files, path, i).Some?
      ensures TargetOf(files, path, i).value in files && Before(trace, k, Tail(files, TargetOf(files, path, i).value))
    {
      PiecesBelow(files, trace, k, i);
    }
  }

  lemma SubPath(files: Files, p: seq<Path>, i: nat, j: nat)
    requires IsPath(files, p) && i < j <= |p|
    ensures IsPath(files, p[i..j])
  {
    hide Edge;
    var p' := p[i..j];
    forall x | 0 <= x < |p'| - 1
      ensures Edge(files, p'[x], p'[x + 1])
    {
      assert p'[x] == p[i + x] && p'[x + 1] == p[i + x + 1];
    }
  }

  /** Along a path the ends of the files stand in reverse order in the trace. */
  lemma {:induction false} EndsDescend(files: Files, trace: seq<Piece>, p: seq<Path>, k: nat) returns (j: nat)
    requires AllSearched(files) && Grounded(files, trace) && IsPath(files, p) && k < |trace|
    requires trace[k] == Tail(files, p[0])
    ensures j < |trace| && trace[j] == Tail(files, p[|p| - 1]) && (|p| > 1 ==> j < k)
    decreases |p|
  {
    if |p| == 1 {
      j := k;
    } else {
      FinishedProper(files, trace, k);
      assert Edge(files, p[0], p[1]);
      var k1: nat :| k1 < k && trace[k1] == Tail(files, p[1]);
      var rest := p[1..];
      SubPath(files, p, 1, |p|);
      j := EndsDescend(files, trace, rest, k1);
    }
  }

  lemma ReachableFinished(files: Files, trace: seq<Piece>, a: Path, b: Path)
    requires AllSearched(files) && Grounded(files, trace) && Finished(files, trace, a) && Reachable(files, a, b)
    ensures Proper(files, b) && Tail(files, b) in trace
  {
    var k: nat :| k < |trace| && trace[k] == Tail(files, a);
    var p :| PathTo(files, p, a, b);
    var j := EndsDescend(files, trace, p, k);
    FinishedProper(files, trace, j);
  }

  lemma FinishedAcyclic(files: Files, trace: seq<Piece>, a: Path)
    requires AllSearched(files) && Grounded(files, trace) && Finished(files, trace, a)
    ensures AcyclicFrom(files, a)
  {
    forall p | IsPath(files, p) && p[0] == a
      ensures Distinct(p)
    {
      forall i, j | 0 <= i < j < |p|
        ensures p[i] != p[j]
      {
        NoReturn(files, trace, a, p, i, j);
      }
    }
  }

  lemma NoReturn(files: Files, trace: seq<Piece>, a: Path, p: seq<Path>, i: nat, j: nat)
    requires AllSearched(files) && Grounded(files, trace) && Finished(files, trace, a)
    requires IsPath(files, p) && p[0] == a && i < j < |p|
    ensures p[i] != p[j]
  {
    hide Edge;
    var k: nat :| k < |trace| && trace[k] == Tail(files, a);
    var front := p[..i + 1];
    SubPath(files, p, 0, i + 1);
    var k1 := EndsDescend(files, trace, front, k);
    var loop := p[i..j + 1];
    SubPath(files, p, i, j + 1);
    var k2 := EndsDescend(files, trace, loop, k1);
  }

  // ---------- main results ----------

  /** If there is text, every reachable file exists, resolves inside the root, and lies on no cycle. */
  lemma TextMeansSoundGraph(files: Files, entry: Path)
    requires AllSearched(files) && Preprocess(files, entry).Done?
    ensures AcyclicFrom(files, entry)
    ensures forall b :: Reachable(files, entry, b) ==> Proper(files, b)
  {
    hide Preprocess, Reachable, Grounded, AcyclicFrom, Proper, Finished;
    Succeeded(files, entry);
    var trace := Preprocess(files, entry).trace;
    FinishedAcyclic(files, trace, entry);
    forall b | Reachable(files, entry, b)
      ensures Proper(files, b)
    {
      ReachableFinished(files, trace, entry, b);
    }
  }

  /** Every error names something that is really wrong with the reachable graph. */
  lemma ErrorMeansBlame(files: Files, entry: Path)
    requires AllSearched(files) && Preprocess(files, entry).Failed?
    ensures Blames(files, entry, Preprocess(files, entry).error)
  {
    hide Expand, Blames;
    assert [] + [entry] == [entry];
    ExpandBlames(files, entry, {}, [], []);
  }

  /** A reported cycle is one: a path from the entry comes back to a file it has passed. */
  lemma CycleIsReal(files: Files, entry: Path, path: Path, target: Path)
    requires AllSearched(files) && Preprocess(files, entry) == Failed(Cycle(path, target))
    ensures exists p, i: nat ::
              IsPath(files, p) && p[0] == entry && i < |p| - 1 && p[i] == target && p[|p| - 1] == target
    ensures !AcyclicFrom(files, entry)
  {
    hide Preprocess, Edge;
    ErrorMeansBlame(files, entry);
    var p :| PathTo(files, p, entry, path) && target in p && Edge(files, path, target);
    PathExtends(files, p, target);
    var i: nat :| i < |p| && p[i] == target;
    var p' := p + [target];
    assert p'[i] == target && p'[|p'| - 1] == target && p'[0] == entry;
    assert !Distinct(p');
  }

  /** Conversely, a sound acyclic graph without a path of more than 32 steps gives text. */
  lemma SoundGraphGivesText(files: Files, entry: Path)
    requires AllSearched(files) && AcyclicFrom(files, entry)
    requires forall b :: Reachable(files, entry, b) ==> Proper(files, b)
    requires forall p :: IsPath(files, p) && p[0] == entry ==> |p| <= MAX_DEPTH + 1
    ensures Preprocess(files, entry).Done?
  {
    hide Preprocess, Edge;
    if Preprocess(files, entry).Failed? {
      ErrorMeansBlame(files, entry);
      match Preprocess(files, entry).error
      case Cycle(path, target) => CycleIsReal(files, entry, path, target);
      case _ =>
    }
  }

  /** Exactly the pieces of the reachable files are written, each of them once. */
  lemma WrittenExactlyOnce(files: Files, entry: Path, b: Path, i: nat)
    requires AllSearched(files) && Preprocess(files, entry).Done?
    ensures var trace := Preprocess(files, entry).trace;
            && (Piece(b, i) in trace <==> Reachable(files, entry, b) && b in files && i <= |files[b].matches|)
            && Distinct(trace)
  {
    hide Preprocess, Reachable;
    Succeeded(files, entry);
    var trace := Preprocess(files, entry).trace;
    if Piece(b, i) in trace {
      var k: nat :| k < |trace| && trace[k] == Piece(b, i);
      assert GroundedAt(files, trace, k);
    }
    if Reachable(files, entry, b) && b in files && i <= |files[b].matches| {
      ReachableFinished(files, trace, entry, b);
      var k: nat :| k < |trace| && trace[k] == Tail(files, b);
      if i < |files[b].matches| {
        PiecesBelow(files, trace, k, i);
      }
    }
  }

  /** Text behind a directive comes after every piece of every file the directive leads to. */
  lemma ExpandedBeforeUse(files: Files, entry: Path, k: nat, c: Path, i: nat)
    requires AllSearched(files) && Preprocess(files, entry).Done? && k < |Preprocess(files, entry).trace|
    requires var piece := Preprocess(files, entry).trace[k];
             && piece.index > 0 && piece.path in files && piece.index <= |files[piece.path].matches|
             && TargetOf(files, piece.path, piece.index - 1).Some?
             && Reachable(files, TargetOf(files, piece.path, piece.index - 1).value, c)
    requires c in files && i <= |files[c].matches|
    ensures Before(Preprocess(files, entry).trace, k, Piece(c, i))
  {
    hide Preprocess, Finished;
    Succeeded(files, entry);
    var trace := Preprocess(files, entry).trace;
    assert GroundedAt(files, trace, k);
    var b := TargetOf(files, trace[k].path, trace[k].index - 1).value;
    var k1: nat :| k1 < k && trace[k1] == Tail(files, b);
    var p :| PathTo(files, p, b, c);
    var k2 := EndsDescend(files, trace, p, k1);
    if i < |files[c].matches| {
      PiecesBelow(files, trace, k2, i);
      BeforeLater(trace, k2, k, Piece(c, i));
    } else {
      assert trace[k2] == Piece(c, i);
    }
  }

  // ---------- directives separated by blank lines ----------

  /** Two directives with one blank line between them. */
  function BlankLineBetween(a: string, b: string): string {
    Directive(a) + "\n\n" + Directive(b) + "\n"
  }

  lemma FirstText(a: string, b: string)
    ensures var t, d := BlankLineBetween(a, b), |a| + 14;
            && |t| > d + 3 && HasAt(t, 0, HEAD) && HasAt(t, 14, a) && t[d] == '"'
            && t[d + 1] == '\n' && t[d + 2] == '\n' && t[d + 3] == '-'
  {
    hide HasAt, HEAD, Directive;
    var t, post := BlankLineBetween(a, b), "\n\n" + Directive(b) + "\n";
    assert t == "" + Directive(a) + post;
    DirectiveWithin("", a, post);
    DirectiveStart(b);
    assert post[0] == '\n' && post[1] == '\n' && post[2] == Directive(b)[0];
    hide BlankLineBetween;
    var d := |a| + 14;
    assert t[d + 1] == post[0] && t[d + 2] == post[1] && t[d + 3] == post[2];
  }

  lemma FirstOfTwo(a: string, b: string)
    requires a != "" && '"' !in a
    ensures MatchAt(BlankLineBetween(a, b), 0) == Some(Match(0, |a| + 16, a))
  {
    hide MatchAt, SkipSpace, LastLineEnd, HasAt, HEAD, BlankLineBetween;
    FirstText(a, b);
    var t, d := BlankLineBetween(a, b), |a| + 14;
    SpaceEnds(t, d + 1, d + 3);
    assert AtLineEnd(t, d + 2) && !AtLineEnd(t, d + 3);
    WrittenMatches(t, 0, 0, a, d, d + 2);
  }

  lemma DirectiveStart(ref: string)
    ensures Directive(ref) != "" && Directive(ref)[0] == '-'
  {
  }

  lemma SecondOfTwo(a: string, b: string)
    requires b != "" && '"' !in b
    ensures MatchAt(BlankLineBetween(a, b), |a| + 16) == Some(Match(|a| + 16, |a| + |b| + 33, b))
  {
    hide MatchAt, SkipSpace, LastLineEnd, HasAt, HEAD;
    var t, pre, h := BlankLineBetween(a, b), Directive(a) + "\n\n", |a| + 17;
    assert t == pre + Directive(b) + "\n";
    DirectiveWithin(pre, b, "\n");
    HeadWords();
    assert pre[h - 2] == '\n' && pre[h - 1] == '\n' && |pre| == h;
    var d := h + 14 + |b|;
    assert t[d + 1] == "\n"[0] && |t| == d + 2;
    assert SkipSpace(t, d + 1) == d + 2;
    assert AtLineEnd(t, d + 2);
    WrittenMatches(t, h - 1, h, b, d, d + 2);
  }

  /**
    Two directives separated by an empty line: the first match takes one newline, the loop skips
    the next, and the second match begins before that.
   */
  lemma BlankLineBreaks(texts: map<Path, string>, entry: Path, a: string, b: string)
    requires a != "" && '"' !in a && b != "" && '"' !in b
    requires entry in texts && texts[entry] == BlankLineBetween(a, b)
    ensures AllSearched(Load(texts)) && Preprocess(Load(texts), entry).Failed?
  {
    hide MatchAt, Preprocess, BlankLineBetween;
    LoadSearched(texts);
    var t := BlankLineBetween(a, b);
    FirstOfTwo(a, b);
    SecondOfTwo(a, b);
    assert FindFrom(t, 0) == Some(Match(0, |a| + 16, a));
    assert FindFrom(t, |a| + 16) == Some(Match(|a| + 16, |a| + |b| + 33, b));
    var rest := FindAll(t, |a| + 16);
    assert rest[0] == Match(|a| + 16, |a| + |b| + 33, b);
    assert FindAll(t, 0) == [Match(0, |a| + 16, a)] + rest;
    ApartExactly(t);
    assert Parse(t).matches[1 - 1].end == Parse(t).matches[1].start;
    assert Load(texts)[entry] == Parse(t) && !Apart(Parse(t));
    hide Reachable, Parse, AcyclicFrom;
    if Preprocess(Load(texts), entry).Done? {
      TextMeansSoundGraph(Load(texts), entry);
      ReachesSelf(Load(texts), entry);
    }
  }
}
