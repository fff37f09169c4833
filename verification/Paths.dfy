/** Slash-separated paths, as far as resolving an include reference needs them. */
module Paths {
  import opened Wrappers
  import opened Lists

  type Path = string

  function Split(s: string): (parts: seq<string>)
    ensures parts != []
  {
    if s == "" then
      [""]
    else
      var rest := Split(s[1..]);
      if s[0] == '/' then [""] + rest else [[s[0]] + rest[0]] + rest[1..]
  }

  function JoinParts(parts: seq<string>): string {
    if parts == [] then "" else if |parts| == 1 then parts[0] else parts[0] + "/" + JoinParts(parts[1..])
  }

  /** One component after the ones kept so far: empty and dot vanish, dot-dot takes one back if it can. */
  function Take(rooted: bool, kept: seq<string>, part: string): seq<string> {
    if part == "" || part == "." then
      kept
    else if part != ".." then
      kept + [part]
    else if kept != [] && kept[|kept| - 1] != ".." then
      kept[..|kept| - 1]
    else if rooted then
      kept
    else
      kept + [part]
  }

  function TakeAll(rooted: bool, kept: seq<string>, parts: seq<string>): seq<string>
    decreases |parts|
  {
    if parts == [] then kept else TakeAll(rooted, Take(rooted, kept, parts[0]), parts[1..])
  }

  /** path.Clean. */
  function Clean(s: string): string {
    var rooted := s != "" && s[0] == '/';
    var kept := TakeAll(rooted, [], Split(s));
    if rooted then "/" + JoinParts(kept) else if kept == [] then "." else JoinParts(kept)
  }

  /** path.Join of two elements. */
  function Join(a: string, b: string): string {
    if a == "" then if b == "" then "" else Clean(b) else Clean(a + "/" + b)
  }

  /** Everything up to and including the last slash. */
  function Folder(s: string): string {
    if s == "" then "" else if s[|s| - 1] == '/' then s else Folder(s[..|s| - 1])
  }

  /** path.Dir. */
  function Dir(s: string): string {
    Clean(Folder(s))
  }

  predicate HasPrefix(s: string, prefix: string) {
    |prefix| <= |s| && s[..|prefix|] == prefix
  }

  predicate Contains(s: string, t: string) {
    HasPrefix(s, t) || (s != "" && Contains(s[1..], t))
  }

  const ROOT := "scripts"

  /** resolveInclude; None stands for its two errors. */
  function Resolve(dir: string, ref: string): Option<Path> {
    if HasPrefix(ref, "/") || Contains(ref, "..") then
      None
    else
      var target := Clean(Join(dir, ref)) + ".lua";
      if HasPrefix(target, ROOT + "/") then Some(target) else None
  }

  /** A component that cleaning leaves alone. */
  predicate Plain(name: string) {
    name != "" && name != "." && name != ".." && '/' !in name
  }

  predicate AllPlain(parts: seq<string>) {
    forall i :: 0 <= i < |parts| ==> Plain(parts[i])
  }

  // ---------- a resolved reference stays inside the root ----------

  /** Dot-dot stands at the front only. */
  predicate Settled(kept: seq<string>) {
    && (forall i :: 0 <= i < |kept| ==> kept[i] != "" && kept[i] != "." && '/' !in kept[i])
    && (forall i, j :: 0 <= i < j < |kept| && kept[j] == ".." ==> kept[i] == "..")
  }

  lemma {:induction false} SplitParts(s: string)
    ensures forall i :: 0 <= i < |Split(s)| ==> '/' !in Split(s)[i]
  {
    if s != "" {
      SplitParts(s[1..]);
    }
  }

  lemma {:induction false} TakeAllSettled(rooted: bool, kept: seq<string>, parts: seq<string>)
    requires Settled(kept) && forall i :: 0 <= i < |parts| ==> '/' !in parts[i]
    ensures Settled(TakeAll(rooted, kept, parts))
    decreases |parts|
  {
    if parts != [] {
      TakeAllSettled(rooted, Take(rooted, kept, parts[0]), parts[1..]);
    }
  }

  /** Text before the first slash is unique. */
  lemma FirstSlash(a: string, b: string, c: string, d: string)
    requires a + "/" + b == c + "/" + d && '/' !in a && '/' !in c
    ensures a == c
  {
    var s := a + "/" + b;
    assert s[|a|] == '/' && s[|c|] == '/';
    assert forall i :: 0 <= i < |a| ==> s[i] == a[i];
    assert forall i :: 0 <= i < |c| ==> s[i] == c[i];
    assert |a| == |c|;
    assert a == s[..|a|] == c;
  }

  lemma PrefixSplit(s: string, head: string)
    requires HasPrefix(s, head + "/")
    ensures s == head + "/" + s[|head| + 1..] && '/' in s
  {
    assert s[|head|] == (head + "/")[|head|] == '/';
  }

  lemma FirstPart(kept: seq<string>, head: string)
    requires Settled(kept) && '/' !in head && HasPrefix(JoinParts(kept) + ".lua", head + "/")
    ensures |kept| >= 2 && kept[0] == head
  {
    hide HasPrefix;
    var s := JoinParts(kept) + ".lua";
    PrefixSplit(s, head);
    if |kept| >= 2 {
      var rest := JoinParts(kept[1..]) + ".lua";
      assert s == kept[0] + "/" + rest;
      FirstSlash(kept[0], rest, head, s[|head| + 1..]);
    }
  }

  /** A target lies strictly below the root: its path begins with the root and never climbs. */
  lemma ResolvedInside(dir: string, ref: string)
    requires Resolve(dir, ref).Some?
    ensures exists kept: seq<string> ::
              && Resolve(dir, ref) == Some(JoinParts(kept) + ".lua")
              && |kept| >= 2 && kept[0] == ROOT && AllPlain(kept)
  {
    var s := Join(dir, ref);
    var target := Clean(s) + ".lua";
    var rooted := s != "" && s[0] == '/';
    var kept := TakeAll(rooted, [], Split(s));
    SplitParts(s);
    TakeAllSettled(rooted, [], Split(s));
    assert target[0] == 's' by {
      assert target[..|ROOT + "/"|][0] == 's';
    }
    assert !rooted;
    FirstPart(kept, ROOT);
    assert kept[0] != "..";
    assert Resolve(dir, ref) == Some(JoinParts(kept) + ".lua");
  }

  // ---------- plain names ----------

  lemma {:induction false} SplitPlain(b: string)
    requires '/' !in b
    ensures Split(b) == [b]
  {
    if b != "" {
      assert b[0] in b;
      SplitPlain(b[1..]);
      assert b == [b[0]] + b[1..];
    }
  }

  lemma {:induction false} SplitAtSlash(a: string, b: string)
    requires '/' !in a
    ensures Split(a + "/" + b) == [a] + Split(b)
  {
    var s := a + "/" + b;
    if a == "" {
      assert s[1..] == b;
    } else {
      assert a[0] in a && s[0] == a[0];
      assert s[1..] == a[1..] + "/" + b;
      SplitAtSlash(a[1..], b);
      assert a == [a[0]] + a[1..];
    }
  }

  lemma JoinCons(a: string, rest: seq<string>)
    requires rest != []
    ensures JoinParts([a] + rest) == a + "/" + JoinParts(rest)
  {
    assert ([a] + rest)[1..] == rest;
  }

  /** Components without a slash, joined and followed by a slash and more, split into themselves and the rest. */
  lemma {:induction false} SplitJoined(kept: seq<string>, s: string)
    requires kept != [] && forall i :: 0 <= i < |kept| ==> '/' !in kept[i]
    ensures Split(JoinParts(kept) + "/" + s) == kept + Split(s)
  {
    hide Split;
    var rest := kept[1..];
    assert kept == [kept[0]] + rest;
    if rest == [] {
      SplitAtSlash(kept[0], s);
    } else {
      var tail := JoinParts(rest) + "/" + s;
      SplitJoined(rest, s);
      JoinCons(kept[0], rest);
      hide JoinParts;
      assert JoinParts(kept) + "/" + s == kept[0] + "/" + tail;
      SplitAtSlash(kept[0], tail);
    }
  }

  lemma {:induction false} SplitParted(kept: seq<string>)
    requires kept != [] && forall i :: 0 <= i < |kept| ==> '/' !in kept[i]
    ensures Split(JoinParts(kept)) == kept
  {
    var n := |kept| - 1;
    if n == 0 {
      SplitPlain(kept[0]);
    } else {
      JoinSnoc(kept[..n], kept[n]);
      assert kept == kept[..n] + [kept[n]];
      SplitJoined(kept[..n], kept[n]);
      SplitPlain(kept[n]);
    }
  }

  lemma {:induction false} JoinSnoc(kept: seq<string>, b: string)
    requires kept != []
    ensures JoinParts(kept + [b]) == JoinParts(kept) + "/" + b
  {
    var rest := kept[1..];
    assert (kept + [b])[1..] == rest + [b];
    if rest == [] {
      assert kept == [kept[0]];
      assert JoinParts([b]) == b;
    } else {
      JoinSnoc(rest, b);
    }
  }

  /** The components of a reference that stand for something. */
  function Visible(parts: seq<string>): (r: seq<string>)
    ensures forall part :: part in r <==> part in parts && part != "" && part != "."
  {
    Filter(parts, part => part != "" && part != ".")
  }

  lemma VisibleHead(part: string, rest: seq<string>)
    ensures Visible([part] + rest) == (if part != "" && part != "." then [part] else []) + Visible(rest)
  {
    assert ([part] + rest)[1..] == rest;
  }

  lemma {:induction false} TakesVisible(kept: seq<string>, parts: seq<string>)
    requires forall i :: 0 <= i < |parts| ==> parts[i] != ".."
    ensures TakeAll(false, kept, parts) == kept + Visible(parts)
    decreases |parts|
  {
    if parts != [] {
      VisibleHead(parts[0], parts[1..]);
      assert parts == [parts[0]] + parts[1..];
      TakesVisible(Take(false, kept, parts[0]), parts[1..]);
    }
  }

  lemma {:induction false} PlainVisible(parts: seq<string>)
    requires AllPlain(parts)
    ensures Visible(parts) == parts
    decreases |parts|
  {
    if parts != [] {
      VisibleHead(parts[0], parts[1..]);
      assert parts == [parts[0]] + parts[1..];
      PlainVisible(parts[1..]);
    }
  }

  /** Joined plain components are a clean path, and so they are with a trailing slash. */
  lemma CleanJoined(kept: seq<string>, ref: string)
    requires kept != [] && AllPlain(kept) && forall i :: 0 <= i < |Split(ref)| ==> Split(ref)[i] != ".."
    ensures Clean(JoinParts(kept) + "/" + ref) == JoinParts(kept + Visible(Split(ref)))
  {
    hide Visible, Split;
    var s, parts := JoinParts(kept) + "/" + ref, kept + Split(ref);
    SplitJoined(kept, ref);
    assert forall i :: 0 <= i < |parts| ==> parts[i] != "..";
    TakesVisible([], parts);
    PlainVisible(kept);
    VisibleSplits(kept, Split(ref));
    JoinBegins(kept);
    CleanIs(s, kept + Visible(Split(ref)));
  }

  lemma CleanIs(s: string, kept: seq<string>)
    requires s != "" && s[0] != '/' && kept != [] && TakeAll(false, [], Split(s)) == kept
    ensures Clean(s) == JoinParts(kept)
  {
  }

  lemma JoinBegins(kept: seq<string>)
    requires kept != [] && AllPlain(kept)
    ensures JoinParts(kept) != "" && JoinParts(kept)[0] != '/'
  {
    assert kept[0][0] in kept[0] && JoinParts(kept)[0] == kept[0][0];
  }

  lemma {:induction false} VisibleSplits(a: seq<string>, b: seq<string>)
    ensures Visible(a + b) == Visible(a) + Visible(b)
    decreases |a|
  {
    hide Visible;
    if a == [] {
      assert a + b == b;
      assert Visible([]) == [] by {
        PlainVisible([]);
      }
    } else {
      VisibleSplits(a[1..], b);
      assert a == [a[0]] + a[1..] && a + b == [a[0]] + (a[1..] + b);
      VisibleHead(a[0], a[1..]);
      VisibleHead(a[0], a[1..] + b);
    }
  }

  lemma CleanPlain(kept: seq<string>)
    requires kept != [] && AllPlain(kept)
    ensures Clean(JoinParts(kept)) == JoinParts(kept)
  {
    hide Visible, Split;
    SplitParted(kept);
    TakesVisible([], kept);
    PlainVisible(kept);
    JoinBegins(kept);
    CleanIs(JoinParts(kept), kept);
  }

  lemma {:induction false} FolderOf(a: string, b: string)
    requires '/' !in b
    ensures Folder(a + "/" + b) == a + "/"
  {
    var s := a + "/" + b;
    if b == "" {
      assert s == a + "/";
    } else {
      assert s[|s| - 1] == b[|b| - 1] && b[|b| - 1] in b;
      assert s[..|s| - 1] == a + "/" + b[..|b| - 1];
      FolderOf(a, b[..|b| - 1]);
    }
  }

  /** A script lies in the directory before its name. */
  lemma DirOf(kept: seq<string>, name: string)
    requires kept != [] && AllPlain(kept) && '/' !in name
    ensures Dir(JoinParts(kept) + "/" + name) == JoinParts(kept)
  {
    hide Clean, Folder;
    FolderOf(JoinParts(kept), name);
    assert JoinParts(kept) + "/" == JoinParts(kept) + "/" + "";
    CleanJoined(kept, "");
    assert Visible([""]) == [];
    assert kept + [] == kept;
  }

  /** Without two dots in a row no component is dot-dot, and what is visible of it is plain. */
  lemma {:induction false} NoClimb(ref: string)
    requires !Contains(ref, "..")
    ensures forall i :: 0 <= i < |Split(ref)| ==> !HasPrefix(Split(ref)[i], "..")
    ensures AllPlain(Visible(Split(ref)))
  {
    hide Split, Contains;
    SplitParts(ref);
    NoDots(ref);
    var parts, r := Split(ref), Visible(Split(ref));
    forall i | 0 <= i < |r|
      ensures Plain(r[i])
    {
      assert r[i] in r;
      var k :| 0 <= k < |parts| && parts[k] == r[i];
    }
  }

  lemma {:induction false} NoDots(ref: string)
    requires !Contains(ref, "..")
    ensures forall i :: 0 <= i < |Split(ref)| ==> !HasPrefix(Split(ref)[i], "..")
    ensures HasPrefix(ref, Split(ref)[0])
  {
    if ref != "" {
      NoDots(ref[1..]);
      if ref[0] != '/' {
        var head := [ref[0]] + Split(ref[1..])[0];
        assert ref[..|head|] == [ref[0]] + ref[1..][..|head| - 1];
        assert |head| >= 2 ==> ref[..2] == head[..2];
      }
    }
  }

  lemma BelowRoot(kept: seq<string>)
    requires kept != [] && AllPlain(kept) && kept[0] == ROOT
    ensures HasPrefix(JoinParts(kept) + ".lua", ROOT + "/") <==> |kept| >= 2
  {
    hide ROOT, HasPrefix, JoinParts;
    if |kept| >= 2 {
      assert kept == [ROOT] + kept[1..];
      JoinCons(ROOT, kept[1..]);
      assert JoinParts(kept) + ".lua" == (ROOT + "/") + (JoinParts(kept[1..]) + ".lua");
      PrefixOf(ROOT + "/", JoinParts(kept[1..]) + ".lua");
    } else if HasPrefix(JoinParts(kept) + ".lua", ROOT + "/") {
      FirstPart(kept, ROOT);
    }
  }

  lemma PrefixOf(a: string, b: string)
    ensures HasPrefix(a + b, a)
  {
  }

  /**
    A reference is resolved from the directory of the script that holds it: empty components and
    dots of the reference vanish and the others follow those of the directory. It is refused if and
    only if it begins with a slash, holds two dots in a row, or names nothing in the root itself.
   */
  lemma ResolvesExactly(kept: seq<string>, name: string, ref: string)
    requires kept != [] && kept[0] == ROOT && AllPlain(kept) && '/' !in name
    ensures var parts := Visible(Split(ref));
            var target := Resolve(Dir(JoinParts(kept) + "/" + name), ref);
            if HasPrefix(ref, "/") || Contains(ref, "..") || |kept| + |parts| == 1 then target == None
            else target == Some(JoinParts(kept + parts) + ".lua")
  {
    hide Clean, Folder, Contains, Visible, Dir, Split, ROOT;
    DirOf(kept, name);
    if !HasPrefix(ref, "/") && !Contains(ref, "..") {
      var all := kept + Visible(Split(ref));
      NoClimb(ref);
      CleanJoined(kept, ref);
      CleanPlain(all);
      BelowRoot(all);
      JoinBegins(kept);
    }
  }

  /**
    A reference of plain components in a script at any depth below the root names the script at
    that path from its directory: "includes/x" in a script of the root and "x" in one of its
    includes are the same file.
   */
  lemma NestedResolves(kept: seq<string>, name: string, parts: seq<string>)
    requires kept != [] && kept[0] == ROOT && AllPlain(kept) && '/' !in name
    requires parts != [] && AllPlain(parts) && !Contains(JoinParts(parts), "..")
    ensures Resolve(Dir(JoinParts(kept) + "/" + name), JoinParts(parts)) == Some(JoinParts(kept + parts) + ".lua")
  {
    hide Resolve, Contains, Visible, Dir, Split, ROOT;
    ResolvesExactly(kept, name, JoinParts(parts));
    SplitParted(parts);
    PlainVisible(parts);
    JoinBegins(parts);
  }

  /** The path of a script: directories from the root down, and a name. */
  ghost predicate Below(path: Path, dirs: seq<string>, name: string) {
    dirs != [] && dirs[0] == ROOT && AllPlain(dirs) && '/' !in name && path == JoinParts(dirs) + "/" + name
  }

  /** Every resolved reference is such a path, so that the references in that script resolve exactly, too. */
  lemma ResolvedBelow(dir: string, ref: string) returns (dirs: seq<string>, name: string)
    requires Resolve(dir, ref).Some?
    ensures Below(Resolve(dir, ref).value, dirs, name)
  {
    hide Resolve, ROOT;
    ResolvedInside(dir, ref);
    var kept: seq<string> :| Resolve(dir, ref) == Some(JoinParts(kept) + ".lua")
      && |kept| >= 2 && kept[0] == ROOT && AllPlain(kept);
    var n := |kept| - 1;
    dirs, name := kept[..n], kept[n] + ".lua";
    assert kept == dirs + [kept[n]];
    JoinSnoc(dirs, kept[n]);
    hide JoinParts;
    assert JoinParts(kept) + ".lua" == JoinParts(dirs) + "/" + name;
  }

  /** So is the path of an entry. */
  lemma EntryBelow(name: string)
    requires '/' !in name
    ensures Below(Join(ROOT, name + ".lua"), [ROOT], name + ".lua")
  {
    hide Clean, Split, Visible;
    var file := name + ".lua";
    SplitPlain(file);
    assert |file| >= 4;
    assert Plain(ROOT) by {
      assert ROOT[0] == 's' && |ROOT| == 7;
    }
    hide ROOT;
    CleanJoined([ROOT], file);
    PlainVisible([file]);
    JoinCons(ROOT, [file]);
  }

  /** A plain reference in a script of the root names the script of that name beside it. */
  lemma SiblingResolves(name: string, ref: string)
    requires '/' !in name && Plain(ref) && !Contains(ref, "..")
    ensures Resolve(Dir(ROOT + "/" + name), ref) == Some(ROOT + "/" + ref + ".lua")
  {
    hide Resolve, Contains, Dir;
    assert Plain(ROOT) by {
      assert ROOT[0] == 's' && |ROOT| == 7;
    }
    hide ROOT;
    NestedResolves([ROOT], name, [ref]);
    JoinCons(ROOT, [ref]);
  }
}
