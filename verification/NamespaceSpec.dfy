/** The file-system namespace as a value: a map from component sequences to what is there,
    with the order of every directory's children. The inode tree refines it, and the
    replicated state machine is the fold of log entries over it. */
module NamespaceSpec {
  import opened Protocol

  /** The components of an absolute path; [] is the root. */
  type Path = seq<string>

  datatype Info = Dir(owner: string, names: seq<string>) | File(owner: string)

  type Namespace = map<Path, Info>

  /** The owner every created inode gets, and the visitor every log entry is applied as. */
  const UNKNOWN: string := "unknown"

  /** A new namespace: the root directory alone. */
  const EMPTY: Namespace := map[[] := Dir("raftfs", [])]

  function Parent(p: Path): Path
    requires p != []
  {
    p[..|p| - 1]
  }

  function Last(p: Path): string
    requires p != []
  {
    p[|p| - 1]
  }

  predicate IsDir(ns: Namespace, p: Path) {
    p in ns && ns[p].Dir?
  }

  ghost predicate Distinct(names: seq<string>) {
    forall k, l :: 0 <= k < l < |names| ==> names[k] != names[l]
  }

  predicate Lists(ns: Namespace, p: Path, name: string) {
    IsDir(ns, p) && name in ns[p].names
  }

  /** The root is a directory, a path is there exactly when the directory in front of it
      lists its last component, and a directory lists every child once. */
  ghost predicate WellFormed(ns: Namespace) {
    && IsDir(ns, [])
    && (forall p :: IsDir(ns, p) ==> Distinct(ns[p].names))
    && (forall p, name :: p + [name] in ns <==> Lists(ns, p, name))
  }

  // ---------------------------------------------------------------- paths as strings

  predicate ValidatePath(path: string) {
    path != "" && path[0] == '/'
  }

  ghost predicate NoSlashes(names: seq<string>) {
    forall k :: 0 <= k < |names| ==> '/' !in names[k]
  }

  /** The pieces between the slashes of a string; a slash at either end leaves an empty piece. */
  function Split(s: string): (r: seq<string>)
    ensures |r| >= 1
    ensures NoSlashes(r)
    ensures ValidatePath(s) ==> |r| >= 2
  {
    if s == "" then [""]
    else
      var rest := Split(s[1..]);
      if s[0] == '/' then [""] + rest else [[s[0]] + rest[0]] + rest[1..]
  }

  /** The pieces without the one in front of the leading slash. */
  function SplitPath(path: string): Path {
    Split(path)[1..]
  }

  function Join(names: seq<string>): string
    requires names != []
  {
    if |names| == 1 then names[0] else names[0] + "/" + Join(names[1..])
  }

  lemma {:induction false} JoinSplit(s: string)
    ensures Join(Split(s)) == s
  {
    if s != "" {
      JoinSplit(s[1..]);
      var rest := Split(s[1..]);
      if s[0] == '/' {
        assert ([""] + rest)[1..] == rest;
        assert s == "/" + s[1..];
      } else {
        var r := [[s[0]] + rest[0]] + rest[1..];
        assert r[1..] == rest[1..];
        assert s == [s[0]] + s[1..];
        if |rest| > 1 {
          assert [s[0]] + (rest[0] + "/" + Join(rest[1..])) == ([s[0]] + rest[0]) + "/" + Join(rest[1..]);
        }
      }
    }
  }

  lemma {:induction false} SplitJoin(names: seq<string>)
    requires names != [] && NoSlashes(names)
    ensures Split(Join(names)) == names
    decreases |names|, |names[0]|
  {
    var s := Join(names);
    if names[0] == "" {
      if |names| > 1 {
        assert s[1..] == Join(names[1..]);
        SplitJoin(names[1..]);
      }
    } else {
      var shorter := [names[0][1..]] + names[1..];
      assert s[0] == names[0][0];
      assert s[1..] == Join(shorter) by {
        assert shorter[1..] == names[1..];
        if |names| > 1 {
          assert (names[0] + "/" + Join(names[1..]))[1..] == names[0][1..] + "/" + Join(names[1..]);
        }
      }
      SplitJoin(shorter);
      assert [s[0]] + shorter[0] == names[0];
      assert [[s[0]] + shorter[0]] + shorter[1..] == names;
    }
  }

  /** An absolute path is its components joined behind a slash, and no other components
      without slashes give that path. */
  lemma PathRoundTrip(path: string)
    requires ValidatePath(path)
    ensures SplitPath(path) != [] && path == "/" + Join(SplitPath(path))
    ensures forall names: Path ::
              (names != [] && NoSlashes(names) && path == "/" + Join(names)) ==> names == SplitPath(path)
  {
    assert Split(path) == [""] + Split(path[1..]);
    assert SplitPath(path) == Split(path[1..]);
    JoinSplit(path[1..]);
    assert path == "/" + path[1..];
    forall names: Path | names != [] && NoSlashes(names) && path == "/" + Join(names)
      ensures names == SplitPath(path)
    {
      assert path[1..] == Join(names);
      SplitJoin(names);
    }
  }

  // ---------------------------------------------------------------- operations

  /** The directory that holds the last component, with that component, or None when the
      way there is missing or runs over a file. */
  function Locate(ns: Namespace, p: Path): Option<(Path, string)>
    requires p != []
  {
    if IsDir(ns, Parent(p)) then Some((Parent(p), Last(p))) else None
  }

  function AddChild(ns: Namespace, p: Path, name: string, info: Info): Namespace {
    if IsDir(ns, p) then ns[p := ns[p].(names := ns[p].names + [name])][p + [name] := info] else ns
  }

  function Without(names: seq<string>, name: string): seq<string> {
    if names == [] then []
    else if names[0] == name then names[1..]
    else [names[0]] + Without(names[1..], name)
  }

  /** `q` and everything below it is gone, and its directory no longer lists it. */
  function RemoveSubtree(ns: Namespace, q: Path): Namespace
    requires q != []
  {
    map x | x in ns && !(q <= x) ::
      if x == Parent(q) && ns[x].Dir? then ns[x].(names := Without(ns[x].names, Last(q))) else ns[x]
  }

  /** No component in front of the last is a file: what the casts of MakeDir need. */
  predicate NoFileOnTheWay(ns: Namespace, p: Path) {
    forall k :: 0 < k < |p| && p[..k] in ns ==> ns[p[..k]].Dir?
  }

  /** `p` as a directory, with the directories it needs on the way. */
  function EnsureDirs(ns: Namespace, p: Path): Namespace {
    if p == [] || p in ns then ns
    else AddChild(EnsureDirs(ns, Parent(p)), Parent(p), Last(p), Dir(UNKNOWN, []))
  }

  function MakeDir(ns: Namespace, p: Path, makeParents: bool): (Namespace, bool) {
    if p == [] || p in ns || Parent(p) in ns || makeParents then (EnsureDirs(ns, p), true) else (ns, false)
  }

  function CreateFile(ns: Namespace, p: Path): (Namespace, bool)
    requires p != []
  {
    if IsDir(ns, Parent(p)) && Last(p) != "" && p !in ns then
      (AddChild(ns, Parent(p), Last(p), File(UNKNOWN)), true)
    else (ns, false)
  }

  predicate MayRemove(info: Info, visitor: string) {
    info.owner == visitor || info.owner == UNKNOWN
  }

  function DeleteDir(ns: Namespace, p: Path, visitor: string, recursive: bool): (Namespace, bool)
    requires p != []
  {
    if IsDir(ns, Parent(p)) && Last(p) != "" && IsDir(ns, p) && MayRemove(ns[p], visitor)
       && (ns[p].names == [] || recursive) then (RemoveSubtree(ns, p), true)
    else (ns, false)
  }

  function RemoveFile(ns: Namespace, p: Path, visitor: string): (Namespace, bool)
    requires p != []
  {
    if IsDir(ns, Parent(p)) && Last(p) != "" && p in ns && ns[p].File? && MayRemove(ns[p], visitor) then
      (RemoveSubtree(ns, p), true)
    else (ns, false)
  }

  /** The children of a directory in order; a missing directory has none, and an empty last
      component stands for the directory in front of it. */
  function ListDir(ns: Namespace, p: Path): seq<string>
    requires p != []
  {
    if IsDir(ns, Parent(p)) then
      if Last(p) == "" then ns[Parent(p)].names
      else if IsDir(ns, p) then ns[p].names
      else []
    else []
  }

  // ---------------------------------------------------------------- the state machine

  /** Applying an entry is defined where MakeDir's casts are and the path has a component. */
  predicate CanApplyEntry(ns: Namespace, e: Entry) {
    SplitPath(e.value) != []
    && (e.op.Mkdir? ==> NoFileOnTheWay(ns, SplitPath(e.value)))
  }

  function ApplyEntry(ns: Namespace, e: Entry): Namespace {
    var p := SplitPath(e.value);
    if p == [] then ns
    else match e.op
      case Mkdir => MakeDir(ns, p, true).0
      case Rmdir => DeleteDir(ns, p, UNKNOWN, true).0
      case Create => CreateFile(ns, p).0
      case Delete => RemoveFile(ns, p, UNKNOWN).0
      case _ => ns
  }

  function ApplyAll(ns: Namespace, entries: seq<Entry>): Namespace {
    if entries == [] then ns else ApplyEntry(ApplyAll(ns, entries[..|entries| - 1]), entries[|entries| - 1])
  }

  function Replay(entries: seq<Entry>): Namespace {
    ApplyAll(EMPTY, entries)
  }

  ghost predicate CanApplyAll(ns: Namespace, entries: seq<Entry>) {
    forall k :: 0 <= k < |entries| ==> CanApplyEntry(ApplyAll(ns, entries[..k]), entries[k])
  }

  lemma {:induction false} ApplyAllConcat(ns: Namespace, a: seq<Entry>, b: seq<Entry>)
    ensures ApplyAll(ns, a + b) == ApplyAll(ApplyAll(ns, a), b)
    decreases |b|
  {
    if b == [] {
      assert a + b == a;
    } else {
      assert (a + b)[..|a + b| - 1] == a + b[..|b| - 1];
      ApplyAllConcat(ns, a, b[..|b| - 1]);
    }
  }

  // ---------------------------------------------------------------- facts

  lemma ListedByParent(ns: Namespace, p: Path)
    requires WellFormed(ns) && p != []
    ensures p in ns <==> Lists(ns, Parent(p), Last(p))
  {
    assert p == Parent(p) + [Last(p)];
  }

  /** Every prefix of a path that is there is there, and is a directory if it is proper. */
  lemma {:induction false} PrefixClosed(ns: Namespace, p: Path, k: nat)
    requires WellFormed(ns) && p in ns && k <= |p|
    ensures p[..k] in ns && (k < |p| ==> ns[p[..k]].Dir?)
    decreases |p|
  {
    if k < |p| {
      ListedByParent(ns, p);
      PrefixClosed(ns, Parent(p), k);
      assert Parent(p)[..k] == p[..k];
    } else {
      assert p[..k] == p;
    }
  }

  lemma {:induction false} WithoutMembers(names: seq<string>, name: string)
    requires Distinct(names)
    ensures Distinct(Without(names, name))
    ensures forall x :: x in Without(names, name) <==> x in names && x != name
  {
    if names != [] {
      WithoutMembers(names[1..], name);
      var r := Without(names, name);
      if names[0] != name {
        forall k, l | 0 <= k < l < |r| ensures r[k] != r[l] {
          if k == 0 {
            assert r[l] in Without(names[1..], name);
          }
        }
      }
    }
  }

  lemma {:induction false} WithoutLast(names: seq<string>, name: string)
    requires name !in names
    ensures Without(names + [name], name) == names
  {
    if names != [] {
      assert (names + [name])[1..] == names[1..] + [name];
      WithoutLast(names[1..], name);
    }
  }

  lemma OneLonger(x: Path, n: string, p: Path, name: string)
    ensures x + [n] == p + [name] <==> x == p && n == name
  {
    if x + [n] == p + [name] {
      assert x == (x + [n])[..|x|] == (p + [name])[..|p|] == p;
      assert n == (x + [n])[|x|] == (p + [name])[|p|];
    }
  }

  lemma AddChildWellFormed(ns: Namespace, p: Path, name: string, info: Info)
    requires WellFormed(ns) && IsDir(ns, p) && p + [name] !in ns
    requires info.Dir? ==> info.names == []
    ensures WellFormed(AddChild(ns, p, name, info))
  {
    var ns' := AddChild(ns, p, name, info);
    var q := p + [name];
    assert !Lists(ns, p, name);
    forall x, n ensures x + [n] in ns' <==> Lists(ns', x, n) {
      OneLonger(x, n, p, name);
      assert x + [n] in ns <==> Lists(ns, x, n);
    }
  }

  lemma RemoveSubtreeWellFormed(ns: Namespace, q: Path)
    requires WellFormed(ns) && q in ns && q != []
    ensures WellFormed(RemoveSubtree(ns, q))
  {
    var ns' := RemoveSubtree(ns, q);
    var d := Parent(q);
    ListedByParent(ns, q);
    WithoutMembers(ns[d].names, Last(q));
    assert d + [Last(q)] == q;
    assert |d| < |q| && !(q <= d) && !(q <= []);
    forall x, n ensures x + [n] in ns' <==> Lists(ns', x, n) {
      assert x + [n] in ns <==> Lists(ns, x, n);
      OneLonger(x, n, d, Last(q));
      ExtendsOrEquals(q, x, n);
    }
  }

  lemma ExtendsOrEquals(q: Path, x: Path, n: string)
    ensures q <= x + [n] <==> q <= x || q == x + [n]
  {
    if q <= x + [n] && q != x + [n] {
      assert q == (x + [n])[..|q|] == x[..|q|];
    }
    if q <= x {
      assert q == x[..|q|] == (x + [n])[..|q|];
    }
  }

  /** What a create or mkdir adds, the matching removal takes away again, order included. */
  lemma RemoveUndoesAdd(ns: Namespace, p: Path, name: string, info: Info)
    requires WellFormed(ns) && IsDir(ns, p) && p + [name] !in ns
    ensures RemoveSubtree(AddChild(ns, p, name, info), p + [name]) == ns
  {
    var q := p + [name];
    var r := RemoveSubtree(AddChild(ns, p, name, info), q);
    assert Parent(q) == p && |p| < |q| && !(q <= p);
    assert !Lists(ns, p, name);
    WithoutLast(ns[p].names, name);
    forall x | x in ns ensures !(q <= x) {
      if q <= x {
        assert x[..|q|] == q;
        PrefixClosed(ns, x, |q|);
      }
    }
    assert r.Keys == ns.Keys;
  }

  lemma PrefixStep(x: Path, p: Path)
    requires p != []
    ensures x <= p <==> x <= Parent(p) || x == p
    ensures x < p <==> x <= Parent(p)
    ensures x < Parent(p) ==> p[|x|] == Parent(p)[|x|] && p[..|x| + 1] == Parent(p)[..|x| + 1]
    ensures x == Parent(p) ==> p[|x|] == Last(p) && p[..|x| + 1] == p
  {
    if x <= p && x != p {
      assert x == p[..|x|] == Parent(p)[..|x|];
    }
    if x <= Parent(p) {
      assert x == Parent(p)[..|x|] == p[..|x|];
    }
  }

  lemma NoFileOnTheWayToParent(ns: Namespace, p: Path)
    requires p != [] && WellFormed(ns) && NoFileOnTheWay(ns, p)
    ensures NoFileOnTheWay(ns, Parent(p))
    ensures Parent(p) in ns ==> IsDir(ns, Parent(p))
  {
    var d := Parent(p);
    forall k | 0 < k < |d| && d[..k] in ns ensures ns[d[..k]].Dir? {
      assert d[..k] == p[..k];
    }
    if d in ns && d != [] {
      assert d == p[..|d|];
    }
  }

  lemma {:induction false} EnsureDirsAdds(ns: Namespace, p: Path)
    requires WellFormed(ns) && NoFileOnTheWay(ns, p)
    ensures WellFormed(EnsureDirs(ns, p))
    ensures forall x :: x in EnsureDirs(ns, p) <==> x in ns || x <= p
    ensures forall x :: x in EnsureDirs(ns, p) && x !in ns ==> IsDir(EnsureDirs(ns, p), x)
    ensures forall x :: IsDir(ns, x) ==> IsDir(EnsureDirs(ns, p), x)
    decreases |p|
  {
    if p == [] || p in ns {
      forall x | x <= p ensures x in ns {
        PrefixClosed(ns, p, |x|);
        assert p[..|x|] == x;
      }
    } else {
      var d := Parent(p);
      NoFileOnTheWayToParent(ns, p);
      EnsureDirsAdds(ns, d);
      var mid := EnsureDirs(ns, d);
      assert d + [Last(p)] == p;
      assert d <= d && d in mid && IsDir(mid, d);
      assert |d| < |p| && !(p <= d) && p !in mid;
      AddChildWellFormed(mid, d, Last(p), Dir(UNKNOWN, []));
      forall x ensures x in EnsureDirs(ns, p) <==> x in ns || x <= p {
        PrefixStep(x, p);
      }
    }
  }

  /** What stands at `x` once `p` has been made. */
  function InfoAfter(ns: Namespace, p: Path, x: Path): Info
    requires x in ns || x <= p
  {
    if x !in ns then Dir(UNKNOWN, if x == p then [] else [p[|x|]])
    else if x < p && p[..|x| + 1] !in ns then Dir(ns[x].owner, DirNames(ns, x) + [p[|x|]])
    else ns[x]
  }

  lemma AddedInfo(ns: Namespace, d: Path, name: string, x: Path)
    requires IsDir(ns, d) && (x in ns || x == d + [name])
    ensures var ns' := AddChild(ns, d, name, Dir(UNKNOWN, []));
            x in ns' && ns'[x] == if x == d + [name] then Dir(UNKNOWN, [])
                                  else if x == d then Dir(ns[d].owner, ns[d].names + [name])
                                  else ns[x]
  {
  }

  lemma InfoStep(ns: Namespace, p: Path, x: Path)
    requires p != [] && p !in ns && x != p && (x in ns || x <= Parent(p))
    requires x == Parent(p) && x in ns ==> ns[x].Dir?
    ensures var d := Parent(p);
            InfoAfter(ns, p, x) ==
            if x == d then Dir(InfoAfter(ns, d, x).owner, InfoAfter(ns, d, x).names + [Last(p)])
            else InfoAfter(ns, d, x)
  {
    PrefixStep(x, p);
  }

  lemma {:induction false} EnsureDirsInfo(ns: Namespace, p: Path, x: Path)
    requires WellFormed(ns) && NoFileOnTheWay(ns, p) && (x in ns || x <= p)
    ensures x in EnsureDirs(ns, p) && EnsureDirs(ns, p)[x] == InfoAfter(ns, p, x)
    decreases |p|
  {
    EnsureDirsAdds(ns, p);
    if p == [] || p in ns {
      if x < p {
        PrefixClosed(ns, p, |x| + 1);
      }
    } else {
      var d := Parent(p);
      PrefixStep(x, p);
      NoFileOnTheWayToParent(ns, p);
      EnsureDirsAdds(ns, d);
      assert d + [Last(p)] == p && d <= d && p !in EnsureDirs(ns, d);
      AddedInfo(EnsureDirs(ns, d), d, Last(p), x);
      if x != p {
        EnsureDirsInfo(ns, d, x);
        InfoStep(ns, p, x);
      }
    }
  }

  /** MakeDir with make_parents adds exactly the missing prefixes, as directories, leaves
      what was there as it was except for one more name in the deepest directory that
      existed, and keeps the namespace well formed. */
  lemma EnsureDirsExactly(ns: Namespace, p: Path)
    requires WellFormed(ns) && NoFileOnTheWay(ns, p)
    ensures WellFormed(EnsureDirs(ns, p))
    ensures forall x :: x in EnsureDirs(ns, p) <==> x in ns || x <= p
    ensures forall x :: x in ns || x <= p ==> EnsureDirs(ns, p)[x] == InfoAfter(ns, p, x)
  {
    EnsureDirsAdds(ns, p);
    forall x | x in ns || x <= p ensures EnsureDirs(ns, p)[x] == InfoAfter(ns, p, x) {
      EnsureDirsInfo(ns, p, x);
    }
  }

  function DirNames(ns: Namespace, p: Path): seq<string> {
    if IsDir(ns, p) then ns[p].names else []
  }

  /** Every operation keeps the namespace well formed. */
  lemma OperationsWellFormed(ns: Namespace, p: Path, visitor: string, flag: bool)
    requires WellFormed(ns) && p != []
    ensures NoFileOnTheWay(ns, p) ==> WellFormed(MakeDir(ns, p, flag).0)
    ensures WellFormed(CreateFile(ns, p).0)
    ensures WellFormed(DeleteDir(ns, p, visitor, flag).0)
    ensures WellFormed(RemoveFile(ns, p, visitor).0)
  {
    assert Parent(p) + [Last(p)] == p;
    if NoFileOnTheWay(ns, p) {
      EnsureDirsExactly(ns, p);
    }
    if IsDir(ns, Parent(p)) && p !in ns {
      AddChildWellFormed(ns, Parent(p), Last(p), File(UNKNOWN));
    }
    if p in ns {
      RemoveSubtreeWellFormed(ns, p);
    }
  }

  /** What mkdir makes, rmdir of the same path removes, exactly if its last component is not empty;
      then only the directories made on the way stay, and otherwise all stays. */
  lemma RemovalUndoesMaking(ns: Namespace, p: Path, visitor: string, recursive: bool)
    requires WellFormed(ns) && NoFileOnTheWay(ns, p) && p != [] && p !in ns
    ensures var (made, ok) := MakeDir(ns, p, true);
            var (left, gone) := DeleteDir(made, p, visitor, recursive);
            && ok && (gone <==> Last(p) != "") && left == if gone then EnsureDirs(ns, Parent(p)) else made
  {
    var d := Parent(p);
    assert d + [Last(p)] == p && |d| < |p|;
    NoFileOnTheWayToParent(ns, p);
    EnsureDirsAdds(ns, d);
    assert d <= d && !(p <= d);
    RemoveUndoesAdd(EnsureDirs(ns, d), d, Last(p), Dir(UNKNOWN, []));
  }

  /** Making the root's own path makes a child with an empty name, which no removal by that path
      takes away and which a listing by that path passes over. */
  lemma RootMadeAgain(ns: Namespace, visitor: string, flag: bool)
    requires WellFormed(ns) && [""] !in ns
    ensures SplitPath("/") == [""]
    ensures var ns' := MakeDir(ns, SplitPath("/"), flag).0;
            && [""] in ns' && DeleteDir(ns', [""], visitor, true) == (ns', false)
            && RemoveFile(ns', [""], visitor) == (ns', false) && ListDir(ns', [""]) == ns[[]].names + [""]
  {
    assert Split("/") == [""] + Split("/"[1..]);
    assert Parent([""]) == [] && [] + [""] == [""];
    assert EnsureDirs(ns, []) == ns;
  }

  /** Without make_parents, MakeDir creates the leaf exactly when the directory in front of
      it is there, and otherwise answers false and changes nothing. */
  lemma MakeLeafExactly(ns: Namespace, p: Path)
    requires WellFormed(ns) && p != [] && NoFileOnTheWay(ns, p)
    ensures MakeDir(ns, p, false).1 <==> IsDir(ns, Parent(p))
    ensures MakeDir(ns, p, false).0 ==
            if IsDir(ns, Parent(p)) && p !in ns then AddChild(ns, Parent(p), Last(p), Dir(UNKNOWN, [])) else ns
  {
    NoFileOnTheWayToParent(ns, p);
    ListedByParent(ns, p);
    if Parent(p) in ns {
      assert EnsureDirs(ns, Parent(p)) == ns;
    }
  }

  lemma EmptyWellFormed()
    ensures WellFormed(EMPTY)
  {
    forall p: Path, name ensures p + [name] !in EMPTY && !Lists(EMPTY, p, name) {
      assert |p + [name]| > 0;
    }
  }

  lemma ApplyWellFormed(ns: Namespace, e: Entry)
    requires WellFormed(ns) && CanApplyEntry(ns, e)
    ensures WellFormed(ApplyEntry(ns, e))
  {
    OperationsWellFormed(ns, SplitPath(e.value), UNKNOWN, true);
  }

  /** A replay is well formed as far as it is defined. */
  lemma {:induction false} ReplayWellFormed(entries: seq<Entry>)
    requires CanApplyAll(EMPTY, entries)
    ensures WellFormed(Replay(entries))
  {
    hide WellFormed, ApplyEntry, CanApplyEntry;
    EmptyWellFormed();
    if entries != [] {
      var n := |entries| - 1;
      var front := entries[..n];
      forall k | 0 <= k < |front| ensures CanApplyEntry(ApplyAll(EMPTY, front[..k]), front[k]) {
        assert front[..k] == entries[..k];
      }
      ReplayWellFormed(front);
      assert CanApplyEntry(ApplyAll(EMPTY, entries[..n]), entries[n]);
      ApplyWellFormed(Replay(front), entries[n]);
    }
  }
}
