/** What the operations on the namespace do, said of the paths that are there before and after: when
    each answers true, what stands where then, and that nothing changes otherwise. */
module NamespaceLaws {
  import opened Protocol
  import opened NamespaceSpec

  // ---------------------------------------------------------------- what is below a path

  /** `names'` is `names` without one `name`, in the same order. */
  ghost predicate Dropped(names: seq<string>, names': seq<string>, name: string) {
    exists k :: 0 <= k < |names| && names[k] == name && names' == names[..k] + names[k + 1..]
  }

  lemma {:induction false} WithoutAt(names: seq<string>, name: string) returns (k: nat)
    requires name in names
    ensures k < |names| && names[k] == name && Without(names, name) == names[..k] + names[k + 1..]
  {
    if names[0] == name {
      k := 0;
    } else {
      var l := WithoutAt(names[1..], name);
      k := l + 1;
      assert names[..k] == [names[0]] + names[1..][..l];
      assert names[k + 1..] == names[1..][l + 1..];
    }
  }

  lemma WithoutDrops(names: seq<string>, name: string)
    requires name in names
    ensures Dropped(names, Without(names, name), name)
  {
    hide Without;
    var k := WithoutAt(names, name);
  }

  /** Nothing is below a directory without children, and a file has nothing below it. */
  lemma BelowListed(ns: Namespace, p: Path)
    requires WellFormed(ns) && p in ns
    ensures (exists x :: x in ns && p < x) <==> ns[p].Dir? && ns[p].names != []
  {
    if x :| x in ns && p < x {
      PrefixClosed(ns, x, |p| + 1);
      assert x[..|p| + 1] == p + [x[|p|]];
      assert Lists(ns, p, x[|p|]);
    }
    if ns[p].Dir? && ns[p].names != [] {
      assert Lists(ns, p, ns[p].names[0]);
      assert p < p + [ns[p].names[0]];
    }
  }

  // ---------------------------------------------------------------- removal

  /** `p` and all below it is gone, the directory in front lists the rest in order, and everything
      else is as it was. */
  ghost predicate Gone(ns: Namespace, ns': Namespace, p: Path)
    requires p != []
  {
    && IsDir(ns, Parent(p)) && IsDir(ns', Parent(p)) && ns'[Parent(p)].owner == ns[Parent(p)].owner
    && Dropped(ns[Parent(p)].names, ns'[Parent(p)].names, Last(p))
    && (forall x :: x in ns' <==> x in ns && !(p <= x))
    && (forall x :: x in ns' && x != Parent(p) ==> ns'[x] == ns[x])
  }

  lemma SubtreeGone(ns: Namespace, p: Path)
    requires WellFormed(ns) && p != [] && p in ns
    ensures Gone(ns, RemoveSubtree(ns, p), p)
  {
    ListedByParent(ns, p);
    WithoutDrops(ns[Parent(p)].names, Last(p));
    assert |Parent(p)| < |p| && !(p <= Parent(p));
  }

  predicate OwnedBy(info: Info, visitor: string) {
    visitor == info.owner || "unknown" == info.owner
  }

  /** DeleteDir, exactly: it answers true for a directory with a name of its own that the visitor
      may remove, if it may take along what is below or nothing is; then the directory is gone with
      all below it. Else nothing changes. */
  lemma DeleteDirExactly(ns: Namespace, p: Path, visitor: string, recursive: bool)
    requires WellFormed(ns) && p != []
    ensures var (ns', ok) := DeleteDir(ns, p, visitor, recursive);
            && (ok <==> IsDir(ns, p) && Last(p) != "" && OwnedBy(ns[p], visitor)
                        && (recursive || forall x :: x in ns ==> !(p < x)))
            && (if ok then Gone(ns, ns', p) else ns' == ns)
  {
    if p in ns {
      ListedByParent(ns, p);
      BelowListed(ns, p);
      SubtreeGone(ns, p);
    }
  }

  /** RemoveFile, exactly: it answers true for a file with a name of its own that the visitor may
      remove, and then that path is gone and no other. Else nothing changes. */
  lemma RemoveFileExactly(ns: Namespace, p: Path, visitor: string)
    requires WellFormed(ns) && p != []
    ensures var (ns', ok) := RemoveFile(ns, p, visitor);
            && (ok <==> p in ns && ns[p].File? && Last(p) != "" && OwnedBy(ns[p], visitor))
            && (if ok then Gone(ns, ns', p) && forall x :: x in ns' <==> x in ns && x != p else ns' == ns)
  {
    if p in ns {
      ListedByParent(ns, p);
      BelowListed(ns, p);
      SubtreeGone(ns, p);
      assert forall x :: x in ns && p <= x && x != p ==> p < x;
    }
  }

  // ---------------------------------------------------------------- creation

  /** `p` is there as a new `info`, the directory in front lists it last, and everything else is as
      it was. */
  ghost predicate Made(ns: Namespace, ns': Namespace, p: Path, info: Info)
    requires p != []
  {
    && p !in ns && IsDir(ns, Parent(p)) && p in ns' && ns'[p] == info
    && Parent(p) in ns' && ns'[Parent(p)] == Dir(ns[Parent(p)].owner, ns[Parent(p)].names + [Last(p)])
    && (forall x :: x in ns' <==> x in ns || x == p)
    && (forall x :: x in ns && x != Parent(p) ==> ns'[x] == ns[x])
  }

  lemma ChildMade(ns: Namespace, p: Path, info: Info)
    requires p != [] && p !in ns && IsDir(ns, Parent(p))
    ensures Made(ns, AddChild(ns, Parent(p), Last(p), info), p, info)
  {
    assert Parent(p) + [Last(p)] == p;
  }

  /** CreateFile, exactly: it answers true if the directory is there, the name is not empty and the
      path is free; then a file is there that anyone may remove. Else nothing changes. */
  lemma CreateFileExactly(ns: Namespace, p: Path)
    requires WellFormed(ns) && p != []
    ensures var (ns', ok) := CreateFile(ns, p);
            && (ok <==> IsDir(ns, Parent(p)) && Last(p) != "" && p !in ns)
            && (if ok then Made(ns, ns', p, File("unknown")) else ns' == ns)
  {
    if p !in ns && IsDir(ns, Parent(p)) {
      ChildMade(ns, p, File("unknown"));
    }
  }

  /** Removing the file a creation made gives the namespace back, order included, and answers what
      the creation answered. */
  lemma RemovalUndoesCreation(ns: Namespace, p: Path, visitor: string)
    requires WellFormed(ns) && p != [] && p !in ns
    ensures RemoveFile(CreateFile(ns, p).0, p, visitor) == (ns, CreateFile(ns, p).1)
    ensures DeleteDir(CreateFile(ns, p).0, p, visitor, true) == (CreateFile(ns, p).0, false)
  {
    assert Parent(p) + [Last(p)] == p;
    if CreateFile(ns, p).1 {
      RemoveUndoesAdd(ns, Parent(p), Last(p), File(UNKNOWN));
    }
  }

  predicate EndsIn(names: seq<string>, name: string) {
    names != [] && names[|names| - 1] == name
  }

  /** Creating a removed file again gives the namespace back exactly if it was anyone's and the last
      one listed. */
  lemma CreationUndoesRemoval(ns: Namespace, p: Path, visitor: string)
    requires WellFormed(ns) && p != [] && RemoveFile(ns, p, visitor).1
    ensures CreateFile(RemoveFile(ns, p, visitor).0, p).1
    ensures CreateFile(RemoveFile(ns, p, visitor).0, p).0 == ns <==>
              ns[p].owner == "unknown" && EndsIn(ns[Parent(p)].names, Last(p))
  {
    hide RemoveFile, CreateFile, WellFormed;
    RemoveFileExactly(ns, p, visitor);
    var d, mid := Parent(p), RemoveFile(ns, p, visitor).0;
    OperationsWellFormed(ns, p, visitor, false);
    CreateFileExactly(mid, p);
    DistinctNames(ns, d);
    MovedLast(ns[d].names, mid[d].names, Last(p));
    SameButTwo(ns, CreateFile(mid, p).0, d, p);
  }

  lemma DistinctNames(ns: Namespace, d: Path)
    requires WellFormed(ns) && IsDir(ns, d)
    ensures Distinct(ns[d].names)
  {
  }

  /** To drop a name and put it last changes nothing exactly if it was last. */
  lemma MovedLast(names: seq<string>, names': seq<string>, name: string)
    requires Distinct(names) && Dropped(names, names', name)
    ensures names' + [name] == names <==> EndsIn(names, name)
  {
    var k :| 0 <= k < |names| && names[k] == name && names' == names[..k] + names[k + 1..];
    var n := |names| - 1;
    if names' + [name] == names {
      assert names[n] == (names' + [name])[n] == name;
    }
    if names[n] == name {
      assert k == n;
      assert names' == names[..n] && names == names[..n] + names[n..];
    }
  }

  lemma SameButTwo(a: Namespace, b: Namespace, x: Path, y: Path)
    requires a.Keys == b.Keys && forall z :: z in a && z != x && z != y ==> a[z] == b[z]
    ensures a == b <==> (x in a ==> a[x] == b[x]) && (y in a ==> a[y] == b[y])
  {
  }

  // ---------------------------------------------------------------- mkdir

  /** What is at `x` keeps its kind and its owner, and a directory keeps its children in order. */
  predicate Grown(a: Info, b: Info) {
    a.owner == b.owner && (if a.Dir? then b.Dir? && a.names <= b.names else b == a)
  }

  /** MakeDir, exactly: with make_parents it answers true always, without it if the directory in
      front is there. Then the path and all in front of it is there, the latter and whatever is new
      being directories; nothing is lost, and nothing else changes. A file that is there already
      stays a file. Else nothing changes at all. */
  lemma MakeDirExactly(ns: Namespace, p: Path, makeParents: bool)
    requires WellFormed(ns) && p != [] && NoFileOnTheWay(ns, p)
    ensures var (ns', ok) := MakeDir(ns, p, makeParents);
            && (ok <==> makeParents || IsDir(ns, Parent(p)))
            && (!ok ==> ns' == ns)
            && (ok ==>
                  && (forall x :: x in ns' <==> x in ns || x <= p)
                  && (forall x :: x < p ==> IsDir(ns', x))
                  && (p !in ns ==> ns'[p] == Dir("unknown", []))
                  && (forall x :: x < p && x !in ns ==> ns'[x] == Dir("unknown", [p[|x|]]))
                  && (forall x :: x in ns ==> Grown(ns[x], ns'[x]))
                  && (forall x :: x in ns && !(x < p) ==> ns'[x] == ns[x]))
  {
    hide WellFormed, InfoAfter, EnsureDirs;
    MadeOrNot(ns, p, makeParents);
    EnsureDirsExactly(ns, p);
    forall x | x in ns || x <= p ensures EnsureDirs(ns, p)[x] == InfoAfter(ns, p, x) && InfoIs(ns, p, x) {
      InfoAt(ns, p, x);
    }
  }

  lemma MadeOrNot(ns: Namespace, p: Path, makeParents: bool)
    requires WellFormed(ns) && p != [] && NoFileOnTheWay(ns, p)
    ensures var (ns', ok) := MakeDir(ns, p, makeParents);
            && (ok <==> makeParents || IsDir(ns, Parent(p))) && ns' == if ok then EnsureDirs(ns, p) else ns
  {
    hide EnsureDirs;
    NoFileOnTheWayToParent(ns, p);
    ListedByParent(ns, p);
  }

  predicate InfoIs(ns: Namespace, p: Path, x: Path)
    requires p != [] && (x in ns || x <= p)
  {
    var info := InfoAfter(ns, p, x);
    && (x < p ==> info.Dir? && (x !in ns ==> info == Dir("unknown", [p[|x|]])))
    && (x == p && p !in ns ==> info == Dir("unknown", []))
    && (x in ns ==> Grown(ns[x], info) && (!(x < p) ==> info == ns[x]))
  }

  lemma InfoAt(ns: Namespace, p: Path, x: Path)
    requires WellFormed(ns) && NoFileOnTheWay(ns, p) && p != [] && (x in ns || x <= p)
    ensures InfoIs(ns, p, x)
  {
    if x < p {
      assert x == p[..|x|];
    }
  }

  // ---------------------------------------------------------------- listing

  /** The directory a path is listed as: an empty last component stands for the one in front. */
  function Listed(p: Path): Path
    requires p != []
  {
    if Last(p) == "" then Parent(p) else p
  }

  /** ListDir, exactly: for a directory the names of what is directly below it, each once, and for
      anything else nothing. */
  lemma ListDirExactly(ns: Namespace, p: Path)
    requires WellFormed(ns) && p != []
    ensures var r, d := NamespaceSpec.ListDir(ns, p), Listed(p);
            && Distinct(r)
            && (if IsDir(ns, d) then forall name :: name in r <==> d + [name] in ns else r == [])
  {
    if p in ns {
      ListedByParent(ns, p);
    }
    var d := Listed(p);
    if IsDir(ns, d) {
      forall name ensures name in ns[d].names <==> d + [name] in ns {
        assert d + [name] in ns <==> Lists(ns, d, name);
      }
    }
  }

  /** The order is that of creation: a new file or directory comes last, and a removal leaves the
      order of the rest. */
  lemma ListedInOrder(ns: Namespace, d: Path, name: string, visitor: string)
    requires WellFormed(ns) && d != [] && IsDir(ns, d) && Last(d) != "" && name != ""
    ensures d + [name] !in ns ==>
              && NamespaceSpec.ListDir(CreateFile(ns, d + [name]).0, d) == NamespaceSpec.ListDir(ns, d) + [name]
              && NamespaceSpec.ListDir(MakeDir(ns, d + [name], false).0, d) == NamespaceSpec.ListDir(ns, d) + [name]
    ensures RemoveFile(ns, d + [name], visitor).1 ==>
              Dropped(NamespaceSpec.ListDir(ns, d),
                      NamespaceSpec.ListDir(RemoveFile(ns, d + [name], visitor).0, d), name)
    ensures DeleteDir(ns, d + [name], visitor, true).1 ==>
              Dropped(NamespaceSpec.ListDir(ns, d),
                      NamespaceSpec.ListDir(DeleteDir(ns, d + [name], visitor, true).0, d), name)
  {
    var q := d + [name];
    assert Parent(q) == d && Last(q) == name;
    ListedByParent(ns, d);
    assert |d| < |q| && !(q <= d) && |Parent(d)| < |q| && !(q <= Parent(d));
    assert Parent(d) != d;
    RemoveFileExactly(ns, q, visitor);
    DeleteDirExactly(ns, q, visitor, true);
    if q !in ns {
      CreateFileExactly(ns, q);
      ChildMade(ns, q, Dir("unknown", []));
      assert EnsureDirs(ns, d) == ns;
    }
  }

  // ---------------------------------------------------------------- what an entry stands for

  /** An entry does to the namespace what its operation is called: rmdir takes away a directory with
      all below it and no file, delete a file and no directory, mkdir makes all directories up to its
      path, create makes a file in a directory that is there; any other operation does nothing, and
      neither does one that finds the wrong thing or a name that is empty. */
  lemma EntryApplied(ns: Namespace, e: Entry)
    requires WellFormed(ns) && CanApplyEntry(ns, e)
    ensures var ns', p := ApplyEntry(ns, e), SplitPath(e.value);
            match e.op
            case Rmdir =>
              if IsDir(ns, p) && Last(p) != "" && ns[p].owner == "unknown" then Gone(ns, ns', p) else ns' == ns
            case Delete =>
              if p in ns && ns[p].File? && Last(p) != "" && ns[p].owner == "unknown" then
                Gone(ns, ns', p) && forall x :: x in ns' <==> x in ns && x != p
              else ns' == ns
            case Create =>
              if IsDir(ns, Parent(p)) && Last(p) != "" && p !in ns then Made(ns, ns', p, File("unknown"))
              else ns' == ns
            case Mkdir =>
              && (forall x :: x in ns' <==> x in ns || x <= p)
              && (forall x :: x < p ==> IsDir(ns', x))
              && (p !in ns ==> ns'[p] == Dir("unknown", []))
              && (forall x :: x < p && x !in ns ==> ns'[x] == Dir("unknown", [p[|x|]]))
              && (forall x :: x in ns ==> Grown(ns[x], ns'[x]))
              && (forall x :: x in ns && !(x < p) ==> ns'[x] == ns[x])
            case _ => ns' == ns
  {
    hide Gone, Made, WellFormed, SplitPath, MakeDir, CreateFile, DeleteDir, RemoveFile;
    var p := SplitPath(e.value);
    match e.op
    case Rmdir => DeleteDirExactly(ns, p, UNKNOWN, true);
    case Delete => RemoveFileExactly(ns, p, UNKNOWN);
    case Create => CreateFileExactly(ns, p);
    case Mkdir => MakeDirExactly(ns, p, true);
    case _ =>
  }

  /** Everything but the root can be removed by an entry: a replay has no other owner. */
  lemma {:induction false} ReplayOwned(entries: seq<Entry>)
    requires CanApplyAll(EMPTY, entries)
    ensures forall x :: x in Replay(entries) ==> Owned(x, Replay(entries)[x])
  {
    hide WellFormed, ApplyEntry, CanApplyEntry;
    if entries != [] {
      var n := |entries| - 1;
      var front := entries[..n];
      forall k | 0 <= k < |front| ensures CanApplyEntry(ApplyAll(EMPTY, front[..k]), front[k]) {
        assert front[..k] == entries[..k];
      }
      ReplayOwned(front);
      ReplayWellFormed(front);
      assert CanApplyEntry(ApplyAll(EMPTY, entries[..n]), entries[n]);
      OwnersKept(Replay(front), entries[n]);
    }
  }

  predicate Owned(x: Path, info: Info) {
    info.owner == if x == [] then "raftfs" else "unknown"
  }

  lemma OwnersKept(ns: Namespace, e: Entry)
    requires WellFormed(ns) && CanApplyEntry(ns, e)
    requires forall x :: x in ns ==> Owned(x, ns[x])
    ensures forall x :: x in ApplyEntry(ns, e) ==> Owned(x, ApplyEntry(ns, e)[x])
  {
    hide ApplyEntry, SplitPath, Dropped;
    EntryApplied(ns, e);
    var ns', p := ApplyEntry(ns, e), SplitPath(e.value);
    forall x | x in ns' ensures Owned(x, ns'[x]) {
      if x in ns {
        assert Owned(x, ns[x]);
      } else if e.op == Mkdir {
        assert x == p || x < p;
      }
    }
  }
}
