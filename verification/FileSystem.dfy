/** The file-system namespace over the inode tree (filesystem/FSNamespace.cpp). Every
    operation is proved against the operation of the same name on the namespace value. */
module FileSystem {
  import opened Protocol
  import opened NamespaceSpec
  import opened INodes

  datatype FileInfo = FileInfo(path: string, creator: string)

  /** The components of "/" are one empty name: the special case of the walk is no exception. */
  lemma SplitRoot()
    ensures SplitPath("/") == [""]
  {
    assert Split("") == [""];
    assert "/"[1..] == "";
  }

  /** The root alone is a tree. */
  lemma OneNodeTree(at: map<Path, INode>, shape: Shape)
    requires at.Keys == {[]} && shape.Keys == {[]} && shape[[]] == State(at[[]], [], map[])
    requires at[[]].path == [] && at[[]].isDir && at[[]].name == "/" && at[[]].owner == "raftfs"
    ensures ShapeOk(at, shape) && ViewOf(at, shape) == EMPTY
  {
    assert StateOk(true, shape[[]]);
    assert ViewOf(at, shape)[[]] == EMPTY[[]];
    forall p: Path, name ensures p + [name] !in at && !Indexes(shape, p, name) {
      assert |p + [name]| > 0;
    }
  }

  class FSNamespace {
    var root: INode
    var committedIndex: int
    ghost var at: map<Path, INode>

    ghost predicate Valid()
      reads this, at.Values
    {
      TreeOk(at) && at[[]] == root
    }

    ghost function Tree(): Namespace
      reads this, at.Values
    {
      View(at)
    }

    constructor ()
      ensures Valid() && Tree() == EMPTY && committedIndex == 0 && fresh(at.Values)
    {
      root := new INode("/", "raftfs", true, null, []);
      committedIndex := 0;
      new;
      root.parent := root;
      at := map[[] := root];
      OneNodeTree(at, ShapeOf(at));
    }

    method SetCommittedIndex(newIndex: int)
      requires Valid()
      modifies this`committedIndex
      ensures committedIndex == newIndex && Valid() && Tree() == old(Tree())
    {
      ghost var shape := ShapeOf(at);
      committedIndex := newIndex;
      assert ShapeOf(at) == shape;
    }

    /** The ghost index follows the tree. */
    ghost method SetIndex(at': map<Path, INode>)
      requires TreeOk(at') && at'[[]] == root
      modifies this`at
      ensures at == at' && Valid() && Tree() == old(View(at'))
    {
      ghost var shape := ShapeOf(at');
      at := at';
      assert ShapeOf(at') == shape;
    }

    /** The folder in front of the last component, by a walk from the root, or null. */
    method GetParentFolderAndChild(absPath: string) returns (folder: INode?, child: string)
      requires Valid() && SplitPath(absPath) != []
      ensures folder == null <==> Locate(Tree(), SplitPath(absPath)).None?
      ensures folder != null ==> Parent(SplitPath(absPath)) in at && folder == at[Parent(SplitPath(absPath))]
      ensures folder != null ==> folder.isDir && child == Last(SplitPath(absPath)) && '/' !in child
    {
      hide TreeOk, View, NodeOk, WellFormed, SplitPath;
      SplitRoot();
      WalkStarts(at, absPath, false);
      if absPath == "/" {
        return root, "";
      }
      var dirSplit := SplitPath(absPath);
      var current := root;
      var i := 0;
      while i < |dirSplit| - 1
        invariant 0 <= i <= |dirSplit| - 1
        invariant dirSplit[..i] in at && current == at[dirSplit[..i]] && current.isDir
      {
        ghost var p := dirSplit[..i + 1];
        assert Parent(p) == dirSplit[..i] && Last(p) == dirSplit[i];
        NodeAt(at, dirSplit[..i]);
        var next := Lookup(current, dirSplit[i], p);
        if next != null && next.isDir {
          current := next;
        } else {
          NoWayOn(Tree(), dirSplit, i);
          return null, "";
        }
        i := i + 1;
      }
      assert Parent(dirSplit) == dirSplit[..i];
      NodeAt(at, dirSplit[..i]);
      return current, dirSplit[|dirSplit| - 1];
    }

    method CreateFile(newFile: string, owner: string) returns (ok: bool)
      requires Valid() && SplitPath(newFile) != []
      modifies this`at, at.Values
      ensures Valid() && fresh(at.Values - old(at.Values))
      ensures ok == NamespaceSpec.CreateFile(old(Tree()), SplitPath(newFile)).1
      ensures Tree() == NamespaceSpec.CreateFile(old(Tree()), SplitPath(newFile)).0
    {
      hide TreeOk;
      var folder, child := GetParentFolderAndChild(newFile);
      if folder != null && child != "" {
        var file := Add(folder, child, false, SplitPath(newFile));
        return file != null;
      }
      return false;
    }

    method DeleteDir(absDir: string, visitor: string, recursive: bool) returns (ok: bool)
      requires Valid() && SplitPath(absDir) != []
      modifies this`at, at.Values
      ensures Valid() && fresh(at.Values - old(at.Values))
      ensures ok == NamespaceSpec.DeleteDir(old(Tree()), SplitPath(absDir), visitor, recursive).1
      ensures Tree() == NamespaceSpec.DeleteDir(old(Tree()), SplitPath(absDir), visitor, recursive).0
    {
      hide TreeOk, RemoveSubtree, View, SplitPath;
      var folder, child := GetParentFolderAndChild(absDir);
      if folder != null && child != "" {
        var target := Lookup(folder, child, SplitPath(absDir));
        if target != null && target.isDir && (target.owner == visitor || target.owner == UNKNOWN) {
          ok := Remove(folder, child, recursive, SplitPath(absDir));
          return ok;
        }
      }
      return false;
    }

    method RemoveFile(fileName: string, visitor: string) returns (ok: bool)
      requires Valid() && SplitPath(fileName) != []
      modifies this`at, at.Values
      ensures Valid() && fresh(at.Values - old(at.Values))
      ensures ok == NamespaceSpec.RemoveFile(old(Tree()), SplitPath(fileName), visitor).1
      ensures Tree() == NamespaceSpec.RemoveFile(old(Tree()), SplitPath(fileName), visitor).0
    {
      hide TreeOk, RemoveSubtree, View, SplitPath;
      var folder, child := GetParentFolderAndChild(fileName);
      if folder != null && child != "" {
        var target := Lookup(folder, child, SplitPath(fileName));
        if target != null && !target.isDir && (target.owner == visitor || target.owner == UNKNOWN) {
          ok := Remove(folder, child, false, SplitPath(fileName));
          return ok;
        }
      }
      return false;
    }

    /** GetChild on the folder, seen from the namespace. */
    method Lookup(folder: INode, child: string, ghost p: Path) returns (target: INode?)
      requires Valid() && p != [] && Parent(p) in at && folder == at[Parent(p)] && child == Last(p)
      ensures target == null <==> p !in Tree()
      ensures target != null ==> p in at && target == at[p] && NodeOk(target)
      ensures target != null ==> target.owner == Tree()[p].owner && target.isDir == Tree()[p].Dir?
      ensures target != null && target.isDir ==> Names(target.children) == Tree()[p].names
    {
      assert Parent(p) + [child] == p;
      StepDown(at, ShapeOf(at), Parent(p), child);
      target := folder.GetChild(child);
    }

    /** CreateFile or CreateDir on the folder, seen from the namespace. */
    method Add(folder: INode, child: string, isDir: bool, ghost p: Path) returns (node: INode?)
      requires Valid() && p != [] && Parent(p) in at && folder == at[Parent(p)] && folder.isDir
      requires child == Last(p) && '/' !in child
      modifies this`at, folder
      ensures Valid() && fresh(at.Values - old(at.Values))
      ensures at.Keys == old(at.Keys) + {p} && forall x :: x in old(at) ==> at[x] == old(at)[x]
      ensures node != null <==> p !in old(Tree())
      ensures node != null ==> p in at && node == at[p] && node.isDir == isDir
      ensures node == null ==> Tree() == old(Tree())
      ensures node != null ==>
        Tree() == AddChild(old(Tree()), Parent(p), child, if isDir then Dir(UNKNOWN, []) else File(UNKNOWN))
    {
      hide TreeOk, View, ShapeOf, NodeOk, AddChild;
      NodeAt(at, Parent(p));
      assert Parent(p) + [child] == p;
      if isDir {
        node := folder.CreateDir(child, at);
      } else {
        node := folder.CreateFile(child, at);
      }
      if node != null {
        AddedKeepsRoot(at, p, node);
        SetIndex(at[p := node]);
      }
    }

    /** DeleteChild on the folder, seen from the namespace. */
    method Remove(folder: INode, child: string, recursive: bool, ghost p: Path) returns (ok: bool)
      requires Valid() && p != [] && p in at && Parent(p) in at && folder == at[Parent(p)] && child == Last(p)
      modifies this`at, at.Values
      ensures Valid() && fresh(at.Values - old(at.Values))
      ensures ok <==> recursive || old(Tree()[p].File? || Tree()[p].names == [])
      ensures Tree() == if ok then RemoveSubtree(old(Tree()), p) else old(Tree())
    {
      hide TreeOk, ViewOf, Removed, RemoveSubtree;
      RemovalStarts(at, p);
      ok := folder.DeleteChild(child, recursive, at);
      if ok {
        CutValues(at, p);
        SetIndex(Cut(at, p));
      }
    }

    /** The walk that creates what is missing. What it finds in front of the last component is
        used as a directory without a test, so it must not be a file. The rollback behind the
        loop is never reached: once one level was missing, all later ones are, the last included. */
    method MakeDir(absDir: string, owner: string, makeParents: bool) returns (ok: bool)
      requires Valid()
      requires NoFileOnTheWay(Tree(), SplitPath(absDir))
      modifies this`at, at.Values
      ensures Valid() && fresh(at.Values - old(at.Values))
      ensures ok == NamespaceSpec.MakeDir(old(Tree()), SplitPath(absDir), makeParents).1
      ensures Tree() == NamespaceSpec.MakeDir(old(Tree()), SplitPath(absDir), makeParents).0
    {
      hide TreeOk, View, NodeOk, WellFormed, Walked, AddChild, NoFileOnTheWay, SplitPath, NamespaceSpec.MakeDir;
      var current := root;
      var dirSplit := SplitPath(absDir);
      ghost var ns := Tree();
      WalkStarts(at, absDir, makeParents);
      var newDir, i := 0, 0;
      while i < |dirSplit|
        invariant 0 <= i <= |dirSplit|
        invariant Valid() && fresh(at.Values - old(at.Values))
        invariant Walked(ns, dirSplit, makeParents, i, newDir, Tree())
        invariant i < |dirSplit| ==> dirSplit[..i] in at && current == at[dirSplit[..i]] && current.isDir
      {
        ghost var p, t := dirSplit[..i + 1], Tree();
        assert Parent(p) == dirSplit[..i] && Last(p) == dirSplit[i];
        NodeAt(at, dirSplit[..i]);
        var sub := Lookup(current, dirSplit[i], p);
        if sub != null {
          WalkFinds(ns, dirSplit, makeParents, i, newDir, t);
          current := sub;
        } else {
          WalkMisses(ns, dirSplit, makeParents, i, newDir, t);
          if i != |dirSplit| - 1 {
            if newDir == 0 {
              newDir := i;
            }
            if makeParents {
              sub := Add(current, dirSplit[i], true, p);
              if sub != null {
                current := sub;
              } else {
                assert false;
              }
            } else {
              return false;
            }
          } else {
            sub := Add(current, dirSplit[i], true, p);
            if sub != null {
              newDir := 0;
            }
          }
        }
        i := i + 1;
      }
      WalkEnds(ns, dirSplit, makeParents, newDir, Tree());
      if newDir != 0 && newDir != i {
        assert false;
      }
      return true;
    }

    /** The names in a directory; the kind of what the path names is not tested, so it must not be a file. */
    method ListDir(absDir: string) returns (names: seq<string>)
      requires Valid() && SplitPath(absDir) != []
      requires SplitPath(absDir) in Tree() ==> Tree()[SplitPath(absDir)].Dir?
      ensures names == NamespaceSpec.ListDir(Tree(), SplitPath(absDir))
    {
      var folder, child := GetParentFolderAndChild(absDir);
      if folder != null {
        ghost var p := SplitPath(absDir);
        assert Parent(p) + [child] == p;
        assert StateOk(folder.isDir, ShapeOf(at)[Parent(p)]);
        if child == "" {
          names := folder.ListDirName();
          return;
        }
        var target := Lookup(folder, child, p);
        if target != null {
          names := target.ListDirName();
          return;
        }
      }
      return [];
    }

    /** The answer is false only for a missing file in a directory that is there; what comes back
        for a file is the absolute path that was asked for. */
    method GetFileInfo(fileName: string) returns (ok: bool, info: Option<FileInfo>)
      requires Valid() && SplitPath(fileName) != []
      requires SplitPath(fileName) in Tree() ==> Tree()[SplitPath(fileName)].File?
      ensures var p := SplitPath(fileName);
              && (ok <==> Last(p) == "" || !IsDir(Tree(), Parent(p)) || p in Tree())
              && info == if Last(p) != "" && p in Tree() then Some(FileInfo("/" + Join(p), Tree()[p].owner)) else None
      ensures ValidatePath(fileName) && info.Some? ==> info.value.path == fileName
    {
      ghost var p := SplitPath(fileName);
      ViewWellFormed(at, ShapeOf(at));
      ListedByParent(Tree(), p);
      if ValidatePath(fileName) {
        PathRoundTrip(fileName);
      }
      var folder, child := GetParentFolderAndChild(fileName);
      if folder != null && child != "" {
        assert Parent(p) + [child] == p;
        var target := Lookup(folder, child, p);
        if target == null {
          return false, None;
        }
        var infoPath, creator := target.ToFileInfo(at);
        return true, Some(FileInfo(infoPath, creator));
      }
      return true, None;
    }
  }

  lemma NodeAt(at: map<Path, INode>, p: Path)
    requires TreeOk(at) && p in at
    ensures at[p].path == p && [] in at && View(at).Keys == at.Keys && View(at)[p].Dir? == at[p].isDir
  {
  }

  lemma ViewIsWellFormed(at: map<Path, INode>)
    requires TreeOk(at)
    ensures WellFormed(View(at)) && [] in at && at[[]].isDir
  {
    ViewWellFormed(at, ShapeOf(at));
  }

  /** Where MakeDir's walk stands after `i` components: what it has made so far, and that a
      level it remembers as missing was missing. */
  ghost predicate Walked(ns: Namespace, comps: Path, makeParents: bool, i: nat, newDir: nat, t: Namespace) {
    && i <= |comps| && t == EnsureDirs(ns, comps[..i])
    && (!makeParents ==> if i < |comps| then t == ns else comps == [] || Parent(comps) in ns)
    && (newDir != 0 ==> newDir < i < |comps| && comps[..newDir + 1] !in ns)
  }

  lemma WalkStarts(at: map<Path, INode>, path: string, makeParents: bool)
    requires TreeOk(at)
    ensures WellFormed(View(at)) && IsDir(View(at), []) && [] in at && at[[]].isDir
    ensures Walked(View(at), SplitPath(path), makeParents, 0, 0, View(at))
    ensures SplitPath(path)[..0] == [] && forall k :: 0 <= k < |SplitPath(path)| ==> '/' !in SplitPath(path)[k]
  {
    ViewIsWellFormed(at);
    assert SplitPath(path)[..0] == [];
  }

  lemma WalkSoFar(ns: Namespace, comps: Path, i: nat)
    requires WellFormed(ns) && NoFileOnTheWay(ns, comps) && i <= |comps|
    ensures forall x :: x in EnsureDirs(ns, comps[..i]) <==> x in ns || x <= comps[..i]
  {
    forall k | 0 < k < i && comps[..i][..k] in ns ensures ns[comps[..i][..k]].Dir? {
      assert comps[..i][..k] == comps[..k];
    }
    EnsureDirsAdds(ns, comps[..i]);
  }

  lemma PrefixThere(ns: Namespace, comps: Path, i: nat, k: nat)
    requires WellFormed(ns) && k <= i <= |comps| && comps[..i] in ns
    ensures comps[..k] in ns
  {
    assert comps[..i][..k] == comps[..k];
    PrefixClosed(ns, comps[..i], k);
  }

  /** What is found was there from the start, and so were all levels before it. */
  lemma WalkFinds(ns: Namespace, comps: Path, makeParents: bool, i: nat, newDir: nat, t: Namespace)
    requires WellFormed(ns) && NoFileOnTheWay(ns, comps) && i < |comps|
    requires Walked(ns, comps, makeParents, i, newDir, t) && comps[..i + 1] in t
    ensures Walked(ns, comps, makeParents, i + 1, newDir, t)
    ensures i + 1 < |comps| ==> IsDir(t, comps[..i + 1])
  {
    var p := comps[..i + 1];
    WalkSoFar(ns, comps, i);
    assert p in ns && Parent(p) == comps[..i];
    ListedByParent(ns, p);
    PrefixThere(ns, comps, i + 1, if newDir < i then newDir + 1 else i + 1);
    if i + 1 == |comps| {
      assert p == comps;
    }
  }

  /** Of a level that is missing, nothing behind it was there; once it is made the walk has
      come one level further, and without make_parents it stops with nothing changed. */
  lemma WalkMisses(ns: Namespace, comps: Path, makeParents: bool, i: nat, newDir: nat, t: Namespace)
    requires WellFormed(ns) && NoFileOnTheWay(ns, comps) && i < |comps|
    requires Walked(ns, comps, makeParents, i, newDir, t) && comps[..i + 1] !in t
    ensures var t' := AddChild(t, comps[..i], comps[i], Dir(UNKNOWN, []));
            && (i + 1 == |comps| ==> Walked(ns, comps, makeParents, i + 1, 0, t'))
            && (i + 1 < |comps| && makeParents ==>
                  Walked(ns, comps, makeParents, i + 1, if newDir == 0 then i else newDir, t'))
    ensures i + 1 < |comps| && !makeParents ==> NamespaceSpec.MakeDir(ns, comps, makeParents) == (t, false)
  {
    var p := comps[..i + 1];
    WalkSoFar(ns, comps, i);
    assert p !in ns && Parent(p) == comps[..i] && Last(p) == comps[i];
    if i + 1 == |comps| {
      assert p == comps;
      assert comps[..i] <= comps[..i] && comps[..i] in t;
    } else {
      assert Parent(comps)[..i + 1] == p;
      if comps in ns {
        PrefixClosed(ns, comps, i + 1);
      } else if Parent(comps) in ns {
        PrefixClosed(ns, Parent(comps), i + 1);
      }
    }
  }

  lemma WalkEnds(ns: Namespace, comps: Path, makeParents: bool, newDir: nat, t: Namespace)
    requires Walked(ns, comps, makeParents, |comps|, newDir, t)
    ensures newDir == 0 && NamespaceSpec.MakeDir(ns, comps, makeParents) == (t, true)
  {
    assert comps[..|comps|] == comps;
  }

  lemma NoWayOn(ns: Namespace, comps: Path, i: nat)
    requires WellFormed(ns) && i + 1 < |comps| && !IsDir(ns, comps[..i + 1])
    ensures !IsDir(ns, Parent(comps))
  {
    if IsDir(ns, Parent(comps)) {
      assert Parent(comps)[..i + 1] == comps[..i + 1];
      PrefixClosed(ns, Parent(comps), i + 1);
    }
  }

  lemma RemovalStarts(at: map<Path, INode>, p: Path)
    requires TreeOk(at) && p != [] && p in at && Parent(p) in at
    ensures Parent(p) + [Last(p)] == p && [] in at && at[Parent(p)].path == Parent(p)
    ensures at[p].children == [] <==> View(at)[p].File? || View(at)[p].names == []
    ensures var k := Position(at[Parent(p)].children, Last(p));
            && k < |at[Parent(p)].children|
            && Removed(ShapeOf(at), Parent(p), k).Keys == Cut(at, p).Keys
            && ViewOf(Cut(at, p), Removed(ShapeOf(at), Parent(p), k)) == RemoveSubtree(View(at), p)
  {
    var shape := ShapeOf(at);
    assert Parent(p) + [Last(p)] == p;
    PositionOfChild(at, shape, Parent(p), Last(p));
    RemovedView(at, shape, Parent(p), Position(at[Parent(p)].children, Last(p)));
    assert StateOk(at[p].isDir, shape[p]);
  }

  lemma CutValues(at: map<Path, INode>, q: Path)
    requires q != [] && [] in at
    ensures Cut(at, q).Values <= at.Values
    ensures [] in Cut(at, q) && Cut(at, q)[[]] == at[[]]
  {
    assert !(q <= []);
  }

  lemma AddedKeepsRoot(at: map<Path, INode>, q: Path, n: INode)
    requires q != [] && [] in at
    ensures at[q := n].Values <= at.Values + {n}
    ensures at[q := n][[]] == at[[]]
  {
  }

  /** One step of a walk: the index of a directory answers for the path one component longer. */
  lemma StepDown(at: map<Path, INode>, shape: Shape, p: Path, name: string)
    requires ShapeOk(at, shape) && p in at
    ensures StateOk(at[p].isDir, shape[p])
    ensures name in Names(shape[p].children) <==> p + [name] in at
    ensures p + [name] in at ==> name in shape[p].childrenMap && shape[p].childrenMap[name] == at[p + [name]]
    ensures p + [name] in at ==> StateOk(at[p + [name]].isDir, shape[p + [name]])
  {
    assert p + [name] in at <==> Indexes(shape, p, name);
    if p + [name] in at {
      assert Linked(at, shape, p, name);
    }
  }
}
