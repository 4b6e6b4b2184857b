/** The inode tree on the heap (filesystem/INode.cpp). Files and directories are one class
    with a kind. `at` is the ghost index of the whole tree: the node at every path. */
module INodes {
  import opened NamespaceSpec
  import opened Sets

  function Names(children: seq<INode>): (r: seq<string>)
    ensures |r| == |children| && forall k :: 0 <= k < |r| ==> r[k] == children[k].name
  {
    seq(|children|, k requires 0 <= k < |children| => children[k].name)
  }

  /** The fields of a node that change. */
  datatype State = State(parent: INode?, children: seq<INode>, childrenMap: map<string, INode>)

  /** What every node of a tree holds, by path. */
  type Shape = map<Path, State>

  /** The vector and the index of one directory agree, names are unique, files have no children. */
  ghost predicate StateOk(isDir: bool, s: State) {
    && (isDir || s.children == [])
    && Distinct(Names(s.children))
    && (forall name :: name in s.childrenMap <==> name in Names(s.children))
    && (forall k :: 0 <= k < |s.children| ==>
          s.children[k].name in s.childrenMap && s.childrenMap[s.children[k].name] == s.children[k])
  }

  ghost predicate Indexes(shape: Shape, p: Path, name: string) {
    p in shape && name in shape[p].childrenMap
  }

  /** `at` with the fields `shape` is the tree below its root: every node sits at its own path
      and is in order by itself, a path is there exactly when the node in front of it indexes
      its last component, and then the child points back. */
  ghost predicate ShapeOk(at: map<Path, INode>, shape: Shape) {
    && shape.Keys == at.Keys
    && [] in at && at[[]].isDir && at[[]].name == "/" && shape[[]].parent == at[[]]
    && (forall p :: p in at ==> at[p].path == p && StateOk(at[p].isDir, shape[p]))
    && (forall p, name :: p + [name] in at <==> Indexes(shape, p, name))
    && (forall p, name :: Indexes(shape, p, name) ==> p + [name] in at && Linked(at, shape, p, name))
  }

  ghost predicate Linked(at: map<Path, INode>, shape: Shape, p: Path, name: string)
    requires shape.Keys == at.Keys && Indexes(shape, p, name) && p + [name] in at
  {
    var child := at[p + [name]];
    shape[p].childrenMap[name] == child && shape[p + [name]].parent == at[p] && child.name == name && '/' !in name
  }

  ghost function StateOf(n: INode): State
    reads n
  {
    State(n.parent, n.children, n.childrenMap)
  }

  ghost function ShapeOf(at: map<Path, INode>): Shape
    reads at.Values
  {
    map p | p in at :: StateOf(at[p])
  }

  ghost predicate NodeOk(n: INode)
    reads n
  {
    StateOk(n.isDir, StateOf(n))
  }

  ghost predicate TreeOk(at: map<Path, INode>)
    reads at.Values
  {
    ShapeOk(at, ShapeOf(at))
  }

  ghost function InfoOf(n: INode, s: State): Info {
    if n.isDir then Dir(n.owner, Names(s.children)) else File(n.owner)
  }

  ghost function ViewOf(at: map<Path, INode>, shape: Shape): Namespace
    requires shape.Keys == at.Keys
  {
    map p | p in at :: InfoOf(at[p], shape[p])
  }

  /** The namespace a tree stands for. */
  ghost function View(at: map<Path, INode>): Namespace
    reads at.Values
  {
    ViewOf(at, ShapeOf(at))
  }

  /** The tree without `q` and what is below it. */
  ghost function Cut(at: map<Path, INode>, q: Path): map<Path, INode> {
    map p | p in at && !(q <= p) :: at[p]
  }

  /** The tree without what is below `q`. */
  ghost function CutBelow(at: map<Path, INode>, q: Path): map<Path, INode> {
    map p | p in at && !(q < p) :: at[p]
  }

  /** The fields after the node at `q` lost everything below it. */
  ghost function Emptied(shape: Shape, q: Path): Shape {
    map x | x in shape && !(q < x) :: if x == q then State(shape[x].parent, [], map[]) else shape[x]
  }

  /** The position of the child of that name, or the number of children. */
  function Position(children: seq<INode>, name: string): (k: nat)
    ensures k <= |children|
    ensures k < |children| ==> children[k].name == name
    ensures forall l :: 0 <= l < k ==> children[l].name != name
  {
    if children == [] || children[0].name == name then 0 else 1 + Position(children[1..], name)
  }

  /** How many nodes are at `q` or below: what the deleting recursion counts down. */
  ghost function Size(at: map<Path, INode>, q: Path): nat {
    |set p | p in at && q <= p|
  }

  lemma ViewWellFormed(at: map<Path, INode>, shape: Shape)
    requires ShapeOk(at, shape)
    ensures WellFormed(ViewOf(at, shape))
  {
    var ns := ViewOf(at, shape);
    forall p, name ensures p + [name] in ns <==> Lists(ns, p, name) {
      assert p + [name] in at <==> Indexes(shape, p, name);
      if p in at {
        assert StateOk(at[p].isDir, shape[p]);
      }
    }
    forall p | IsDir(ns, p) ensures Distinct(ns[p].names) {
      assert StateOk(at[p].isDir, shape[p]);
    }
  }

  /** A node without children has nothing below it. */
  lemma NothingBelow(at: map<Path, INode>, shape: Shape, q: Path)
    requires ShapeOk(at, shape) && q in at && shape[q].children == []
    ensures CutBelow(at, q) == at && Emptied(shape, q) == shape
  {
    ViewWellFormed(at, shape);
    assert shape[q].childrenMap == map[] by {
      assert StateOk(at[q].isDir, shape[q]);
    }
    forall p | p in at ensures !(q < p) {
      if q < p {
        var name := p[|q|];
        assert q + [name] == p[..|q| + 1];
        assert !Indexes(shape, q, name) by {
          assert StateOk(at[q].isDir, shape[q]);
        }
        PrefixClosed(ViewOf(at, shape), p, |q| + 1);
      }
    }
  }

  /** One more child, last in the vector of the directory and in its index. */
  ghost function Added(shape: Shape, p: Path, d: INode, child: INode): Shape
    requires p in shape
  {
    shape[p := State(shape[p].parent, shape[p].children + [child], shape[p].childrenMap[child.name := child])]
         [p + [child.name] := State(d, [], map[])]
  }

  lemma AddedState(isDir: bool, s: State, child: INode)
    requires isDir && StateOk(isDir, s) && child.name !in s.childrenMap
    ensures StateOk(isDir, State(s.parent, s.children + [child], s.childrenMap[child.name := child]))
    ensures Names(s.children + [child]) == Names(s.children) + [child.name]
  {
    assert Names(s.children + [child]) == Names(s.children) + [child.name];
    forall k | 0 <= k < |s.children| ensures s.children[k].name != child.name {
      assert s.children[k].name in s.childrenMap;
    }
  }

  lemma AddedShape(at: map<Path, INode>, shape: Shape, p: Path, child: INode)
    requires ShapeOk(at, shape) && p in at && at[p].isDir
    requires child.path == p + [child.name] && !Indexes(shape, p, child.name) && '/' !in child.name
    ensures ShapeOk(at[p + [child.name] := child], Added(shape, p, at[p], child))
  {
    var q := p + [child.name];
    var at', shape' := at[q := child], Added(shape, p, at[p], child);
    assert q !in at;
    AddedState(true, shape[p], child);
    assert StateOk(child.isDir, shape'[q]);
    forall x, name ensures x + [name] in at' <==> Indexes(shape', x, name) {
      OneLonger(x, name, p, child.name);
      assert x + [name] in at <==> Indexes(shape, x, name);
      if x == q {
        assert !Indexes(shape, q, name);
      }
    }
    forall x, name | Indexes(shape', x, name) ensures x + [name] in at' && Linked(at', shape', x, name) {
      OneLonger(x, name, p, child.name);
      if x + [name] != q {
        assert Indexes(shape, x, name);
        assert Linked(at, shape, x, name);
      }
    }
  }

  lemma AddedView(at: map<Path, INode>, shape: Shape, p: Path, child: INode)
    requires ShapeOk(at, shape) && p in at && at[p].isDir && !Indexes(shape, p, child.name)
    ensures ViewOf(at[p + [child.name] := child], Added(shape, p, at[p], child))
         == NamespaceSpec.AddChild(ViewOf(at, shape), p, child.name, InfoOf(child, State(at[p], [], map[])))
  {
    var v := ViewOf(at[p + [child.name] := child], Added(shape, p, at[p], child));
    var w := NamespaceSpec.AddChild(ViewOf(at, shape), p, child.name, InfoOf(child, State(at[p], [], map[])));
    AddedState(true, shape[p], child);
    assert v.Keys == w.Keys;
    forall x | x in v ensures v[x] == w[x] {
    }
  }

  /** The fields after the child at position `k` of the directory at `p` left with all it had. */
  ghost function Removed(shape: Shape, p: Path, k: nat): Shape
    requires p in shape && k < |shape[p].children|
  {
    var name := shape[p].children[k].name;
    map x | x in shape && !(p + [name] <= x) ::
      if x == p then
        State(shape[p].parent, shape[p].children[..k] + shape[p].children[k + 1..], shape[p].childrenMap - {name})
      else shape[x]
  }

  lemma RemovedIndex(s: State, k: nat)
    requires StateOk(true, s) && k < |s.children|
    ensures var name := s.children[k].name;
            var rest, rmap := s.children[..k] + s.children[k + 1..], s.childrenMap - {name};
            forall l :: 0 <= l < |rest| ==> rest[l].name in rmap && rmap[rest[l].name] == rest[l]
  {
    var name := s.children[k].name;
    var rest, rmap := s.children[..k] + s.children[k + 1..], s.childrenMap - {name};
    forall l | 0 <= l < |rest| ensures rest[l].name in rmap && rmap[rest[l].name] == rest[l] {
      var m := if l < k then l else l + 1;
      assert rest[l] == s.children[m];
      assert Names(s.children)[m] != Names(s.children)[k];
    }
  }

  lemma RemovedState(isDir: bool, s: State, k: nat)
    requires StateOk(isDir, s) && k < |s.children|
    ensures var name := s.children[k].name;
            && StateOk(isDir, State(s.parent, s.children[..k] + s.children[k + 1..], s.childrenMap - {name}))
            && Names(s.children[..k] + s.children[k + 1..]) == Without(Names(s.children), name)
            && name in s.childrenMap
  {
    var name := s.children[k].name;
    var rest, rmap := s.children[..k] + s.children[k + 1..], s.childrenMap - {name};
    RemovedIndex(s, k);
    NamesWithout(s.children, k);
    WithoutMembers(Names(s.children), name);
    var names := Names(rest);
    assert names == Without(Names(s.children), name) && name in s.childrenMap;
    forall x ensures x in rmap <==> x in names {
      assert x in s.childrenMap <==> x in Names(s.children);
    }
    assert Distinct(names);
  }

  lemma RemovedShape(at: map<Path, INode>, shape: Shape, p: Path, k: nat)
    requires ShapeOk(at, shape) && p in at && k < |shape[p].children|
    ensures p + [shape[p].children[k].name] in at
    ensures ShapeOk(Cut(at, p + [shape[p].children[k].name]), Removed(shape, p, k))
  {
    var name := shape[p].children[k].name;
    var q := p + [name];
    var at', shape' := Cut(at, q), Removed(shape, p, k);
    assert |p| < |q| && !(q <= p) && !(q <= []);
    RemovedState(at[p].isDir, shape[p], k);
    assert Indexes(shape, p, name);
    forall x, n ensures x + [n] in at' <==> Indexes(shape', x, n) {
      OneLonger(x, n, p, name);
      ExtendsOrEquals(q, x, n);
      assert x + [n] in at <==> Indexes(shape, x, n);
    }
    forall x, n | Indexes(shape', x, n) ensures x + [n] in at' && Linked(at', shape', x, n) {
      assert Indexes(shape, x, n) && Linked(at, shape, x, n);
    }
  }

  lemma RemovedView(at: map<Path, INode>, shape: Shape, p: Path, k: nat)
    requires ShapeOk(at, shape) && p in at && k < |shape[p].children|
    ensures var q := p + [shape[p].children[k].name];
            ViewOf(Cut(at, q), Removed(shape, p, k)) == RemoveSubtree(ViewOf(at, shape), q)
  {
    var name := shape[p].children[k].name;
    var q := p + [name];
    RemovedState(at[p].isDir, shape[p], k);
    var v := ViewOf(Cut(at, q), Removed(shape, p, k));
    var w := RemoveSubtree(ViewOf(at, shape), q);
    assert StateOk(at[p].isDir, shape[p]) && |p| < |q| && !(q <= p);
    assert Parent(q) == p && Last(q) == name;
    assert v.Keys == w.Keys;
    forall x | x in v ensures v[x] == w[x] {
    }
  }

  /** The node at a prefix of a path that is there carries the prefix's last component, and
      its parent is the node one component up; only the root is called "/". */
  lemma WayUp(at: map<Path, INode>, shape: Shape, p: Path, depth: nat)
    requires ShapeOk(at, shape) && p in at && depth <= |p|
    ensures p[..depth] in at
    ensures at[p[..depth]].IsRoot() <==> depth == 0
    ensures depth > 0 ==>
      var d, n := p[..depth - 1], at[p[..depth]];
      d in at && n.name == p[depth - 1] && shape[p[..depth]].parent == at[d]
      && Join(p[depth - 1..]) == if depth == |p| then n.name else n.name + "/" + Join(p[depth..])
    ensures depth == 0 && p != [] ==> at[[]].name + Join(p[depth..]) == "/" + Join(p)
  {
    ViewWellFormed(at, shape);
    PrefixClosed(ViewOf(at, shape), p, depth);
    if depth > 0 {
      var d := p[..depth - 1];
      assert d + [p[depth - 1]] == p[..depth];
      assert Indexes(shape, d, p[depth - 1]) && Linked(at, shape, d, p[depth - 1]);
      assert p[depth - 1..][1..] == p[depth..];
    } else {
      assert p[..0] == [] && p[0..] == p;
    }
  }

  lemma PositionOfChild(at: map<Path, INode>, shape: Shape, p: Path, name: string)
    requires ShapeOk(at, shape) && p in at && p + [name] in at
    ensures var k := Position(shape[p].children, name);
            k < |shape[p].children| && shape[p].children[k] == at[p + [name]]
  {
    var k := Position(shape[p].children, name);
    assert Indexes(shape, p, name) && Linked(at, shape, p, name);
    assert StateOk(at[p].isDir, shape[p]);
    assert name in Names(shape[p].children);
  }

  lemma ExtendsOnly(at: map<Path, INode>, p: Path, name: string)
    ensures forall x :: x in at && p + [name] <= x ==> p <= x && x != p
  {
    forall x | x in at && p + [name] <= x ensures p <= x && x != p {
      assert p == (p + [name])[..|p|] == x[..|p|];
    }
  }

  lemma CutAgain(at: map<Path, INode>, shape: Shape, p: Path, k: nat, at1: map<Path, INode>, shape1: Shape)
    requires shape.Keys == at.Keys && p in shape && k < |shape[p].children|
    requires var q := p + [shape[p].children[k].name];
             at1 == CutBelow(at, q) && (shape1 == shape || shape1 == Emptied(shape, q))
    requires p in shape1 && k < |shape1[p].children| && shape1[p] == shape[p]
    ensures Cut(at1, p + [shape[p].children[k].name]) == Cut(at, p + [shape[p].children[k].name])
    ensures Removed(shape1, p, k) == Removed(shape, p, k)
  {
  }

  lemma CutOne(rest: map<Path, INode>, s: Shape, p: Path, k: nat)
    requires s.Keys == rest.Keys && p in s && k < |s[p].children|
    ensures CutBelow(Cut(rest, p + [s[p].children[k].name]), p) == CutBelow(rest, p)
    ensures Emptied(Removed(s, p, k), p) == Emptied(s, p)
  {
    ExtendsOnly(rest, p, s[p].children[k].name);
  }

  lemma SizeBelow(at: map<Path, INode>, q: Path, name: string)
    requires q in at
    ensures Size(at, q + [name]) < Size(at, q)
  {
    var below := set p | p in at && q + [name] <= p;
    var all := set p | p in at && q <= p;
    assert q in all && q !in below;
    forall p | p in below ensures p in all {
      assert q == p[..|q|];
    }
    assert below < all;
    SubsetSmaller(below, all);
  }

  lemma SizeOfPart(at: map<Path, INode>, part: map<Path, INode>, q: Path)
    requires part.Keys <= at.Keys
    ensures Size(part, q) <= Size(at, q)
    ensures q in at && (exists p :: p in at && q <= p && p !in part) ==> Size(part, q) < Size(at, q)
  {
    var a := set p | p in part && q <= p;
    var b := set p | p in at && q <= p;
    assert a <= b;
    SubsetSize(a, b);
    if p :| p in at && q <= p && p !in part {
      assert p in b && p !in a;
      SubsetSmaller(a, b);
    }
  }

  lemma NamesWithout(children: seq<INode>, k: nat)
    requires k < |children| && Distinct(Names(children))
    ensures Names(children[..k] + children[k + 1..]) == Without(Names(children), children[k].name)
    decreases k
  {
    var names := Names(children);
    if k == 0 {
      assert Names(children[1..]) == names[1..];
    } else {
      assert names[0] != names[k];
      assert Names(children[1..]) == names[1..];
      NamesWithout(children[1..], k - 1);
      assert children[..k] + children[k + 1..] == [children[0]] + (children[1..][..k - 1] + children[1..][k..]);
      assert Names(children[..k] + children[k + 1..])
          == [children[0].name] + Names(children[1..][..k - 1] + children[1..][k..]);
    }
  }

  class INode {
    const name: string
    const owner: string
    const isDir: bool
    var parent: INode?
    var children: seq<INode>
    var childrenMap: map<string, INode>
    ghost const path: Path

    constructor (name: string, owner: string, isDir: bool, parent: INode?, ghost path: Path)
      ensures this.name == name && this.owner == owner && this.isDir == isDir && this.parent == parent
      ensures this.path == path && children == [] && childrenMap == map[]
    {
      this.name, this.owner, this.isDir, this.parent := name, owner, isDir, parent;
      this.children, this.childrenMap := [], map[];
      this.path := path;
    }

    predicate IsRoot() {
      isDir && name == "/"
    }

    /** The child of that name, or null. */
    function GetChild(childName: string): (child: INode?)
      reads this
      requires NodeOk(this)
      ensures child == null <==> childName !in Names(children)
      ensures child != null ==> child in children && child.name == childName
    {
      if childName in childrenMap then
        ghost var k :| 0 <= k < |children| && Names(children)[k] == childName;
        assert childrenMap[childName] == children[k];
        childrenMap[childName]
      else null
    }

    /** The names of the children in the order of the vector: exactly the keys of the index. */
    method ListDirName() returns (names: seq<string>)
      requires NodeOk(this)
      ensures names == Names(children)
      ensures forall x :: x in names <==> x in childrenMap
    {
      names := [];
      for k := 0 to |children|
        invariant names == Names(children)[..k]
      {
        names := names + [children[k].name];
      }
    }

    /** `child` becomes the last child: the vector, the index and the child's parent pointer change. */
    method AddChild(child: INode, ghost at: map<Path, INode>)
      requires TreeOk(at) && path in at && at[path] == this
      requires child !in at.Values && child.path == path + [child.name]
      requires child.children == [] && child.childrenMap == map[]
      modifies this, child
      ensures ShapeOf(at[child.path := child]) == Added(old(ShapeOf(at)), path, this, child)
    {
      ghost var shape := ShapeOf(at);
      assert at[path].path == path && child.path !in {path};
      if child.parent == null || child.parent != this {
        child.parent := this;
      }
      children := children + [child];
      childrenMap := childrenMap[child.name := child];
      ghost var shape' := ShapeOf(at[child.path := child]);
      forall p | p in shape' ensures shape'[p] == Added(shape, path, this, child)[p] {
        if p != path && p != child.path {
          assert at[p].path == p;
          assert at[p] in at.Values;
        }
      }
      assert shape'.Keys == Added(shape, path, this, child).Keys;
    }

    method CreateFile(fileName: string, ghost at: map<Path, INode>) returns (file: INode?)
      requires TreeOk(at) && path in at && at[path] == this && isDir && '/' !in fileName
      modifies this
      ensures file == null <==> path + [fileName] in at
      ensures file == null ==> TreeOk(at) && View(at) == old(View(at))
      ensures file != null ==> fresh(file) && !file.isDir && TreeOk(at[path + [fileName] := file])
      ensures file != null ==>
        View(at[path + [fileName] := file]) == NamespaceSpec.AddChild(old(View(at)), path, fileName, File(UNKNOWN))
    {
      assert StateOk(true, ShapeOf(at)[path]);
      assert path + [fileName] in at <==> Indexes(ShapeOf(at), path, fileName);
      if GetChild(fileName) != null {
        return null;
      }
      file := new INode(fileName, UNKNOWN, false, this, path + [fileName]);
      ghost var shape := ShapeOf(at);
      AddChild(file, at);
      AddedShape(at, shape, path, file);
      AddedView(at, shape, path, file);
    }

    method CreateDir(dirName: string, ghost at: map<Path, INode>) returns (dir: INode?)
      requires TreeOk(at) && path in at && at[path] == this && isDir && '/' !in dirName
      modifies this
      ensures dir == null <==> path + [dirName] in at
      ensures dir == null ==> TreeOk(at) && View(at) == old(View(at))
      ensures dir != null ==> fresh(dir) && dir.isDir && dir.path == path + [dirName]
      ensures dir != null ==> TreeOk(at[path + [dirName] := dir])
      ensures dir != null ==>
        View(at[path + [dirName] := dir]) == NamespaceSpec.AddChild(old(View(at)), path, dirName, Dir(UNKNOWN, []))
    {
      assert StateOk(true, ShapeOf(at)[path]);
      assert path + [dirName] in at <==> Indexes(ShapeOf(at), path, dirName);
      if GetChild(dirName) != null {
        return null;
      }
      dir := new INode(dirName, UNKNOWN, true, this, path + [dirName]);
      ghost var shape := ShapeOf(at);
      AddChild(dir, at);
      AddedShape(at, shape, path, dir);
      AddedView(at, shape, path, dir);
    }

    /** The named child leaves the vector and the index, with all it had, unless it is a
        directory that still has children and the call is not recursive. */
    method DeleteChild(childName: string, recursive: bool, ghost at: map<Path, INode>) returns (ok: bool)
      requires TreeOk(at) && path in at && at[path] == this && path + [childName] in at
      modifies set p | p in at && path <= p :: at[p]
      ensures ok <==> recursive || old(at[path + [childName]].children) == []
      ensures !ok ==> TreeOk(at) && ShapeOf(at) == old(ShapeOf(at))
      ensures ok ==> TreeOk(Cut(at, path + [childName]))
      ensures old(Position(children, childName) < |children|)
      ensures ok ==>
        ShapeOf(Cut(at, path + [childName])) == Removed(old(ShapeOf(at)), path, old(Position(children, childName)))
      decreases Size(at, path), 0
    {
      ghost var shape, q := ShapeOf(at), path + [childName];
      ghost var k0 := Position(children, childName);
      PositionOfChild(at, shape, path, childName);
      var k := 0;
      while children[k].name != childName
        invariant 0 <= k <= k0
        decreases k0 - k
      {
        k := k + 1;
      }
      assert k == k0;
      var child := children[k];
      assert child == at[q];
      ghost var at1, shape1 := at, shape;
      if child.isDir && child.children != [] {
        if !recursive {
          return false;
        }
        SizeBelow(at, path, childName);
        ExtendsOnly(at, path, childName);
        var emptied := child.DeleteAllChild(at);
        if !emptied {
          assert false;
        }
        at1, shape1 := CutBelow(at, q), Emptied(shape, q);
      } else {
        assert child.children == [] by { assert StateOk(child.isDir, shape[q]); }
        NothingBelow(at, shape, q);
      }
      assert ShapeOf(at1) == shape1 && ShapeOk(at1, shape1);
      assert !(q < path) && shape1[path] == shape[path];
      CutAgain(at, shape, path, k, at1, shape1);
      RemovedShape(at1, shape1, path, k);
      Detach(k, at1);
      return true;
    }

    /** The erase from the vector and from the index. */
    method Detach(k: nat, ghost at: map<Path, INode>)
      requires (forall p :: p in at ==> at[p].path == p) && path in at && at[path] == this && k < |children|
      modifies this`children, this`childrenMap
      ensures ShapeOf(Cut(at, path + [old(children[k].name)])) == Removed(old(ShapeOf(at)), path, k)
    {
      ghost var shape := ShapeOf(at);
      var name := children[k].name;
      children := children[..k] + children[k + 1..];
      childrenMap := childrenMap - {name};
      assert ShapeOf(Cut(at, path + [name])) == Removed(shape, path, k);
    }

    /** The children go from the front until none is left; this never fails. */
    method DeleteAllChild(ghost at: map<Path, INode>) returns (ok: bool)
      requires TreeOk(at) && path in at && at[path] == this
      modifies set p | p in at && path <= p :: at[p]
      ensures ok
      ensures TreeOk(CutBelow(at, path))
      ensures ShapeOf(CutBelow(at, path)) == Emptied(old(ShapeOf(at)), path)
      decreases Size(at, path), 2
    {
      ghost var shape, rest := ShapeOf(at), at;
      while children != []
        invariant rest.Keys <= at.Keys && forall p :: p in rest ==> rest[p] == at[p]
        invariant path in rest && TreeOk(rest) && CutBelow(rest, path) == CutBelow(at, path)
        invariant Emptied(ShapeOf(rest), path) == Emptied(shape, path)
        decreases Size(rest, path)
      {
        SizeOfPart(at, rest, path);
        ghost var less := Cut(rest, path + [children[0].name]);
        var deleted := DeleteFront(rest);
        if !deleted {
          assert false;
        }
        rest := less;
      }
      NothingBelow(rest, ShapeOf(rest), path);
      return true;
    }

    method DeleteFront(ghost at: map<Path, INode>) returns (ok: bool)
      requires TreeOk(at) && path in at && at[path] == this && children != []
      modifies set p | p in at && path <= p :: at[p]
      ensures ok
      ensures var less := Cut(at, path + [old(children[0].name)]);
              && TreeOk(less) && path in less && Size(less, path) < Size(at, path)
              && CutBelow(less, path) == CutBelow(at, path)
              && Emptied(ShapeOf(less), path) == Emptied(old(ShapeOf(at)), path)
      decreases Size(at, path), 1
    {
      ghost var name, shape := children[0].name, ShapeOf(at);
      assert StateOk(isDir, shape[path]) && Indexes(shape, path, name);
      CutOne(at, shape, path, 0);
      assert !(path + [name] <= path);
      SizeOfPart(at, Cut(at, path + [name]), path);
      ok := DeleteChild(children[0].name, true, at);
    }

    /** The path of a file from its name and the upward walk over the parents to the root. */
    method ToFileInfo(ghost at: map<Path, INode>) returns (infoPath: string, creator: string)
      requires TreeOk(at) && path in at && at[path] == this && path != []
      ensures infoPath == "/" + Join(path) && creator == owner
    {
      ghost var depth := |path| - 1;
      assert path[..|path|] == path && path[|path| - 1..] == [name] by {
        WayUp(at, ShapeOf(at), path, |path|);
      }
      WayUp(at, ShapeOf(at), path, |path|);
      infoPath := name;
      var p := parent;
      while p != null
        invariant 0 <= depth < |path| && path[..depth] in at && p == at[path[..depth]]
        invariant infoPath == Join(path[depth..])
        decreases depth
      {
        if !p.IsRoot() {
          WayUp(at, ShapeOf(at), path, depth);
          infoPath := p.name + "/" + infoPath;
        } else {
          WayUp(at, ShapeOf(at), path, depth);
          infoPath := p.name + infoPath;
          break;
        }
        p := p.parent;
        depth := depth - 1;
      }
      return infoPath, owner;
    }
  }
}
