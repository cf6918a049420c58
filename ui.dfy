/** The UI tree owned by the UI manager and its documented draw order.
    Layout, textures and the manager's input handling are not part of this
    model; the draw traversal itself is in module Rendering. */
module UI {
  import opened Common

  /** A UI object: whether it accepts input, and its subobjects in drawing
      order. */
  datatype UIObject = UIObject(acceptsInput: bool, subobjects: seq<UIObject>)

  /** A node of a UI tree, named by the child indices leading to it from the
      root; the root itself is `[]`. */
  type Path = seq<nat>

  /** Identifies the data a UI panel shows. */
  type UIDataId = nat

  predicate ValidPath(o: UIObject, p: Path)
    decreases |p|
  {
    |p| == 0 || (p[0] < |o.subobjects| && ValidPath(o.subobjects[p[0]], p[1..]))
  }

  function NodeAt(o: UIObject, p: Path): UIObject
    requires ValidPath(o, p)
    decreases |p|
  {
    if |p| == 0 then o else NodeAt(o.subobjects[p[0]], p[1..])
  }

  /** The order the documentation gives: a node comes before everything below
      it, and everything below an earlier subobject comes before everything
      below a later one. On paths this is lexicographic order with a proper
      prefix first. */
  predicate PathLess(p: Path, q: Path)
    ensures PathLess(p, q) ==> p != q
  {
    if |p| == 0 then |q| > 0
    else if |q| == 0 then false
    else if p[0] != q[0] then p[0] < q[0]
    else PathLess(p[1..], q[1..])
  }

  lemma {:induction false} PathLessIrreflexive(p: Path)
    ensures !PathLess(p, p)
  {
    if |p| > 0 {
      PathLessIrreflexive(p[1..]);
    }
  }

  lemma {:induction false} PathLessAsymmetric(p: Path, q: Path)
    ensures PathLess(p, q) ==> !PathLess(q, p)
  {
    if |p| > 0 && |q| > 0 && p[0] == q[0] {
      PathLessAsymmetric(p[1..], q[1..]);
    }
  }

  lemma PathLessUnderPrefix(k: nat, p: Path, q: Path)
    ensures PathLess([k] + p, [k] + q) == PathLess(p, q)
  {
    assert ([k] + p)[1..] == p && ([k] + q)[1..] == q;
  }

  lemma ValidPathUnderPrefix(o: UIObject, k: nat, p: Path)
    ensures ValidPath(o, [k] + p) <==> k < |o.subobjects| && ValidPath(o.subobjects[k], p)
  {
    assert ([k] + p)[1..] == p;
  }

  /** The documented rule, stated on paths: a node is drawn before its
      subobjects, and all of an earlier subobject's tree is drawn before a
      later subobject. */
  lemma {:induction false} DocumentedOrderIsPathLess(s: Path, i: nat, j: nat, x: Path, y: Path)
    ensures x != [] ==> PathLess(s, s + x)
    ensures i < j ==> PathLess(s + [i] + x, s + [j] + y)
  {
    if s != [] {
      DocumentedOrderIsPathLess(s[1..], i, j, x, y);
      assert (s + x)[1..] == s[1..] + x;
      assert (s + [i] + x)[1..] == s[1..] + [i] + x;
      assert (s + [j] + y)[1..] == s[1..] + [j] + y;
    }
  }

  /** A node's path being valid makes every prefix of it valid. */
  lemma {:induction false} ValidPathPrefix(o: UIObject, p: Path, x: Path)
    requires ValidPath(o, p + x)
    ensures ValidPath(o, p)
    decreases |p|
  {
    if p != [] {
      assert (p + x)[1..] == p[1..] + x;
      ValidPathPrefix(o.subobjects[p[0]], p[1..], x);
    }
  }

  class UIManager {
    /** The root of all drawn UI objects. */
    var root: UIObject
    /** The hovered object, if any. */
    var hoveredObject: Option<Path>
    /** The data shown by the active panel. */
    var activeData: Option<UIDataId>

    /** Only an object that accepts input can be hovered. */
    ghost predicate Valid()
      reads this
    {
      hoveredObject.Some? ==>
        ValidPath(root, hoveredObject.value) && NodeAt(root, hoveredObject.value).acceptsInput
    }

    constructor (root: UIObject)
      ensures Valid()
      ensures this.root == root && hoveredObject == None && activeData == None
    {
      this.root := root;
      hoveredObject := None;
      activeData := None;
    }

    method SetActiveData(data: Option<UIDataId>)
      requires Valid()
      modifies this
      ensures Valid()
      ensures activeData == data && root == old(root) && hoveredObject == old(hoveredObject)
    {
      activeData := data;
    }
  }
}
