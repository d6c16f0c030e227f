/**
 * The child search of LVRGameUtils. A GameObject is a name and its
 * children in transform order; a node of the tree is identified by its
 * path, the child indices taken from the root, so "the object returned" is
 * the path to it and a C# null is `None`.
 */
module GameUtils {
  import opened Wrappers

  /** A GameObject: its name and the GameObjects of its child transforms, in order. */
  datatype GameObject = GameObject(name: string, children: seq<GameObject>)

  /** A node of a tree, as the child indices leading to it from the root. */
  type Path = seq<nat>

  /** The node at `p` below `obj`, or None when `p` leads nowhere. */
  function At(obj: GameObject, p: Path): Option<GameObject>
    decreases p
  {
    if p == [] then Some(obj)
    else if p[0] < |obj.children| then At(obj.children[p[0]], p[1..])
    else None
  }

  /** Whether `p` names a node of `obj`'s tree called `name`. */
  predicate NamedAt(obj: GameObject, p: Path, name: string)
  {
    At(obj, p).Some? && At(obj, p).value.name == name
  }

  /**
   * FindChildNoWarning: the object itself when its name matches; otherwise
   * the first child subtree, in order, that holds a match decides; None
   * when none does.
   */
  function FindChildNoWarning(obj: GameObject, name: string): (r: Option<Path>)
    ensures r.Some? ==> NamedAt(obj, r.value, name)
    decreases obj, 1
  {
    if obj.name == name then Some([])
    else FindInChildren(obj, 0, name)
  }

  /** The `foreach` over the children from position `i` on, returning the first non-null result. */
  function FindInChildren(obj: GameObject, i: nat, name: string): (r: Option<Path>)
    ensures r.Some? ==> |r.value| > 0 && NamedAt(obj, r.value, name)
    decreases obj, 0, |obj.children| - i
  {
    if i >= |obj.children| then None
    else
      match FindChildNoWarning(obj.children[i], name)
      case Some(p) =>
        assert At(obj, [i] + p) == At(obj.children[i], p) by { assert ([i] + p)[1..] == p; }
        Some([i] + p)
      case None => FindInChildren(obj, i + 1, name)
  }

  /** FindChild: FindChildNoWarning's result, and the warning printed when it is null. */
  function FindChild(obj: GameObject, name: string): (r: (Option<Path>, seq<string>))
    ensures r.0 == FindChildNoWarning(obj, name)
    ensures r.1 == (if r.0.None? then ["child " + name + " was not found!"] else [])
  {
    var go := FindChildNoWarning(obj, name);
    (go, if go == None then ["child " + name + " was not found!"] else [])
  }

  // ---------------------------------------------------------------------
  // Reference definition: the nodes in depth-first pre-order
  // ---------------------------------------------------------------------

  /** Every path of `ps` with `i` put in front. */
  function Prefixed(i: nat, ps: seq<Path>): (r: seq<Path>)
    ensures |r| == |ps|
    ensures forall k :: 0 <= k < |ps| ==> r[k] == [i] + ps[k]
  {
    if ps == [] then [] else [[i] + ps[0]] + Prefixed(i, ps[1..])
  }

  /** The nodes of `obj`'s tree in depth-first pre-order: the root, then each child's subtree in order. */
  function PreOrder(obj: GameObject): seq<Path>
    decreases obj, 1
  {
    [[]] + PreOrderFrom(obj, 0)
  }

  /** The pre-order of the subtrees of the children from position `i` on. */
  function PreOrderFrom(obj: GameObject, i: nat): seq<Path>
    decreases obj, 0, |obj.children| - i
  {
    if i >= |obj.children| then []
    else Prefixed(i, PreOrder(obj.children[i])) + PreOrderFrom(obj, i + 1)
  }

  /** The first path of `ps` that names a node of `obj`'s tree called `name`. */
  function FirstNamed(obj: GameObject, ps: seq<Path>, name: string): Option<Path>
  {
    if ps == [] then None
    else if NamedAt(obj, ps[0], name) then Some(ps[0])
    else FirstNamed(obj, ps[1..], name)
  }

  lemma {:induction false} FirstNamedAppend(obj: GameObject, a: seq<Path>, b: seq<Path>, name: string)
    ensures FirstNamed(obj, a + b, name) ==
      if FirstNamed(obj, a, name).Some? then FirstNamed(obj, a, name) else FirstNamed(obj, b, name)
  {
    if a == [] {
      assert a + b == b;
    } else {
      assert (a + b)[0] == a[0];
      assert (a + b)[1..] == a[1..] + b;
      FirstNamedAppend(obj, a[1..], b, name);
    }
  }

  lemma {:induction false} FirstNamedPrefixed(obj: GameObject, i: nat, ps: seq<Path>, name: string)
    requires i < |obj.children|
    ensures FirstNamed(obj, Prefixed(i, ps), name) ==
      match FirstNamed(obj.children[i], ps, name)
      case Some(p) => Some([i] + p)
      case None => None
  {
    if ps != [] {
      var q := Prefixed(i, ps);
      assert q[0] == [i] + ps[0];
      assert ([i] + ps[0])[1..] == ps[0];
      assert q[1..] == Prefixed(i, ps[1..]);
      FirstNamedPrefixed(obj, i, ps[1..], name);
    }
  }

  /** The search returns the first node in depth-first pre-order that carries the name. */
  lemma {:induction false} FindIsFirstInPreOrder(obj: GameObject, name: string)
    ensures FindChildNoWarning(obj, name) == FirstNamed(obj, PreOrder(obj), name)
    decreases obj, 1
  {
    var ps := PreOrder(obj);
    assert ps[0] == [] && ps[1..] == PreOrderFrom(obj, 0);
    if obj.name != name {
      FindInChildrenIsFirst(obj, 0, name);
    }
  }

  lemma {:induction false} FindInChildrenIsFirst(obj: GameObject, i: nat, name: string)
    ensures FindInChildren(obj, i, name) == FirstNamed(obj, PreOrderFrom(obj, i), name)
    decreases obj, 0, |obj.children| - i
  {
    if i < |obj.children| {
      var c := obj.children[i];
      FindIsFirstInPreOrder(c, name);
      FirstNamedAppend(obj, Prefixed(i, PreOrder(c)), PreOrderFrom(obj, i + 1), name);
      FirstNamedPrefixed(obj, i, PreOrder(c), name);
      FindInChildrenIsFirst(obj, i + 1, name);
    }
  }

  /** When the root carries the name it is the result, whatever its children. */
  lemma RootFirst(obj: GameObject, name: string)
    requires obj.name == name
    ensures FindChildNoWarning(obj, name) == Some([])
  {
  }

  /** The search finds nothing exactly when no node of the tree carries the name. */
  lemma {:induction false} NotFoundIffAbsent(obj: GameObject, name: string)
    ensures FindChildNoWarning(obj, name).None? <==> forall p :: !NamedAt(obj, p, name)
  {
    if FindChildNoWarning(obj, name).None? {
      forall p
        ensures !NamedAt(obj, p, name)
      {
        AbsentAlong(obj, p, name);
      }
    }
  }

  lemma {:induction false} AbsentAlong(obj: GameObject, p: Path, name: string)
    requires FindChildNoWarning(obj, name).None?
    ensures !NamedAt(obj, p, name)
    decreases p
  {
    if p != [] && p[0] < |obj.children| {
      NoneInChildren(obj, 0, p[0], name);
      AbsentAlong(obj.children[p[0]], p[1..], name);
    }
  }

  lemma {:induction false} NoneInChildren(obj: GameObject, i: nat, j: nat, name: string)
    requires i <= j < |obj.children|
    requires FindInChildren(obj, i, name).None?
    ensures FindChildNoWarning(obj.children[j], name).None?
    decreases j - i
  {
    if i < j {
      NoneInChildren(obj, i + 1, j, name);
    }
  }
}
