/**
 * The visual tree of a glTF scene as the walkers see it: its nodes in
 * pre-order, and the triangle-list primitives of a mesh.
 */
module SceneTree {
  import opened Gltf
  import opened Lines

  /** The nodes of the tree under `n`: the node itself, then each child's tree in order. */
  function PreOrder(n: Node): (r: seq<Node>)
    decreases n, 1
    ensures r != [] && r[0] == n
  {
    [n] + PreOrderAll(n.visualChildren)
  }

  /** The trees of `ns`, one after the other. */
  function PreOrderAll(ns: seq<Node>): seq<Node>
    decreases ns, 0
  {
    if ns == [] then [] else PreOrder(ns[0]) + PreOrderAll(ns[1..])
  }

  lemma {:induction false} PreOrderAllSnoc(ns: seq<Node>, x: Node)
    ensures PreOrderAll(ns + [x]) == PreOrderAll(ns) + PreOrder(x)
  {
    if ns == [] {
      assert ns + [x] == [x];
      assert PreOrderAll([x]) == PreOrder(x) + PreOrderAll([]);
    } else {
      assert (ns + [x])[0] == ns[0] && (ns + [x])[1..] == ns[1..] + [x];
      PreOrderAllSnoc(ns[1..], x);
      AppendAssoc(PreOrder(ns[0]), PreOrderAll(ns[1..]), PreOrder(x));
    }
  }

  /** The triangle-list primitives, in order. */
  function Triangles(ps: seq<Primitive>): (r: seq<Primitive>)
    ensures |r| <= |ps|
    ensures forall i :: 0 <= i < |r| ==> r[i].drawPrimitiveType == TRIANGLES
  {
    if ps == [] then []
    else (if ps[0].drawPrimitiveType == TRIANGLES then [ps[0]] else []) + Triangles(ps[1..])
  }

  lemma {:induction false} TrianglesSnoc(ps: seq<Primitive>, p: Primitive)
    ensures Triangles(ps + [p]) == Triangles(ps) + (if p.drawPrimitiveType == TRIANGLES then [p] else [])
  {
    if ps == [] {
      assert ps + [p] == [p];
    } else {
      var head := if ps[0].drawPrimitiveType == TRIANGLES then [ps[0]] else [];
      var last := if p.drawPrimitiveType == TRIANGLES then [p] else [];
      assert (ps + [p])[0] == ps[0] && (ps + [p])[1..] == ps[1..] + [p];
      TrianglesSnoc(ps[1..], p);
      AppendAssoc(head, Triangles(ps[1..]), last);
    }
  }

  lemma {:induction false} TrianglesAppend(a: seq<Primitive>, b: seq<Primitive>)
    ensures Triangles(a + b) == Triangles(a) + Triangles(b)
  {
    if a == [] {
      assert a + b == b;
    } else {
      var head := if a[0].drawPrimitiveType == TRIANGLES then [a[0]] else [];
      assert (a + b)[0] == a[0] && (a + b)[1..] == a[1..] + b;
      TrianglesAppend(a[1..], b);
      AppendAssoc(head, Triangles(a[1..]), Triangles(b));
    }
  }

  /** One more primitive of a loop over a mesh adds it when it is a triangle list. */
  lemma TrianglesStep(ps: seq<Primitive>, j: nat)
    requires j < |ps|
    ensures Triangles(ps[..j + 1]) == Triangles(ps[..j]) + (if ps[j].drawPrimitiveType == TRIANGLES then [ps[j]] else [])
  {
    var front, next := ps[..j], ps[..j + 1];
    assert next == front + [ps[j]];
    TrianglesSnoc(front, ps[j]);
  }
}
