/**
 * The prototype converter at the repository root (Program.cs): it walks the
 * default scene of a glTF model and appends, for every triangle-list
 * primitive it meets, one self-contained `def Xform "root"` block holding a
 * `def Mesh "quad"` to a StringBuilder that starts with the `#usda 1.0`
 * line. A triangle primitive without a POSITION accessor makes the walk
 * throw, and the program ends without output.
 *
 * The text is first given as functions on values (which primitives the walk
 * visits, and the block each one gets); `Process` then appends it line by
 * line and is proved to append exactly that text.
 */
module ProgramWalker {
  import opened Wrappers
  import opened Text
  import opened Numerics
  import opened UsdzUtils
  import opened Gltf
  import opened Collections
  import opened Lines
  import opened SceneTree

  /** A triangle-list primitive together with the node whose mesh holds it. */
  datatype Placed = Placed(node: Node, primitive: Primitive)

  // ---------------------------------------------------------------------------
  // The block of one primitive
  // ---------------------------------------------------------------------------

  /** `$"({v.X:F3}, {v.Y:F3}, {v.Z:F3})"`. */
  function F3Text(v: Vec3): string
  {
    "(" + FormatFixed(v.x, 3) + ", " + FormatFixed(v.y, 3) + ", " + FormatFixed(v.z, 3) + ")"
  }

  function F3Texts(vs: seq<Vec3>): (r: seq<string>)
    ensures |r| == |vs| && forall i :: 0 <= i < |vs| ==> r[i] == F3Text(vs[i])
  {
    seq(|vs|, i requires 0 <= i < |vs| => F3Text(vs[i]))
  }

  /** The points array: the F3 tuples joined by "," with no space. */
  function PointsText(vs: seq<Vec3>): string
  {
    "[" + Join(",", F3Texts(vs)) + "]"
  }

  const KHeader := "#usda "
  const KXform := "def Xform "
  const KTranslate := "    double3 xformOp:translate = "
  const KQuad := "    def Mesh "
  const KPoints := "        point3f[] points = "
  const KFaceIndices := "        int[] faceVertexIndices = "
  const KFaceCounts := "        int[] faceVertexCounts = "
  const KOpOrder := "    uniform token[] xformOpOrder = "

  /** The opening of the block's `def Xform "root"`, with its translation op. */
  function XformOpen(translate: string): seq<string>
  {
    [ "",
      KXform + "\"root\"",
      "{",
      KTranslate + translate,
      KOpOrder + "[\"xformOp: translate\"]",
      "" ]
  }

  /** The `def Mesh "quad"` inside it. */
  function QuadMesh(points: string, indices: string, counts: string): seq<string>
  {
    [ KQuad + "\"quad\"",
      "    {",
      KPoints + points,
      KFaceIndices + indices,
      KFaceCounts + counts,
      "    }" ]
  }

  /** The thirteen lines appended for one triangle primitive, given the four
      texts they interpolate. */
  function QuadLines(translate: string, points: string, indices: string, counts: string): seq<string>
  {
    XformOpen(translate) + QuadMesh(points, indices, counts) + ["}"]
  }

  /** The vertex positions of a primitive; only read for primitives that have them. */
  function PositionsOf(p: Primitive): seq<Vec3>
  {
    if p.position.Some? then p.position.value else []
  }

  /**
   * The block of a primitive: the translation of its node's world matrix
   * (what `Matrix4x4.Decompose` returns as `translation`), its points, its
   * indices and one face count of 3 per whole triangle. It is listed line by
   * line, so that reasoning about many blocks at once does not unfold their
   * text; `BlockLines` gives it as the thirteen lines above.
   */
  function Block(pl: Placed): (r: seq<string>)
    ensures |r| == 13
  {
    seq(13, k requires 0 <= k < 13 =>
      QuadLines(F3Text(Translation(pl.node.worldMatrix)), PointsText(PositionsOf(pl.primitive)),
                IndexArrayText(pl.primitive.indices), IndexArrayText(Repeat(3, |pl.primitive.indices| / 3)))[k])
  }

  lemma BlockLines(pl: Placed)
    ensures Block(pl) == QuadLines(F3Text(Translation(pl.node.worldMatrix)), PointsText(PositionsOf(pl.primitive)),
                                   IndexArrayText(pl.primitive.indices), IndexArrayText(Repeat(3, |pl.primitive.indices| / 3)))
  {
  }

  function Blocks(pls: seq<Placed>): seq<string>
  {
    if pls == [] then [] else Block(pls[0]) + Blocks(pls[1..])
  }

  // ---------------------------------------------------------------------------
  // What the walk visits
  // ---------------------------------------------------------------------------

  function PlacedAt(n: Node, ps: seq<Primitive>): (r: seq<Placed>)
    ensures |r| == |ps| && forall i :: 0 <= i < |ps| ==> r[i] == Placed(n, ps[i])
  {
    seq(|ps|, i requires 0 <= i < |ps| => Placed(n, ps[i]))
  }

  /** The triangle primitives of a node's own mesh, in mesh order. */
  function OwnPlaced(n: Node): (r: seq<Placed>)
    ensures forall i :: 0 <= i < |r| ==> r[i].node == n && r[i].primitive.drawPrimitiveType == TRIANGLES
  {
    if n.mesh.Some? then PlacedAt(n, Triangles(n.mesh.value.primitives)) else []
  }

  /** `Process` on a node: its own triangle primitives, then its children's. */
  function NodePlaced(n: Node): seq<Placed>
    decreases n, 1
  {
    OwnPlaced(n) + ChildrenPlaced(n.visualChildren)
  }

  function ChildrenPlaced(ns: seq<Node>): seq<Placed>
    decreases ns, 0
  {
    if ns == [] then [] else NodePlaced(ns[0]) + ChildrenPlaced(ns[1..])
  }

  /** A scene is not a `Node`, so `Process` on it only recurses into its children. */
  function ContainerPlaced(v: VisualNodeContainer): seq<Placed>
  {
    match v
    case SceneContainer(s) => ChildrenPlaced(s.visualChildren)
    case NodeContainer(n) => NodePlaced(n)
  }

  /** Every visited triangle primitive has a POSITION accessor. */
  predicate Positioned(pls: seq<Placed>)
  {
    forall i :: 0 <= i < |pls| ==> pls[i].primitive.position.Some?
  }

  /**
   * The text Program.cs builds from a model: the `#usda 1.0` line, then the
   * blocks of the default scene's walk, or the NullReferenceException that
   * `AsVector3Array` throws on the missing POSITION accessor of a visited
   * triangle primitive.
   */
  function ProgramOutput(scene: Scene): Result<seq<string>>
  {
    var pls := ContainerPlaced(SceneContainer(scene));
    if Positioned(pls) then Ok(["#usda 1.0"] + Blocks(pls)) else Err(NullReference)
  }

  // ---------------------------------------------------------------------------
  // The program and its walker
  // ---------------------------------------------------------------------------

  /** The top-level statements of Program.cs up to the file write. */
  method Run(model: ModelRoot) returns (r: Result<seq<string>>)
    ensures r == ProgramOutput(model.defaultScene)
  {
    var sb := new LineWriter();
    sb.WriteLine("#usda 1.0");
    assert sb.lines == ["#usda 1.0"];
    var outcome := Process(SceneContainer(model.defaultScene), sb);
    if outcome.Err? {
      return Err(outcome.error);
    }
    return Ok(sb.lines);
  }

  /** `Process`: a node's triangle blocks, then every child's, depth first. */
  method Process(visual: VisualNodeContainer, sb: LineWriter) returns (outcome: Result<()>)
    modifies sb
    decreases visual.VisualChildren(), 2
    ensures outcome.Ok? <==> Positioned(ContainerPlaced(visual))
    ensures outcome.Err? ==> outcome.error == NullReference
    ensures outcome.Ok? ==> sb.lines == old(sb.lines) + Blocks(ContainerPlaced(visual))
  {
    if visual.NodeContainer? {
      outcome := ProcessNode(visual.node, sb);
    } else {
      outcome := ProcessChildren(visual.scene.visualChildren, sb);
    }
  }

  /** `Process` on a node: its mesh's blocks, unless a primitive lacks POSITION, then its children's. */
  method ProcessNode(node: Node, sb: LineWriter) returns (outcome: Result<()>)
    modifies sb
    decreases node.visualChildren, 1
    ensures outcome.Ok? <==> Positioned(NodePlaced(node))
    ensures outcome.Err? ==> outcome.error == NullReference
    ensures outcome.Ok? ==> sb.lines == old(sb.lines) + Blocks(NodePlaced(node))
  {
    ghost var start := sb.lines;
    if node.mesh.Some? {
      outcome := ProcessPrimitives(node, node.mesh.value.primitives, sb);
      if outcome.Err? {
        PositionedAppend(OwnPlaced(node), ChildrenPlaced(node.visualChildren));
        return;
      }
    }
    outcome := ProcessChildren(node.visualChildren, sb);
    PositionedAppend(OwnPlaced(node), ChildrenPlaced(node.visualChildren));
    if outcome.Ok? {
      BlocksAppend(OwnPlaced(node), ChildrenPlaced(node.visualChildren));
      AppendAssoc(start, Blocks(OwnPlaced(node)), Blocks(ChildrenPlaced(node.visualChildren)));
    }
  }

  /** The `foreach (var child in visualNode.VisualChildren)` loop. */
  method ProcessChildren(children: seq<Node>, sb: LineWriter) returns (outcome: Result<()>)
    modifies sb
    decreases children, 0
    ensures outcome.Ok? <==> Positioned(ChildrenPlaced(children))
    ensures outcome.Err? ==> outcome.error == NullReference
    ensures outcome.Ok? ==> sb.lines == old(sb.lines) + Blocks(ChildrenPlaced(children))
  {
    ghost var start := sb.lines;
    var c := 0;
    while c < |children|
      invariant 0 <= c <= |children|
      invariant Positioned(ChildrenPlaced(children[..c]))
      invariant sb.lines == start + Blocks(ChildrenPlaced(children[..c]))
    {
      ghost var before := ChildrenPlaced(children[..c]);
      var child := children[c];
      outcome := ProcessNode(child, sb);
      ChildrenPlacedStep(children, c);
      PositionedAppend(before, NodePlaced(child));
      if outcome.Err? {
        ChildrenPlacedPrefix(children, c + 1);
        return;
      }
      BlocksAppend(before, NodePlaced(child));
      AppendAssoc(start, Blocks(before), Blocks(NodePlaced(child)));
      c := c + 1;
    }
    assert children[..c] == children;
    outcome := Ok(());
  }

  /** The `foreach (var primitive in node.Mesh.Primitives)` loop. */
  method ProcessPrimitives(node: Node, ps: seq<Primitive>, sb: LineWriter) returns (outcome: Result<()>)
    modifies sb
    ensures outcome.Ok? <==> Positioned(PlacedAt(node, Triangles(ps)))
    ensures outcome.Err? ==> outcome.error == NullReference
    ensures outcome.Ok? ==> sb.lines == old(sb.lines) + Blocks(PlacedAt(node, Triangles(ps)))
  {
    ghost var start := sb.lines;
    ghost var done: seq<Placed> := [];
    var j := 0;
    while j < |ps|
      invariant 0 <= j <= |ps|
      invariant done == PlacedAt(node, Triangles(ps[..j]))
      invariant Positioned(done)
      invariant sb.lines == start + Blocks(done)
    {
      var primitive := ps[j];
      TrianglesStep(ps, j);
      if primitive.drawPrimitiveType == TRIANGLES {
        if primitive.position.None? {
          MissingPosition(node, ps, j);
          return Err(NullReference);
        }
        WriteQuad(node, primitive, sb);
        ghost var placed := Placed(node, primitive);
        PlacedAtAppend(node, Triangles(ps[..j]), [primitive]);
        PositionedAppend(done, [placed]);
        BlocksAppend(done, [placed]);
        assert Blocks([placed]) == Block(placed) + Blocks([]);
        AppendAssoc(start, Blocks(done), Block(placed));
        done := done + [placed];
      } else {
        assert Triangles(ps[..j]) + [] == Triangles(ps[..j]);
      }
      j := j + 1;
    }
    assert ps[..j] == ps;
    outcome := Ok(());
  }

  /** The body of the TRIANGLES branch, once the POSITION accessor is known to exist. */
  method WriteQuad(node: Node, primitive: Primitive, sb: LineWriter)
    requires primitive.position.Some?
    modifies sb
    ensures sb.lines == old(sb.lines) + Block(Placed(node, primitive))
  {
    ghost var s0 := sb.lines;
    var translation := Translation(node.worldMatrix);
    var indices := primitive.indices;
    var vertices := primitive.position.value;
    WriteXformOpen(translation, sb);
    WriteQuadMesh(vertices, indices, sb);
    sb.WriteLine("}");
    BlockLines(Placed(node, primitive));
    AppendAssoc(s0, XformOpen(F3Text(translation)), QuadMesh(PointsText(vertices), IndexArrayText(indices), IndexArrayText(Repeat(3, |indices| / 3))));
  }

  method WriteXformOpen(translation: Vec3, sb: LineWriter)
    modifies sb
    ensures sb.lines == old(sb.lines) + XformOpen(F3Text(translation))
  {
    sb.WriteLine("");
    sb.WriteLine(KXform + "\"root\"");
    sb.WriteLine("{");
    sb.WriteLine(KTranslate + F3Text(translation));
    sb.WriteLine(KOpOrder + "[\"xformOp: translate\"]");
    sb.WriteLine("");
  }

  method WriteQuadMesh(vertices: seq<Vec3>, indices: seq<uint32>, sb: LineWriter)
    modifies sb
    ensures sb.lines == old(sb.lines) + QuadMesh(PointsText(vertices), IndexArrayText(indices), IndexArrayText(Repeat(3, |indices| / 3)))
  {
    sb.WriteLine(KQuad + "\"quad\"");
    sb.WriteLine("    {");
    sb.WriteLine(KPoints + PointsText(vertices));
    sb.WriteLine(KFaceIndices + IndexArrayText(indices));
    sb.WriteLine(KFaceCounts + IndexArrayText(Repeat(3, |indices| / 3)));
    sb.WriteLine("    }");
  }

  // ---------------------------------------------------------------------------
  // Lemmas the walker's proof uses
  // ---------------------------------------------------------------------------

  lemma PositionedAppend(a: seq<Placed>, b: seq<Placed>)
    ensures Positioned(a + b) <==> Positioned(a) && Positioned(b)
  {
    assert forall i :: 0 <= i < |a| ==> (a + b)[i] == a[i];
    assert forall i :: 0 <= i < |b| ==> (a + b)[|a| + i] == b[i];
  }

  lemma {:induction false} BlocksAppend(a: seq<Placed>, b: seq<Placed>)
    ensures Blocks(a + b) == Blocks(a) + Blocks(b)
  {
    if a == [] {
      assert a + b == b;
    } else {
      assert (a + b)[0] == a[0] && (a + b)[1..] == a[1..] + b;
      BlocksAppend(a[1..], b);
      AppendAssoc(Block(a[0]), Blocks(a[1..]), Blocks(b));
    }
  }

  lemma PlacedAtAppend(n: Node, a: seq<Primitive>, b: seq<Primitive>)
    ensures PlacedAt(n, a + b) == PlacedAt(n, a) + PlacedAt(n, b)
  {
  }

  lemma {:induction false} ChildrenPlacedAppend(a: seq<Node>, b: seq<Node>)
    ensures ChildrenPlaced(a + b) == ChildrenPlaced(a) + ChildrenPlaced(b)
  {
    if a == [] {
      assert a + b == b;
    } else {
      assert (a + b)[0] == a[0] && (a + b)[1..] == a[1..] + b;
      ChildrenPlacedAppend(a[1..], b);
      AppendAssoc(NodePlaced(a[0]), ChildrenPlaced(a[1..]), ChildrenPlaced(b));
    }
  }

  /** One more child of the loop adds that child's tree at the end. */
  lemma ChildrenPlacedStep(ns: seq<Node>, c: nat)
    requires c < |ns|
    ensures ChildrenPlaced(ns[..c + 1]) == ChildrenPlaced(ns[..c]) + NodePlaced(ns[c])
  {
    assert ns[..c + 1] == ns[..c] + [ns[c]];
    ChildrenPlacedAppend(ns[..c], [ns[c]]);
    assert ChildrenPlaced([ns[c]]) == NodePlaced(ns[c]) + ChildrenPlaced([]);
  }

  /** The children visited so far come first among all the children's. */
  lemma ChildrenPlacedPrefix(ns: seq<Node>, c: nat)
    requires c <= |ns|
    ensures Positioned(ChildrenPlaced(ns)) ==> Positioned(ChildrenPlaced(ns[..c]))
  {
    assert ns == ns[..c] + ns[c..];
    ChildrenPlacedAppend(ns[..c], ns[c..]);
    PositionedAppend(ChildrenPlaced(ns[..c]), ChildrenPlaced(ns[c..]));
  }

  /** A triangle primitive without POSITION is among those the walk visits. */
  lemma MissingPosition(n: Node, ps: seq<Primitive>, j: nat)
    requires j < |ps| && ps[j].drawPrimitiveType == TRIANGLES && ps[j].position.None?
    ensures !Positioned(PlacedAt(n, Triangles(ps)))
  {
    var front, tail := ps[..j], ps[j + 1..];
    assert ps == front + ([ps[j]] + tail);
    TrianglesAppend(front, [ps[j]] + tail);
    TrianglesAppend([ps[j]], tail);
    assert Triangles([ps[j]]) == [ps[j]] + Triangles([]);
    var k := |Triangles(front)|;
    assert Triangles(ps)[k] == ps[j];
    assert PlacedAt(n, Triangles(ps))[k].primitive == ps[j];
  }
}
