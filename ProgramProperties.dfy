/**
 * What the prototype converter's output says when read back: which
 * primitives get a block (every triangle primitive of every node, in
 * pre-order), the header written once ahead of them, and what each
 * block's keyed lines hold.
 */
module ProgramProperties {
  import opened Wrappers
  import opened Text
  import opened Numerics
  import opened UsdzUtils
  import opened Gltf
  import opened Lines
  import opened SceneTree
  import opened ProgramWalker

  // ---------------------------------------------------------------------------
  // The walk is a pre-order traversal
  // ---------------------------------------------------------------------------

  /** The triangle primitives of each node in `nodes`, node after node. */
  function OwnAll(nodes: seq<Node>): seq<Placed>
  {
    if nodes == [] then [] else OwnPlaced(nodes[0]) + OwnAll(nodes[1..])
  }

  lemma {:induction false} OwnAllAppend(a: seq<Node>, b: seq<Node>)
    ensures OwnAll(a + b) == OwnAll(a) + OwnAll(b)
  {
    if a == [] {
      assert a + b == b;
    } else {
      assert (a + b)[0] == a[0] && (a + b)[1..] == a[1..] + b;
      OwnAllAppend(a[1..], b);
      AppendAssoc(OwnPlaced(a[0]), OwnAll(a[1..]), OwnAll(b));
    }
  }

  /** `Process` on a node visits the nodes of its tree in pre-order, each
      node's own triangle primitives together and in mesh order. */
  lemma {:induction false} NodePlacedPreOrder(n: Node)
    decreases n, 1
    ensures NodePlaced(n) == OwnAll(PreOrder(n))
  {
    ChildrenPlacedPreOrder(n.visualChildren);
    OwnAllAppend([n], PreOrderAll(n.visualChildren));
    assert OwnAll([n]) == OwnPlaced(n) + OwnAll([]);
  }

  lemma {:induction false} ChildrenPlacedPreOrder(ns: seq<Node>)
    decreases ns, 0
    ensures ChildrenPlaced(ns) == OwnAll(PreOrderAll(ns))
  {
    if ns != [] {
      NodePlacedPreOrder(ns[0]);
      ChildrenPlacedPreOrder(ns[1..]);
      OwnAllAppend(PreOrder(ns[0]), PreOrderAll(ns[1..]));
    }
  }

  /** Every visited primitive is a triangle list of a node in the tree. */
  lemma {:induction false} OwnAllMembers(nodes: seq<Node>, pl: Placed)
    requires pl in OwnAll(nodes)
    ensures pl.node in nodes && pl.primitive.drawPrimitiveType == TRIANGLES
  {
    if nodes != [] {
      if pl in OwnPlaced(nodes[0]) {
        var i :| 0 <= i < |OwnPlaced(nodes[0])| && OwnPlaced(nodes[0])[i] == pl;
      } else {
        OwnAllMembers(nodes[1..], pl);
      }
    }
  }

  /** The program visits the triangle primitives of the default scene's
      nodes, in pre-order. */
  lemma SceneWalk(scene: Scene, pl: Placed)
    ensures ContainerPlaced(SceneContainer(scene)) == OwnAll(PreOrderAll(scene.visualChildren))
    ensures pl in ContainerPlaced(SceneContainer(scene)) ==>
              pl.node in PreOrderAll(scene.visualChildren) && pl.primitive.drawPrimitiveType == TRIANGLES
  {
    ChildrenPlacedPreOrder(scene.visualChildren);
    if pl in ContainerPlaced(SceneContainer(scene)) {
      OwnAllMembers(PreOrderAll(scene.visualChildren), pl);
    }
  }

  // ---------------------------------------------------------------------------
  // Reading a block back
  // ---------------------------------------------------------------------------

  /** The keyed lines of a block. */
  datatype Key = XformKey | TranslateKey | QuadKey | PointsKey | IndicesKey | CountsKey

  function KeyText(key: Key): string
  {
    match key
    case XformKey => KXform
    case TranslateKey => KTranslate
    case QuadKey => KQuad
    case PointsKey => KPoints
    case IndicesKey => KFaceIndices
    case CountsKey => KFaceCounts
  }

  /** What a block says under each key: its prim names, its node's translation,
      its points, its indices and its face counts. */
  function BlockValue(pl: Placed, key: Key): string
  {
    match key
    case XformKey => "\"root\""
    case TranslateKey => F3Text(Translation(pl.node.worldMatrix))
    case QuadKey => "\"quad\""
    case PointsKey => PointsText(PositionsOf(pl.primitive))
    case IndicesKey => IndexArrayText(pl.primitive.indices)
    case CountsKey => IndexArrayText(Repeat(3, |pl.primitive.indices| / 3))
  }

  /** The column in which `key` differs from every other line of a block. */
  function KeyColumn(key: Key): nat
  {
    match key
    case XformKey => 0
    case TranslateKey => 5
    case QuadKey => 5
    case PointsKey => 8
    case IndicesKey => 24
    case CountsKey => 24
  }

  /** The line of a block that holds `key`. */
  function KeyLine(key: Key): nat
  {
    match key
    case XformKey => 1
    case TranslateKey => 3
    case QuadKey => 6
    case PointsKey => 8
    case IndicesKey => 9
    case CountsKey => 10
  }

  lemma QuadLinesMiss(t: string, p: string, x: string, c: string, key: Key, k: nat)
    requires k < 13 && k != KeyLine(key)
    ensures KeyColumn(key) < |KeyText(key)|
    ensures Misses(QuadLines(t, p, x, c)[k], KeyText(key), KeyColumn(key), KeyColumn(key))
  {
    var lines := QuadLines(t, p, x, c);
    assert lines == XformOpen(t) + QuadMesh(p, x, c) + ["}"];
    if k == 0 {} else if k == 1 {} else if k == 2 {} else if k == 3 {} else if k == 4 {}
    else if k == 5 {} else if k == 6 {} else if k == 7 {} else if k == 8 {} else if k == 9 {}
    else if k == 10 {} else if k == 11 {} else {}
  }

  /** Each keyed line of a block occurs exactly once and holds its value. */
  lemma QuadLinesRead(t: string, p: string, x: string, c: string, key: Key)
    ensures Values(QuadLines(t, p, x, c), KeyText(key)) ==
              [match key
               case XformKey => "\"root\""
               case TranslateKey => t
               case QuadKey => "\"quad\""
               case PointsKey => p
               case IndicesKey => x
               case CountsKey => c]
  {
    var lines := QuadLines(t, p, x, c);
    var value := match key
                 case XformKey => "\"root\""
                 case TranslateKey => t
                 case QuadKey => "\"quad\""
                 case PointsKey => p
                 case IndicesKey => x
                 case CountsKey => c;
    var i := KeyLine(key);
    var col := KeyColumn(key);
    assert lines[i] == KeyText(key) + value by {
      if i < 6 {
        assert lines[i] == XformOpen(t)[i];
      } else {
        assert lines[i] == QuadMesh(p, x, c)[i - 6];
      }
    }
    KeyedLine(KeyText(key), value);
    forall k | 0 <= k < 13 && k != i
      ensures Misses(lines[k], KeyText(key), col, col)
    {
      QuadLinesMiss(t, p, x, c, key, k);
    }
    QuadLinesMiss(t, p, x, c, key, if i == 0 then 1 else 0);
    ValuesOnly(lines, KeyText(key), col, col, i);
  }

  /** A block reads back, under every key, as exactly its own value. */
  lemma BlockRead(pl: Placed, key: Key)
    ensures Values(Block(pl), KeyText(key)) == [BlockValue(pl, key)]
  {
    BlockLines(pl);
    QuadLinesRead(F3Text(Translation(pl.node.worldMatrix)), PointsText(PositionsOf(pl.primitive)),
                  IndexArrayText(pl.primitive.indices), IndexArrayText(Repeat(3, |pl.primitive.indices| / 3)), key);
  }

  /** No block line begins with "#usda ". */
  lemma BlockNoHeader(pl: Placed)
    ensures Values(Block(pl), KHeader) == []
  {
    var t, p := F3Text(Translation(pl.node.worldMatrix)), PointsText(PositionsOf(pl.primitive));
    var x, c := IndexArrayText(pl.primitive.indices), IndexArrayText(Repeat(3, |pl.primitive.indices| / 3));
    var lines := QuadLines(t, p, x, c);
    BlockLines(pl);
    forall k | 0 <= k < 13
      ensures Misses(lines[k], KHeader, 0, 0)
    {
      if k < 6 {
        assert lines[k] == XformOpen(t)[k];
      } else if k < 12 {
        assert lines[k] == QuadMesh(p, x, c)[k - 6];
      }
    }
    ValuesNone(lines, KHeader, 0, 0);
  }

  /** `f` applied to each element, in order. */
  function MapSeq<X, Y>(f: X -> Y, xs: seq<X>): seq<Y>
  {
    if xs == [] then [] else [f(xs[0])] + MapSeq(f, xs[1..])
  }

  lemma {:induction false} MapSeqAt<X, Y>(f: X -> Y, xs: seq<X>)
    ensures |MapSeq(f, xs)| == |xs|
    ensures forall i :: 0 <= i < |xs| ==> MapSeq(f, xs)[i] == f(xs[i])
  {
    if xs != [] {
      MapSeqAt(f, xs[1..]);
      assert forall i :: 0 < i < |xs| ==> xs[1..][i - 1] == xs[i];
    }
  }

  /** What a block holds under `key`, as a function of the block. */
  function BlockValueOf(key: Key): Placed -> string
  {
    pl => BlockValue(pl, key)
  }

  /** The value under `key` of each block, in order. */
  function BlockValues(pls: seq<Placed>, key: Key): seq<string>
  {
    MapSeq(BlockValueOf(key), pls)
  }

  /** One value per block, the `i`-th that of the `i`-th block. */
  lemma BlockValuesAt(pls: seq<Placed>, key: Key)
    ensures |BlockValues(pls, key)| == |pls|
    ensures forall i :: 0 <= i < |pls| ==> BlockValues(pls, key)[i] == BlockValue(pls[i], key)
  {
    MapSeqAt(BlockValueOf(key), pls);
  }

  /** A run of blocks reads back as one value per block, in order; and it has
      no header line. */
  lemma {:induction false} BlocksRead(pls: seq<Placed>, key: Key)
    ensures Values(Blocks(pls), KeyText(key)) == BlockValues(pls, key)
    ensures Values(Blocks(pls), KHeader) == []
  {
    if pls != [] {
      BlocksRead(pls[1..], key);
      BlocksStepRead(pls, key);
    }
  }

  /** The first block contributes its one value under `key` and no header. */
  lemma BlocksStepRead(pls: seq<Placed>, key: Key)
    requires pls != []
    ensures Values(Blocks(pls), KeyText(key)) == [BlockValue(pls[0], key)] + Values(Blocks(pls[1..]), KeyText(key))
    ensures Values(Blocks(pls), KHeader) == Values(Blocks(pls[1..]), KHeader)
  {
    BlockRead(pls[0], key);
    BlockNoHeader(pls[0]);
    ValuesAppend(Block(pls[0]), Blocks(pls[1..]), KeyText(key));
    ValuesAppend(Block(pls[0]), Blocks(pls[1..]), KHeader);
  }

  lemma OutputRead(scene: Scene, key: Key)
    ensures var pls := ContainerPlaced(SceneContainer(scene));
            ProgramOutput(scene).Err? <==> exists i :: 0 <= i < |pls| && pls[i].primitive.position.None?
    ensures var pls := ContainerPlaced(SceneContainer(scene));
            ProgramOutput(scene).Ok? ==>
              Values(ProgramOutput(scene).value, KHeader) == ["1.0"] &&
              Values(ProgramOutput(scene).value, KeyText(key)) == BlockValues(pls, key)
  {
    if ProgramOutput(scene).Ok? {
      OutputValues(ContainerPlaced(SceneContainer(scene)), key);
    }
  }

  /** The header line and the blocks, read back under the header key and under `key`. */
  lemma OutputValues(pls: seq<Placed>, key: Key)
    ensures Values(["#usda 1.0"] + Blocks(pls), KHeader) == ["1.0"]
    ensures Values(["#usda 1.0"] + Blocks(pls), KeyText(key)) == BlockValues(pls, key)
  {
    BlocksRead(pls, key);
    LineRead(KHeader, "1.0");
    LineOff(KHeader, "1.0", KeyText(key), 0);
    ValuesAppend(["#usda 1.0"], Blocks(pls), KHeader);
    ValuesAppend(["#usda 1.0"], Blocks(pls), KeyText(key));
  }

  /** An F3 tuple is the three components, each to three decimals, in order. */
  lemma F3TextShape(v: Vec3)
    ensures IsTuple(F3Text(v))
    ensures Unwrap(F3Text(v), "(", ")").Some?
    ensures SplitFields(Unwrap(F3Text(v), "(", ")").value) == [FormatFixed(v.x, 3), FormatFixed(v.y, 3), FormatFixed(v.z, 3)]
  {
    Tuple3Shape(FormatFixed(v.x, 3), FormatFixed(v.y, 3), FormatFixed(v.z, 3));
  }

  /** The points array lists one F3 tuple per position, in order. */
  lemma PointsShape(vs: seq<Vec3>)
    ensures Unwrap(PointsText(vs), "[", "]") == Some(Join(",", F3Texts(vs)))
    ensures SplitTuples(Join(",", F3Texts(vs))) == Some(F3Texts(vs))
  {
    UnwrapWrap("[", Join(",", F3Texts(vs)), "]");
    forall i | 0 <= i < |vs|
      ensures IsTuple(F3Texts(vs)[i])
    {
      F3TextShape(vs[i]);
    }
    SplitJoinTuples(F3Texts(vs), ",");
  }

  /**
   * The values of a block parse back: the points as one tuple per position
   * (`PointsShape`, `F3TextShape`), the indices as the primitive's indices,
   * and the face counts as a 3 per whole triangle.
   */
  lemma BlockValuesParse(pl: Placed)
    ensures SplitTuples(Unwrap(BlockValue(pl, PointsKey), "[", "]").value) == Some(F3Texts(PositionsOf(pl.primitive)))
    ensures ParseIndexArray(BlockValue(pl, IndicesKey)) == Some(pl.primitive.indices)
    ensures ParseIndexArray(BlockValue(pl, CountsKey)) == Some(Repeat(3, |pl.primitive.indices| / 3))
  {
    BlockPointsParse(pl);
    BlockIndicesParse(pl);
    BlockCountsParse(pl);
  }

  lemma BlockPointsParse(pl: Placed)
    ensures SplitTuples(Unwrap(BlockValue(pl, PointsKey), "[", "]").value) == Some(F3Texts(PositionsOf(pl.primitive)))
  {
    PointsShape(PositionsOf(pl.primitive));
  }

  lemma BlockIndicesParse(pl: Placed)
    ensures ParseIndexArray(BlockValue(pl, IndicesKey)) == Some(pl.primitive.indices)
  {
    IndexArrayRoundTrip(pl.primitive.indices);
  }

  lemma BlockCountsParse(pl: Placed)
    ensures ParseIndexArray(BlockValue(pl, CountsKey)) == Some(Repeat(3, |pl.primitive.indices| / 3))
  {
    var counts := Repeat(3, |pl.primitive.indices| / 3);
    IndexArrayRoundTrip(counts);
    assert BlockValue(pl, CountsKey) == IndexArrayText(counts);
  }
}
