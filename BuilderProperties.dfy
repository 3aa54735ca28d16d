/**
 * What the builder's document says, read back from its lines: in which
 * order the scene walk visits nodes, which names the mesh and material
 * blocks carry and in which order they come, which keys the texture table
 * ends up with, what the package holds, and which names can collide.
 */
module BuilderProperties {
  import opened Wrappers
  import opened Text
  import opened Numerics
  import opened UsdzUtils
  import opened Gltf
  import opened Collections
  import opened Lines
  import opened SceneTree
  import opened GlbToUsdzBuilder
  import opened MeshProperties
  import opened MaterialProperties

  // ---------------------------------------------------------------------------
  // The scene walk is a pre-order traversal
  // ---------------------------------------------------------------------------

  /** Every node's own mesh blocks, node after node. */
  function OwnBlocks(modelIndex: nat, nodes: seq<Node>, modelPose: Matrix4x4): seq<string>
  {
    if nodes == [] then [] else OwnLines(modelIndex, nodes[0], modelPose) + OwnBlocks(modelIndex, nodes[1..], modelPose)
  }

  lemma {:induction false} OwnBlocksAppend(modelIndex: nat, a: seq<Node>, b: seq<Node>, modelPose: Matrix4x4)
    ensures OwnBlocks(modelIndex, a + b, modelPose) == OwnBlocks(modelIndex, a, modelPose) + OwnBlocks(modelIndex, b, modelPose)
  {
    if a == [] {
      assert a + b == b;
    } else {
      assert (a + b)[0] == a[0] && (a + b)[1..] == a[1..] + b;
      OwnBlocksAppend(modelIndex, a[1..], b, modelPose);
      AppendAssoc(OwnLines(modelIndex, a[0], modelPose), OwnBlocks(modelIndex, a[1..], modelPose), OwnBlocks(modelIndex, b, modelPose));
    }
  }

  /**
   * `ProcessScene` on a node writes the own blocks of the nodes of its tree
   * in pre-order: a node's blocks before its children's, every child
   * visited, in order, whether or not the node has a mesh.
   */
  lemma {:induction false} NodeLinesPreOrder(modelIndex: nat, n: Node, modelPose: Matrix4x4)
    decreases n, 1
    ensures NodeLines(modelIndex, n, modelPose) == OwnBlocks(modelIndex, PreOrder(n), modelPose)
  {
    ChildrenLinesPreOrder(modelIndex, n.visualChildren, modelPose);
    OwnBlocksAppend(modelIndex, [n], PreOrderAll(n.visualChildren), modelPose);
    assert OwnBlocks(modelIndex, [n], modelPose) == OwnLines(modelIndex, n, modelPose) + OwnBlocks(modelIndex, [], modelPose);
  }

  /** The children loop of `ProcessScene` writes the trees of the children in order. */
  lemma {:induction false} ChildrenLinesPreOrder(modelIndex: nat, ns: seq<Node>, modelPose: Matrix4x4)
    decreases ns, 0
    ensures ChildrenLines(modelIndex, ns, modelPose) == OwnBlocks(modelIndex, PreOrderAll(ns), modelPose)
  {
    if ns != [] {
      var init, last := ns[..|ns| - 1], ns[|ns| - 1];
      assert ns == init + [last];
      ChildrenLinesPreOrder(modelIndex, init, modelPose);
      NodeLinesPreOrder(modelIndex, last, modelPose);
      PreOrderAllSnoc(init, last);
      OwnBlocksAppend(modelIndex, PreOrderAll(init), PreOrder(last), modelPose);
    }
  }

  // ---------------------------------------------------------------------------
  // Only triangle lists become mesh blocks
  // ---------------------------------------------------------------------------

  /** One mesh block per primitive, in order. */
  function Blocks(modelIndex: nat, node: Node, ps: seq<Primitive>, modelPose: Matrix4x4): seq<string>
  {
    if ps == [] then [] else MeshBlock(modelIndex, node, ps[0], modelPose) + Blocks(modelIndex, node, ps[1..], modelPose)
  }

  lemma {:induction false} BlocksSnoc(modelIndex: nat, node: Node, ps: seq<Primitive>, p: Primitive, modelPose: Matrix4x4)
    ensures Blocks(modelIndex, node, ps + [p], modelPose)
         == Blocks(modelIndex, node, ps, modelPose) + MeshBlock(modelIndex, node, p, modelPose)
  {
    if ps == [] {
      assert ps + [p] == [p];
    } else {
      var q, rest := ps[0], ps[1..];
      assert (ps + [p])[0] == q && (ps + [p])[1..] == rest + [p];
      BlocksSnoc(modelIndex, node, rest, p, modelPose);
      AppendAssoc(MeshBlock(modelIndex, node, q, modelPose), Blocks(modelIndex, node, rest, modelPose), MeshBlock(modelIndex, node, p, modelPose));
    }
  }

  /** The primitive loop writes one block per triangle primitive and nothing for the others. */
  lemma {:induction false} PrimitivesTriangles(modelIndex: nat, node: Node, ps: seq<Primitive>, modelPose: Matrix4x4)
    ensures PrimitivesLines(modelIndex, node, ps, modelPose) == Blocks(modelIndex, node, Triangles(ps), modelPose)
  {
    if ps != [] {
      var init, last := ps[..|ps| - 1], ps[|ps| - 1];
      assert ps == init + [last];
      PrimitivesTriangles(modelIndex, node, init, modelPose);
      TrianglesSnoc(init, last);
      var before := PrimitivesLines(modelIndex, node, init, modelPose);
      assert PrimitivesLines(modelIndex, node, ps, modelPose) == before + PrimitiveLines(modelIndex, node, last, modelPose);
      if last.drawPrimitiveType == TRIANGLES {
        assert Triangles(ps) == Triangles(init) + [last];
        BlocksSnoc(modelIndex, node, Triangles(init), last, modelPose);
      } else {
        assert Triangles(ps) == Triangles(init) + [];
        assert Triangles(init) + [] == Triangles(init);
        assert PrimitiveLines(modelIndex, node, last, modelPose) == [];
      }
    }
  }

  // ---------------------------------------------------------------------------
  // The names of the mesh blocks
  // ---------------------------------------------------------------------------

  function Copies(s: string, n: nat): (r: seq<string>)
    ensures |r| == n && forall i :: 0 <= i < n ==> r[i] == s
  {
    seq(n, _ => s)
  }

  /** A node's mesh name once per triangle primitive: the name ignores the primitive. */
  function NodeMeshNames(modelIndex: nat, node: Node): seq<string>
  {
    if node.mesh.Some? then Copies(Quoted(MeshName(modelIndex, node)), |Triangles(node.mesh.value.primitives)|) else []
  }

  function MeshNames(modelIndex: nat, nodes: seq<Node>): seq<string>
  {
    if nodes == [] then [] else NodeMeshNames(modelIndex, nodes[0]) + MeshNames(modelIndex, nodes[1..])
  }

  /** Blocks of one node: its name once per block, and no material heading. */
  lemma CopiesCons(s: string, n: nat)
    ensures [s] + Copies(s, n) == Copies(s, n + 1)
  {
  }

  lemma {:induction false} BlocksValues(modelIndex: nat, node: Node, ps: seq<Primitive>, modelPose: Matrix4x4)
    ensures Values(Blocks(modelIndex, node, ps, modelPose), KMeshHead) == Copies(Quoted(MeshName(modelIndex, node)), |ps|)
    ensures Values(Blocks(modelIndex, node, ps, modelPose), KMaterialHead) == []
  {
    if ps != [] {
      BlocksValues(modelIndex, node, ps[1..], modelPose);
      BlocksConsValues(modelIndex, node, ps, modelPose);
      CopiesCons(Quoted(MeshName(modelIndex, node)), |ps| - 1);
    }
  }

  /** The first block adds its one prim name and no material. */
  lemma BlocksConsValues(modelIndex: nat, node: Node, ps: seq<Primitive>, modelPose: Matrix4x4)
    requires ps != []
    ensures Values(Blocks(modelIndex, node, ps, modelPose), KMeshHead)
         == [Quoted(MeshName(modelIndex, node))] + Values(Blocks(modelIndex, node, ps[1..], modelPose), KMeshHead)
    ensures Values(Blocks(modelIndex, node, ps, modelPose), KMaterialHead)
         == Values(Blocks(modelIndex, node, ps[1..], modelPose), KMaterialHead)
  {
    var b, tail := MeshBlock(modelIndex, node, ps[0], modelPose), Blocks(modelIndex, node, ps[1..], modelPose);
    MeshHeadValues(modelIndex, node, ps[0], modelPose);
    ValuesAppend(b, tail, KMeshHead);
    ValuesAppend(b, tail, KMaterialHead);
  }

  lemma OwnLinesValues(modelIndex: nat, node: Node, modelPose: Matrix4x4)
    ensures Values(OwnLines(modelIndex, node, modelPose), KMeshHead) == NodeMeshNames(modelIndex, node)
    ensures Values(OwnLines(modelIndex, node, modelPose), KMaterialHead) == []
  {
    if node.mesh.Some? {
      PrimitivesTriangles(modelIndex, node, node.mesh.value.primitives, modelPose);
      BlocksValues(modelIndex, node, Triangles(node.mesh.value.primitives), modelPose);
    }
  }

  lemma {:induction false} OwnBlocksValues(modelIndex: nat, nodes: seq<Node>, modelPose: Matrix4x4)
    ensures Values(OwnBlocks(modelIndex, nodes, modelPose), KMeshHead) == MeshNames(modelIndex, nodes)
    ensures Values(OwnBlocks(modelIndex, nodes, modelPose), KMaterialHead) == []
  {
    if nodes != [] {
      var o, rest := OwnLines(modelIndex, nodes[0], modelPose), OwnBlocks(modelIndex, nodes[1..], modelPose);
      OwnBlocksValues(modelIndex, nodes[1..], modelPose);
      OwnLinesValues(modelIndex, nodes[0], modelPose);
      ValuesAppend(o, rest, KMeshHead);
      ValuesAppend(o, rest, KMaterialHead);
    }
  }

  /** A node with two triangle primitives gives both blocks the same prim name. */
  lemma DuplicateMeshNames(modelIndex: nat, node: Node, modelPose: Matrix4x4)
    requires node.mesh.Some? && |Triangles(node.mesh.value.primitives)| == 2
    ensures Values(OwnLines(modelIndex, node, modelPose), KMeshHead)
         == [Quoted(MeshName(modelIndex, node)), Quoted(MeshName(modelIndex, node))]
  {
    OwnLinesValues(modelIndex, node, modelPose);
  }

  // ---------------------------------------------------------------------------
  // The document: header, meshes in model order, then materials
  // ---------------------------------------------------------------------------

  /** The mesh names of the first `n` models, each model's scene walked in pre-order. */
  function ModelMeshNames(models: seq<PosedModel>, n: nat): seq<string>
    requires n <= |models|
  {
    if n == 0 then []
    else ModelMeshNames(models, n - 1) + MeshNames(n - 1, PreOrderAll(models[n - 1].model.defaultScene.visualChildren))
  }

  /** The material names of one model, in logical-material order. */
  function MaterialNames(modelIndex: nat, mats: seq<Material>): (r: seq<string>)
    ensures |r| == |mats|
  {
    seq(|mats|, j requires 0 <= j < |mats| => Quoted(GetMatName(modelIndex, mats[j])))
  }

  lemma MaterialNamesSnoc(modelIndex: nat, mats: seq<Material>, k: nat)
    requires 0 < k <= |mats|
    ensures MaterialNames(modelIndex, mats[..k])
         == MaterialNames(modelIndex, mats[..k - 1]) + [Quoted(GetMatName(modelIndex, mats[k - 1]))]
  {
    var a, b := MaterialNames(modelIndex, mats[..k]), MaterialNames(modelIndex, mats[..k - 1]);
    forall j | 0 <= j < k - 1
      ensures a[j] == b[j]
    {
      assert mats[..k][j] == mats[..k - 1][j];
    }
  }

  function ModelMaterialNames(models: seq<PosedModel>, n: nat): seq<string>
    requires n <= |models|
  {
    if n == 0 then []
    else ModelMaterialNames(models, n - 1) + MaterialNames(n - 1, models[n - 1].model.logicalMaterials)
  }

  /** The scene of model `i` under its combined pose, as the first loop of `ConvertToUsda` writes it. */
  lemma SceneValues(models: seq<PosedModel>, rootTransform: Matrix4x4, i: nat)
    requires i < |models|
    ensures Values(ContainerLines(i, SceneContainer(models[i].model.defaultScene), Multiply(models[i].pose, rootTransform)), KMeshHead)
         == MeshNames(i, PreOrderAll(models[i].model.defaultScene.visualChildren))
    ensures Values(ContainerLines(i, SceneContainer(models[i].model.defaultScene), Multiply(models[i].pose, rootTransform)), KMaterialHead)
         == []
  {
    var pose := Multiply(models[i].pose, rootTransform);
    ChildrenLinesPreOrder(i, models[i].model.defaultScene.visualChildren, pose);
    OwnBlocksValues(i, PreOrderAll(models[i].model.defaultScene.visualChildren), pose);
  }

  lemma {:induction false} MeshesOfValues(models: seq<PosedModel>, rootTransform: Matrix4x4, n: nat)
    requires n <= |models|
    ensures Values(MeshesOf(models, rootTransform, n), KMeshHead) == ModelMeshNames(models, n)
    ensures Values(MeshesOf(models, rootTransform, n), KMaterialHead) == []
  {
    if n > 0 {
      MeshesOfValues(models, rootTransform, n - 1);
      MeshesOfStepValues(models, rootTransform, n);
    }
  }

  /** One more model's scene adds its mesh names and no material. */
  lemma MeshesOfStepValues(models: seq<PosedModel>, rootTransform: Matrix4x4, n: nat)
    requires 0 < n <= |models|
    ensures Values(MeshesOf(models, rootTransform, n), KMeshHead)
         == Values(MeshesOf(models, rootTransform, n - 1), KMeshHead)
            + MeshNames(n - 1, PreOrderAll(models[n - 1].model.defaultScene.visualChildren))
    ensures Values(MeshesOf(models, rootTransform, n), KMaterialHead)
         == Values(MeshesOf(models, rootTransform, n - 1), KMaterialHead)
  {
    var i := n - 1;
    var before := MeshesOf(models, rootTransform, i);
    var scene := ContainerLines(i, SceneContainer(models[i].model.defaultScene), Multiply(models[i].pose, rootTransform));
    SceneValues(models, rootTransform, i);
    ValuesAppend(before, scene, KMeshHead);
    ValuesAppend(before, scene, KMaterialHead);
  }

  lemma {:induction false} MaterialListValues(modelIndex: nat, mats: seq<Material>, k: nat)
    requires k <= |mats|
    ensures Values(MaterialListLines(modelIndex, mats, k), KMaterialHead) == MaterialNames(modelIndex, mats[..k])
    ensures Values(MaterialListLines(modelIndex, mats, k), KMeshHead) == []
  {
    if k > 0 {
      var j := k - 1;
      var before, block := MaterialListLines(modelIndex, mats, j), MaterialLines(modelIndex, mats[j]);
      MaterialListValues(modelIndex, mats, j);
      MaterialNameValues(modelIndex, mats[j]);
      MaterialNamesSnoc(modelIndex, mats, k);
      ValuesSplit(MaterialListLines(modelIndex, mats, k), before, block, KMaterialHead, MaterialNames(modelIndex, mats[..k]),
                  MaterialNames(modelIndex, mats[..j]), [Quoted(GetMatName(modelIndex, mats[j]))]);
      ValuesSplit(MaterialListLines(modelIndex, mats, k), before, block, KMeshHead, [], [], []);
    }
  }

  lemma {:induction false} MaterialsOfValues(models: seq<PosedModel>, n: nat)
    requires n <= |models|
    ensures Values(MaterialsOf(models, n), KMaterialHead) == ModelMaterialNames(models, n)
    ensures Values(MaterialsOf(models, n), KMeshHead) == []
  {
    if n > 0 {
      var i := n - 1;
      var mats := models[i].model.logicalMaterials;
      var before, list := MaterialsOf(models, i), MaterialListLines(i, mats, |mats|);
      MaterialsOfValues(models, i);
      MaterialListValues(i, mats, |mats|);
      assert mats[..|mats|] == mats;
      ValuesSplit(MaterialsOf(models, n), before, list, KMaterialHead, ModelMaterialNames(models, n), ModelMaterialNames(models, i), MaterialNames(i, mats));
      ValuesSplit(MaterialsOf(models, n), before, list, KMeshHead, [], [], []);
    }
  }

  /** The header and the root's closing brace are not read under a key like a block heading. */
  lemma FrameOff(key: string)
    requires OffAt(key, 4, {'a', 'c', ' ', '}', 'X'}) && OffAt(key, 0, {'}'})
    ensures Values(HeaderLines(), key) == [] && Values(["}"], key) == []
  {
    var h := HeaderLines();
    forall k | 0 <= k < |h|
      ensures |h[k]| <= 4 || h[k][4] in {'a', 'c', ' ', '}', 'X'}
    {
      if k == 0 {} else if k == 1 {} else if k == 2 {} else if k == 3 {} else if k == 4 {}
      else if k == 5 {} else if k == 6 {} else if k == 7 {} else if k == 8 {} else if k == 9 {} else {}
    }
    ValuesOff(h, key, 4, {'a', 'c', ' ', '}', 'X'});
    ValuesOff(["}"], key, 0, {'}'});
  }

  lemma HeadingChars()
    ensures OffAt(KMeshHead, 4, {'a', 'c', ' ', '}', 'X'}) && OffAt(KMeshHead, 0, {'}'})
    ensures OffAt(KMaterialHead, 4, {'a', 'c', ' ', '}', 'X'}) && OffAt(KMaterialHead, 0, {'}'})
  {
  }

  /**
   * `ConvertToUsda`'s document names every triangle primitive's mesh in
   * model order and pre-order within a model, then every logical material
   * in model order and logical order, and every mesh heading comes before
   * every material heading.
   */
  lemma UsdaLayout(models: seq<PosedModel>, rootTransform: Matrix4x4)
    ensures Usda(models, rootTransform)[0] == "#usda 1.0"
    ensures Values(Usda(models, rootTransform), KMeshHead) == ModelMeshNames(models, |models|)
    ensures Values(Usda(models, rootTransform), KMaterialHead) == ModelMaterialNames(models, |models|)
    ensures forall i, j ::
              (0 <= i < |Usda(models, rootTransform)| && 0 <= j < |Usda(models, rootTransform)| &&
               StartsWith(Usda(models, rootTransform)[i], KMeshHead) &&
               StartsWith(Usda(models, rootTransform)[j], KMaterialHead))
              ==> i < j
  {
    var h, m, ms := HeaderLines(), MeshesOf(models, rootTransform, |models|), MaterialsOf(models, |models|);
    HeadingChars();
    FrameOff(KMeshHead);
    FrameOff(KMaterialHead);
    MeshesOfValues(models, rootTransform, |models|);
    MaterialsOfValues(models, |models|);
    DocumentLayout(h, m, ms, ModelMeshNames(models, |models|), ModelMaterialNames(models, |models|));
  }

  /** The layout argument on the document's four parts, whatever they hold. */
  lemma DocumentLayout(h: seq<string>, m: seq<string>, ms: seq<string>, meshNames: seq<string>, matNames: seq<string>)
    requires Values(h, KMeshHead) == [] && Values(h, KMaterialHead) == []
    requires Values(["}"], KMeshHead) == [] && Values(["}"], KMaterialHead) == []
    requires Values(m, KMeshHead) == meshNames && Values(m, KMaterialHead) == []
    requires Values(ms, KMeshHead) == [] && Values(ms, KMaterialHead) == matNames
    ensures Values(h + m + ["}"] + ms, KMeshHead) == meshNames
    ensures Values(h + m + ["}"] + ms, KMaterialHead) == matNames
    ensures forall i, j ::
              (0 <= i < |h + m + ["}"] + ms| && 0 <= j < |h + m + ["}"] + ms| &&
               StartsWith((h + m + ["}"] + ms)[i], KMeshHead) &&
               StartsWith((h + m + ["}"] + ms)[j], KMaterialHead))
              ==> i < j
  {
    ValuesSplit(h + m, h, m, KMeshHead, meshNames, [], meshNames);
    ValuesSplit(h + m, h, m, KMaterialHead, [], [], []);
    ValuesSplit(["}"] + ms, ["}"], ms, KMeshHead, [], [], []);
    ValuesSplit(["}"] + ms, ["}"], ms, KMaterialHead, matNames, [], matNames);
    AppendAssoc(h + m, ["}"], ms);
    ValuesSplit(h + m + ["}"] + ms, h + m, ["}"] + ms, KMeshHead, meshNames, meshNames, []);
    ValuesSplit(h + m + ["}"] + ms, h + m, ["}"] + ms, KMaterialHead, matNames, [], matNames);
    KeysOrdered(h + m, ["}"] + ms, KMeshHead, KMaterialHead);
  }

  // ---------------------------------------------------------------------------
  // The package
  // ---------------------------------------------------------------------------

  /**
   * `WriteUsdzAsync`'s archive: `model.usda` first, then one entry per
   * table key in the table's order holding that key's bytes, every entry
   * stored uncompressed, and no two entries with the same name.
   */
  lemma PackageLayout(usda: seq<string>, textures: Table<string, seq<uint8>>)
    requires textures.Valid()
    ensures |PackageEntries(usda, textures)| == 1 + |textures.keys|
    ensures PackageEntries(usda, textures)[0] == ZipEntry("model.usda", TextLines(usda), NoCompression)
    ensures forall i :: 1 <= i < |PackageEntries(usda, textures)| ==>
              textures.keys[i - 1] in textures.values &&
              PackageEntries(usda, textures)[i]
              == ZipEntry("textures/" + textures.keys[i - 1], Bytes(textures.values[textures.keys[i - 1]]), NoCompression)
    ensures forall i :: 0 <= i < |PackageEntries(usda, textures)| ==> PackageEntries(usda, textures)[i].Stored()
    ensures forall i, j :: 0 <= i < j < |PackageEntries(usda, textures)| ==>
              PackageEntries(usda, textures)[i].name != PackageEntries(usda, textures)[j].name
  {
    var es := PackageEntries(usda, textures);
    var keys := textures.keys;
    ValidKeys(textures);
    forall i, j | 0 <= i < j < |es|
      ensures es[i].name != es[j].name
    {
      if i == 0 {
        assert es[j].name[0] == 't';
      } else if es[i].name == es[j].name {
        assert "textures/" + keys[i - 1] == "textures/" + keys[j - 1];
        assert keys[i - 1] == ("textures/" + keys[i - 1])[9..];
        assert keys[j - 1] == ("textures/" + keys[j - 1])[9..];
        DistinctIndices(keys, i - 1, j - 1);
      }
    }
  }

  // ---------------------------------------------------------------------------
  // The texture table's keys
  // ---------------------------------------------------------------------------

  /** The texture keys of the textured materials among the first `k` of one model. */
  function MaterialTextureKeys(modelIndex: nat, mats: seq<Material>, k: nat): set<string>
    requires k <= |mats|
  {
    set j | 0 <= j < k && mats[j].baseColorTexture.Some? :: TextureName(modelIndex, mats[j].baseColorTexture.value)
  }

  /** The texture keys of every textured material of the first `n` models. */
  function TextureKeys(models: seq<PosedModel>, n: nat): set<string>
    requires n <= |models|
  {
    set i, j | 0 <= i < n && 0 <= j < |models[i].model.logicalMaterials|
                 && models[i].model.logicalMaterials[j].baseColorTexture.Some?
      :: TextureName(i, models[i].model.logicalMaterials[j].baseColorTexture.value)
  }

  lemma MaterialTextureKeysSnoc(modelIndex: nat, mats: seq<Material>, k: nat)
    requires 0 < k <= |mats|
    ensures MaterialTextureKeys(modelIndex, mats, k)
         == MaterialTextureKeys(modelIndex, mats, k - 1)
            + (if mats[k - 1].baseColorTexture.Some? then {TextureName(modelIndex, mats[k - 1].baseColorTexture.value)} else {})
  {
  }

  /** The table after a model's materials holds the old keys and that model's texture keys, no others. */
  lemma {:induction false} MaterialListKeys(t: Table<string, seq<uint8>>, modelIndex: nat, mats: seq<Material>, k: nat)
    requires k <= |mats|
    ensures MaterialListTextures(t, modelIndex, mats, k).values.Keys == t.values.Keys + MaterialTextureKeys(modelIndex, mats, k)
  {
    if k > 0 {
      var j := k - 1;
      MaterialListKeys(t, modelIndex, mats, j);
      MaterialTextureKeysSnoc(modelIndex, mats, k);
    }
  }

  lemma TextureKeysSnoc(models: seq<PosedModel>, n: nat)
    requires 0 < n <= |models|
    ensures TextureKeys(models, n)
         == TextureKeys(models, n - 1)
            + MaterialTextureKeys(n - 1, models[n - 1].model.logicalMaterials, |models[n - 1].model.logicalMaterials|)
  {
    var i := n - 1;
    var mats := models[i].model.logicalMaterials;
    forall key | key in TextureKeys(models, n)
      ensures key in TextureKeys(models, i) + MaterialTextureKeys(i, mats, |mats|)
    {
      var a, b :| 0 <= a < n && 0 <= b < |models[a].model.logicalMaterials|
                  && models[a].model.logicalMaterials[b].baseColorTexture.Some?
                  && key == TextureName(a, models[a].model.logicalMaterials[b].baseColorTexture.value);
      if a == i {
        assert key in MaterialTextureKeys(i, mats, |mats|);
      } else {
        assert key in TextureKeys(models, i);
      }
    }
  }

  /**
   * After `ConvertToUsda` the texture table holds exactly the keys
   * `{modelIndex}_{textureLogicalIndex}.{extension}` of the textured
   * materials, besides those it started with.
   */
  lemma {:induction false} TexturesOfKeys(t: Table<string, seq<uint8>>, models: seq<PosedModel>, n: nat)
    requires n <= |models|
    ensures TexturesOf(t, models, n).values.Keys == t.values.Keys + TextureKeys(models, n)
  {
    if n > 0 {
      var i := n - 1;
      var mats := models[i].model.logicalMaterials;
      TexturesOfKeys(t, models, i);
      MaterialListKeys(TexturesOf(t, models, i), i, mats, |mats|);
      TextureKeysSnoc(models, n);
    }
  }

  // ---------------------------------------------------------------------------
  // Which names can collide
  // ---------------------------------------------------------------------------

  /** A string of digits, a separator that is not a digit, and a tail split in only one way. */
  lemma DigitsSplit(a: string, b: string, c: string, d: string, sep: char)
    requires AllDigits(a) && AllDigits(c) && !IsDigit(sep)
    requires a + [sep] + b == c + [sep] + d
    ensures a == c && b == d
  {
    assert sep !in a && sep !in c;
    assert a + [sep] + b == a + ([sep] + b);
    assert c + [sep] + d == c + ([sep] + d);
    IndexOfAfter(a, [sep] + b, sep);
    IndexOfAfter(c, [sep] + d, sep);
    var s := a + [sep] + b;
    assert a == s[..|a|] && b == s[|a| + 1..];
    assert c == s[..|c|] && d == s[|c| + 1..];
  }

  /** Two material names are equal exactly when model index and logical index are. */
  lemma GetMatNameInjective(modelIndex: nat, m: Material, modelIndex2: nat, m2: Material)
    ensures GetMatName(modelIndex, m) == GetMatName(modelIndex2, m2)
        <==> modelIndex == modelIndex2 && m.logicalIndex == m2.logicalIndex
  {
    if GetMatName(modelIndex, m) == GetMatName(modelIndex2, m2) {
      var a, b := NatText(modelIndex), NatText(m.logicalIndex);
      var c, d := NatText(modelIndex2), NatText(m2.logicalIndex);
      assert GetMatName(modelIndex, m)[4..] == a + ['_'] + b;
      assert GetMatName(modelIndex2, m2)[4..] == c + ['_'] + d;
      DigitsSplit(a, b, c, d, '_');
      NatTextInjective(modelIndex, modelIndex2);
      NatTextInjective(m.logicalIndex, m2.logicalIndex);
    }
  }

  /**
   * Two mesh names are equal exactly when model index and node index are:
   * the primitive plays no part, so a node's triangle primitives share one name.
   */
  lemma MeshNameInjective(modelIndex: nat, n: Node, modelIndex2: nat, n2: Node)
    ensures MeshName(modelIndex, n) == MeshName(modelIndex2, n2)
        <==> modelIndex == modelIndex2 && n.logicalIndex == n2.logicalIndex
  {
    if MeshName(modelIndex, n) == MeshName(modelIndex2, n2) {
      var a, b := NatText(modelIndex), NatText(n.logicalIndex);
      var c, d := NatText(modelIndex2), NatText(n2.logicalIndex);
      assert MeshName(modelIndex, n)[5..] == a + ['_'] + b;
      assert MeshName(modelIndex2, n2)[5..] == c + ['_'] + d;
      DigitsSplit(a, b, c, d, '_');
      NatTextInjective(modelIndex, modelIndex2);
      NatTextInjective(n.logicalIndex, n2.logicalIndex);
    }
  }

  /** Two texture keys are equal exactly when model index, texture index and extension are. */
  lemma TextureNameInjective(modelIndex: nat, t: Texture, modelIndex2: nat, t2: Texture)
    ensures TextureName(modelIndex, t) == TextureName(modelIndex2, t2)
        <==> modelIndex == modelIndex2 && t.logicalIndex == t2.logicalIndex
             && t.primaryImage.fileExtension == t2.primaryImage.fileExtension
  {
    if TextureName(modelIndex, t) == TextureName(modelIndex2, t2) {
      var a, b, e := NatText(modelIndex), NatText(t.logicalIndex), t.primaryImage.fileExtension;
      var c, d, f := NatText(modelIndex2), NatText(t2.logicalIndex), t2.primaryImage.fileExtension;
      assert TextureName(modelIndex, t) == a + ['_'] + (b + ['.'] + e);
      assert TextureName(modelIndex2, t2) == c + ['_'] + (d + ['.'] + f);
      DigitsSplit(a, b + ['.'] + e, c, d + ['.'] + f, '_');
      DigitsSplit(b, e, d, f, '.');
      NatTextInjective(modelIndex, modelIndex2);
      NatTextInjective(t.logicalIndex, t2.logicalIndex);
    }
  }

  // ---------------------------------------------------------------------------
  // Face arrays read back
  // ---------------------------------------------------------------------------

  /**
   * The face lines of a mesh block parse back: `faceVertexIndices` to the
   * primitive's index list in order, `faceVertexCounts` to `|indices| / 3`
   * threes (integer division).
   */
  lemma MeshFaces(modelIndex: nat, node: Node, p: Primitive, modelPose: Matrix4x4)
    ensures |Values(MeshBlock(modelIndex, node, p, modelPose), KFaceIndices)| == 1
    ensures ParseIndexArray(Values(MeshBlock(modelIndex, node, p, modelPose), KFaceIndices)[0]) == Some(p.indices)
    ensures |Values(MeshBlock(modelIndex, node, p, modelPose), KFaceCounts)| == 1
    ensures var counts := ParseIndexArray(Values(MeshBlock(modelIndex, node, p, modelPose), KFaceCounts)[0]);
            counts.Some? && |counts.value| == |p.indices| / 3 && forall k :: 0 <= k < |counts.value| ==> counts.value[k] == 3
  {
    MeshGeometryValues(modelIndex, node, p, modelPose);
    IndexArrayRoundTrip(p.indices);
    IndexArrayRoundTrip(Repeat(3, |p.indices| / 3));
  }
}
