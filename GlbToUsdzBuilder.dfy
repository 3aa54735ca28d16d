/**
 * The current exporter: a builder that collects posed glTF models and writes
 * them as one USDZ package, whose `model.usda` holds a `def Xform "root"`
 * with one `def Mesh` block per triangle primitive followed by one
 * `def Material` block per logical material, and whose other entries are the
 * base-colour textures those materials reference.
 *
 * The text each step writes is given first as functions on values (the
 * document it produces); the class below then writes it line by line
 * through a LineWriter and fills the texture dictionary in place, and each
 * of its methods is proved to write exactly that document.
 */
module GlbToUsdzBuilder {
  import opened Wrappers
  import opened Text
  import opened Numerics
  import opened UsdzUtils
  import opened Gltf
  import opened Collections
  import opened Lines

  /** A registered model and the pose it is placed with. */
  datatype PosedModel = PosedModel(model: ModelRoot, pose: Matrix4x4)

  // ---------------------------------------------------------------------------
  // Names
  // ---------------------------------------------------------------------------

  /** `GetMatName`: `mat_{modelIndex}_{material.LogicalIndex}`. */
  function GetMatName(modelIndex: nat, material: Material): string
  {
    "mat_" + NatText(modelIndex) + "_" + NatText(material.logicalIndex)
  }

  /** The prim name of a mesh block: it names the node, not the primitive. */
  function MeshName(modelIndex: nat, node: Node): string
  {
    "mesh_" + NatText(modelIndex) + "_" + NatText(node.logicalIndex)
  }

  /** The texture table key `{modelIndex}_{texture.LogicalIndex}.{extension}`. */
  function TextureName(modelIndex: nat, texture: Texture): string
  {
    NatText(modelIndex) + "_" + NatText(texture.logicalIndex) + "." + texture.primaryImage.fileExtension
  }

  function Quoted(name: string): string
  {
    "\"" + name + "\""
  }

  // ---------------------------------------------------------------------------
  // Line keywords: the fixed text each kind of line starts with
  // ---------------------------------------------------------------------------

  const KMeshHead := "    def Mesh "
  const KTransform := "        matrix4d xformOp:transform = "
  const KPoints := "        point3f[] points = "
  const KNormals := "        normal3f[] normals  = "
  const KFaceIndices := "        int[] faceVertexIndices = "
  const KFaceCounts := "        int[] faceVertexCounts = "
  const KSt := "        texCoord2f[] primvars:st = "
  const KBinding := "        rel material:binding = "

  const KMaterialHead := "def Material "
  const KSurfaceConnect := "    token outputs:surface.connect = </"
  const KDiffuseInput := "        color3f inputs:diffuseColor"
  const KDiffuse := KDiffuseInput + " = "
  const KDiffuseConnect := KDiffuseInput + ".connect = </"
  const KClearcoatInput := "        float inputs:clearcoat"
  const KClearcoat := KClearcoatInput + " = "
  const KClearcoatRoughness := KClearcoatInput + "Roughness = "
  const KMetallic := "        float inputs:metallic = "
  const KRoughness := "        float inputs:roughness = "
  const KStReader := "    def Shader \"stReader\""
  const KDiffuseTexture := "    def Shader \"diffuseTexture\""
  const KVarnameConnect := "        token inputs:varname.connect = </"
  const KTextureFile := "        asset inputs:file = @textures/"
  const KStConnect := "        token inputs:st.connect = </"
  const KUniformToken := "        uniform token"
  const KFrameInput := "    token inputs:frame:"
  const KInterpolation := "            interpolation = "
  const KSourceColorSpace := "        token inputs:sourceColorSpace = "

  // ---------------------------------------------------------------------------
  // The document header (ConvertToUsda's first lines)
  // ---------------------------------------------------------------------------

  /** The layer header with Apple's IBL version, then the opening of the root Xform. */
  function HeaderLines(): seq<string>
  {
    [ "#usda 1.0",
      "(",
      "    customLayerData = {",
      "        dictionary Apple = {",
      "            int preferredIblVersion = 2",
      "        }",
      "    }",
      ")",
      "",
      "def Xform \"root\"",
      "{" ]
  }

  // ---------------------------------------------------------------------------
  // One mesh block (ProcessScene, per triangle primitive)
  // ---------------------------------------------------------------------------

  /** The UV flip from glTF's top-left to USD's bottom-left texture origin. */
  function FlipV(uvs: seq<Vec2>): (r: seq<Vec2>)
    ensures |r| == |uvs|
    ensures forall i :: 0 <= i < |uvs| ==> r[i] == Vec2(uvs[i].x, 1.0 - uvs[i].y)
  {
    seq(|uvs|, i requires 0 <= i < |uvs| => Vec2(uvs[i].x, 1.0 - uvs[i].y))
  }

  function MeshOpenLines(name: string, transform: string): seq<string>
  {
    [ KMeshHead + Quoted(name),
      "    {",
      KTransform + transform,
      KUniformToken + "[] xformOpOrder = [ \"xformOp:transform\"]",
      "" ]
  }

  /** The rendered value of an optional vector attribute. */
  function VectorsText(vs: Option<seq<Vec3>>): Option<string>
  {
    if vs.Some? then Some(Vec3ArrayText(vs.value)) else None
  }

  /** The rendered texture coordinates, flipped. */
  function UvText(uvs: Option<seq<Vec2>>): Option<string>
  {
    if uvs.Some? then Some(Vec2ArrayText(FlipV(uvs.value))) else None
  }

  /** The material a primitive binds, by name. */
  function BindingTarget(modelIndex: nat, material: Option<Material>): Option<string>
  {
    if material.Some? then Some(GetMatName(modelIndex, material.value)) else None
  }


  /** The metadata that closes a per-vertex primvar line. */
  function VertexInterpolation(): seq<string>
  {
    [KInterpolation + "\"vertex\"", "        )"]
  }

  /** A per-vertex primvar, written only when the attribute is present. */
  function PrimvarLines(key: string, value: Option<string>): seq<string>
  {
    if value.Some? then [key + (value.value + " (")] + VertexInterpolation() else []
  }

  function FaceLines(indices: string, counts: string): seq<string>
  {
    [ KFaceIndices + indices,
      KFaceCounts + counts ]
  }

  function BindingLines(target: Option<string>): seq<string>
  {
    if target.Some? then [KBinding + ("</" + target.value + ">")] else []
  }

  /** A `def Mesh` block from the text of its parts. */
  function MeshBlockText(name: string, transform: string, points: Option<string>, normals: Option<string>,
                         indices: string, counts: string, st: Option<string>, target: Option<string>): seq<string>
  {
    MeshOpenLines(name, transform)
    + OptionalLine(KPoints, points)
    + PrimvarLines(KNormals, normals)
    + FaceLines(indices, counts)
    + PrimvarLines(KSt, st)
    + BindingLines(target)
    + ["    }"]
  }

  /** The `def Mesh` block of one triangle primitive of `node`. */
  function MeshBlock(modelIndex: nat, node: Node, p: Primitive, modelPose: Matrix4x4): seq<string>
  {
    MeshBlockText(MeshName(modelIndex, node), MatrixText(Multiply(node.worldMatrix, modelPose)),
                  VectorsText(p.position), VectorsText(p.normal),
                  IndexArrayText(p.indices), IndexArrayText(Repeat(3, |p.indices| / 3)),
                  UvText(p.texCoord0), BindingTarget(modelIndex, p.material))
  }

  /** What one primitive contributes: a block exactly when it is a triangle list. */
  function PrimitiveLines(modelIndex: nat, node: Node, p: Primitive, modelPose: Matrix4x4): (r: seq<string>)
    ensures |r| > 0 <==> p.drawPrimitiveType == TRIANGLES
    ensures p.drawPrimitiveType == TRIANGLES ==> r == MeshBlock(modelIndex, node, p, modelPose)
  {
    if p.drawPrimitiveType == TRIANGLES then MeshBlock(modelIndex, node, p, modelPose) else []
  }

  function PrimitivesLines(modelIndex: nat, node: Node, ps: seq<Primitive>, modelPose: Matrix4x4): seq<string>
  {
    if ps == [] then []
    else PrimitivesLines(modelIndex, node, ps[..|ps| - 1], modelPose)
         + PrimitiveLines(modelIndex, node, ps[|ps| - 1], modelPose)
  }

  /** The blocks of a node's own mesh, if it has one. */
  function OwnLines(modelIndex: nat, node: Node, modelPose: Matrix4x4): seq<string>
  {
    if node.mesh.Some? then PrimitivesLines(modelIndex, node, node.mesh.value.primitives, modelPose) else []
  }

  /** A node's own blocks, then those of its children in order. */
  function NodeLines(modelIndex: nat, node: Node, modelPose: Matrix4x4): seq<string>
    decreases node, 1
  {
    OwnLines(modelIndex, node, modelPose) + ChildrenLines(modelIndex, node.visualChildren, modelPose)
  }

  function ChildrenLines(modelIndex: nat, children: seq<Node>, modelPose: Matrix4x4): seq<string>
    decreases children, 0
  {
    if children == [] then []
    else ChildrenLines(modelIndex, children[..|children| - 1], modelPose)
         + NodeLines(modelIndex, children[|children| - 1], modelPose)
  }

  /** What `ProcessScene` writes for a scene (which has no mesh of its own) or a node. */
  function ContainerLines(modelIndex: nat, visual: VisualNodeContainer, modelPose: Matrix4x4): seq<string>
  {
    match visual
    case SceneContainer(s) => ChildrenLines(modelIndex, s.visualChildren, modelPose)
    case NodeContainer(n) => NodeLines(modelIndex, n, modelPose)
  }

  // ---------------------------------------------------------------------------
  // One material block (ProcessMaterial)
  // ---------------------------------------------------------------------------

  /** The single-precision scalar rendering, the same invariant formatter as the vector components. */
  function ScalarText(x: Option<real>): Option<string>
  {
    if x.Some? then Some(FormatFixed(x.value, 7)) else None
  }

  /** The shader opening between the material's name line and its diffuse colour. */
  function SurfaceLines(matName: string): seq<string>
  {
    [ "{",
      KFrameInput + "stPrimvarName = \"st\"",
      KSurfaceConnect + (matName + "/PBRShader.outputs:surface>"),
      "",
      "    def Shader \"PBRShader\"",
      "    {",
      KUniformToken + " info:id = \"UsdPreviewSurface\"" ]
  }

  function MaterialOpenLines(matName: string, diffuse: string): seq<string>
  {
    [KMaterialHead + Quoted(matName)] + SurfaceLines(matName) + [KDiffuse + diffuse]
  }

  function ConnectLines(matName: string, textured: bool): seq<string>
  {
    if textured then [KDiffuseConnect + (matName + "/diffuseTexture.outputs:rgb>")] else []
  }

  function ScalarsLines(clearcoat: Option<string>, clearcoatRoughness: Option<string>,
                        metallic: Option<string>, roughness: Option<string>): seq<string>
  {
    OptionalLine(KClearcoat, clearcoat)
    + OptionalLine(KClearcoatRoughness, clearcoatRoughness)
    + OptionalLine(KMetallic, metallic)
    + OptionalLine(KRoughness, roughness)
  }

  function ShaderCloseLines(): seq<string>
  {
    ["        token outputs:surface", "    }"]
  }

  function StReaderHead(): seq<string>
  {
    ["", KStReader, "    {", KUniformToken + " info:id = \"UsdPrimvarReader_float2\""]
  }
  function StReaderTail(): seq<string>
  {
    ["        float2 outputs:result", "    }"]
  }

  function VarnameLines(matName: string): seq<string>
  {
    [KVarnameConnect + (matName + ".inputs:frame:stPrimvarName>")]
  }

  /** The primvar reader that feeds the sampler its texture coordinates. */
  function StReaderLines(matName: string): seq<string>
  {
    StReaderHead() + VarnameLines(matName) + StReaderTail()
  }

  function SamplerHead(): seq<string>
  {
    ["", KDiffuseTexture, "    {", KUniformToken + " info:id = \"UsdUVTexture\""]
  }
  function SamplerTail(): seq<string>
  {
    [ "        token inputs:wrapS = \"repeat\"",
      "        token inputs:wrapT = \"repeat\"",
      "        float3 outputs:rgb",
      "    }",
      "" ]
  }

  /** The sampler's file, colour space and coordinate inputs. */
  function SamplerInputLines(matName: string, textureName: string): seq<string>
  {
    [ KTextureFile + (textureName + "@"),
      KSourceColorSpace + "\"raw\"",
      KStConnect + (matName + "/stReader.outputs:result>") ]
  }

  /** The sampler of the packaged texture file, feeding the diffuse colour. */
  function SamplerLines(matName: string, textureName: string): seq<string>
  {
    SamplerHead() + SamplerInputLines(matName, textureName) + SamplerTail()
  }

  function TextureShaderLines(matName: string, textureName: string): seq<string>
  {
    StReaderLines(matName) + SamplerLines(matName, textureName)
  }

  function TextureLines(matName: string, textureName: Option<string>): seq<string>
  {
    if textureName.Some? then TextureShaderLines(matName, textureName.value) else []
  }

  /** A `def Material` block from the text of its parts. */
  function MaterialBlockText(matName: string, diffuse: string, textureName: Option<string>,
                             clearcoat: Option<string>, clearcoatRoughness: Option<string>,
                             metallic: Option<string>, roughness: Option<string>): seq<string>
  {
    MaterialOpenLines(matName, diffuse)
    + ConnectLines(matName, textureName.Some?)
    + ScalarsLines(clearcoat, clearcoatRoughness, metallic, roughness)
    + ShaderCloseLines()
    + TextureLines(matName, textureName)
    + ["}"]
  }

  /** The table key of a material's base-colour texture, if it has one. */
  function TextureKey(modelIndex: nat, texture: Option<Texture>): Option<string>
  {
    if texture.Some? then Some(TextureName(modelIndex, texture.value)) else None
  }

  /** The `def Material` block of one logical material. */
  function MaterialLines(modelIndex: nat, m: Material): seq<string>
  {
    MaterialBlockText(GetMatName(modelIndex, m), XYZText(m.baseColor), TextureKey(modelIndex, m.baseColorTexture),
                      ScalarText(m.clearCoatFactor), ScalarText(m.clearCoatRoughnessFactor),
                      ScalarText(m.metallicFactor), ScalarText(m.roughnessFactor))
  }

  /** The texture table after one material: its base-colour image stored under its key. */
  function AddTexture(t: Table<string, seq<uint8>>, modelIndex: nat, m: Material): Table<string, seq<uint8>>
  {
    if m.baseColorTexture.Some? then
      t.Put(TextureName(modelIndex, m.baseColorTexture.value), m.baseColorTexture.value.primaryImage.content)
    else t
  }

  // ---------------------------------------------------------------------------
  // The whole document and the package
  // ---------------------------------------------------------------------------

  /** The mesh blocks of the first `n` models, each under its pose times the root transform. */
  function MeshesOf(models: seq<PosedModel>, rootTransform: Matrix4x4, n: nat): seq<string>
    requires n <= |models|
  {
    if n == 0 then []
    else MeshesOf(models, rootTransform, n - 1)
         + ContainerLines(n - 1, SceneContainer(models[n - 1].model.defaultScene),
                          Multiply(models[n - 1].pose, rootTransform))
  }

  /** The material blocks of the first `k` materials of model `modelIndex`. */
  function MaterialListLines(modelIndex: nat, mats: seq<Material>, k: nat): seq<string>
    requires k <= |mats|
  {
    if k == 0 then []
    else MaterialListLines(modelIndex, mats, k - 1) + MaterialLines(modelIndex, mats[k - 1])
  }

  /** The material blocks of the first `n` models. */
  function MaterialsOf(models: seq<PosedModel>, n: nat): seq<string>
    requires n <= |models|
  {
    if n == 0 then []
    else MaterialsOf(models, n - 1)
         + MaterialListLines(n - 1, models[n - 1].model.logicalMaterials, |models[n - 1].model.logicalMaterials|)
  }

  /** The document `ConvertToUsda` writes. */
  function Usda(models: seq<PosedModel>, rootTransform: Matrix4x4): seq<string>
  {
    HeaderLines() + MeshesOf(models, rootTransform, |models|) + ["}"] + MaterialsOf(models, |models|)
  }

  /** The texture table after the first `k` materials of model `modelIndex`. */
  function MaterialListTextures(t: Table<string, seq<uint8>>, modelIndex: nat, mats: seq<Material>, k: nat): Table<string, seq<uint8>>
    requires k <= |mats|
  {
    if k == 0 then t
    else AddTexture(MaterialListTextures(t, modelIndex, mats, k - 1), modelIndex, mats[k - 1])
  }

  /** The texture table after the materials of the first `n` models. */
  function TexturesOf(t: Table<string, seq<uint8>>, models: seq<PosedModel>, n: nat): Table<string, seq<uint8>>
    requires n <= |models|
  {
    if n == 0 then t
    else MaterialListTextures(TexturesOf(t, models, n - 1), n - 1, models[n - 1].model.logicalMaterials,
                              |models[n - 1].model.logicalMaterials|)
  }

  /** The texture entries, in the table's enumeration order. */
  function TextureEntries(keys: seq<string>, values: map<string, seq<uint8>>, n: nat): (r: seq<ZipEntry>)
    requires n <= |keys|
    requires forall k :: k in keys ==> k in values
    ensures |r| == n
    ensures forall i :: 0 <= i < n ==> r[i] == ZipEntry("textures/" + keys[i], Bytes(values[keys[i]]), NoCompression)
  {
    if n == 0 then []
    else TextureEntries(keys, values, n - 1)
         + [ZipEntry("textures/" + keys[n - 1], Bytes(values[keys[n - 1]]), NoCompression)]
  }

  /** The archive `WriteUsdzAsync` produces from a document and a texture table. */
  function PackageEntries(usda: seq<string>, textures: Table<string, seq<uint8>>): seq<ZipEntry>
    requires textures.Valid()
  {
    ValidKeys(textures);
    [ZipEntry("model.usda", TextLines(usda), NoCompression)]
    + TextureEntries(textures.keys, textures.values, |textures.keys|)
  }

  // ---------------------------------------------------------------------------
  // The builder
  // ---------------------------------------------------------------------------

  class GlbToUsdzBuilder {
    var models: seq<PosedModel>
    var rootTransform: Matrix4x4

    constructor ()
      ensures models == [] && rootTransform == Identity
    {
      models := [];
      rootTransform := Identity;
    }

    /** `AddModel`: the model joins the end of the list; nothing else changes. */
    method AddModel(model: ModelRoot, pose: Matrix4x4)
      modifies this
      ensures models == old(models) + [PosedModel(model, pose)]
      ensures rootTransform == old(rootTransform)
    {
      models := models + [PosedModel(model, pose)];
    }

    /**
     * `WriteUsdzAsync`: `model.usda` first, then one stored entry per
     * texture in the table's order.
     */
    method WriteUsdz(archive: ZipArchive)
      modifies archive
      ensures TexturesOf(EmptyTable(), models, |models|).Valid()
      ensures archive.entries == old(archive.entries)
        + PackageEntries(Usda(models, rootTransform), TexturesOf(EmptyTable(), models, |models|))
    {
      var textures := new OrderedDict<string, seq<uint8>>();
      var sw := new LineWriter();
      ConvertToUsda(sw, textures);
      assert sw.lines == Usda(models, rootTransform);
      assert textures.View() == TexturesOf(EmptyTable(), models, |models|);
      TexturesOfValid(EmptyTable(), models, |models|);
      WritePackage(archive, sw.lines, textures.View());
    }

    /** The entries of `WriteUsdzAsync`, from the finished document and texture table. */
    method WritePackage(archive: ZipArchive, usda: seq<string>, textures: Table<string, seq<uint8>>)
      requires textures.Valid()
      modifies archive
      ensures archive.entries == old(archive.entries) + PackageEntries(usda, textures)
    {
      ghost var a0 := archive.entries;
      ValidKeys(textures);
      archive.CreateEntry("model.usda", TextLines(usda), NoCompression);
      var keys := textures.keys;
      var values := textures.values;
      ghost var start := archive.entries;
      var i := 0;
      while i < |keys|
        invariant 0 <= i <= |keys|
        invariant archive.entries == start + TextureEntries(keys, values, i)
      {
        archive.CreateEntry("textures/" + keys[i], Bytes(values[keys[i]]), NoCompression);
        i := i + 1;
      }
      AppendAssoc(a0, [ZipEntry("model.usda", TextLines(usda), NoCompression)], TextureEntries(keys, values, |keys|));
    }

    /** `ConvertToUsda`: the header, the root Xform of all meshes, then all materials. */
    method ConvertToUsda(sw: LineWriter, textures: OrderedDict<string, seq<uint8>>)
      modifies sw, textures
      ensures sw.lines == old(sw.lines) + Usda(models, rootTransform)
      ensures textures.View() == TexturesOf(old(textures.View()), models, |models|)
    {
      ghost var s0 := sw.lines;
      ghost var h := HeaderLines();
      ghost var m := MeshesOf(models, rootTransform, |models|);
      ghost var ms := MaterialsOf(models, |models|);
      WriteHeader(sw);
      WriteModelMeshes(sw);
      AppendAssoc(s0, h, m);
      sw.WriteLine("}");
      AppendAssoc(s0, h + m, ["}"]);
      WriteModelMaterials(sw, textures);
      AppendAssoc(s0, h + m + ["}"], ms);
    }

    method WriteHeader(sw: LineWriter)
      modifies sw
      ensures sw.lines == old(sw.lines) + HeaderLines()
    {
      sw.WriteLine("#usda 1.0");
      sw.WriteLine("(");
      sw.WriteLine("    customLayerData = {");
      sw.WriteLine("        dictionary Apple = {");
      sw.WriteLine("            int preferredIblVersion = 2");
      sw.WriteLine("        }");
      sw.WriteLine("    }");
      sw.WriteLine(")");
      sw.WriteLine("");
      sw.WriteLine("def Xform \"root\"");
      sw.WriteLine("{");
    }

    /** The first loop of `ConvertToUsda`: each model's scene under its pose times the root transform. */
    method WriteModelMeshes(sw: LineWriter)
      modifies sw
      ensures sw.lines == old(sw.lines) + MeshesOf(models, rootTransform, |models|)
    {
      ghost var s0 := sw.lines;
      var i := 0;
      while i < |models|
        invariant 0 <= i <= |models|
        invariant sw.lines == s0 + MeshesOf(models, rootTransform, i)
      {
        var mat := Multiply(models[i].pose, rootTransform);
        var scene := SceneContainer(models[i].model.defaultScene);
        ghost var before := MeshesOf(models, rootTransform, i);
        ProcessScene(i, scene, mat, sw);
        AppendAssoc(s0, before, ContainerLines(i, scene, mat));
        i := i + 1;
      }
    }

    /** The second loop of `ConvertToUsda`: every logical material of every model. */
    method WriteModelMaterials(sw: LineWriter, textures: OrderedDict<string, seq<uint8>>)
      modifies sw, textures
      ensures sw.lines == old(sw.lines) + MaterialsOf(models, |models|)
      ensures textures.View() == TexturesOf(old(textures.View()), models, |models|)
    {
      ghost var s0 := sw.lines;
      ghost var t0 := textures.View();
      var i := 0;
      while i < |models|
        invariant 0 <= i <= |models|
        invariant sw.lines == s0 + MaterialsOf(models, i)
        invariant textures.View() == TexturesOf(t0, models, i)
      {
        var mats := models[i].model.logicalMaterials;
        ghost var before := MaterialsOf(models, i);
        ProcessModelMaterials(i, mats, sw, textures);
        assert textures.View() == TexturesOf(t0, models, i + 1);
        AppendAssoc(s0, before, MaterialListLines(i, mats, |mats|));
        assert sw.lines == s0 + MaterialsOf(models, i + 1);
        i := i + 1;
      }
    }

    method ProcessModelMaterials(modelIndex: nat, mats: seq<Material>, sw: LineWriter, textures: OrderedDict<string, seq<uint8>>)
      modifies sw, textures
      ensures sw.lines == old(sw.lines) + MaterialListLines(modelIndex, mats, |mats|)
      ensures textures.View() == MaterialListTextures(old(textures.View()), modelIndex, mats, |mats|)
    {
      ghost var s0 := sw.lines;
      ghost var t0 := textures.View();
      var j := 0;
      while j < |mats|
        invariant 0 <= j <= |mats|
        invariant sw.lines == s0 + MaterialListLines(modelIndex, mats, j)
        invariant textures.View() == MaterialListTextures(t0, modelIndex, mats, j)
      {
        ghost var before := MaterialListLines(modelIndex, mats, j);
        ghost var tb := textures.View();
        ProcessMaterial(modelIndex, mats[j], sw, textures);
        assert textures.View() == MaterialListTextures(t0, modelIndex, mats, j + 1);
        AppendAssoc(s0, before, MaterialLines(modelIndex, mats[j]));
        assert sw.lines == s0 + MaterialListLines(modelIndex, mats, j + 1);
        j := j + 1;
      }
    }

    /** `ProcessScene`: a node's triangle blocks, then its children's, depth first. */
    method ProcessScene(modelIndex: nat, visual: VisualNodeContainer, modelPose: Matrix4x4, sw: LineWriter)
      modifies sw
      decreases visual.VisualChildren(), 1
      ensures sw.lines == old(sw.lines) + ContainerLines(modelIndex, visual, modelPose)
    {
      ghost var start := sw.lines;
      if visual.NodeContainer? {
        ProcessOwnMesh(modelIndex, visual.node, modelPose, sw);
      }
      ProcessChildren(modelIndex, visual.VisualChildren(), modelPose, sw);
      if visual.NodeContainer? {
        AppendAssoc(start, OwnLines(modelIndex, visual.node, modelPose), ChildrenLines(modelIndex, visual.node.visualChildren, modelPose));
      }
    }

    /** The loop of `ProcessScene` over the visual children, in order. */
    method ProcessChildren(modelIndex: nat, children: seq<Node>, modelPose: Matrix4x4, sw: LineWriter)
      modifies sw
      decreases children, 0
      ensures sw.lines == old(sw.lines) + ChildrenLines(modelIndex, children, modelPose)
    {
      ghost var start := sw.lines;
      var c := 0;
      while c < |children|
        invariant 0 <= c <= |children|
        invariant sw.lines == start + ChildrenLines(modelIndex, children[..c], modelPose)
      {
        ProcessScene(modelIndex, NodeContainer(children[c]), modelPose, sw);
        ChildrenLinesStep(modelIndex, children, c, modelPose);
        AppendAssoc(start, ChildrenLines(modelIndex, children[..c], modelPose), NodeLines(modelIndex, children[c], modelPose));
        c := c + 1;
      }
      assert children[..c] == children;
    }

    /** The part of `ProcessScene` that handles a node's own mesh. */
    method ProcessOwnMesh(modelIndex: nat, node: Node, modelPose: Matrix4x4, sw: LineWriter)
      modifies sw
      ensures sw.lines == old(sw.lines) + OwnLines(modelIndex, node, modelPose)
    {
      ghost var start := sw.lines;
      if node.mesh.Some? {
        var primitives := node.mesh.value.primitives;
        var j := 0;
        while j < |primitives|
          invariant 0 <= j <= |primitives|
          invariant sw.lines == start + PrimitivesLines(modelIndex, node, primitives[..j], modelPose)
        {
          ProcessPrimitive(modelIndex, node, primitives[j], modelPose, sw);
          PrimitivesLinesStep(modelIndex, node, primitives, j, modelPose);
          AppendAssoc(start, PrimitivesLines(modelIndex, node, primitives[..j], modelPose), PrimitiveLines(modelIndex, node, primitives[j], modelPose));
          j := j + 1;
        }
        assert primitives[..j] == primitives;
      }
    }

    /** One iteration of the primitive loop: only a triangle list is written. */
    method ProcessPrimitive(modelIndex: nat, node: Node, primitive: Primitive, modelPose: Matrix4x4, sw: LineWriter)
      modifies sw
      ensures sw.lines == old(sw.lines) + PrimitiveLines(modelIndex, node, primitive, modelPose)
    {
      if primitive.drawPrimitiveType == TRIANGLES {
        WriteMeshBlock(modelIndex, node, primitive, modelPose, sw);
      }
    }

    /** The body of the TRIANGLES branch of `ProcessScene`. */
    method WriteMeshBlock(modelIndex: nat, node: Node, primitive: Primitive, modelPose: Matrix4x4, sw: LineWriter)
      modifies sw
      ensures sw.lines == old(sw.lines) + MeshBlock(modelIndex, node, primitive, modelPose)
    {
      ghost var s0 := sw.lines;
      var worldMat := Multiply(node.worldMatrix, modelPose);
      ghost var c1 := MeshOpenLines(MeshName(modelIndex, node), MatrixText(worldMat));
      ghost var c2 := OptionalLine(KPoints, VectorsText(primitive.position));
      ghost var c3 := PrimvarLines(KNormals, VectorsText(primitive.normal));
      ghost var c4 := FaceLines(IndexArrayText(primitive.indices), IndexArrayText(Repeat(3, |primitive.indices| / 3)));
      ghost var c5 := PrimvarLines(KSt, UvText(primitive.texCoord0));
      ghost var c6 := BindingLines(BindingTarget(modelIndex, primitive.material));
      WriteMeshOpen(MeshName(modelIndex, node), worldMat, sw);
      WritePoints(primitive.position, sw);
      AppendAssoc(s0, c1, c2);
      WriteNormals(primitive.normal, sw);
      AppendAssoc(s0, c1 + c2, c3);
      WriteFaces(primitive.indices, sw);
      AppendAssoc(s0, c1 + c2 + c3, c4);
      WriteSt(primitive.texCoord0, sw);
      AppendAssoc(s0, c1 + c2 + c3 + c4, c5);
      WriteBinding(modelIndex, primitive.material, sw);
      AppendAssoc(s0, c1 + c2 + c3 + c4 + c5, c6);
      sw.WriteLine("    }");
      AppendAssoc(s0, c1 + c2 + c3 + c4 + c5 + c6, ["    }"]);
      assert MeshBlock(modelIndex, node, primitive, modelPose) == c1 + c2 + c3 + c4 + c5 + c6 + ["    }"];
    }

    method WritePoints(vertices: Option<seq<Vec3>>, sw: LineWriter)
      modifies sw
      ensures sw.lines == old(sw.lines) + OptionalLine(KPoints, VectorsText(vertices))
    {
      if vertices.Some? {
        sw.WriteLine(KPoints + Vec3ArrayText(vertices.value));
      }
    }

    method WriteNormals(normals: Option<seq<Vec3>>, sw: LineWriter)
      modifies sw
      ensures sw.lines == old(sw.lines) + PrimvarLines(KNormals, VectorsText(normals))
    {
      if normals.Some? {
        sw.WriteLine(KNormals + (Vec3ArrayText(normals.value) + " ("));
        sw.WriteLine(KInterpolation + "\"vertex\"");
        sw.WriteLine("        )");
      }
    }

    method WriteFaces(indices: seq<uint32>, sw: LineWriter)
      modifies sw
      ensures sw.lines == old(sw.lines) + FaceLines(IndexArrayText(indices), IndexArrayText(Repeat(3, |indices| / 3)))
    {
      sw.WriteLine(KFaceIndices + IndexArrayText(indices));
      sw.WriteLine(KFaceCounts + IndexArrayText(Repeat(3, |indices| / 3)));
    }

    method WriteSt(uvs: Option<seq<Vec2>>, sw: LineWriter)
      modifies sw
      ensures sw.lines == old(sw.lines) + PrimvarLines(KSt, UvText(uvs))
    {
      if uvs.Some? {
        sw.WriteLine(KSt + (Vec2ArrayText(FlipV(uvs.value)) + " ("));
        sw.WriteLine(KInterpolation + "\"vertex\"");
        sw.WriteLine("        )");
      }
    }

    method WriteBinding(modelIndex: nat, material: Option<Material>, sw: LineWriter)
      modifies sw
      ensures sw.lines == old(sw.lines) + BindingLines(BindingTarget(modelIndex, material))
    {
      if material.Some? {
        sw.WriteLine(KBinding + ("</" + GetMatName(modelIndex, material.value) + ">"));
      }
    }

    method WriteMeshOpen(name: string, worldMat: Matrix4x4, sw: LineWriter)
      modifies sw
      ensures sw.lines == old(sw.lines) + MeshOpenLines(name, MatrixText(worldMat))
    {
      sw.WriteLine(KMeshHead + Quoted(name));
      sw.WriteLine("    {");
      sw.WriteLine(KTransform + MatrixText(worldMat));
      sw.WriteLine(KUniformToken + "[] xformOpOrder = [ \"xformOp:transform\"]");
      sw.WriteLine("");
    }

    /** `ProcessMaterial`: the material block, and its texture stored in the table. */
    method ProcessMaterial(modelIndex: nat, material: Material, sw: LineWriter, textures: OrderedDict<string, seq<uint8>>)
      modifies sw, textures
      ensures sw.lines == old(sw.lines) + MaterialLines(modelIndex, material)
      ensures textures.View() == AddTexture(old(textures.View()), modelIndex, material)
    {
      ghost var s0 := sw.lines;
      var texture := material.baseColorTexture;
      var matName := GetMatName(modelIndex, material);
      ghost var c1 := MaterialOpenLines(matName, XYZText(material.baseColor));
      ghost var c2 := ConnectLines(matName, texture.Some?);
      ghost var c3 := ScalarsLines(ScalarText(material.clearCoatFactor), ScalarText(material.clearCoatRoughnessFactor),
                                   ScalarText(material.metallicFactor), ScalarText(material.roughnessFactor));
      ghost var c4 := ShaderCloseLines();
      ghost var c5 := TextureLines(matName, TextureKey(modelIndex, texture));
      WriteMaterialOpen(matName, material.baseColor, sw);
      WriteConnect(matName, texture, sw);
      AppendAssoc(s0, c1, c2);
      WriteScalars(material, sw);
      AppendAssoc(s0, c1 + c2, c3);
      WriteShaderClose(sw);
      AppendAssoc(s0, c1 + c2 + c3, c4);
      if texture.Some? {
        var content := texture.value.primaryImage;
        var textureName := TextureName(modelIndex, texture.value);
        textures.Set(textureName, content.content);
        WriteTextureShaders(matName, textureName, sw);
      }
      AppendAssoc(s0, c1 + c2 + c3 + c4, c5);
      sw.WriteLine("}");
      AppendAssoc(s0, c1 + c2 + c3 + c4 + c5, ["}"]);
    }

    method WriteConnect(matName: string, texture: Option<Texture>, sw: LineWriter)
      modifies sw
      ensures sw.lines == old(sw.lines) + ConnectLines(matName, texture.Some?)
    {
      if texture.Some? {
        sw.WriteLine(KDiffuseConnect + (matName + "/diffuseTexture.outputs:rgb>"));
      }
    }

    method WriteShaderClose(sw: LineWriter)
      modifies sw
      ensures sw.lines == old(sw.lines) + ShaderCloseLines()
    {
      sw.WriteLine("        token outputs:surface");
      sw.WriteLine("    }");
    }

    method WriteMaterialOpen(matName: string, baseColor: Vec4, sw: LineWriter)
      modifies sw
      ensures sw.lines == old(sw.lines) + MaterialOpenLines(matName, XYZText(baseColor))
    {
      ghost var s0 := sw.lines;
      sw.WriteLine(KMaterialHead + Quoted(matName));
      sw.WriteLine("{");
      sw.WriteLine(KFrameInput + "stPrimvarName = \"st\"");
      sw.WriteLine(KSurfaceConnect + (matName + "/PBRShader.outputs:surface>"));
      sw.WriteLine("");
      sw.WriteLine("    def Shader \"PBRShader\"");
      sw.WriteLine("    {");
      sw.WriteLine(KUniformToken + " info:id = \"UsdPreviewSurface\"");
      assert sw.lines == s0 + [KMaterialHead + Quoted(matName)] + SurfaceLines(matName);
      sw.WriteLine(KDiffuse + XYZText(baseColor));
    }

    /** The four optional scalar inputs, each written only when its value is present. */
    method WriteScalars(material: Material, sw: LineWriter)
      modifies sw
      ensures sw.lines == old(sw.lines)
        + ScalarsLines(ScalarText(material.clearCoatFactor), ScalarText(material.clearCoatRoughnessFactor),
                       ScalarText(material.metallicFactor), ScalarText(material.roughnessFactor))
    {
      ghost var s0 := sw.lines;
      ghost var c1 := OptionalLine(KClearcoat, ScalarText(material.clearCoatFactor));
      ghost var c2 := OptionalLine(KClearcoatRoughness, ScalarText(material.clearCoatRoughnessFactor));
      ghost var c3 := OptionalLine(KMetallic, ScalarText(material.metallicFactor));
      ghost var c4 := OptionalLine(KRoughness, ScalarText(material.roughnessFactor));
      WriteScalar(KClearcoat, material.clearCoatFactor, sw);
      WriteScalar(KClearcoatRoughness, material.clearCoatRoughnessFactor, sw);
      AppendAssoc(s0, c1, c2);
      WriteScalar(KMetallic, material.metallicFactor, sw);
      AppendAssoc(s0, c1 + c2, c3);
      WriteScalar(KRoughness, material.roughnessFactor, sw);
      AppendAssoc(s0, c1 + c2 + c3, c4);
    }

    /** `if (value.HasValue) WriteLine(key + value)`. */
    method WriteScalar(key: string, value: Option<real>, sw: LineWriter)
      modifies sw
      ensures sw.lines == old(sw.lines) + OptionalLine(key, ScalarText(value))
    {
      if value.Some? {
        sw.WriteLine(key + FormatFixed(value.value, 7));
      }
    }

    method WriteTextureShaders(matName: string, textureName: string, sw: LineWriter)
      modifies sw
      ensures sw.lines == old(sw.lines) + TextureShaderLines(matName, textureName)
    {
      ghost var s0 := sw.lines;
      WriteStReader(matName, sw);
      WriteSampler(matName, textureName, sw);
      AppendAssoc(s0, StReaderLines(matName), SamplerLines(matName, textureName));
    }

    method WriteStReader(matName: string, sw: LineWriter)
      modifies sw
      ensures sw.lines == old(sw.lines) + StReaderLines(matName)
    {
      sw.WriteLine("");
      sw.WriteLine(KStReader);
      sw.WriteLine("    {");
      sw.WriteLine(KUniformToken + " info:id = \"UsdPrimvarReader_float2\"");
      sw.WriteLine(KVarnameConnect + (matName + ".inputs:frame:stPrimvarName>"));
      sw.WriteLine("        float2 outputs:result");
      sw.WriteLine("    }");
    }

    method WriteSampler(matName: string, textureName: string, sw: LineWriter)
      modifies sw
      ensures sw.lines == old(sw.lines) + SamplerLines(matName, textureName)
    {
      ghost var s0 := sw.lines;
      sw.WriteLine("");
      sw.WriteLine(KDiffuseTexture);
      sw.WriteLine("    {");
      sw.WriteLine(KUniformToken + " info:id = \"UsdUVTexture\"");
      assert sw.lines == s0 + SamplerHead();
      sw.WriteLine(KTextureFile + (textureName + "@"));
      sw.WriteLine(KSourceColorSpace + "\"raw\"");
      sw.WriteLine(KStConnect + (matName + "/stReader.outputs:result>"));
      assert sw.lines == s0 + SamplerHead() + SamplerInputLines(matName, textureName);
      sw.WriteLine("        token inputs:wrapS = \"repeat\"");
      sw.WriteLine("        token inputs:wrapT = \"repeat\"");
      sw.WriteLine("        float3 outputs:rgb");
      sw.WriteLine("    }");
      sw.WriteLine("");
    }
  }

  // ---------------------------------------------------------------------------
  // One loop iteration at a time
  // ---------------------------------------------------------------------------

  lemma PrimitivesLinesStep(modelIndex: nat, node: Node, ps: seq<Primitive>, j: nat, modelPose: Matrix4x4)
    requires j < |ps|
    ensures PrimitivesLines(modelIndex, node, ps[..j + 1], modelPose)
         == PrimitivesLines(modelIndex, node, ps[..j], modelPose) + PrimitiveLines(modelIndex, node, ps[j], modelPose)
  {
    assert ps[..j + 1][..j] == ps[..j];
  }

  lemma ChildrenLinesStep(modelIndex: nat, children: seq<Node>, c: nat, modelPose: Matrix4x4)
    requires c < |children|
    ensures ChildrenLines(modelIndex, children[..c + 1], modelPose)
         == ChildrenLines(modelIndex, children[..c], modelPose) + NodeLines(modelIndex, children[c], modelPose)
  {
    assert children[..c + 1][..c] == children[..c];
  }

  // ---------------------------------------------------------------------------
  // The texture table stays a well-formed dictionary
  // ---------------------------------------------------------------------------

  lemma AddTextureValid(t: Table<string, seq<uint8>>, modelIndex: nat, m: Material)
    requires t.Valid()
    ensures AddTexture(t, modelIndex, m).Valid()
  {
    if m.baseColorTexture.Some? {
      PutValid(t, TextureName(modelIndex, m.baseColorTexture.value), m.baseColorTexture.value.primaryImage.content);
    }
  }

  lemma {:induction false} MaterialListTexturesValid(t: Table<string, seq<uint8>>, modelIndex: nat, mats: seq<Material>, k: nat)
    requires k <= |mats| && t.Valid()
    ensures MaterialListTextures(t, modelIndex, mats, k).Valid()
  {
    if k > 0 {
      MaterialListTexturesValid(t, modelIndex, mats, k - 1);
      AddTextureValid(MaterialListTextures(t, modelIndex, mats, k - 1), modelIndex, mats[k - 1]);
    }
  }

  lemma {:induction false} TexturesOfValid(t: Table<string, seq<uint8>>, models: seq<PosedModel>, n: nat)
    requires n <= |models| && t.Valid()
    ensures TexturesOf(t, models, n).Valid()
  {
    if n > 0 {
      TexturesOfValid(t, models, n - 1);
      MaterialListTexturesValid(TexturesOf(t, models, n - 1), n - 1, models[n - 1].model.logicalMaterials,
                                |models[n - 1].model.logicalMaterials|);
    }
  }
}
