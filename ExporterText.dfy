/**
 * The text builders of USDZExporter.cs. Each builder's string is given as
 * the lines it is made of, every line followed by "\n" (`LinesText`); where a
 * source string has no final newline, or a line is assembled from two
 * pieces, the lines say so explicitly.
 */
module ExporterText {
  import opened Wrappers
  import opened Text
  import opened Numerics
  import opened UsdzUtils
  import opened Three

  /** The text of lines, each followed by a newline. */
  function LinesText(lines: seq<string>): string
  {
    if lines == [] then "" else lines[0] + "\n" + LinesText(lines[1..])
  }

  /** The archive path of the geometry file of a geometry Id; Xforms reference it. */
  function GeometryFileName(id: nat): string
  {
    "geometries/Geometry_" + NatText(id) + ".usda"
  }

  /** The archive path of the PNG file of a texture Id; samplers read it. */
  function TextureFileName(id: nat): string
  {
    "textures/Texture_" + NatText(id) + ".png"
  }

  /** The three-tab indentation `pad` of `BuildMaterial`. */
  const Indent3 := "\t\t\t"

  // ---------------------------------------------------------------------------
  // Document frame
  // ---------------------------------------------------------------------------

  /**
   * `BuildHeader()`. The lines are given twice: `HeaderDisplay` spells them
   * out, `HeaderLines` lists them index by index so that proofs which only
   * carry the header along never see its text; `HeaderLinesDisplay` equates
   * the two. `SceneStartLines` and `XformLines` are written the same way.
   */
  function HeaderLines(): (r: seq<string>)
    ensures |r| == 10
  {
    seq(10, k requires 0 <= k < 10 => HeaderDisplay()[k])
  }

  lemma HeaderLinesDisplay()
    ensures HeaderLines() == HeaderDisplay()
  {
  }

  function HeaderDisplay(): (r: seq<string>)
    ensures |r| == 10
  {
    [ "#usda 1.0",
      "(",
      "\tcustomLayerData = {",
      "\t\tstring creator = \"Three.js USDZExporter\"",
      "\t}",
      "\tdefaultPrim = \"Root\"",
      "\tmetersPerUnit = 1",
      "\tupAxis = \"Y\"",
      ")",
      "" ]
  }

  const KAnchoringType := "\t\t\ttoken preliminary:anchoring:type = "
  const KPlaneAlignment := "\t\t\ttoken preliminary:planeAnchoring:alignment = "

  /** `BuildSceneStart(options)`: the Root, Scenes and Scene prims, opened;
      the two anchoring tokens follow when `includeAnchoringProperties`. */
  function SceneStartLines(includeAnchoring: bool): (r: seq<string>)
    ensures |r| == if includeAnchoring then 17 else 14
  {
    var n := if includeAnchoring then 17 else 14;
    seq(n, k requires 0 <= k < n => SceneStartDisplay(includeAnchoring)[k])
  }

  lemma SceneStartLinesDisplay(includeAnchoring: bool)
    ensures SceneStartLines(includeAnchoring) == SceneStartDisplay(includeAnchoring)
  {
  }

  function SceneStartDisplay(includeAnchoring: bool): (r: seq<string>)
    ensures |r| == if includeAnchoring then 17 else 14
  {
    [ "def Xform \"Root\"",
      "{",
      "\tdef Scope \"Scenes\" (",
      "\t\tkind = \"sceneLibrary\"",
      "\t)",
      "\t{",
      "\t\tdef Xform \"Scene\" (",
      "\t\t\tcustomData = {",
      "\t\t\t\tbool preliminary_collidesWithEnvironment = 0",
      "\t\t\t\tstring sceneName = \"Scene\"",
      "\t\t\t}",
      "\t\t\tsceneName = \"Scene\"",
      "\t\t)",
      "\t\t{" ]
    + (if includeAnchoring
       then [KAnchoringType + "\"plane\"", KPlaneAlignment + "\"horizontal\"", ""]
       else [])
  }

  /** `BuildSceneEnd()`. */
  function SceneEndLines(): seq<string>
  {
    ["", "\t\t}", "\t}", "", ""]
  }

  // ---------------------------------------------------------------------------
  // Objects
  // ---------------------------------------------------------------------------

  /** `BuildMatrixRow(array, offset)`: four elements from `offset`, default float format. */
  function MatrixRow(elements: Matrix4x4, offset: nat): string
    requires offset + 3 < 16
  {
    "(" + FormatDefault(elements[offset + 0]) + ", " + FormatDefault(elements[offset + 1]) + ", "
      + FormatDefault(elements[offset + 2]) + ", " + FormatDefault(elements[offset + 3]) + ")"
  }

  /** `BuildMatrix(matrix)`: the rows at offsets 0, 4, 8 and 12 of `Elements`. */
  function Matrix(elements: Matrix4x4): string
  {
    "( " + MatrixRow(elements, 0) + ", " + MatrixRow(elements, 4) + ", "
      + MatrixRow(elements, 8) + ", " + MatrixRow(elements, 12) + " )"
  }

  const KObjectXform := "\t\t\tdef Xform "
  const KReferences := "\t\t\t\tprepend references = "
  const KTransform := "\t\t\t\tmatrix4d xformOp:transform = "
  const KBinding := "\t\t\t\trel material:binding = "

  function Quoted(s: string): string
  {
    "\"" + s + "\""
  }

  /** The prim name `Material_{id}` of a material inside the Materials scope. */
  function MaterialName(id: nat): string
  {
    "Material_" + NatText(id)
  }

  /** The prim path `</Materials/Material_{id}>`. */
  function MaterialPath(id: nat): string
  {
    "</Materials/" + MaterialName(id) + ">"
  }

  /**
   * `BuildXform(obj, geometry, material)`. Without a material the binding
   * line is replaced by four tabs with no newline, so that they prefix the
   * closing brace.
   */
  function XformLines(objectId: nat, matrixWorld: Matrix4x4, geometryId: nat, material: Option<Material>): (r: seq<string>)
    ensures |r| == if material.Some? then 9 else 8
  {
    var n := if material.Some? then 9 else 8;
    seq(n, k requires 0 <= k < n => XformDisplay(objectId, Matrix(matrixWorld), geometryId, material)[k])
  }

  lemma XformLinesDisplay(objectId: nat, matrixWorld: Matrix4x4, geometryId: nat, material: Option<Material>)
    ensures XformLines(objectId, matrixWorld, geometryId, material) == XformDisplay(objectId, Matrix(matrixWorld), geometryId, material)
  {
  }

  /** The Xform's lines around the text `transform` of its world matrix. */
  function XformDisplay(objectId: nat, transform: string, geometryId: nat, material: Option<Material>): (r: seq<string>)
    ensures |r| == if material.Some? then 9 else 8
  {
    [ KObjectXform + Quoted("Object_" + NatText(objectId)) + " (",
      KReferences + "@./" + GeometryFileName(geometryId) + "@</Geometry>",
      "\t\t\t\tprepend apiSchemas = [\"MaterialBindingAPI\"]",
      "\t\t\t)",
      "\t\t\t{",
      KTransform + transform,
      "\t\t\t\tuniform token[] " + "xformOpOrder = [\"xformOp:transform\"]" ]
    + (if material.Some? then [KBinding + MaterialPath(material.value.id), "\t\t\t}"]
       else ["\t\t\t\t" + "\t\t\t}"])
  }

  // ---------------------------------------------------------------------------
  // Geometry files
  // ---------------------------------------------------------------------------

  /** `BuildMeshVertexCount`: a 3 per face, joined by ", ". */
  function VertexCountText(faces: seq<Face>): string
  {
    Join(", ", seq(|faces|, i requires 0 <= i < |faces| => "3"))
  }

  /** The corners of every face, a, b, c, face after face. */
  function Corners(faces: seq<Face>): (r: seq<nat>)
    ensures |r| == 3 * |faces|
    ensures forall i :: 0 <= i < |faces| ==> r[3 * i] == faces[i].a && r[3 * i + 1] == faces[i].b && r[3 * i + 2] == faces[i].c
  {
    if faces == [] then [] else
    var rest := Corners(faces[1..]);
    assert forall i :: 1 <= i < |faces| ==> faces[i] == faces[1..][i - 1];
    [faces[0].a, faces[0].b, faces[0].c] + rest
  }

  /** `BuildMeshVertexIndices`: the corners of every face, joined by ", ". */
  function VertexIndicesText(faces: seq<Face>): string
  {
    Join(", ", NatTexts(Corners(faces)))
  }

  /** One vector as `BuildVector3Array` renders it: "(x, y, z)" in F5. */
  function F5Text(v: Vec3): string
  {
    "(" + FormatFixed(v.x, 5) + ", " + FormatFixed(v.y, 5) + ", " + FormatFixed(v.z, 5) + ")"
  }

  function F5Texts(vs: seq<Vec3>): (r: seq<string>)
    ensures |r| == |vs| && forall i :: 0 <= i < |vs| ==> r[i] == F5Text(vs[i])
  {
    seq(|vs|, i requires 0 <= i < |vs| => F5Text(vs[i]))
  }

  /** `BuildVector3Array(attribute)`: the tuples joined by ", "; a null array
      is dereferenced for its `Count` and throws. */
  function Vector3Array(attribute: Option<seq<Vec3>>): Result<string>
  {
    if attribute.None? then Err(NullReference) else Ok(Join(", ", F5Texts(attribute.value)))
  }

  const KFaceCounts := "        int[] faceVertexCounts = "
  const KFaceIndices := "        int[] faceVertexIndices = "
  const KNormals := "        normal3f[] normals = "
  const KPoints := "        point3f[] points = "

  /** `BuildMesh(geometry)`, given its two attribute arrays; `BuildPrimvars(null)`
      contributes an empty line. */
  function MeshLines(faces: seq<Face>, normals: string, points: string): (r: seq<string>)
    ensures |r| == 12
  {
    seq(12, k requires 0 <= k < 12 => MeshDisplay(VertexCountText(faces), VertexIndicesText(faces), normals, points)[k])
  }

  lemma MeshLinesDisplay(faces: seq<Face>, normals: string, points: string)
    ensures MeshLines(faces, normals, points) == MeshDisplay(VertexCountText(faces), VertexIndicesText(faces), normals, points)
  {
  }

  /** The mesh's lines around the texts of its four arrays. */
  function MeshDisplay(counts: string, indices: string, normals: string, points: string): (r: seq<string>)
    ensures |r| == 12
  {
    [ "",
      "    def Mesh \"Geometry\"",
      "    {",
      KFaceCounts + "[" + counts + "]",
      KFaceIndices + "[" + indices + "]",
      KNormals + "[" + normals + "] (",
      "            interpolation = \"vertex\"",
      "        )",
      KPoints + "[" + points + "]",
      "",
      "        uniform token subdivisionScheme = \"none\"",
      "    }" ]
  }

  /** `BuildMeshObject(geometry)`: the mesh wrapped in `def "Geometry"`; it
      fails when either attribute array is null, normals first. */
  function MeshObjectLines(g: Geometry): Result<seq<string>>
  {
    match (Vector3Array(g.normals), Vector3Array(g.vertices))
    case (Err(e), _) => Err(e)
    case (_, Err(e)) => Err(e)
    case (Ok(normals), Ok(points)) => Ok(["", "def \"Geometry\"", "{"] + MeshLines(g.faces, normals, points) + ["", "}"])
  }

  /** `BuildUSDFileAsString(BuildMeshObject(geometry))`: the header and the
      mesh object, as UTF-8. */
  function GeometryFile(g: Geometry): Result<seq<uint8>>
  {
    match MeshObjectLines(g)
    case Err(e) => Err(e)
    case Ok(lines) => Ok(Utf8(LinesText(HeaderLines() + lines)))
  }

  // ---------------------------------------------------------------------------
  // Materials
  // ---------------------------------------------------------------------------

  /** `BuildColor(color)`. */
  function ColorText(c: Color): string
  {
    "(" + FormatDefault(c.r) + ", " + FormatDefault(c.g) + ", " + FormatDefault(c.b) + ")"
  }

  /** `BuildColor4(color)`: the colour with an alpha of 1.0. */
  function Color4Text(c: Color): string
  {
    "(" + FormatDefault(c.r) + ", " + FormatDefault(c.g) + ", " + FormatDefault(c.b) + ", 1.0)"
  }

  /** `BuildVector2(vector)`. */
  function Vector2Text(v: Vec2): string
  {
    "(" + FormatDefault(v.x) + ", " + FormatDefault(v.y) + ")"
  }

  /** The `WRAPPINGS` table of `BuildTexture`. */
  function Wrapping(mode: int): Option<string>
  {
    if mode == 1000 then Some("repeat")
    else if mode == 1001 then Some("clamp")
    else if mode == 1002 then Some("mirror")
    else None
  }

  /** `Math.PI`. */
  const Pi: real := 3.141592653589793

  /** `Material_{id}/{shader}` inside the Materials scope, as a connection target. */
  function ShaderPath(materialId: nat, shader: string, output: string): string
  {
    "</Materials/" + MaterialName(materialId) + "/" + shader + "." + output + ">"
  }

  /** The `PrimvarReader_{mapType}` shader of a sampler. */
  function ReaderLines(mapType: string): seq<string>
  {
    [ Indent3 + "def Shader \"PrimvarReader_" + mapType + "\"",
      Indent3 + "{",
      Indent3 + "    uniform token info:id = \"UsdPrimvarReader_float2\"",
      Indent3 + "    float2 inputs:fallback = (0.0, 0.0)",
      Indent3 + "    token inputs:varname = \"st\"",
      Indent3 + "    float2 outputs:result",
      Indent3 + "}",
      Indent3 ]
  }

  /** The `Transform2d_{mapType}` shader of a sampler. */
  function TransformLines(materialId: nat, t: Texture, mapType: string, quickLookCompatible: bool): seq<string>
  {
    [ Indent3 + "def Shader \"Transform2d_" + mapType + "\"",
      Indent3 + "{",
      Indent3 + "    uniform token info:id = \"UsdTransform2d\"",
      Indent3 + "    token inputs:in.connect = " + ShaderPath(materialId, "PrimvarReader_" + mapType, "outputs:result"),
      Indent3 + "    float inputs:rotation = " + FormatFixed(t.rotation * (180.0 / Pi), 2),
      Indent3 + "    float2 inputs:scale = " + Vector2Text(t.repeat),
      Indent3 + "    float2 inputs:translation = " + Vector2Text(if quickLookCompatible then t.translationQuickLook else t.translation),
      Indent3 + "    float2 outputs:result",
      Indent3 + "}",
      Indent3 ]
  }

  const KTextureFile := "\t\t\t    asset inputs:file = "

  /** The name `Texture_{id}_{mapType}` of a sampler's texture shader. */
  function TextureShader(textureId: nat, mapType: string): string
  {
    "Texture_" + NatText(textureId) + "_" + mapType
  }

  /** The `Texture_{id}_{mapType}` shader of a sampler, once both wrap modes are known. */
  function UVTextureLines(m: Material, t: Texture, mapType: string, color: Option<Color>, wrapS: string, wrapT: string): seq<string>
  {
    [ Indent3 + "def Shader " + Quoted(TextureShader(t.id, mapType)),
      Indent3 + "{",
      Indent3 + "    uniform token info:id = \"UsdUVTexture\"",
      KTextureFile + "@" + TextureFileName(t.id) + "@",
      Indent3 + "    float2 inputs:st.connect = " + ShaderPath(m.id, "Transform2d_" + mapType, "outputs:result"),
      Indent3 + "    " + (if color.Some? then "float4 inputs:scale = " + Color4Text(color.value) else ""),
      Indent3 + "    token inputs:sourceColorSpace = " + Quoted(if t.isSrgb then "sRGB" else "raw"),
      Indent3 + "    token inputs:wrapS = " + Quoted(wrapS),
      Indent3 + "    token inputs:wrapT = " + Quoted(wrapT),
      Indent3 + "    float outputs:r",
      Indent3 + "    float outputs:g",
      Indent3 + "    float outputs:b",
      Indent3 + "    float3 outputs:rgb",
      Indent3 + "    " + (if m.transparent || m.alphaTest > 0.0 then "float outputs:a" else ""),
      Indent3 + "}" ]
  }

  /** A texture use: which texture, under which map type, with which scale colour. */
  datatype Use = Use(texture: Texture, mapType: string, color: Option<Color>)

  /** Both wrap modes of the texture are in `WRAPPINGS`. */
  predicate WrapsKnown(t: Texture)
  {
    Wrapping(t.wrapS).Some? && Wrapping(t.wrapT).Some?
  }

  /**
   * The string `BuildTexture(texture, mapType, color)` returns, without its
   * leading newline: the reader, the transform and the texture shader.
   */
  function SamplerShaders(m: Material, u: Use, quickLookCompatible: bool): (r: seq<string>)
    requires WrapsKnown(u.texture)
    ensures |r| == 33
  {
    ReaderLines(u.mapType)
      + TransformLines(m.id, u.texture, u.mapType, quickLookCompatible)
      + UVTextureLines(m, u.texture, u.mapType, u.color, Wrapping(u.texture.wrapS).value, Wrapping(u.texture.wrapT).value)
  }

  /**
   * The same lines, line by line: proofs about the sampler list see only
   * this name, and `SamplerLinesShaders` opens it.
   */
  function SamplerLines(m: Material, u: Use, quickLookCompatible: bool): (r: seq<string>)
    requires WrapsKnown(u.texture)
    ensures |r| == 33
  {
    seq(33, k requires 0 <= k < 33 => SamplerShaders(m, u, quickLookCompatible)[k])
  }

  lemma SamplerLinesShaders(m: Material, u: Use, quickLookCompatible: bool)
    requires WrapsKnown(u.texture)
    ensures SamplerLines(m, u, quickLookCompatible) == SamplerShaders(m, u, quickLookCompatible)
  {
  }

  /**
   * The lines of `string.Join("\n", samplers)` after a line holding `pad`:
   * every sampler starts with a newline and none ends with one, so
   * consecutive samplers are separated by an empty line.
   */
  function SamplerRun(samplers: seq<seq<string>>): (r: seq<string>)
    ensures (forall j :: 0 <= j < |samplers| ==> |samplers[j]| == 33) && samplers != [] ==> |r| == 34 * |samplers| - 1
  {
    if samplers == [] then []
    else if |samplers| == 1 then samplers[0]
    else samplers[0] + [""] + SamplerRun(samplers[1..])
  }

  /** The lines `string.Join("\n", inputs)` adds after four tabs. */
  function InputLines(inputs: seq<string>): seq<string>
  {
    if inputs == [] then ["\t\t\t\t"] else ["\t\t\t\t" + inputs[0]] + inputs[1..]
  }

  /** The string `BuildMaterial` returns, given its `inputs` and `samplers` lists. */
  function MaterialLines(id: nat, inputs: seq<string>, samplers: seq<seq<string>>): (r: seq<string>)
    ensures |r| == 15 + |InputLines(inputs)| + |SamplerRun(samplers)|
  {
    var n := 15 + |InputLines(inputs)| + |SamplerRun(samplers)|;
    seq(n, k requires 0 <= k < n => MaterialDisplay(id, inputs, samplers)[k])
  }

  lemma MaterialLinesDisplay(id: nat, inputs: seq<string>, samplers: seq<seq<string>>)
    ensures MaterialLines(id, inputs, samplers) == MaterialDisplay(id, inputs, samplers)
  {
  }

  function MaterialDisplay(id: nat, inputs: seq<string>, samplers: seq<seq<string>>): (r: seq<string>)
    ensures |r| == 15 + |InputLines(inputs)| + |SamplerRun(samplers)|
  {
    [ "",
      "\t\tdef Material " + Quoted(MaterialName(id)),
      "\t\t{",
      "\t\t\tdef Shader " + Quoted("PreviewSurface"),
      "\t\t\t{",
      "\t\t\t\tuniform token info:id = \"UsdPreviewSurface\"" ]
    + InputLines(inputs)
    + [ "\t\t\t\tint inputs:useSpecularWorkflow = 0",
        "\t\t\t\ttoken outputs:surface",
        "\t\t\t}",
        Indent3,
        Indent3 + "token outputs:surface.connect = " + ShaderPath(id, "PreviewSurface", "outputs:surface"),
        Indent3,
        Indent3 ]
    + SamplerRun(samplers)
    + ["\t\t", "\t\t}"]
  }

  function Concat(blocks: seq<seq<string>>): seq<string>
  {
    if blocks == [] then [] else blocks[0] + Concat(blocks[1..])
  }

  /** `BuildMaterials(...)`: the Materials scope holding every material's text. */
  function MaterialsLines(materials: seq<seq<string>>): seq<string>
  {
    ["\tdef \"Materials\"", "\t{"] + Concat(materials) + ["\t", "\t}"]
  }

  /** The text of `model.usda`: all the lines, then "\n}" with no final newline. */
  function ModelText(lines: seq<string>): string
  {
    LinesText(lines) + "\n}"
  }
}
