/**
 * What the text builders of USDZExporter.cs write, read back: the matrix
 * rows, the face arrays and the vector arrays parse into the values they were
 * built from, an Xform references the geometry file the traversal stores and
 * binds its material exactly when it has one, and a sampler reads the PNG
 * file the texture loop writes.
 */
module ExporterTextProperties {
  import opened Wrappers
  import opened Text
  import opened Numerics
  import opened UsdzUtils
  import opened Three
  import opened ExporterText
  import opened UsdzExporter
  import opened Lines

  // ---------------------------------------------------------------------------
  // Matrices
  // ---------------------------------------------------------------------------

  /**
   * `BuildMatrix` writes what the converter's `Matrix4x4.ToUsdString` writes:
   * four row tuples, the r-th holding elements 4r to 4r + 3 in order.
   */
  lemma MatrixRows(e: Matrix4x4)
    ensures Matrix(e) == MatrixText(e)
    ensures Unwrap(Matrix(e), "( ", " )").Some?
    ensures SplitTuples(Unwrap(Matrix(e), "( ", " )").value)
         == Some([MatrixRow(e, 0), MatrixRow(e, 4), MatrixRow(e, 8), MatrixRow(e, 12)])
    ensures forall r :: 0 <= r < 4 ==>
              Unwrap(MatrixRow(e, 4 * r), "(", ")").Some?
              && SplitFields(Unwrap(MatrixRow(e, 4 * r), "(", ")").value)
                 == [FormatDefault(e[4 * r]), FormatDefault(e[4 * r + 1]), FormatDefault(e[4 * r + 2]), FormatDefault(e[4 * r + 3])]
  {
    forall r | 0 <= r < 4
      ensures MatrixRow(e, 4 * r) == MatrixRowText(e, r)
    {
      assert e[4 * r + 0] == e[4 * r];
    }
    MatrixTextShape(e);
  }

  // ---------------------------------------------------------------------------
  // Geometry files
  // ---------------------------------------------------------------------------

  /** `faceVertexCounts` reads back as a 3 for every face. */
  lemma VertexCountsRead(faces: seq<Face>)
    ensures ParseIndexArray("[" + VertexCountText(faces) + "]") == Some(Repeat(3, |faces|))
  {
    var threes := Repeat(3, |faces|);
    assert NatText(3) == "3";
    assert NatTexts(threes) == seq(|faces|, i requires 0 <= i < |faces| => "3");
    IndexArrayRoundTrip(threes);
  }

  /** `faceVertexIndices` reads back as the corners of the faces, in order. */
  lemma VertexIndicesRead(faces: seq<Face>)
    ensures ParseIndexArray("[" + VertexIndicesText(faces) + "]") == Some(Corners(faces))
  {
    IndexArrayRoundTrip(Corners(faces));
  }

  /**
   * The two face lines of the mesh: each is its key followed by an array
   * that reads back as the counts and as the corners.
   */
  lemma MeshFaceLines(faces: seq<Face>, normals: string, points: string)
    ensures StartsWith(MeshLines(faces, normals, points)[3], KFaceCounts)
    ensures ParseIndexArray(MeshLines(faces, normals, points)[3][|KFaceCounts|..]) == Some(Repeat(3, |faces|))
    ensures StartsWith(MeshLines(faces, normals, points)[4], KFaceIndices)
    ensures ParseIndexArray(MeshLines(faces, normals, points)[4][|KFaceIndices|..]) == Some(Corners(faces))
  {
    MeshArrays(VertexCountText(faces), VertexIndicesText(faces), normals, points);
    DropPrefix(KFaceCounts, "[" + VertexCountText(faces) + "]");
    DropPrefix(KFaceIndices, "[" + VertexIndicesText(faces) + "]");
    VertexCountsRead(faces);
    VertexIndicesRead(faces);
  }

  /** The face lines of the mesh, for any texts of its arrays. */
  lemma MeshArrays(counts: string, indices: string, normals: string, points: string)
    ensures MeshDisplay(counts, indices, normals, points)[3] == KFaceCounts + ("[" + counts + "]")
    ensures MeshDisplay(counts, indices, normals, points)[4] == KFaceIndices + ("[" + indices + "]")
  {
  }

  lemma DropPrefix(a: string, b: string)
    ensures StartsWith(a + b, a) && (a + b)[|a|..] == b
  {
    assert (a + b)[..|a|] == a;
  }

  /**
   * `BuildVector3Array` throws exactly on a null array; otherwise its text
   * is one tuple per vector, in order, each holding the vector's three F5
   * components.
   */
  lemma Vector3ArrayRead(attribute: Option<seq<Vec3>>)
    ensures Vector3Array(attribute).Err? <==> attribute.None?
    ensures Vector3Array(attribute).Err? ==> Vector3Array(attribute).error == NullReference
    ensures attribute.Some? ==> SplitTuples(Vector3Array(attribute).value) == Some(F5Texts(attribute.value))
    ensures attribute.Some? ==> forall i :: 0 <= i < |attribute.value| ==>
              Unwrap(F5Texts(attribute.value)[i], "(", ")").Some?
              && SplitFields(Unwrap(F5Texts(attribute.value)[i], "(", ")").value)
                 == [FormatFixed(attribute.value[i].x, 5), FormatFixed(attribute.value[i].y, 5), FormatFixed(attribute.value[i].z, 5)]
  {
    if attribute.Some? {
      var vs := attribute.value;
      forall i | 0 <= i < |vs|
        ensures IsTuple(F5Texts(vs)[i])
        ensures Unwrap(F5Texts(vs)[i], "(", ")").Some?
        ensures SplitFields(Unwrap(F5Texts(vs)[i], "(", ")").value)
                == [FormatFixed(vs[i].x, 5), FormatFixed(vs[i].y, 5), FormatFixed(vs[i].z, 5)]
      {
        Tuple3Shape(FormatFixed(vs[i].x, 5), FormatFixed(vs[i].y, 5), FormatFixed(vs[i].z, 5));
      }
      SplitJoinTuples(F5Texts(vs), ", ");
    }
  }

  // ---------------------------------------------------------------------------
  // Xforms
  // ---------------------------------------------------------------------------

  /**
   * An Xform references the geometry file stored under `GeometryFileName`
   * of its geometry's Id, carries the world matrix, and has a binding line
   * exactly when it has a material: its eighth, naming that material's
   * prim. Without one, the four tabs of the missing line prefix the closing
   * brace.
   */
  lemma XformReferences(objectId: nat, matrixWorld: Matrix4x4, geometryId: nat, material: Option<Material>)
    ensures XformLines(objectId, matrixWorld, geometryId, material)[1]
         == KReferences + "@./" + GeometryFileName(geometryId) + "@</Geometry>"
    ensures XformLines(objectId, matrixWorld, geometryId, material)[5] == KTransform + Matrix(matrixWorld)
    ensures material.Some? ==> XformLines(objectId, matrixWorld, geometryId, material)[7]
                               == KBinding + MaterialPath(material.value.id)
    ensures material.None? ==> XformLines(objectId, matrixWorld, geometryId, material)[7] == "\t\t\t\t\t\t\t}"
    ensures forall i :: 0 <= i < |XformLines(objectId, matrixWorld, geometryId, material)| ==>
              (StartsWith(XformLines(objectId, matrixWorld, geometryId, material)[i], KBinding)
               <==> material.Some? && i == 7)
  {
    XformLinesDisplay(objectId, matrixWorld, geometryId, material);
    XformShape(objectId, Matrix(matrixWorld), geometryId, material);
  }

  /** `XformReferences` for any text of the matrix. */
  lemma XformShape(objectId: nat, transform: string, geometryId: nat, material: Option<Material>)
    ensures XformDisplay(objectId, transform, geometryId, material)[1]
         == KReferences + "@./" + GeometryFileName(geometryId) + "@</Geometry>"
    ensures XformDisplay(objectId, transform, geometryId, material)[5] == KTransform + transform
    ensures material.Some? ==> XformDisplay(objectId, transform, geometryId, material)[7]
                               == KBinding + MaterialPath(material.value.id)
    ensures material.None? ==> XformDisplay(objectId, transform, geometryId, material)[7] == "\t\t\t\t\t\t\t}"
    ensures forall i :: 0 <= i < |XformDisplay(objectId, transform, geometryId, material)| ==>
              (StartsWith(XformDisplay(objectId, transform, geometryId, material)[i], KBinding)
               <==> material.Some? && i == 7)
  {
    var d := XformDisplay(objectId, transform, geometryId, material);
    if material.Some? {
      DropPrefix(KBinding, MaterialPath(material.value.id));
    }
    XformLinesOff(objectId, transform, geometryId, if material.Some? then material.value.id else 0);
  }

  /** The lines of an Xform other than its binding line do not start like one. */
  lemma XformLinesOff(objectId: nat, transform: string, geometryId: nat, materialId: nat)
    ensures !StartsWith(KObjectXform + Quoted("Object_" + NatText(objectId)) + " (", KBinding)
    ensures !StartsWith(KReferences + "@./" + GeometryFileName(geometryId) + "@</Geometry>", KBinding)
    ensures !StartsWith("\t\t\t\tprepend apiSchemas = [\"MaterialBindingAPI\"]", KBinding)
    ensures !StartsWith("\t\t\t)", KBinding) && !StartsWith("\t\t\t{", KBinding) && !StartsWith("\t\t\t}", KBinding)
    ensures !StartsWith(KTransform + transform, KBinding)
    ensures !StartsWith("\t\t\t\tuniform token[] " + "xformOpOrder = [\"xformOp:transform\"]", KBinding)
    ensures !StartsWith("\t\t\t\t" + "\t\t\t}", KBinding)
  {
    XformHeadChars();
    NotStartsWithAt(KObjectXform + Quoted("Object_" + NatText(objectId)) + " (", KBinding, 3);
    NotStartsWithAt(KReferences + "@./" + GeometryFileName(geometryId) + "@</Geometry>", KBinding, 4);
    NotStartsWithAt("\t\t\t\tprepend apiSchemas = [\"MaterialBindingAPI\"]", KBinding, 4);
    NotStartsWithAt("\t\t\t)", KBinding, 3);
    NotStartsWithAt("\t\t\t{", KBinding, 3);
    NotStartsWithAt("\t\t\t}", KBinding, 3);
    NotStartsWithAt(KTransform + transform, KBinding, 4);
    NotStartsWithAt("\t\t\t\tuniform token[] " + "xformOpOrder = [\"xformOp:transform\"]", KBinding, 4);
    NotStartsWithAt("\t\t\t\t" + "\t\t\t}", KBinding, 4);
  }

  /** The characters that tell the Xform's lines from a binding line. */
  lemma XformHeadChars()
    ensures |KBinding| > 4 && KBinding[3] == '\t' && KBinding[4] == 'r'
    ensures |KObjectXform| > 3 && KObjectXform[3] == 'd'
    ensures |KReferences| > 4 && KReferences[4] == 'p'
    ensures |KTransform| > 4 && KTransform[4] == 'm'
  {
  }

  /** A string differing from a prefix at one of its positions does not start with it. */
  lemma NotStartsWithAt(s: string, p: string, k: nat)
    requires k < |p| && k < |s| && s[k] != p[k]
    ensures !StartsWith(s, p)
  {
    assert |p| > |s| || s[..|p|][k] != p[k];
  }

  // ---------------------------------------------------------------------------
  // Samplers
  // ---------------------------------------------------------------------------

  /**
   * A sampler's texture shader is `Texture_{id}_{mapType}`, reads the PNG
   * file the texture loop writes for the texture's Id, scales by the use's
   * colour when it has one, and wraps with the `WRAPPINGS` names of the
   * texture's two wrap modes.
   */
  lemma SamplerReadsTexture(m: Material, u: Use, quickLookCompatible: bool)
    requires WrapsKnown(u.texture)
    ensures SamplerLines(m, u, quickLookCompatible)[18]
         == Indent3 + "def Shader " + Quoted(TextureShader(u.texture.id, u.mapType))
    ensures SamplerLines(m, u, quickLookCompatible)[21] == KTextureFile + "@" + TextureFileName(u.texture.id) + "@"
    ensures u.color.Some? ==>
              SamplerLines(m, u, quickLookCompatible)[23] == Indent3 + "    " + ("float4 inputs:scale = " + Color4Text(u.color.value))
    ensures SamplerLines(m, u, quickLookCompatible)[25] == Indent3 + "    token inputs:wrapS = " + Quoted(Wrapping(u.texture.wrapS).value)
    ensures SamplerLines(m, u, quickLookCompatible)[26] == Indent3 + "    token inputs:wrapT = " + Quoted(Wrapping(u.texture.wrapT).value)
  {
    var reader := ReaderLines(u.mapType);
    var transform := TransformLines(m.id, u.texture, u.mapType, quickLookCompatible);
    var uv := UVTextureLines(m, u.texture, u.mapType, u.color, Wrapping(u.texture.wrapS).value, Wrapping(u.texture.wrapT).value);
    assert |reader| == 8 && |transform| == 10;
    var r := SamplerShaders(m, u, quickLookCompatible);
    assert forall k :: 0 <= k < |uv| ==> r[18 + k] == uv[k];
    UVShape(m, u.texture, u.mapType, u.color, Wrapping(u.texture.wrapS).value, Wrapping(u.texture.wrapT).value);
  }

  lemma UVShape(m: Material, t: Texture, mapType: string, color: Option<Color>, wrapS: string, wrapT: string)
    ensures |UVTextureLines(m, t, mapType, color, wrapS, wrapT)| == 15
    ensures UVTextureLines(m, t, mapType, color, wrapS, wrapT)[0] == Indent3 + "def Shader " + Quoted(TextureShader(t.id, mapType))
    ensures UVTextureLines(m, t, mapType, color, wrapS, wrapT)[3] == KTextureFile + "@" + TextureFileName(t.id) + "@"
    ensures color.Some? ==>
              UVTextureLines(m, t, mapType, color, wrapS, wrapT)[5] == Indent3 + "    " + ("float4 inputs:scale = " + Color4Text(color.value))
    ensures UVTextureLines(m, t, mapType, color, wrapS, wrapT)[7] == Indent3 + "    token inputs:wrapS = " + Quoted(wrapS)
    ensures UVTextureLines(m, t, mapType, color, wrapS, wrapT)[8] == Indent3 + "    token inputs:wrapT = " + Quoted(wrapT)
  {
  }

  /** With samplers of 33 lines each, sampler i is lines 34i to 34i + 32 of the run. */
  lemma {:induction false} SamplerRunAt(samplers: seq<seq<string>>, i: nat)
    requires forall j :: 0 <= j < |samplers| ==> |samplers[j]| == 33
    requires i < |samplers|
    ensures SamplerRun(samplers)[34 * i..34 * i + 33] == samplers[i]
  {
    if |samplers| > 1 {
      var rest := samplers[1..];
      var head := samplers[0] + [""];
      assert SamplerRun(samplers) == head + SamplerRun(rest);
      if i > 0 {
        SamplerRunAt(rest, i - 1);
        assert rest[i - 1] == samplers[i];
        Infix(head, SamplerRun(rest), 34 * (i - 1), 34 * (i - 1) + 33);
      } else {
        assert (head + SamplerRun(rest))[..33] == samplers[0];
      }
    }
  }

  /** A slice of the tail part of a concatenation. */
  lemma Infix<T>(a: seq<T>, b: seq<T>, i: nat, j: nat)
    requires i <= j <= |b|
    ensures (a + b)[|a| + i..|a| + j] == b[i..j]
  {
  }

  // ---------------------------------------------------------------------------
  // Materials
  // ---------------------------------------------------------------------------

  /**
   * A material's text defines the prim `Material_{id}` that the binding
   * `MaterialPath(id)` of an Xform names and, inside it, the
   * `PreviewSurface` shader; its input lines follow that shader's header
   * (the first prefixed by four tabs), its surface output connects to
   * `PreviewSurface`, and the samplers follow after two padding lines,
   * before the closing lines.
   */
  lemma MaterialReads(id: nat, inputs: seq<string>, samplers: seq<seq<string>>)
    ensures MaterialLines(id, inputs, samplers)[1] == "\t\tdef Material " + Quoted(MaterialName(id))
    ensures MaterialLines(id, inputs, samplers)[3] == "\t\t\tdef Shader " + Quoted("PreviewSurface")
    ensures MaterialLines(id, inputs, samplers)[6..6 + |InputLines(inputs)|] == InputLines(inputs)
    ensures inputs != [] ==> MaterialLines(id, inputs, samplers)[6] == "\t\t\t\t" + inputs[0]
    ensures forall k :: 1 <= k < |inputs| ==> MaterialLines(id, inputs, samplers)[6 + k] == inputs[k]
    ensures MaterialLines(id, inputs, samplers)[10 + |InputLines(inputs)|]
         == Indent3 + "token outputs:surface.connect = " + ShaderPath(id, "PreviewSurface", "outputs:surface")
    ensures MaterialLines(id, inputs, samplers)[13 + |InputLines(inputs)|..13 + |InputLines(inputs)| + |SamplerRun(samplers)|]
         == SamplerRun(samplers)
    ensures MaterialLines(id, inputs, samplers)[|MaterialLines(id, inputs, samplers)| - 1] == "\t\t}"
  {
    MaterialLinesDisplay(id, inputs, samplers);
    var head := [ "",
      "\t\tdef Material " + Quoted(MaterialName(id)),
      "\t\t{",
      "\t\t\tdef Shader " + Quoted("PreviewSurface"),
      "\t\t\t{",
      "\t\t\t\tuniform token info:id = \"UsdPreviewSurface\"" ];
    var surface := [ "\t\t\t\tint inputs:useSpecularWorkflow = 0",
        "\t\t\t\ttoken outputs:surface",
        "\t\t\t}",
        Indent3,
        Indent3 + "token outputs:surface.connect = " + ShaderPath(id, "PreviewSurface", "outputs:surface"),
        Indent3,
        Indent3 ];
    var tail := ["\t\t", "\t\t}"];
    Parts(head, InputLines(inputs), surface, SamplerRun(samplers), tail);
  }

  /** The second and the fourth of five concatenated parts. */
  lemma Parts<T>(a: seq<T>, b: seq<T>, c: seq<T>, d: seq<T>, e: seq<T>)
    ensures (a + b + c + d + e)[|a|..|a| + |b|] == b
    ensures (a + b + c + d + e)[|a| + |b| + |c|..|a| + |b| + |c| + |d|] == d
  {
    AppendAssoc(a, b, c + d + e);
    Infix(a, b + (c + d + e), 0, |b|);
    AppendAssoc(a + b + c, d, e);
    Infix(a + b + c, d + e, 0, |d|);
  }

  /** With samplers of 33 lines each, sampler i starts 34i lines after the samplers begin. */
  lemma MaterialSamplersAt(id: nat, inputs: seq<string>, samplers: seq<seq<string>>)
    requires forall j :: 0 <= j < |samplers| ==> |samplers[j]| == 33
    ensures forall i :: 0 <= i < |samplers| ==>
      MaterialLines(id, inputs, samplers)[13 + |InputLines(inputs)| + 34 * i..13 + |InputLines(inputs)| + 34 * i + 33]
      == samplers[i]
  {
    var r := MaterialLines(id, inputs, samplers);
    var base := 13 + |InputLines(inputs)|;
    var run := SamplerRun(samplers);
    MaterialReads(id, inputs, samplers);
    forall i | 0 <= i < |samplers|
      ensures r[base + 34 * i..base + 34 * i + 33] == samplers[i]
    {
      SamplerRunAt(samplers, i);
      assert r[base + 34 * i..base + 34 * i + 33] == r[base..base + |run|][34 * i..34 * i + 33];
    }
  }

  // ---------------------------------------------------------------------------
  // File names and geometry files
  // ---------------------------------------------------------------------------

  /** Different geometry Ids name different geometry files. */
  lemma GeometryFileNameInjective(a: nat, b: nat)
    ensures GeometryFileName(a) == GeometryFileName(b) ==> a == b
  {
    Middle("geometries/Geometry_", NatText(a), ".usda");
    Middle("geometries/Geometry_", NatText(b), ".usda");
    NatTextInjective(a, b);
  }

  /** Different texture Ids name different PNG files. */
  lemma TextureFileNameInjective(a: nat, b: nat)
    ensures TextureFileName(a) == TextureFileName(b) ==> a == b
  {
    Middle("textures/Texture_", NatText(a), ".png");
    Middle("textures/Texture_", NatText(b), ".png");
    NatTextInjective(a, b);
  }

  lemma Middle(p: string, x: string, q: string)
    ensures (p + x + q)[|p|..|p + x + q| - |q|] == x
  {
    assert (p + x + q)[|p|..|p| + |x|] == x;
  }

  /** No geometry or texture file is called `model.usda`, and no texture file is a geometry file. */
  lemma FileNamesApart(g: nat, t: nat)
    ensures GeometryFileName(g) != ModelFileName && TextureFileName(t) != ModelFileName
    ensures GeometryFileName(g) != TextureFileName(t)
  {
    assert GeometryFileName(g)[0] == 'g' && TextureFileName(t)[0] == 't' && ModelFileName[0] == 'm';
  }

  /** A geometry file can be written exactly when both attribute arrays are there; otherwise a NullReferenceException. */
  lemma GeometryFileErr(g: Geometry)
    ensures GeometryFile(g).Err? <==> g.normals.None? || g.vertices.None?
    ensures GeometryFile(g).Err? ==> GeometryFile(g).error == NullReference
  {
  }
}
