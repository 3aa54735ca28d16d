/**
 * What a mesh block says, read back from its lines: the prim name, the
 * world transform, each vertex attribute exactly when the primitive has it,
 * the face indices and counts, and the material binding exactly when the
 * primitive has a material.
 */
module MeshProperties {
  import opened Wrappers
  import opened Text
  import opened Numerics
  import opened UsdzUtils
  import opened Gltf
  import opened Lines
  import opened GlbToUsdzBuilder

  // ---------------------------------------------------------------------------
  // The parts of a block
  // ---------------------------------------------------------------------------

  lemma MeshOpenOff(name: string, transform: string, key: string)
    requires OffAt(key, 8, {'M', 'm', 'u'})
    ensures Values(MeshOpenLines(name, transform), key) == []
  {
    var s := MeshOpenLines(name, transform);
    forall k | 0 <= k < |s| ensures |s[k]| <= 8 || s[k][8] in {'M', 'm', 'u'} {
      if k == 0 {} else if k == 1 {} else if k == 2 {} else if k == 3 {} else {}
    }
    ValuesOff(s, key, 8, {'M', 'm', 'u'});
  }

  lemma MeshOpenReadsName(name: string, transform: string)
    ensures Values(MeshOpenLines(name, transform), KMeshHead) == [Quoted(name)]
  {
    var s := MeshOpenLines(name, transform);
    KeyedLine(KMeshHead, Quoted(name));
    forall k | 0 <= k < |s| && k != 0 ensures Misses(s[k], KMeshHead, 4, 4) {
      if k == 1 {} else if k == 2 {} else if k == 3 {} else {}
    }
    ValuesOnly(s, KMeshHead, 4, 4, 0);
  }

  lemma MeshOpenReadsTransform(name: string, transform: string)
    ensures Values(MeshOpenLines(name, transform), KTransform) == [transform]
  {
    var s := MeshOpenLines(name, transform);
    KeyedLine(KTransform, transform);
    forall k | 0 <= k < |s| && k != 2 ensures Misses(s[k], KTransform, 8, 8) {
      if k == 0 {} else if k == 1 {} else if k == 3 {} else {}
    }
    ValuesOnly(s, KTransform, 8, 8, 2);
  }

  lemma VertexInterpolationOff(key: string)
    requires OffAt(key, 8, {' ', ')'})
    ensures Values(VertexInterpolation(), key) == []
  {
    assert ColumnIn(VertexInterpolation(), 8, {' ', ')'});
    ValuesOff(VertexInterpolation(), key, 8, {' ', ')'});
  }

  /** A primvar is read under its own keyword only. */
  lemma PrimvarOff(name: string, value: Option<string>, key: string, c: nat)
    requires c < |name| && c < |key| && name[c] != key[c] && OffAt(key, 8, {' ', ')'})
    ensures Values(PrimvarLines(name, value), key) == []
  {
    if value.Some? {
      LineOff(name, value.value + " (", key, c);
      VertexInterpolationOff(key);
      ValuesAppend([name + (value.value + " (")], VertexInterpolation(), key);
    }
  }

  lemma PrimvarRead(name: string, value: Option<string>)
    requires OffAt(name, 8, {' ', ')'})
    ensures Values(PrimvarLines(name, value), name) == if value.Some? then [value.value + " ("] else []
  {
    if value.Some? {
      LineRead(name, value.value + " (");
      VertexInterpolationOff(name);
      ValuesAppend([name + (value.value + " (")], VertexInterpolation(), name);
    }
  }

  lemma FaceOff(indices: string, counts: string, key: string)
    requires OffAt(key, 8, {'i'})
    ensures Values(FaceLines(indices, counts), key) == []
  {
    LineOff(KFaceIndices, indices, key, 8);
    LineOff(KFaceCounts, counts, key, 8);
    ValuesAppend([KFaceIndices + indices], [KFaceCounts + counts], key);
  }

  lemma FaceReads(indices: string, counts: string)
    ensures Values(FaceLines(indices, counts), KFaceIndices) == [indices]
    ensures Values(FaceLines(indices, counts), KFaceCounts) == [counts]
  {
    LineRead(KFaceIndices, indices);
    LineOff(KFaceCounts, counts, KFaceIndices, 24);
    ValuesAppend([KFaceIndices + indices], [KFaceCounts + counts], KFaceIndices);
    LineOff(KFaceIndices, indices, KFaceCounts, 24);
    LineRead(KFaceCounts, counts);
    ValuesAppend([KFaceIndices + indices], [KFaceCounts + counts], KFaceCounts);
  }

  lemma BindingOff(target: Option<string>, key: string, c: nat)
    requires c < |KBinding| && c < |key| && KBinding[c] != key[c]
    ensures Values(BindingLines(target), key) == []
  {
    if target.Some? {
      LineOff(KBinding, "</" + target.value + ">", key, c);
    }
  }

  lemma BindingRead(target: Option<string>)
    ensures Values(BindingLines(target), KBinding) == if target.Some? then ["</" + target.value + ">"] else []
  {
    if target.Some? {
      LineRead(KBinding, "</" + target.value + ">");
    }
  }

  lemma MeshCloseOff(key: string)
    requires OffAt(key, 4, {'}'})
    ensures Values(["    }"], key) == []
  {
    ValuesOff(["    }"], key, 4, {'}'});
  }

  /** Reading a block is reading its parts in order. */
  lemma MeshParts(name: string, transform: string, points: Option<string>, normals: Option<string>,
                  indices: string, counts: string, st: Option<string>, target: Option<string>, key: string)
    ensures Values(MeshBlockText(name, transform, points, normals, indices, counts, st, target), key)
         == Values(MeshOpenLines(name, transform), key) + Values(OptionalLine(KPoints, points), key)
            + Values(PrimvarLines(KNormals, normals), key) + Values(FaceLines(indices, counts), key)
            + Values(PrimvarLines(KSt, st), key) + Values(BindingLines(target), key) + Values(["    }"], key)
  {
    var c1, c2, c3, c4 := MeshOpenLines(name, transform), OptionalLine(KPoints, points),
                          PrimvarLines(KNormals, normals), FaceLines(indices, counts);
    var c5, c6 := PrimvarLines(KSt, st), BindingLines(target);
    ValuesAppend(c1 + c2 + c3 + c4 + c5 + c6, ["    }"], key);
    ValuesAppend(c1 + c2 + c3 + c4 + c5, c6, key);
    ValuesAppend(c1 + c2 + c3 + c4, c5, key);
    ValuesAppend(c1 + c2 + c3, c4, key);
    ValuesAppend(c1 + c2, c3, key);
    ValuesAppend(c1, c2, key);
  }

  // ---------------------------------------------------------------------------
  // A block, one keyword at a time
  // ---------------------------------------------------------------------------

  lemma MeshHeadChars()
    ensures 4 < |KPoints| && 4 < |KMeshHead| && KPoints[4] != KMeshHead[4]
    ensures 4 < |KNormals| && 4 < |KMeshHead| && KNormals[4] != KMeshHead[4]
    ensures 4 < |KSt| && 4 < |KMeshHead| && KSt[4] != KMeshHead[4]
    ensures 4 < |KBinding| && 4 < |KMeshHead| && KBinding[4] != KMeshHead[4]
    ensures OffAt(KMeshHead, 8, {' ', ')'})
    ensures OffAt(KMeshHead, 8, {'i'})
    ensures OffAt(KMeshHead, 4, {'}'})
  {
  }

  /** The block opens with exactly one `def Mesh` line, naming the prim. */
  lemma MeshHeadInMesh(name: string, transform: string, points: Option<string>, normals: Option<string>,
      indices: string, counts: string, st: Option<string>, target: Option<string>)
    ensures Values(MeshBlockText(name, transform, points, normals, indices, counts, st, target), KMeshHead)
         == [Quoted(name)]
  {
    MeshHeadChars();
    MeshParts(name, transform, points, normals, indices, counts, st, target, KMeshHead);
    MeshOpenReadsName(name, transform);
    OptionalOff(KPoints, points, KMeshHead, 4);
    PrimvarOff(KNormals, normals, KMeshHead, 4);
    FaceOff(indices, counts, KMeshHead);
    PrimvarOff(KSt, st, KMeshHead, 4);
    BindingOff(target, KMeshHead, 4);
    MeshCloseOff(KMeshHead);
  }

  lemma TransformChars()
    ensures 8 < |KPoints| && 8 < |KTransform| && KPoints[8] != KTransform[8]
    ensures 8 < |KNormals| && 8 < |KTransform| && KNormals[8] != KTransform[8]
    ensures 8 < |KSt| && 8 < |KTransform| && KSt[8] != KTransform[8]
    ensures 8 < |KBinding| && 8 < |KTransform| && KBinding[8] != KTransform[8]
    ensures OffAt(KTransform, 8, {' ', ')'})
    ensures OffAt(KTransform, 8, {'i'})
    ensures OffAt(KTransform, 4, {'}'})
  {
  }

  /** The world transform is written once. */
  lemma TransformInMesh(name: string, transform: string, points: Option<string>, normals: Option<string>,
      indices: string, counts: string, st: Option<string>, target: Option<string>)
    ensures Values(MeshBlockText(name, transform, points, normals, indices, counts, st, target), KTransform)
         == [transform]
  {
    TransformChars();
    MeshParts(name, transform, points, normals, indices, counts, st, target, KTransform);
    MeshOpenReadsTransform(name, transform);
    OptionalOff(KPoints, points, KTransform, 8);
    PrimvarOff(KNormals, normals, KTransform, 8);
    FaceOff(indices, counts, KTransform);
    PrimvarOff(KSt, st, KTransform, 8);
    BindingOff(target, KTransform, 8);
    MeshCloseOff(KTransform);
  }

  lemma PointsChars()
    ensures OffAt(KPoints, 8, {'M', 'm', 'u'})
    ensures 8 < |KNormals| && 8 < |KPoints| && KNormals[8] != KPoints[8]
    ensures 8 < |KSt| && 8 < |KPoints| && KSt[8] != KPoints[8]
    ensures 8 < |KBinding| && 8 < |KPoints| && KBinding[8] != KPoints[8]
    ensures OffAt(KPoints, 8, {' ', ')'})
    ensures OffAt(KPoints, 8, {'i'})
    ensures OffAt(KPoints, 4, {'}'})
  {
  }

  /** The points are written exactly when the primitive has positions. */
  lemma PointsInMesh(name: string, transform: string, points: Option<string>, normals: Option<string>,
      indices: string, counts: string, st: Option<string>, target: Option<string>)
    ensures Values(MeshBlockText(name, transform, points, normals, indices, counts, st, target), KPoints)
         == if points.Some? then [points.value] else []
  {
    PointsChars();
    MeshParts(name, transform, points, normals, indices, counts, st, target, KPoints);
    MeshOpenOff(name, transform, KPoints);
    OptionalRead(KPoints, points);
    PrimvarOff(KNormals, normals, KPoints, 8);
    FaceOff(indices, counts, KPoints);
    PrimvarOff(KSt, st, KPoints, 8);
    BindingOff(target, KPoints, 8);
    MeshCloseOff(KPoints);
  }

  lemma NormalsChars()
    ensures OffAt(KNormals, 8, {'M', 'm', 'u'})
    ensures 8 < |KPoints| && 8 < |KNormals| && KPoints[8] != KNormals[8]
    ensures 8 < |KSt| && 8 < |KNormals| && KSt[8] != KNormals[8]
    ensures 8 < |KBinding| && 8 < |KNormals| && KBinding[8] != KNormals[8]
    ensures OffAt(KNormals, 8, {' ', ')'})
    ensures OffAt(KNormals, 8, {'i'})
    ensures OffAt(KNormals, 4, {'}'})
  {
  }

  /** The normals are written exactly when the primitive has them. */
  lemma NormalsInMesh(name: string, transform: string, points: Option<string>, normals: Option<string>,
      indices: string, counts: string, st: Option<string>, target: Option<string>)
    ensures Values(MeshBlockText(name, transform, points, normals, indices, counts, st, target), KNormals)
         == if normals.Some? then [normals.value + " ("] else []
  {
    NormalsChars();
    MeshParts(name, transform, points, normals, indices, counts, st, target, KNormals);
    MeshOpenOff(name, transform, KNormals);
    OptionalOff(KPoints, points, KNormals, 8);
    PrimvarRead(KNormals, normals);
    FaceOff(indices, counts, KNormals);
    PrimvarOff(KSt, st, KNormals, 8);
    BindingOff(target, KNormals, 8);
    MeshCloseOff(KNormals);
  }

  lemma FaceIndicesChars()
    ensures OffAt(KFaceIndices, 8, {'M', 'm', 'u'})
    ensures 8 < |KPoints| && 8 < |KFaceIndices| && KPoints[8] != KFaceIndices[8]
    ensures 8 < |KNormals| && 8 < |KFaceIndices| && KNormals[8] != KFaceIndices[8]
    ensures 8 < |KSt| && 8 < |KFaceIndices| && KSt[8] != KFaceIndices[8]
    ensures 8 < |KBinding| && 8 < |KFaceIndices| && KBinding[8] != KFaceIndices[8]
    ensures OffAt(KFaceIndices, 8, {' ', ')'})
    ensures OffAt(KFaceIndices, 4, {'}'})
  {
  }

  /** The face indices are written once. */
  lemma FaceIndicesInMesh(name: string, transform: string, points: Option<string>, normals: Option<string>,
      indices: string, counts: string, st: Option<string>, target: Option<string>)
    ensures Values(MeshBlockText(name, transform, points, normals, indices, counts, st, target), KFaceIndices)
         == [indices]
  {
    FaceIndicesChars();
    MeshParts(name, transform, points, normals, indices, counts, st, target, KFaceIndices);
    MeshOpenOff(name, transform, KFaceIndices);
    OptionalOff(KPoints, points, KFaceIndices, 8);
    PrimvarOff(KNormals, normals, KFaceIndices, 8);
    FaceReads(indices, counts);
    PrimvarOff(KSt, st, KFaceIndices, 8);
    BindingOff(target, KFaceIndices, 8);
    MeshCloseOff(KFaceIndices);
  }

  lemma FaceCountsChars()
    ensures OffAt(KFaceCounts, 8, {'M', 'm', 'u'})
    ensures 8 < |KPoints| && 8 < |KFaceCounts| && KPoints[8] != KFaceCounts[8]
    ensures 8 < |KNormals| && 8 < |KFaceCounts| && KNormals[8] != KFaceCounts[8]
    ensures 8 < |KSt| && 8 < |KFaceCounts| && KSt[8] != KFaceCounts[8]
    ensures 8 < |KBinding| && 8 < |KFaceCounts| && KBinding[8] != KFaceCounts[8]
    ensures OffAt(KFaceCounts, 8, {' ', ')'})
    ensures OffAt(KFaceCounts, 4, {'}'})
  {
  }

  /** The face counts are written once. */
  lemma FaceCountsInMesh(name: string, transform: string, points: Option<string>, normals: Option<string>,
      indices: string, counts: string, st: Option<string>, target: Option<string>)
    ensures Values(MeshBlockText(name, transform, points, normals, indices, counts, st, target), KFaceCounts)
         == [counts]
  {
    FaceCountsChars();
    MeshParts(name, transform, points, normals, indices, counts, st, target, KFaceCounts);
    MeshOpenOff(name, transform, KFaceCounts);
    OptionalOff(KPoints, points, KFaceCounts, 8);
    PrimvarOff(KNormals, normals, KFaceCounts, 8);
    FaceReads(indices, counts);
    PrimvarOff(KSt, st, KFaceCounts, 8);
    BindingOff(target, KFaceCounts, 8);
    MeshCloseOff(KFaceCounts);
  }

  lemma StChars()
    ensures OffAt(KSt, 8, {'M', 'm', 'u'})
    ensures 8 < |KPoints| && 8 < |KSt| && KPoints[8] != KSt[8]
    ensures 8 < |KNormals| && 8 < |KSt| && KNormals[8] != KSt[8]
    ensures 8 < |KBinding| && 8 < |KSt| && KBinding[8] != KSt[8]
    ensures OffAt(KSt, 8, {' ', ')'})
    ensures OffAt(KSt, 8, {'i'})
    ensures OffAt(KSt, 4, {'}'})
  {
  }

  /** The texture coordinates are written exactly when the primitive has them. */
  lemma StInMesh(name: string, transform: string, points: Option<string>, normals: Option<string>,
      indices: string, counts: string, st: Option<string>, target: Option<string>)
    ensures Values(MeshBlockText(name, transform, points, normals, indices, counts, st, target), KSt)
         == if st.Some? then [st.value + " ("] else []
  {
    StChars();
    MeshParts(name, transform, points, normals, indices, counts, st, target, KSt);
    MeshOpenOff(name, transform, KSt);
    OptionalOff(KPoints, points, KSt, 8);
    PrimvarOff(KNormals, normals, KSt, 8);
    FaceOff(indices, counts, KSt);
    PrimvarRead(KSt, st);
    BindingOff(target, KSt, 8);
    MeshCloseOff(KSt);
  }

  lemma BindingChars()
    ensures OffAt(KBinding, 8, {'M', 'm', 'u'})
    ensures 8 < |KPoints| && 8 < |KBinding| && KPoints[8] != KBinding[8]
    ensures 8 < |KNormals| && 8 < |KBinding| && KNormals[8] != KBinding[8]
    ensures 8 < |KSt| && 8 < |KBinding| && KSt[8] != KBinding[8]
    ensures OffAt(KBinding, 8, {' ', ')'})
    ensures OffAt(KBinding, 8, {'i'})
    ensures OffAt(KBinding, 4, {'}'})
  {
  }

  /** The material binding is written exactly when the primitive has a material. */
  lemma BindingInMesh(name: string, transform: string, points: Option<string>, normals: Option<string>,
      indices: string, counts: string, st: Option<string>, target: Option<string>)
    ensures Values(MeshBlockText(name, transform, points, normals, indices, counts, st, target), KBinding)
         == if target.Some? then ["</" + target.value + ">"] else []
  {
    BindingChars();
    MeshParts(name, transform, points, normals, indices, counts, st, target, KBinding);
    MeshOpenOff(name, transform, KBinding);
    OptionalOff(KPoints, points, KBinding, 8);
    PrimvarOff(KNormals, normals, KBinding, 8);
    FaceOff(indices, counts, KBinding);
    PrimvarOff(KSt, st, KBinding, 8);
    BindingRead(target);
    MeshCloseOff(KBinding);
  }

  lemma MaterialHeadChars()
    ensures OffAt(KMaterialHead, 8, {'M', 'm', 'u'})
    ensures 0 < |KPoints| && 0 < |KMaterialHead| && KPoints[0] != KMaterialHead[0]
    ensures 0 < |KNormals| && 0 < |KMaterialHead| && KNormals[0] != KMaterialHead[0]
    ensures 0 < |KSt| && 0 < |KMaterialHead| && KSt[0] != KMaterialHead[0]
    ensures 0 < |KBinding| && 0 < |KMaterialHead| && KBinding[0] != KMaterialHead[0]
    ensures OffAt(KMaterialHead, 8, {' ', ')'})
    ensures OffAt(KMaterialHead, 8, {'i'})
    ensures OffAt(KMaterialHead, 4, {'}'})
  {
  }

  /** A mesh block holds no `def Material` line. */
  lemma MaterialHeadInMesh(name: string, transform: string, points: Option<string>, normals: Option<string>,
      indices: string, counts: string, st: Option<string>, target: Option<string>)
    ensures Values(MeshBlockText(name, transform, points, normals, indices, counts, st, target), KMaterialHead)
         == []
  {
    MaterialHeadChars();
    MeshParts(name, transform, points, normals, indices, counts, st, target, KMaterialHead);
    MeshOpenOff(name, transform, KMaterialHead);
    OptionalOff(KPoints, points, KMaterialHead, 0);
    PrimvarOff(KNormals, normals, KMaterialHead, 0);
    FaceOff(indices, counts, KMaterialHead);
    PrimvarOff(KSt, st, KMaterialHead, 0);
    BindingOff(target, KMaterialHead, 0);
    MeshCloseOff(KMaterialHead);
  }

  // ---------------------------------------------------------------------------
  // What ProcessScene writes for a triangle primitive
  // ---------------------------------------------------------------------------

  /** The block names its node's prim and carries the world matrix times the model pose. */
  lemma MeshHeadValues(modelIndex: nat, node: Node, p: Primitive, modelPose: Matrix4x4)
    ensures Values(MeshBlock(modelIndex, node, p, modelPose), KMeshHead) == [Quoted(MeshName(modelIndex, node))]
    ensures Values(MeshBlock(modelIndex, node, p, modelPose), KTransform) == [MatrixText(Multiply(node.worldMatrix, modelPose))]
    ensures Values(MeshBlock(modelIndex, node, p, modelPose), KMaterialHead) == []
  {
    var name, transform := MeshName(modelIndex, node), MatrixText(Multiply(node.worldMatrix, modelPose));
    var points, normals, st := VectorsText(p.position), VectorsText(p.normal), UvText(p.texCoord0);
    var indices, counts := IndexArrayText(p.indices), IndexArrayText(Repeat(3, |p.indices| / 3));
    var target := BindingTarget(modelIndex, p.material);
    MeshHeadInMesh(name, transform, points, normals, indices, counts, st, target);
    TransformInMesh(name, transform, points, normals, indices, counts, st, target);
    MaterialHeadInMesh(name, transform, points, normals, indices, counts, st, target);
  }

  /**
   * The positions and normals are written when present, the indices as
   * given with one count of 3 per whole triangle.
   */
  lemma MeshGeometryValues(modelIndex: nat, node: Node, p: Primitive, modelPose: Matrix4x4)
    ensures Values(MeshBlock(modelIndex, node, p, modelPose), KPoints)
         == if p.position.Some? then [Vec3ArrayText(p.position.value)] else []
    ensures Values(MeshBlock(modelIndex, node, p, modelPose), KNormals)
         == if p.normal.Some? then [Vec3ArrayText(p.normal.value) + " ("] else []
    ensures Values(MeshBlock(modelIndex, node, p, modelPose), KFaceIndices) == [IndexArrayText(p.indices)]
    ensures Values(MeshBlock(modelIndex, node, p, modelPose), KFaceCounts) == [IndexArrayText(Repeat(3, |p.indices| / 3))]
  {
    var name, transform := MeshName(modelIndex, node), MatrixText(Multiply(node.worldMatrix, modelPose));
    var points, normals, st := VectorsText(p.position), VectorsText(p.normal), UvText(p.texCoord0);
    var indices, counts := IndexArrayText(p.indices), IndexArrayText(Repeat(3, |p.indices| / 3));
    var target := BindingTarget(modelIndex, p.material);
    PointsInMesh(name, transform, points, normals, indices, counts, st, target);
    NormalsInMesh(name, transform, points, normals, indices, counts, st, target);
    FaceIndicesInMesh(name, transform, points, normals, indices, counts, st, target);
    FaceCountsInMesh(name, transform, points, normals, indices, counts, st, target);
  }

  /** The flipped UVs are written when present, and the binding names the primitive's material. */
  lemma MeshSurfaceValues(modelIndex: nat, node: Node, p: Primitive, modelPose: Matrix4x4)
    ensures Values(MeshBlock(modelIndex, node, p, modelPose), KSt)
         == if p.texCoord0.Some? then [Vec2ArrayText(FlipV(p.texCoord0.value)) + " ("] else []
    ensures Values(MeshBlock(modelIndex, node, p, modelPose), KBinding)
         == if p.material.Some? then ["</" + GetMatName(modelIndex, p.material.value) + ">"] else []
  {
    var name, transform := MeshName(modelIndex, node), MatrixText(Multiply(node.worldMatrix, modelPose));
    var points, normals, st := VectorsText(p.position), VectorsText(p.normal), UvText(p.texCoord0);
    var indices, counts := IndexArrayText(p.indices), IndexArrayText(Repeat(3, |p.indices| / 3));
    var target := BindingTarget(modelIndex, p.material);
    StInMesh(name, transform, points, normals, indices, counts, st, target);
    BindingInMesh(name, transform, points, normals, indices, counts, st, target);
  }
}
