/**
 * Properties of the end of `ParseAsync`: the texture loop throws exactly
 * when a texture is compressed and otherwise writes each texture's PNG under
 * its own name; the alignment loop throws exactly when a file is null and
 * otherwise pads each file by the amount computed from the header of its
 * record; the archive holds one entry per file, in order; and for the whole
 * export, `model.usda` is the first entry, every file is there by the time
 * the alignment loop runs, and the export fails after `model.usda` is
 * written only for a compressed texture.
 */
module ExporterPackaging {
  import opened Wrappers
  import opened Text
  import opened Collections
  import opened Three
  import opened ExporterText
  import opened ExporterMaterial
  import opened UsdzExporter
  import opened ExporterTextProperties
  import opened ExporterRegistration

  /** No file is null. */
  predicate Present(f: Files)
  {
    forall k :: k in f.values ==> f.values[k].Some?
  }

  // ---------------------------------------------------------------------------
  // The texture loop
  // ---------------------------------------------------------------------------

  /** The texture loop succeeds exactly when none of the textures it reaches is compressed. */
  lemma {:induction false} TexturesOk(files: Files, textures: Table<nat, Texture>, n: nat)
    requires textures.Valid() && n <= |textures.keys|
    ensures TextureFiles(files, textures, n).Ok? <==> forall i :: 0 <= i < n ==> !TextureAt(textures, i).compressed
  {
    if n > 0 {
      TexturesOk(files, textures, n - 1);
      TextureFilesNext(files, textures, n - 1);
      assert (forall i :: 0 <= i < n ==> !TextureAt(textures, i).compressed)
        <==> (forall i :: 0 <= i < n - 1 ==> !TextureAt(textures, i).compressed) && !TextureAt(textures, n - 1).compressed;
    }
  }

  /** Each texture's PNG is stored under the name its samplers read. */
  lemma {:induction false} TextureFileWritten(files: Files, textures: Table<nat, Texture>, n: nat, i: nat)
    requires textures.Valid() && i < n <= |textures.keys| && TextureFiles(files, textures, n).Ok?
    ensures TextureFileName(textures.keys[i]) in TextureFiles(files, textures, n).value.values
    ensures TextureFiles(files, textures, n).value.values[TextureFileName(textures.keys[i])] == Some(TextureAt(textures, i).png)
  {
    if i < n - 1 {
      TextureFileWritten(files, textures, n - 1, i);
      var name := TextureFileName(textures.keys[n - 1]);
      TextureFileNameInjective(textures.keys[i], textures.keys[n - 1]);
      if textures.keys[i] == textures.keys[n - 1] {
        DistinctIndices(textures.keys, i, n - 1);
      }
      PutOthers(TextureFiles(files, textures, n - 1).value, name, Some(TextureAt(textures, n - 1).png),
                TextureFileName(textures.keys[i]));
    }
  }

  /**
   * A file that is not a texture's PNG keeps its bytes; the files keep their
   * positions; no file becomes null.
   */
  lemma {:induction false} TextureFilesKept(files: Files, textures: Table<nat, Texture>, n: nat, name: string)
    requires textures.Valid() && n <= |textures.keys| && TextureFiles(files, textures, n).Ok?
    requires forall i :: 0 <= i < n ==> name != TextureFileName(textures.keys[i])
    ensures name in TextureFiles(files, textures, n).value.values <==> name in files.values
    ensures name in files.values ==> TextureFiles(files, textures, n).value.values[name] == files.values[name]
  {
    if n > 0 {
      TextureFilesKept(files, textures, n - 1, name);
      PutOthers(TextureFiles(files, textures, n - 1).value, TextureFileName(textures.keys[n - 1]),
                Some(TextureAt(textures, n - 1).png), name);
    }
  }

  /** The texture loop keeps the key order of the files before it and stores no null. */
  lemma {:induction false} TextureFilesShape(files: Files, textures: Table<nat, Texture>, n: nat)
    requires textures.Valid() && n <= |textures.keys| && TextureFiles(files, textures, n).Ok?
    ensures |TextureFiles(files, textures, n).value.keys| >= |files.keys|
    ensures TextureFiles(files, textures, n).value.keys[..|files.keys|] == files.keys
    ensures files.values.Keys <= TextureFiles(files, textures, n).value.values.Keys
    ensures Present(files) ==> Present(TextureFiles(files, textures, n).value)
  {
    if n > 0 {
      TextureFilesShape(files, textures, n - 1);
      var f := TextureFiles(files, textures, n - 1).value;
      var f' := TextureFiles(files, textures, n).value;
      assert f'.keys[..|files.keys|] == f.keys[..|files.keys|];
    }
  }

  // ---------------------------------------------------------------------------
  // The alignment loop
  // ---------------------------------------------------------------------------

  /**
   * The pad is zero exactly when the offset grown by the record header
   * (34 bytes and the name) is 4 modulo 64; otherwise it is 1 to 64 bytes,
   * and the grown offset plus the pad is a multiple of 64.
   */
  lemma PadLengthAligns(offset: nat, name: string)
    ensures PadLength(offset, name) == 0 <==> (offset + 34 + |name|) % 64 == 4
    ensures PadLength(offset, name) != 0 ==>
      1 <= PadLength(offset, name) <= 64 && (offset + 34 + |name| + PadLength(offset, name)) % 64 == 0
  {
    var grown := offset + 34 + |name|;
    var r := grown % 64;
    assert grown == grown / 64 * 64 + r;
    if r != 4 {
      assert grown + (64 - r) == (grown / 64 + 1) * 64;
    }
  }

  /** The alignment loop succeeds exactly when none of the files it reaches is null. */
  lemma {:induction false} AlignedOk(t: Files, n: nat)
    requires t.Valid() && n <= |t.keys|
    ensures Aligned(t, n).Ok? <==> forall i :: 0 <= i < n ==> FileAt(t, i).Some?
  {
    if n > 0 {
      AlignedOk(t, n - 1);
      AlignedNext(t, n - 1);
      assert (forall i :: 0 <= i < n ==> FileAt(t, i).Some?)
        <==> (forall i :: 0 <= i < n - 1 ==> FileAt(t, i).Some?) && FileAt(t, n - 1).Some?;
    }
  }

  /** Each file the loop reaches becomes its bytes followed by its pad of zero bytes. */
  lemma {:induction false} AlignedValue(t: Files, n: nat, i: nat)
    requires t.Valid() && i < n <= |t.keys| && Aligned(t, n).Ok?
    ensures FileAt(t, i).Some? && t.keys[i] in Aligned(t, n).value.values
    ensures Aligned(t, n).value.values[t.keys[i]]
         == Some(FileAt(t, i).value + ZeroBytes(PadLength(OffsetBefore(t, i), t.keys[i])))
  {
    AlignedOk(t, n);
    ValidKeys(t);
    var j := n - 1;
    var f := Aligned(t, j).value;
    if i < j {
      AlignedValue(t, j, i);
      if t.keys[i] == t.keys[j] {
        DistinctIndices(t.keys, i, j);
      }
      var pad := PadLength(OffsetBefore(t, j), t.keys[j]);
      PutOthers(f, t.keys[j], Some(FileAt(t, j).value + ZeroBytes(pad)), t.keys[i]);
    } else {
      AlignedAhead(t, j, j);
      var pad := PadLength(OffsetBefore(t, j), t.keys[j]);
      if pad == 0 {
        assert FileAt(t, j).value + ZeroBytes(pad) == FileAt(t, j).value;
      }
    }
  }

  // ---------------------------------------------------------------------------
  // The archive
  // ---------------------------------------------------------------------------

  /**
   * The archive holds one entry per file, in the files' enumeration order,
   * with distinct names, each with the file's bytes (nothing for a null
   * file) and the default compression.
   */
  lemma ZipEntriesFiles(t: Files)
    requires t.Valid()
    ensures forall i :: 0 <= i < |t.keys| ==> ZipEntries(t)[i].name == t.keys[i]
    ensures forall i, j :: 0 <= i < j < |t.keys| ==> ZipEntries(t)[i].name != ZipEntries(t)[j].name
    ensures forall i :: 0 <= i < |t.keys| ==> ZipEntries(t)[i].level == Default
    ensures forall i :: 0 <= i < |t.keys| ==> ZipEntries(t)[i].data == Bytes(Payload(FileAt(t, i)))
  {
    ValidKeys(t);
    forall i, j | 0 <= i < j < |t.keys| ensures ZipEntries(t)[i].name != ZipEntries(t)[j].name
    {
      if t.keys[i] == t.keys[j] {
        DistinctIndices(t.keys, i, j);
      }
    }
  }

  // ---------------------------------------------------------------------------
  // The whole export
  // ---------------------------------------------------------------------------

  /**
   * Once `model.usda` is written, it is the first file and holds the
   * model's text, and no file is null.
   */
  lemma ModelFilesShape(objects: seq<Object3D>, options: Option<Options>)
    requires ModelFiles(objects, options).Ok?
    ensures Registered(Start(options), objects).Ok?
    ensures MaterialsText(Registered(Start(options), objects).value.materials, QuickLookCompatible(options)).Ok?
    ensures var files := ModelFiles(objects, options).value.0;
      && |files.keys| > 0 && files.keys[0] == ModelFileName
      && Present(files)
      && files.values[ModelFileName] == Some(Utf8(ModelText(ModelLines(Registered(Start(options), objects).value,
           MaterialsText(Registered(Start(options), objects).value.materials, QuickLookCompatible(options)).value))))
  {
    var s0 := Start(options);
    var s := Registered(s0, objects).value;
    RegisteredFileOrder(s0, objects);
    forall k | k in s.files.values && k != ModelFileName ensures s.files.values[k].Some?
    {
      RegisteredFileKept(s0, objects, k);
    }
    RegisteredFileKept(s0, objects, ModelFileName);
    PutValid(s.files, ModelFileName, Some(Utf8(ModelText(ModelLines(s,
      MaterialsText(s.materials, QuickLookCompatible(options)).value)))));
  }

  /** After `model.usda` is written, the export fails exactly when a texture is compressed. */
  lemma PackedOk(files: Files, textures: Table<nat, Texture>)
    requires files.Valid() && textures.Valid() && Present(files)
    ensures Packed(files, textures).Ok? <==> forall i :: 0 <= i < |textures.keys| ==> !TextureAt(textures, i).compressed
    ensures Packed(files, textures).Err? ==> Packed(files, textures).error == InvalidOperation
  {
    var n := |textures.keys|;
    TexturesOk(files, textures, n);
    if TextureFiles(files, textures, n).Ok? {
      var f := TextureFiles(files, textures, n).value;
      TextureFilesShape(files, textures, n);
      AlignedOk(f, |f.keys|);
      forall i | 0 <= i < |f.keys| ensures FileAt(f, i).Some?
      {
        ValidKeys(f);
      }
    } else {
      TextureFilesErrValue(files, textures, n);
    }
  }

  /** The texture loop throws only InvalidOperationException. */
  lemma {:induction false} TextureFilesErrValue(files: Files, textures: Table<nat, Texture>, n: nat)
    requires textures.Valid() && n <= |textures.keys| && TextureFiles(files, textures, n).Err?
    ensures TextureFiles(files, textures, n).error == InvalidOperation
  {
    if TextureFiles(files, textures, n - 1).Err? {
      TextureFilesErrValue(files, textures, n - 1);
    }
  }

  /**
   * The archive starts with `model.usda`: the model's text followed by 20
   * zero bytes, as its 44-byte record header is not 4 modulo 64.
   */
  lemma UsdzModelEntry(objects: seq<Object3D>, options: Option<Options>)
    requires Usdz(objects, options).Ok?
    ensures ModelFiles(objects, options).Ok? && Registered(Start(options), objects).Ok?
    ensures MaterialsText(Registered(Start(options), objects).value.materials, QuickLookCompatible(options)).Ok?
    ensures |Usdz(objects, options).value| > 0
    ensures Usdz(objects, options).value[0] == ZipEntry(ModelFileName,
      Bytes(Utf8(ModelText(ModelLines(Registered(Start(options), objects).value,
        MaterialsText(Registered(Start(options), objects).value.materials, QuickLookCompatible(options)).value))) + ZeroBytes(20)),
      Default)
  {
    ModelFilesShape(objects, options);
    PackedFirst(ModelFiles(objects, options).value.0, ModelFiles(objects, options).value.1);
  }

  /** The first file, `model.usda`, becomes the first entry, padded with 20 zero bytes. */
  lemma PackedFirst(files: Files, textures: Table<nat, Texture>)
    requires files.Valid() && textures.Valid() && Packed(files, textures).Ok?
    requires |files.keys| > 0 && files.keys[0] == ModelFileName
    requires ModelFileName in files.values && files.values[ModelFileName].Some?
    ensures |Packed(files, textures).value| > 0
    ensures Packed(files, textures).value[0] == ZipEntry(ModelFileName, Bytes(files.values[ModelFileName].value + ZeroBytes(20)), Default)
  {
    var n := |textures.keys|;
    var f := TextureFiles(files, textures, n).value;
    TextureFilesShape(files, textures, n);
    forall i | 0 <= i < n ensures ModelFileName != TextureFileName(textures.keys[i])
    {
      FileNamesApart(0, textures.keys[i]);
    }
    TextureFilesKept(files, textures, n, ModelFileName);
    assert f.keys[0] == files.keys[0];
    ValidKeys(f);
    AlignedValue(f, |f.keys|, 0);
    assert OffsetBefore(f, 0) == 0;
    ModelPad();
    ZipEntriesFiles(Aligned(f, |f.keys|).value);
  }

  /** The record header of `model.usda` at offset 0 is 44 bytes long, so the loop pads the file with 20 bytes. */
  lemma ModelPad()
    ensures PadLength(0, ModelFileName) == 20
  {
    assert |ModelFileName| == 10;
  }

  /**
   * Once `model.usda` is written, the export succeeds exactly when none of
   * the textures the materials stored is compressed, and otherwise throws
   * InvalidOperationException.
   */
  lemma UsdzAfterModel(objects: seq<Object3D>, options: Option<Options>)
    requires ModelFiles(objects, options).Ok?
    ensures var textures := ModelFiles(objects, options).value.1;
      Usdz(objects, options).Ok? <==> forall i :: 0 <= i < |textures.keys| ==> !TextureAt(textures, i).compressed
    ensures Usdz(objects, options).Err? ==> Usdz(objects, options).error == InvalidOperation
  {
    ModelFilesShape(objects, options);
    PackedOk(ModelFiles(objects, options).value.0, ModelFiles(objects, options).value.1);
  }

  /** Every file the texture loop starts from is an entry of the archive. */
  lemma PackedHolds(files: Files, textures: Table<nat, Texture>, name: string)
    requires files.Valid() && textures.Valid() && Packed(files, textures).Ok? && name in files.values
    ensures exists i :: 0 <= i < |Packed(files, textures).value| && Packed(files, textures).value[i].name == name
  {
    var f := TextureFiles(files, textures, |textures.keys|).value;
    TextureFilesShape(files, textures, |textures.keys|);
    var aligned := Aligned(f, |f.keys|).value;
    ElemsMember(aligned.keys, name);
    var i :| 0 <= i < |aligned.keys| && aligned.keys[i] == name;
    ZipEntriesFiles(aligned);
    assert Packed(files, textures).value[i].name == name;
  }

  /** The archive holds the geometry file of every mesh the traversal visits. */
  lemma UsdzGeometryEntries(objects: seq<Object3D>, options: Option<Options>, j: nat)
    requires Usdz(objects, options).Ok? && j < |objects| && objects[j].MeshObject?
    ensures exists i :: 0 <= i < |Usdz(objects, options).value| && Usdz(objects, options).value[i].name == GeometryFileName(objects[j].geometry.id)
  {
    ModelFilesShape(objects, options);
    var name := GeometryFileName(objects[j].geometry.id);
    RegisteredFileKeys(Start(options), objects, name);
    assert UsesGeometryFile(objects[j], name);
    PackedHolds(ModelFiles(objects, options).value.0, ModelFiles(objects, options).value.1, name);
  }
}
