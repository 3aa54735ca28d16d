/**
 * `USDZExporter.ParseAsync`. The visible objects are registered (one
 * geometry file per geometry Id, one material per material Id, one Xform per
 * mesh), the materials are written with the textures they sample, every
 * texture becomes a PNG file, the alignment loop pads the files, and the
 * files are zipped in insertion order. Each stage is a method over the
 * dictionaries it changes, proved against a function that folds the stage
 * over its input; `Usdz` composes those functions.
 */
module UsdzExporter {
  import opened Wrappers
  import opened Text
  import opened Collections
  import opened Three
  import opened ExporterText
  import opened ExporterMaterial

  /** The `files` dictionary: a file name and its bytes, which may still be null. */
  type Files = Table<string, Option<seq<uint8>>>

  const ModelFileName := "model.usda"

  // ---------------------------------------------------------------------------
  // Registration: the TraverseVisible callback
  // ---------------------------------------------------------------------------

  /** What the traversal has built so far: the files, the materials by Id and the output text. */
  datatype Registry = Registry(files: Files, materials: Table<nat, Material>, output: seq<string>)
  {
    ghost predicate Valid()
    {
      files.Valid() && materials.Valid()
    }
  }

  /** A mesh's geometry file is built and stored only when no file of that name exists yet. */
  function WithGeometry(files: Files, g: Geometry): Result<Files>
  {
    var name := GeometryFileName(g.id);
    if name in files.values then Ok(files)
    else
      match GeometryFile(g)
      case Err(e) => Err(e)
      case Ok(bytes) => Ok(files.Put(name, Some(bytes)))
  }

  /** A material is stored only when its Id is new. */
  function WithMaterial(materials: Table<nat, Material>, m: Material): Table<nat, Material>
  {
    if m.id in materials.values then materials else materials.Put(m.id, m)
  }

  /**
   * The callback on one object: a mesh registers its geometry, then reads
   * its material's Id (a null material throws), then appends its Xform;
   * anything else is skipped.
   */
  function Visit(s: Registry, o: Object3D): Result<Registry>
  {
    if o.OtherObject? then Ok(s)
    else
      match WithGeometry(s.files, o.geometry)
      case Err(e) => Err(e)
      case Ok(files) =>
        if o.material.None? then Err(NullReference)
        else
          Ok(Registry(files, WithMaterial(s.materials, o.material.value),
                      s.output + XformLines(o.id, o.matrixWorld, o.geometry.id, o.material)))
  }

  lemma VisitValid(s: Registry, o: Object3D)
    ensures s.Valid() && Visit(s, o).Ok? ==> Visit(s, o).value.Valid()
  {
    if s.Valid() && o.MeshObject? {
      var name := GeometryFileName(o.geometry.id);
      if GeometryFile(o.geometry).Ok? {
        PutValid(s.files, name, Some(GeometryFile(o.geometry).value));
      }
      if o.material.Some? {
        PutValid(s.materials, o.material.value.id, o.material.value);
      }
    }
  }

  /** The callback on the objects in traversal order; the first exception ends the traversal. */
  function Registered(s: Registry, objects: seq<Object3D>): (r: Result<Registry>)
    ensures s.Valid() && r.Ok? ==> r.value.Valid()
  {
    if objects == [] then Ok(s)
    else
      match Registered(s, objects[..|objects| - 1])
      case Err(e) => Err(e)
      case Ok(t) =>
        VisitValid(t, objects[|objects| - 1]);
        Visit(t, objects[|objects| - 1])
  }

  /** An exception among the first objects is the outcome of the traversal. */
  lemma {:induction false} RegisteredErr(s: Registry, objects: seq<Object3D>, n: nat)
    requires n <= |objects| && Registered(s, objects[..n]).Err?
    ensures Registered(s, objects) == Registered(s, objects[..n])
  {
    if n < |objects| {
      var objects' := objects[..|objects| - 1];
      assert objects'[..n] == objects[..n];
      RegisteredErr(s, objects', n);
    } else {
      assert objects[..n] == objects;
    }
  }

  /** Registering the first `i + 1` objects. */
  lemma RegisteredNext(s: Registry, objects: seq<Object3D>, i: nat)
    requires i < |objects|
    ensures Registered(s, objects[..i + 1]) == match Registered(s, objects[..i])
      case Err(e) => Err(e)
      case Ok(t) => Visit(t, objects[i])
  {
    assert objects[..i + 1][..i] == objects[..i];
  }

  /** `if (!files.ContainsKey(geometryFileName)) files[geometryFileName] = ...`. */
  method RegisterGeometry(geometry: Geometry, files: OrderedDict<string, Option<seq<uint8>>>) returns (r: Result<()>)
    modifies files
    ensures match WithGeometry(old(files.View()), geometry)
      case Err(e) => r == Err(e)
      case Ok(f) => r == Ok(()) && files.View() == f
  {
    var geometryFileName := GeometryFileName(geometry.id);
    var present := files.ContainsKey(geometryFileName);
    if !present {
      var meshFile := GeometryFile(geometry);
      if meshFile.Err? {
        return Err(meshFile.error);
      }
      files.Set(geometryFileName, Some(meshFile.value));
    }
    r := Ok(());
  }

  /** `if (!materials.ContainsKey(material.Id)) materials[material.Id] = material`. */
  method RegisterMaterial(material: Material, materials: OrderedDict<nat, Material>)
    modifies materials
    ensures materials.View() == WithMaterial(old(materials.View()), material)
  {
    var known := materials.ContainsKey(material.id);
    if !known {
      materials.Set(material.id, material);
    }
  }

  /** The TraverseVisible callback on one object. */
  method VisitObject(o: Object3D, files: OrderedDict<string, Option<seq<uint8>>>,
                     materials: OrderedDict<nat, Material>, output: seq<string>)
    returns (r: Result<seq<string>>)
    modifies files, materials
    ensures match Visit(Registry(old(files.View()), old(materials.View()), output), o)
      case Err(e) => r == Err(e)
      case Ok(s) => r == Ok(s.output) && files.View() == s.files && materials.View() == s.materials
  {
    if o.OtherObject? {
      return Ok(output);
    }
    var geometry := o.geometry;
    var stored := RegisterGeometry(geometry, files);
    if stored.Err? {
      return Err(stored.error);
    }
    if o.material.None? {
      return Err(NullReference);
    }
    RegisterMaterial(o.material.value, materials);
    r := Ok(output + XformLines(o.id, o.matrixWorld, geometry.id, o.material));
  }

  /** `scene.TraverseVisible(callback)`, given the visible objects in traversal order. */
  method RegisterObjects(objects: seq<Object3D>, files: OrderedDict<string, Option<seq<uint8>>>,
                         materials: OrderedDict<nat, Material>, output: seq<string>)
    returns (r: Result<seq<string>>)
    modifies files, materials
    ensures match Registered(Registry(old(files.View()), old(materials.View()), output), objects)
      case Err(e) => r == Err(e)
      case Ok(s) => r == Ok(s.output) && files.View() == s.files && materials.View() == s.materials
  {
    ghost var s0 := Registry(files.View(), materials.View(), output);
    var text := output;
    var i := 0;
    while i < |objects|
      invariant 0 <= i <= |objects|
      invariant Registered(s0, objects[..i]) == Ok(Registry(files.View(), materials.View(), text))
    {
      RegisteredNext(s0, objects, i);
      var visited := VisitObject(objects[i], files, materials, text);
      if visited.Err? {
        RegisteredErr(s0, objects, i + 1);
        return Err(visited.error);
      }
      text := visited.value;
      i := i + 1;
    }
    assert objects[..i] == objects;
    r := Ok(text);
  }

  // ---------------------------------------------------------------------------
  // Texture files
  // ---------------------------------------------------------------------------

  /** The texture under the `i`-th key. */
  function TextureAt(t: Table<nat, Texture>, i: nat): Texture
    requires t.Valid() && i < |t.keys|
  {
    ValidKeys(t);
    t.values[t.keys[i]]
  }

  /**
   * The files after the texture loop has handled the first `n` textures: a
   * compressed texture throws, any other one is stored as its PNG.
   */
  function TextureFiles(files: Files, textures: Table<nat, Texture>, n: nat): (r: Result<Files>)
    requires textures.Valid() && n <= |textures.keys|
    ensures files.Valid() && r.Ok? ==> r.value.Valid()
  {
    if n == 0 then Ok(files)
    else
      match TextureFiles(files, textures, n - 1)
      case Err(e) => Err(e)
      case Ok(f) =>
        var texture := TextureAt(textures, n - 1);
        if texture.compressed then Err(InvalidOperation)
        else
          PutValid(f, TextureFileName(textures.keys[n - 1]), Some(texture.png));
          Ok(f.Put(TextureFileName(textures.keys[n - 1]), Some(texture.png)))
  }

  /** The texture loop's step on the `i`-th texture. */
  lemma TextureFilesNext(files: Files, textures: Table<nat, Texture>, i: nat)
    requires textures.Valid() && i < |textures.keys|
    ensures TextureFiles(files, textures, i + 1) == match TextureFiles(files, textures, i)
      case Err(e) => Err(e)
      case Ok(f) =>
        if TextureAt(textures, i).compressed then Err(InvalidOperation)
        else Ok(f.Put(TextureFileName(textures.keys[i]), Some(TextureAt(textures, i).png)))
  {
  }

  lemma {:induction false} TextureFilesErr(files: Files, textures: Table<nat, Texture>, n: nat, m: nat)
    requires textures.Valid() && n <= m <= |textures.keys| && TextureFiles(files, textures, n).Err?
    ensures TextureFiles(files, textures, m) == TextureFiles(files, textures, n)
  {
    if n < m {
      var j := m - 1;
      TextureFilesErr(files, textures, n, j);
    }
  }

  /** `foreach (var id in textures.Keys)`: one PNG file per texture. */
  method WriteTextures(textures: OrderedDict<nat, Texture>, files: OrderedDict<string, Option<seq<uint8>>>)
    returns (r: Result<()>)
    requires textures.Valid()
    modifies files
    ensures var v := TextureFiles(old(files.View()), textures.View(), |textures.keys|);
      match v
      case Err(e) => r == Err(e)
      case Ok(f) => r == Ok(()) && files.View() == f
  {
    ghost var f0 := files.View();
    var keys := textures.keys;
    var i := 0;
    while i < |keys|
      invariant 0 <= i <= |keys|
      invariant TextureFiles(f0, textures.View(), i) == Ok(files.View())
    {
      var texture := TextureAt(textures.View(), i);
      TextureFilesNext(f0, textures.View(), i);
      if texture.compressed {
        TextureFilesErr(f0, textures.View(), i + 1, |keys|);
        return Err(InvalidOperation);
      }
      files.Set(TextureFileName(keys[i]), Some(texture.png));
      i := i + 1;
    }
    r := Ok(());
  }

  // ---------------------------------------------------------------------------
  // The alignment loop
  // ---------------------------------------------------------------------------

  /** `new byte[n]`. */
  function ZeroBytes(n: nat): (r: seq<uint8>)
    ensures |r| == n && forall i :: 0 <= i < n ==> r[i] == 0
  {
    seq(n, i requires 0 <= i < n => 0)
  }

  /**
   * The pad the loop appends to a file named `name` when `offset`, the
   * length of the previous file, is where it starts from: zero when the
   * grown offset is 4 modulo 64 (`offset & 63` of a non-negative offset).
   */
  function PadLength(offset: nat, name: string): nat
  {
    var offsetMod64 := (offset + 34 + |name|) % 64;
    if offsetMod64 != 4 then 64 - offsetMod64 else 0
  }

  /** The file under the `i`-th key. */
  function FileAt(t: Files, i: nat): Option<seq<uint8>>
    requires t.Valid() && i < |t.keys|
  {
    ValidKeys(t);
    t.values[t.keys[i]]
  }

  /** `offset` when the loop reaches the `i`-th file: the original length of the one before. */
  function OffsetBefore(t: Files, i: nat): nat
    requires t.Valid() && i < |t.keys|
  {
    if i == 0 then 0
    else
      var previous := FileAt(t, i - 1);
      if previous.Some? then |previous.value| else 0
  }

  /**
   * The files after the loop has handled the first `n` of them: a null file
   * throws on `file.Length`; a file that needs a pad is replaced by a copy
   * followed by that many zero bytes.
   */
  function Aligned(t: Files, n: nat): (r: Result<Files>)
    requires t.Valid() && n <= |t.keys|
    ensures r.Ok? ==> r.value.Valid() && r.value.keys == t.keys
  {
    if n == 0 then Ok(t)
    else
      match Aligned(t, n - 1)
      case Err(e) => Err(e)
      case Ok(f) =>
        var file := FileAt(t, n - 1);
        if file.None? then Err(NullReference)
        else
          var name := t.keys[n - 1];
          var padLength := PadLength(OffsetBefore(t, n - 1), name);
          if padLength == 0 then Ok(f)
          else
            ValidKeys(t);
            PutValid(f, name, Some(file.value + ZeroBytes(padLength)));
            Ok(f.Put(name, Some(file.value + ZeroBytes(padLength))))
  }

  /** The loop's step on the `i`-th file. */
  lemma AlignedNext(t: Files, i: nat)
    requires t.Valid() && i < |t.keys|
    ensures Aligned(t, i + 1) == match Aligned(t, i)
      case Err(e) => Err(e)
      case Ok(f) =>
        if FileAt(t, i).None? then Err(NullReference)
        else if PadLength(OffsetBefore(t, i), t.keys[i]) == 0 then Ok(f)
        else Ok(f.Put(t.keys[i], Some(FileAt(t, i).value + ZeroBytes(PadLength(OffsetBefore(t, i), t.keys[i])))))
  {
  }

  lemma {:induction false} AlignedErr(t: Files, n: nat, m: nat)
    requires t.Valid() && n <= m <= |t.keys| && Aligned(t, n).Err?
    ensures Aligned(t, m) == Aligned(t, n)
  {
    if n < m {
      var j := m - 1;
      AlignedErr(t, n, j);
    }
  }

  /** A file the loop has not reached yet still holds what it held before the loop. */
  lemma {:induction false} AlignedAhead(t: Files, n: nat, i: nat)
    requires t.Valid() && n <= i < |t.keys| && Aligned(t, n).Ok?
    ensures t.keys[i] in Aligned(t, n).value.values
    ensures Aligned(t, n).value.values[t.keys[i]] == FileAt(t, i)
  {
    ValidKeys(t);
    if n > 0 {
      var j := n - 1;
      AlignedAhead(t, j, i);
      if t.keys[j] == t.keys[i] {
        DistinctIndices(t.keys, j, i);
      }
    }
  }

  /** The `offset` padding loop over `files.Keys`. */
  method AlignFiles(files: OrderedDict<string, Option<seq<uint8>>>) returns (r: Result<()>)
    requires files.Valid()
    modifies files
    ensures match Aligned(old(files.View()), |old(files.keys)|)
      case Err(e) => r == Err(e)
      case Ok(f) => r == Ok(()) && files.View() == f
  {
    ghost var t0 := files.View();
    var keys := files.keys;
    var offset := 0;
    var i := 0;
    while i < |keys|
      invariant 0 <= i <= |keys|
      invariant Aligned(t0, i) == Ok(files.View())
      invariant i < |keys| ==> offset == OffsetBefore(t0, i)
    {
      var filename := keys[i];
      AlignedAhead(t0, i, i);
      AlignedNext(t0, i);
      var file := files.values[filename];
      if file.None? {
        AlignedErr(t0, i + 1, |keys|);
        return Err(NullReference);
      }
      var headerSize := 34 + |filename|;
      offset := offset + headerSize;
      var offsetMod64 := offset % 64;
      if offsetMod64 != 4 {
        var padLength := 64 - offsetMod64;
        var newFile := file.value + ZeroBytes(padLength);
        files.Set(filename, Some(newFile));
      }
      offset := |file.value|;
      i := i + 1;
    }
    r := Ok(());
  }

  // ---------------------------------------------------------------------------
  // The archive
  // ---------------------------------------------------------------------------

  /** The bytes `entryStream.Write` writes: a null array writes nothing. */
  function Payload(file: Option<seq<uint8>>): seq<uint8>
  {
    if file.Some? then file.value else []
  }

  /** One entry per file, in enumeration order, each created with the default compression. */
  function ZipEntries(t: Files): (r: seq<ZipEntry>)
    requires t.Valid()
    ensures |r| == |t.keys|
  {
    seq(|t.keys|, i requires 0 <= i < |t.keys| => ZipEntry(t.keys[i], Bytes(Payload(FileAt(t, i))), Default))
  }

  /** `ZipSync(files, level)`: `level` is not passed to `CreateEntry`. */
  method ZipSync(files: OrderedDict<string, Option<seq<uint8>>>, level: int) returns (entries: seq<ZipEntry>)
    requires files.Valid()
    ensures entries == ZipEntries(files.View())
  {
    var archive := new ZipArchive();
    var i := 0;
    while i < |files.keys|
      invariant 0 <= i <= |files.keys|
      invariant archive.entries == ZipEntries(files.View())[..i]
    {
      ValidKeys(files.View());
      var name := files.keys[i];
      archive.CreateEntry(name, Bytes(Payload(files.values[name])), Default);
      i := i + 1;
    }
    entries := archive.entries;
  }

  // ---------------------------------------------------------------------------
  // ParseAsync
  // ---------------------------------------------------------------------------

  /** The files with `model.usda` listed first and still null. */
  function InitialFiles(): (t: Files)
    ensures t.Valid()
  {
    var empty: Files := EmptyTable();
    PutValid(empty, ModelFileName, None);
    empty.Put(ModelFileName, None)
  }

  /** The lines of `model.usda` before its closing "\n}". */
  function ModelLines(s: Registry, materials: seq<string>): seq<string>
  {
    s.output + SceneEndLines() + materials
  }

  /** The text builders' state when the traversal starts. */
  function Start(options: Option<Options>): Registry
  {
    Registry(InitialFiles(), EmptyTable(), HeaderLines() + SceneStartLines(IncludeAnchoring(options)))
  }

  /**
   * The files and the textures once `model.usda` is written: after the
   * traversal and `BuildMaterials`, or the first exception of either.
   */
  function ModelFiles(objects: seq<Object3D>, options: Option<Options>): (r: Result<(Files, Table<nat, Texture>)>)
    ensures r.Ok? ==> r.value.0.Valid() && r.value.1.Valid()
  {
    match Registered(Start(options), objects)
    case Err(e) => Err(e)
    case Ok(s) =>
      match MaterialsText(s.materials, QuickLookCompatible(options))
      case Err(e) => Err(e)
      case Ok(materials) =>
        var model := Utf8(ModelText(ModelLines(s, materials)));
        PutValid(s.files, ModelFileName, Some(model));
        StoredValid(EmptyTable(), MaterialUses(s.materials, |s.materials.keys|));
        Ok((s.files.Put(ModelFileName, Some(model)), Stored(EmptyTable(), MaterialUses(s.materials, |s.materials.keys|))))
  }

  /**
   * What `ParseAsync(scene, options)` produces from the visible objects in
   * traversal order: the zip archive's entries, or the first exception.
   */
  function Usdz(objects: seq<Object3D>, options: Option<Options>): Result<seq<ZipEntry>>
  {
    match ModelFiles(objects, options)
    case Err(e) => Err(e)
    case Ok((files, textures)) => Packed(files, textures)
  }

  /** The texture loop, the alignment loop and `ZipSync`, from the files and textures they start with. */
  function Packed(files: Files, textures: Table<nat, Texture>): Result<seq<ZipEntry>>
    requires files.Valid() && textures.Valid()
  {
    match TextureFiles(files, textures, |textures.keys|)
    case Err(e) => Err(e)
    case Ok(withTextures) =>
      match Aligned(withTextures, |withTextures.keys|)
      case Err(e) => Err(e)
      case Ok(aligned) => Ok(ZipEntries(aligned))
  }

  /** `ParseAsync` up to `files[modelFileName] = StrToU8(output)`. */
  method BuildModel(objects: seq<Object3D>, options: Option<Options>, files: OrderedDict<string, Option<seq<uint8>>>,
                    materials: OrderedDict<nat, Material>, textures: OrderedDict<nat, Texture>)
    returns (r: Result<()>)
    requires files.View() == InitialFiles() && materials.View() == EmptyTable() && textures.View() == EmptyTable()
    modifies files, materials, textures
    ensures match ModelFiles(objects, options)
      case Err(e) => r == Err(e)
      case Ok((f, t)) => r == Ok(()) && files.View() == f && textures.View() == t
  {
    var output := HeaderLines();
    output := output + SceneStartLines(IncludeAnchoring(options));

    var registered := RegisterObjects(objects, files, materials, output);
    if registered.Err? {
      return Err(registered.error);
    }
    ghost var s := Registered(Start(options), objects).value;
    output := registered.value + SceneEndLines();

    var quickLookCompatible := QuickLookCompatible(options);
    var materialsText := BuildMaterials(materials, textures, quickLookCompatible);
    if materialsText.Err? {
      return Err(materialsText.error);
    }
    output := output + materialsText.value;
    files.Set(ModelFileName, Some(Utf8(ModelText(output))));
    r := Ok(());
  }

  /** `ParseAsync(scene, options)`, given the objects `TraverseVisible` visits, in order. */
  method ParseAsync(objects: seq<Object3D>, options: Option<Options>) returns (r: Result<seq<ZipEntry>>)
    ensures r == Usdz(objects, options)
  {
    var files := new OrderedDict<string, Option<seq<uint8>>>();
    files.Set(ModelFileName, None);
    var materials := new OrderedDict<nat, Material>();
    var textures := new OrderedDict<nat, Texture>();
    var built := BuildModel(objects, options, files, materials, textures);
    if built.Err? {
      return Err(built.error);
    }
    r := Package(files, textures);
  }

  /** `ParseAsync` from the texture loop on. */
  method Package(files: OrderedDict<string, Option<seq<uint8>>>, textures: OrderedDict<nat, Texture>)
    returns (r: Result<seq<ZipEntry>>)
    requires files.Valid() && textures.Valid()
    modifies files
    ensures r == Packed(old(files.View()), textures.View())
  {
    var written := WriteTextures(textures, files);
    if written.Err? {
      return Err(written.error);
    }
    var padded := AlignFiles(files);
    if padded.Err? {
      return Err(padded.error);
    }
    var entries := ZipSync(files, 0);
    return Ok(entries);
  }
}
