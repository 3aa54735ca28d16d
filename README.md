# GlbToUsdz: a verified model of the USD text emitters and the USDZ packaging

GlbToUsdz turns a decoded glTF scene, or a three.js-style scene graph, into a
USDZ package. A USDZ package is a zip archive whose first entry is a USD text
document (`model.usda`), followed by the textures and, for the older exporter,
one geometry document per mesh geometry. This project models four parts of
the repository and proves what their output contains:

- **`GlbToUsdzBuilder`** (modules `GlbToUsdzBuilder`, `BuilderProperties`,
  `MeshProperties`, `MaterialProperties`, `SceneTree`). It is a class holding
  the registered models. It walks each model's node tree depth first and
  writes one `def Mesh` block per triangle primitive. It then writes one
  `def Material` block per logical material, filling a texture table in place
  as it goes. Last, it lists the package entries: `model.usda` first, then
  `textures/{key}`, all stored uncompressed. The writer is a `LineWriter`
  class whose `lines` field the methods append to. The texture table is an
  `OrderedDict` class. Every method is proved against a function on values
  (`Usda`, `MeshBlock`, `MaterialLines`, `TexturesOf`, `PackageEntries`). The
  lemmas read the document back by key: which names, values and blocks
  appear, in which order, and under which condition.
- **`UsdzUtils`** (module `UsdzUtils`): the pure serialisers for index arrays,
  `Vector2`/`Vector3` arrays, single vectors, the XYZ part of a `Vector4` and
  4×4 matrices. The properties are that parsing the output back yields the
  input, and that the text has the stated tuple structure.
- **`USDZExporter`** (modules `UsdzExporter`, `ExporterText`,
  `ExporterMaterial`, `ExporterTextProperties`, `ExporterRegistration`,
  `ExporterMaterialProperties`, `ExporterPackaging`, `Three`). `ParseAsync`
  proceeds in five steps:
  1. it registers the geometry files and materials of the visited meshes,
     once per Id, in dictionaries it mutates;
  2. it builds the material shader graphs branch by branch, registering every
     mapped texture;
  3. it writes the PNG of every texture, failing on a compressed one;
  4. it appends `64 - (offset + 34 + |name|) % 64` zero bytes to each file,
     unless that sum is 4 modulo 64, where `offset` is the previous file's
     original length (0 for the first file);
  5. it turns the files into zip entries.

  The dictionaries are `OrderedDict` objects and the steps are methods with
  loops. Each method is proved against a function (`Registered`,
  `MaterialsText`, `TextureFiles`, `Aligned`, `ZipEntries`, `Usdz`). The
  lemmas characterise those functions.
- **`Program.cs`** (modules `ProgramWalker`, `ProgramProperties`): the
  prototype walker. For every triangle primitive in pre-order it appends a
  self-contained `def Xform "root"` block holding one `def Mesh "quad"`.

Shared modules: `Wrappers` (`Option`, `Result` and the exception kinds),
`Numerics` (vectors, matrices, `Multiply`), `Text` (number text, joining,
splitting, UTF-8), `Lines` (reading the value of a keyed line back out of a
document), `Collections` (`OrderedDict`, `LineWriter`, `ZipArchive`) and
`Gltf` (nodes, meshes, primitives, materials, textures).

Numbers are `real`. The fixed-point formats `F7`, `F5` and `F3` are one
round-half-away-from-zero formatter, `Text.FormatFixed(x, digits)`. The
default .NET float rendering, used for matrices and factors, is
`Text.FormatDefault`. The proofs rely on only one fact about either function:
its output is a number token, made of digits, `-` and `.`.

## Model

| member | source | states |
|---|---|---|
| GlbToUsdzBuilder.GlbToUsdzBuilder.constructor | GlbToUsdz.Core/GlbToUsdzBuilder.cs:19-21 | a new builder has no models and the identity root transform |
| GlbToUsdzBuilder.GlbToUsdzBuilder.AddModel | GlbToUsdz.Core/GlbToUsdzBuilder.cs:23 | the model and its pose are appended to the model list, and the root transform is unchanged |
| GlbToUsdzBuilder.GlbToUsdzBuilder.WriteUsdz | GlbToUsdz.Core/GlbToUsdzBuilder.cs:25-57 | the archive gains exactly the package entries of the document and of the texture table the conversion fills, starting from an empty table |
| GlbToUsdzBuilder.GlbToUsdzBuilder.WritePackage | GlbToUsdz.Core/GlbToUsdzBuilder.cs:34-50 | the archive gains `model.usda`, then one entry per table item in table order |
| GlbToUsdzBuilder.TextureEntries | GlbToUsdz.Core/GlbToUsdzBuilder.cs:43-50 | the i-th texture entry is `textures/` + the i-th key, holding that key's bytes, stored uncompressed |
| GlbToUsdzBuilder.GlbToUsdzBuilder.ConvertToUsda | GlbToUsdz.Core/GlbToUsdzBuilder.cs:78-109 | the writer gains exactly the document `Usda(models, rootTransform)`, and the texture table becomes `TexturesOf` the models |
| GlbToUsdzBuilder.WriteHeader | GlbToUsdz.Core/GlbToUsdzBuilder.cs:80-90 | the writer gains the fixed header lines |
| GlbToUsdzBuilder.WriteModelMeshes | GlbToUsdz.Core/GlbToUsdzBuilder.cs:92-97 | the writer gains the mesh blocks of every model in registration order, each posed by its pose times the root transform |
| GlbToUsdzBuilder.WriteModelMaterials | GlbToUsdz.Core/GlbToUsdzBuilder.cs:101-108 | the writer gains the material blocks of every model in order, and the table gains their textures |
| GlbToUsdzBuilder.ProcessModelMaterials | GlbToUsdz.Core/GlbToUsdzBuilder.cs:104-107 | one model's logical materials are written in logical order, and the table is updated material by material |
| GlbToUsdzBuilder.ProcessScene | GlbToUsdz.Core/GlbToUsdzBuilder.cs:111-167 | the writer gains exactly `ContainerLines`: the container's own mesh blocks, then its children's |
| GlbToUsdzBuilder.ProcessChildren | GlbToUsdz.Core/GlbToUsdzBuilder.cs:163-166 | every child is processed in order, whether or not its parent has a mesh |
| GlbToUsdzBuilder.ProcessOwnMesh | GlbToUsdz.Core/GlbToUsdzBuilder.cs:113-161 | a node without a mesh writes nothing; with one, the primitives are written in order |
| GlbToUsdzBuilder.ProcessPrimitive | GlbToUsdz.Core/GlbToUsdzBuilder.cs:117-158 | the writer gains `PrimitiveLines` of the primitive |
| GlbToUsdzBuilder.PrimitiveLines | GlbToUsdz.Core/GlbToUsdzBuilder.cs:119 | a primitive yields lines if and only if its draw mode is TRIANGLES, and then exactly its mesh block |
| GlbToUsdzBuilder.WriteMeshBlock | GlbToUsdz.Core/GlbToUsdzBuilder.cs:121-157 | the writer gains exactly the primitive's `MeshBlock` |
| GlbToUsdzBuilder.WriteMeshOpen | GlbToUsdz.Core/GlbToUsdzBuilder.cs:128-132 | the mesh opening carries the name and the world matrix text |
| GlbToUsdzBuilder.WritePoints | GlbToUsdz.Core/GlbToUsdzBuilder.cs:135-138 | the `points` line is written only when POSITION is present |
| GlbToUsdzBuilder.WriteNormals | GlbToUsdz.Core/GlbToUsdzBuilder.cs:139-144 | the `normals` primvar is written only when NORMAL is present |
| GlbToUsdzBuilder.WriteFaces | GlbToUsdz.Core/GlbToUsdzBuilder.cs:145-146 | the face indices are the index list, and the face counts are `|indices| / 3` threes |
| GlbToUsdzBuilder.WriteSt | GlbToUsdz.Core/GlbToUsdzBuilder.cs:147-152 | the `st` primvar is written only when TEXCOORD_0 is present, with V flipped |
| GlbToUsdzBuilder.FlipV | GlbToUsdz.Core/GlbToUsdzBuilder.cs:149 | the length is kept, and each `(u, v)` becomes `(u, 1 - v)` |
| GlbToUsdzBuilder.WriteBinding | GlbToUsdz.Core/GlbToUsdzBuilder.cs:153-156 | the binding is written only when the primitive has a material, to that material's name |
| GlbToUsdzBuilder.ProcessMaterial | GlbToUsdz.Core/GlbToUsdzBuilder.cs:169-241 | the writer gains exactly `MaterialLines`, and the table gains or overwrites the one key of the base-colour texture, if there is one |
| GlbToUsdzBuilder.WriteMaterialOpen | GlbToUsdz.Core/GlbToUsdzBuilder.cs:184-192 | the material opening carries its name and the literal diffuse colour |
| GlbToUsdzBuilder.WriteConnect | GlbToUsdz.Core/GlbToUsdzBuilder.cs:193-196 | the `.connect` line is written only when a texture exists |
| GlbToUsdzBuilder.WriteScalars | GlbToUsdz.Core/GlbToUsdzBuilder.cs:197-212 | clearcoat, clearcoatRoughness, metallic and roughness are written in that order, each only when present |
| GlbToUsdzBuilder.WriteScalar | GlbToUsdz.Core/GlbToUsdzBuilder.cs:197-200 | one optional scalar line is written only when its value is present |
| GlbToUsdzBuilder.WriteShaderClose | GlbToUsdz.Core/GlbToUsdzBuilder.cs:213-214 | the fixed surface output lines are written |
| GlbToUsdzBuilder.WriteTextureShaders | GlbToUsdz.Core/GlbToUsdzBuilder.cs:220-238 | the `stReader` shader is written, then the `diffuseTexture` shader |
| GlbToUsdzBuilder.WriteStReader | GlbToUsdz.Core/GlbToUsdzBuilder.cs:220-226 | the `stReader` shader lines are written |
| GlbToUsdzBuilder.WriteSampler | GlbToUsdz.Core/GlbToUsdzBuilder.cs:227-238 | the `diffuseTexture` shader lines are written, naming the texture file |
| GlbToUsdzBuilder.ChildrenLinesStep | GlbToUsdz.Core/GlbToUsdzBuilder.cs:163-166 | the children text of a prefix grows by the next child's text |
| GlbToUsdzBuilder.PrimitivesLinesStep | GlbToUsdz.Core/GlbToUsdzBuilder.cs:115-158 | the primitives text of a prefix grows by the next primitive's text |
| GlbToUsdzBuilder.AddTextureValid | GlbToUsdz.Core/GlbToUsdzBuilder.cs:217-219 | adding a texture keeps the table's keys distinct and present |
| GlbToUsdzBuilder.TexturesOfValid | GlbToUsdz.Core/GlbToUsdzBuilder.cs:101-108 | the table stays well formed over all models |
| BuilderProperties.NodeLinesPreOrder | GlbToUsdz.Core/GlbToUsdzBuilder.cs:111-167 | a node's text is the own mesh blocks of the nodes of its pre-order, concatenated |
| BuilderProperties.ChildrenLinesPreOrder | GlbToUsdz.Core/GlbToUsdzBuilder.cs:163-166 | a list of children produces the own blocks of their concatenated pre-orders |
| SceneTree.PreOrder | GlbToUsdz.Core/GlbToUsdzBuilder.cs:111-167 | a node comes first in its own pre-order |
| BuilderProperties.PrimitivesTriangles | GlbToUsdz.Core/GlbToUsdzBuilder.cs:117-120 | the primitives' text is the mesh blocks of exactly the TRIANGLES primitives, in order |
| SceneTree.Triangles | GlbToUsdz.Core/GlbToUsdzBuilder.cs:119 | keeps only TRIANGLES primitives and adds none |
| SceneTree.TrianglesAppend | GlbToUsdz.Core/GlbToUsdzBuilder.cs:119 | filtering distributes over concatenation |
| BuilderProperties.MeshFaces | GlbToUsdz.Core/GlbToUsdzBuilder.cs:145-146 | the block has one face-index line and one face-count line; they parse back to the index list and to `|indices| / 3` threes |
| MeshProperties.MeshHeadValues | GlbToUsdz.Core/GlbToUsdzBuilder.cs:128-131 | a block names its mesh once, carries the node's world matrix times the model pose, and holds no material heading |
| MeshProperties.MeshGeometryValues | GlbToUsdz.Core/GlbToUsdzBuilder.cs:135-146 | `points` appears iff POSITION is present and `normals` iff NORMAL is present, each holding that array's text; the face lines hold the indices and the counts |
| MeshProperties.MeshSurfaceValues | GlbToUsdz.Core/GlbToUsdzBuilder.cs:147-156 | `st` appears iff TEXCOORD_0 is present, with V flipped; the binding appears iff there is a material, naming it |
| BuilderProperties.BlocksValues | GlbToUsdz.Core/GlbToUsdzBuilder.cs:128 | every block of a node carries the same mesh name |
| BuilderProperties.DuplicateMeshNames | GlbToUsdz.Core/GlbToUsdzBuilder.cs:128 | a node with two triangle primitives emits its mesh name twice |
| BuilderProperties.OwnLinesValues | GlbToUsdz.Core/GlbToUsdzBuilder.cs:113-161 | a node's own text names its mesh once per triangle primitive and holds no material |
| BuilderProperties.SceneValues | GlbToUsdz.Core/GlbToUsdzBuilder.cs:92-97 | one model's mesh names follow the pre-order of its scene |
| BuilderProperties.MeshesOfValues | GlbToUsdz.Core/GlbToUsdzBuilder.cs:92-97 | the meshes part names the meshes of every model in registration order and holds no material |
| BuilderProperties.MaterialListValues | GlbToUsdz.Core/GlbToUsdzBuilder.cs:104-107 | one model's materials part names its logical materials in order and holds no mesh |
| BuilderProperties.MaterialsOfValues | GlbToUsdz.Core/GlbToUsdzBuilder.cs:101-108 | the materials part names the materials of every model in model order, then logical order |
| BuilderProperties.UsdaLayout | GlbToUsdz.Core/GlbToUsdzBuilder.cs:78-109 | the document starts with `#usda 1.0`, names all meshes then all materials in order, and every mesh heading precedes every material heading |
| BuilderProperties.DocumentLayout | GlbToUsdz.Core/GlbToUsdzBuilder.cs:89-108 | the header, meshes, closing brace and materials compose into a document with mesh headings before material headings |
| BuilderProperties.PackageLayout | GlbToUsdz.Core/GlbToUsdzBuilder.cs:34-50 | there is one entry more than there are texture keys; `model.usda` comes first, then `textures/{key}` per key in order; all are stored and their names are distinct |
| BuilderProperties.MaterialListKeys | GlbToUsdz.Core/GlbToUsdzBuilder.cs:215-219 | a material list adds exactly the keys of its textured materials to the table |
| BuilderProperties.TexturesOfKeys | GlbToUsdz.Core/GlbToUsdzBuilder.cs:101-108 | the table's keys are the initial keys plus the texture keys of all models' materials |
| BuilderProperties.GetMatNameInjective | GlbToUsdz.Core/GlbToUsdzBuilder.cs:243-246 | two material names are equal iff the model index and the logical index are equal |
| BuilderProperties.MeshNameInjective | GlbToUsdz.Core/GlbToUsdzBuilder.cs:128 | two mesh names are equal iff the model index and the node's logical index are equal |
| BuilderProperties.TextureNameInjective | GlbToUsdz.Core/GlbToUsdzBuilder.cs:218 | two texture keys are equal iff the model index, the logical index and the extension are equal |
| MaterialProperties.MaterialNameValues | GlbToUsdz.Core/GlbToUsdzBuilder.cs:184-192 | a material block names the material once, holds no mesh heading, and always writes the literal diffuse colour |
| MaterialProperties.MaterialScalarValues | GlbToUsdz.Core/GlbToUsdzBuilder.cs:197-212 | each of clearcoat, clearcoatRoughness, metallic and roughness appears iff it is present, with its value |
| MaterialProperties.MaterialTextureValues | GlbToUsdz.Core/GlbToUsdzBuilder.cs:193-238 | the `.connect` line, the `stReader` and `diffuseTexture` shaders and the texture file appear iff there is a base-colour texture |
| UsdzUtils.IndexArrayRoundTrip | GlbToUsdz.Core/Utils/UsdzUtils.cs:9 | parsing an index array's text gives back the index sequence |
| UsdzUtils.IndexArrayEmpty | GlbToUsdz.Core/Utils/UsdzUtils.cs:9 | the empty sequence renders as `[]` |
| UsdzUtils.NatTexts | GlbToUsdz.Core/Utils/UsdzUtils.cs:9 | one decimal text per index, in order |
| UsdzUtils.ParseNatsTexts | GlbToUsdz.Core/Utils/UsdzUtils.cs:9 | the decimal texts parse back to the indices |
| UsdzUtils.Vec3ArrayShape | GlbToUsdz.Core/Utils/UsdzUtils.cs:7 | a Vector3 array is `[`, the vectors' tuples joined by `,`, `]`; splitting gives back one tuple per vector in order |
| UsdzUtils.Vec2ArrayShape | GlbToUsdz.Core/Utils/UsdzUtils.cs:8 | the same for a Vector2 array |
| UsdzUtils.Vec3Texts | GlbToUsdz.Core/Utils/UsdzUtils.cs:7 | one tuple text per vector, in order |
| UsdzUtils.Vec2Texts | GlbToUsdz.Core/Utils/UsdzUtils.cs:8 | one tuple text per vector, in order |
| UsdzUtils.SplitJoinTuples | GlbToUsdz.Core/Utils/UsdzUtils.cs:7-8 | the number of top-level tuples in an array text equals the input length, and they come back in order |
| UsdzUtils.Vec3TextShape | GlbToUsdz.Core/Utils/UsdzUtils.cs:11 | a Vector3 is a tuple whose fields are its three components in `F7` |
| UsdzUtils.Vec2TextShape | GlbToUsdz.Core/Utils/UsdzUtils.cs:12 | a Vector2 is a tuple whose fields are its two components in `F7` |
| UsdzUtils.XYZTextShape | GlbToUsdz.Core/Utils/UsdzUtils.cs:13 | a Vector4 renders as the Vector3 of its X, Y and Z; W does not affect the text |
| UsdzUtils.MatrixRowShape | GlbToUsdz.Core/Utils/UsdzUtils.cs:14 | row r is a tuple of `M{r+1}1` to `M{r+1}4` |
| UsdzUtils.MatrixTextShape | GlbToUsdz.Core/Utils/UsdzUtils.cs:14 | a matrix is `( `, its four row tuples joined by `, `, then ` )`; each row splits into its four entries |
| UsdzUtils.Repeat | GlbToUsdz.Core/GlbToUsdzBuilder.cs:146 | n copies of the value |
| Text.NatTextInjective | GlbToUsdz.Core/Utils/UsdzUtils.cs:9 | distinct numbers render distinctly |
| Text.ParseNatText | GlbToUsdz.Core/Utils/UsdzUtils.cs:9 | a number's decimal text parses back to it |
| Text.FormatFixed | GlbToUsdz.Core/Utils/UsdzUtils.cs:11 | the fixed-point rendering is a number token |
| Text.FormatDefault | GlbToUsdz.Core/Utils/UsdzUtils.cs:14 | the default float rendering is a number token |
| Text.Utf8Append | USDZExporter.cs:128-131 | UTF-8 encoding distributes over concatenation |
| Text.Utf8Ascii | USDZExporter.cs:128-131 | an ASCII text encodes to one byte per character, its code |
| Three.IncludeAnchoring | USDZExporter.cs:20-31 | absent options include the anchoring properties; given options include them only when `includeAnchoringProperties` is true |
| Three.QuickLookCompatible | USDZExporter.cs:81 | absent options are not QuickLook compatible; given options are only when `quickLookCompatible` is true |
| UsdzExporter.ParseAsync | USDZExporter.cs:18-126 | the method returns exactly `Usdz(objects, options)`: the archive entries, or the first exception |
| UsdzExporter.BuildModel | USDZExporter.cs:33-83 | starting from `model.usda` unset and empty dictionaries, the files and textures become `ModelFiles`, or the first error is returned |
| UsdzExporter.InitialFiles | USDZExporter.cs:33-35 | the file list starts well formed, with `model.usda` unset |
| UsdzExporter.ModelFiles | USDZExporter.cs:33-83 | on success the files and the texture table are well formed |
| UsdzExporter.RegisterObjects | USDZExporter.cs:44-77 | the dictionaries and the output become those of `Registered`, or its error is returned |
| UsdzExporter.VisitObject | USDZExporter.cs:46-72 | one object's callback has the effect of `Visit` |
| UsdzExporter.RegisterGeometry | USDZExporter.cs:52-58 | a geometry file is built and stored only when its name is absent |
| UsdzExporter.RegisterMaterial | USDZExporter.cs:60-63 | a material is stored only when its Id is absent |
| UsdzExporter.Registered | USDZExporter.cs:44-77 | the traversal keeps the dictionaries well formed |
| UsdzExporter.RegisteredNext | USDZExporter.cs:44-77 | the traversal of a prefix grows by visiting the next object |
| UsdzExporter.RegisteredErr | USDZExporter.cs:44-77 | once the traversal has thrown, later objects change nothing |
| ExporterRegistration.RegisteredOutput | USDZExporter.cs:65 | the output gains one Xform per mesh, in traversal order |
| ExporterRegistration.RegisteredMaterialsPresent | USDZExporter.cs:60 | when the traversal succeeds, every mesh has a material, because a null one is dereferenced |
| ExporterRegistration.RegisteredSucceeds | USDZExporter.cs:52-65 | the traversal succeeds when every mesh has a material, normals and vertices |
| ExporterRegistration.RegisteredMaterialKeys | USDZExporter.cs:60-63 | a material Id is registered iff it was before or some mesh has a material of that Id |
| ExporterRegistration.RegisteredMaterialFirst | USDZExporter.cs:60-63 | an Id holds the material of the first mesh that has it; later meshes change nothing |
| ExporterRegistration.RegisteredMaterialKept | USDZExporter.cs:60-63 | a material present before the traversal is left as it was |
| ExporterRegistration.RegisteredFileKeys | USDZExporter.cs:52-58 | a file is present iff it was before or it is the geometry file of some mesh |
| ExporterRegistration.RegisteredGeometryFirst | USDZExporter.cs:52-58 | a geometry file holds the document built from the first mesh with that geometry Id |
| ExporterRegistration.RegisteredFileKept | USDZExporter.cs:52-58 | a file present before is unchanged, and every added file holds bytes |
| ExporterRegistration.RegisteredFileOrder | USDZExporter.cs:52-58 | the files present before keep their enumeration positions |
| UsdzExporter.WriteTextures | USDZExporter.cs:86-97 | the files become `TextureFiles`, or `InvalidOperation` is returned |
| UsdzExporter.TextureFiles | USDZExporter.cs:86-97 | the texture loop keeps the file list well formed |
| UsdzExporter.TextureFilesNext | USDZExporter.cs:86-97 | one step throws on a compressed texture, and otherwise stores its PNG under `textures/Texture_{id}.png` |
| UsdzExporter.TextureFilesErr | USDZExporter.cs:90-93 | once the loop has thrown, later textures change nothing |
| ExporterPackaging.TexturesOk | USDZExporter.cs:86-97 | the texture loop succeeds iff no texture in the table is compressed |
| ExporterPackaging.TextureFilesErrValue | USDZExporter.cs:90-93 | the only error of the texture loop is `InvalidOperation` |
| ExporterPackaging.TextureFileWritten | USDZExporter.cs:96 | every texture's PNG is stored under its file name |
| ExporterPackaging.TextureFilesKept | USDZExporter.cs:86-97 | a file that is not a texture file keeps its presence and its bytes |
| ExporterPackaging.TextureFilesShape | USDZExporter.cs:86-97 | the earlier files keep their positions, no file is removed, and every file stays set |
| UsdzExporter.AlignFiles | USDZExporter.cs:99-122 | the files become `Aligned`, or `NullReference` is returned |
| UsdzExporter.Aligned | USDZExporter.cs:99-122 | the padding keeps the file names and their order |
| UsdzExporter.AlignedNext | USDZExporter.cs:101-122 | one step dereferences the file, pads it when the pad length is not 0, and changes nothing else |
| UsdzExporter.AlignedErr | USDZExporter.cs:101-103 | once the loop has thrown, later files change nothing |
| UsdzExporter.AlignedAhead | USDZExporter.cs:101-122 | files not yet reached still hold their original bytes |
| UsdzExporter.ZeroBytes | USDZExporter.cs:116-117 | n zero bytes |
| ExporterPackaging.PadLengthAligns | USDZExporter.cs:104-112 | there is no pad iff offset plus header is 4 modulo 64; otherwise the pad is between 1 and 64 and reaches the next multiple of 64 |
| ExporterPackaging.AlignedOk | USDZExporter.cs:101-103 | the padding loop succeeds iff every file is set |
| ExporterPackaging.AlignedValue | USDZExporter.cs:104-121 | each file becomes its original bytes followed by zero bytes of the pad length, computed from the previous file's original length |
| UsdzExporter.ZipSync | USDZExporter.cs:133-150 | the entries are `ZipEntries` of the files: those a finished archive holds; the returned bytes lack the central directory (see "Left out") |
| UsdzExporter.ZipEntries | USDZExporter.cs:133-150 | there is one entry per file |
| ExporterPackaging.ZipEntriesFiles | USDZExporter.cs:138-147 | the i-th entry has the i-th file's name and bytes with default compression, and entry names are distinct |
| UsdzExporter.Package | USDZExporter.cs:86-125 | the texture loop, the padding and `ZipSync` together return `Packed` |
| ExporterPackaging.PackedOk | USDZExporter.cs:86-125 | with every model and geometry file set, packaging succeeds iff no texture is compressed, and fails only with `InvalidOperation` |
| ExporterPackaging.PackedFirst | USDZExporter.cs:99-124 | the first entry is the first file padded with zeros to its pad length |
| ExporterPackaging.PackedHolds | USDZExporter.cs:124 | every file becomes an entry |
| ExporterPackaging.ModelPad | USDZExporter.cs:104-112 | `model.usda` as the first file gets 20 bytes of padding |
| ExporterPackaging.ModelFilesShape | USDZExporter.cs:33-83 | when the model is built, `model.usda` is the first file and holds the UTF-8 of the document; every file is set |
| ExporterPackaging.UsdzModelEntry | USDZExporter.cs:18-126 | the first entry of a package is `model.usda`, holding the document's UTF-8 and 20 zero bytes |
| ExporterPackaging.UsdzAfterModel | USDZExporter.cs:86-126 | once the model is built, the package succeeds iff no stored texture is compressed, and otherwise fails with `InvalidOperation` |
| ExporterPackaging.UsdzGeometryEntries | USDZExporter.cs:52-124 | every mesh's geometry file is an entry of a successful package |
| ExporterText.HeaderLines | USDZExporter.cs:152-155 | the header has ten lines |
| ExporterText.HeaderLinesDisplay | USDZExporter.cs:152-155 | unfolding helper: the line-by-line `HeaderLines` equals the literal, split at `"\n"`; the header's meaning is what the packaging lemmas read from it |
| ExporterText.SceneStartLines | USDZExporter.cs:157-165 | the scene start has 17 lines with anchoring and 14 without |
| ExporterText.SceneStartLinesDisplay | USDZExporter.cs:157-165 | unfolding helper: the line-by-line `SceneStartLines` equals the literal under both options |
| ExporterText.XformLines | USDZExporter.cs:177-196 | an Xform has 9 lines with a material and 8 without |
| ExporterText.XformLinesDisplay | USDZExporter.cs:177-196 | unfolding helper: the line-by-line `XformLines` equals the template with the matrix text substituted; what an Xform holds is stated by `XformReferences` |
| ExporterTextProperties.XformReferences | USDZExporter.cs:177-196 | an Xform references its geometry file and carries the matrix; the binding to `</Materials/Material_{Id}>` is present iff the material is non-null, and no other line is a binding |
| ExporterTextProperties.MatrixRows | USDZExporter.cs:198-208 | the matrix text is the rows at offsets 0, 4, 8 and 12, each splitting into its four entries |
| ExporterText.Corners | USDZExporter.cs:249-253 | a, b and c of each face in face order |
| ExporterTextProperties.VertexCountsRead | USDZExporter.cs:243-247 | the face counts parse back to one 3 per face |
| ExporterTextProperties.VertexIndicesRead | USDZExporter.cs:249-253 | the face indices parse back to the face corners in order |
| ExporterText.MeshLines | USDZExporter.cs:221-241 | a mesh has twelve lines |
| ExporterTextProperties.MeshFaceLines | USDZExporter.cs:228-232 | the mesh's face-count and face-index lines parse back to the counts and corners |
| ExporterText.F5Texts | USDZExporter.cs:265-276 | one `F5` tuple per vector, in order |
| ExporterTextProperties.Vector3ArrayRead | USDZExporter.cs:257-276 | the array fails with `NullReference` iff the attribute is absent; otherwise it splits into one `F5` tuple per vector |
| ExporterTextProperties.GeometryFileErr | USDZExporter.cs:210-262 | building a geometry file fails iff its normals or vertices are absent, with `NullReference` |
| ExporterTextProperties.GeometryFileNameInjective | USDZExporter.cs:52 | distinct geometry Ids give distinct file names |
| ExporterTextProperties.TextureFileNameInjective | USDZExporter.cs:96 | distinct texture Ids give distinct file names |
| ExporterTextProperties.FileNamesApart | USDZExporter.cs:34-96 | geometry files, texture files and `model.usda` never share a name |
| ExporterText.SamplerLines | USDZExporter.cs:425-458 | a sampler has 33 lines |
| ExporterTextProperties.SamplerReadsTexture | USDZExporter.cs:425-458 | a sampler defines the shader `Texture_{id}_{mapType}` on its line 18, and names its texture file, its colour scale when there is a colour, and the wrap modes of the texture |
| ExporterTextProperties.SamplerRunAt | USDZExporter.cs:561 | with samplers of 33 lines each, `string.Join("\n", samplers)` holds sampler i at lines 34i to 34i + 32 |
| ExporterTextProperties.UVShape | USDZExporter.cs:425-458 | the texture shader has fifteen lines naming the file, the scale and both wraps |
| ExporterText.MaterialLines | USDZExporter.cs:548-564 | a material has 15 lines plus its inputs plus its samplers; its content is read back by `MaterialReads` |
| ExporterTextProperties.MaterialReads | USDZExporter.cs:548-564 | the text defines the prim `Material_{id}` that an Xform's binding `MaterialPath(id)` names, and the `PreviewSurface` shader inside it; the input lines follow that shader's header, the first with four tabs in front; the surface output connects to `PreviewSurface` of that material; the samplers sit after the surface connection; the last line closes the prim |
| ExporterTextProperties.MaterialSamplersAt | USDZExporter.cs:548-564 | with samplers of 33 lines each, sampler i sits 34i lines after the samplers begin |
| ExporterMaterialProperties.MaterialTextReads | USDZExporter.cs:467-564 | a material that is written defines `Material_{id}`, and the sampler of the i-th texture use sits 34i lines after its input lines end |
| ExporterMaterialProperties.InputsConnect | USDZExporter.cs:467-534 | for every texture use, the inputs hold the line that connects to `Texture_{id}_{mapType}` of that material, through the head and output of its branch; that is the shader its sampler defines |
| ExporterMaterial.BuildTexture | USDZExporter.cs:386-459 | the texture is stored under its Id, and the sampler text is returned iff both wrap modes are known, else `KeyNotFound` |
| ExporterMaterial.BuildMaterial | USDZExporter.cs:379-565 | the result is `MaterialText`, and on success the table holds the textures of the material's maps |
| ExporterMaterial.BuildBranches | USDZExporter.cs:467-539 | success iff every used map has known wraps; then the inputs and samplers are those of the material and the table is updated by its uses |
| ExporterMaterial.DiffuseBranch | USDZExporter.cs:467-486 | the diffuse input and its use are added, and the sampler is built when all wraps are known |
| ExporterMaterial.EmissiveBranch | USDZExporter.cs:488-496 | the emissive input and its use are added |
| ExporterMaterial.NormalBranch | USDZExporter.cs:498-502 | the normal input and its use are added |
| ExporterMaterial.OcclusionBranch | USDZExporter.cs:504-508 | the occlusion input and its use are added |
| ExporterMaterial.RoughnessBranch | USDZExporter.cs:510-518 | roughness connects to a texture only when a map is present and roughness is 1, and is otherwise a literal |
| ExporterMaterial.MetallicBranch | USDZExporter.cs:520-528 | metallic connects to a texture only when a map is present and metalness is 1, and is otherwise a literal |
| ExporterMaterial.OpacityBranch | USDZExporter.cs:530-539 | the opacity input and its use are added |
| ExporterMaterial.Samplers | USDZExporter.cs:481-534 | one sampler text per use, in order |
| ExporterMaterial.BuildMaterials | USDZExporter.cs:330-341 | the result is `MaterialsText` of the table, and on success the texture table holds every material's uses in order |
| ExporterMaterial.BuildMaterialAt | USDZExporter.cs:334-338 | one material's text and its effect on the texture table |
| ExporterMaterial.BuildMaterialTexts | USDZExporter.cs:334-338 | the loop either writes every material's text in table order, recording the texture table after each material, or stops at the first material that throws with the texts of those before it |
| ExporterMaterial.RecordedUses | USDZExporter.cs:334-338 | the texture table recorded after the first j materials is the starting table with those materials' uses stored in order |
| ExporterMaterial.MaterialsDone | USDZExporter.cs:330-341 | texts written for every material, in order, make up the block of all materials |
| ExporterMaterial.MaterialsFail | USDZExporter.cs:334-338 | when every material before n succeeds and material n throws, the block of all materials throws material n's exception |
| ExporterMaterial.CollectMapErr | USDZExporter.cs:334-338 | once a material has thrown, later ones change nothing |
| ExporterMaterialProperties.MaterialTextErrors | USDZExporter.cs:379-565 | a material fails with `InvalidOperation` iff it has neither a colour map nor a colour, with `KeyNotFound` iff an unknown wrap mode is used, and succeeds otherwise |
| ExporterMaterialProperties.UsesWrapKnown | USDZExporter.cs:451-452 | every used map has known wraps iff each mapped branch's texture has known wraps |
| ExporterMaterialProperties.SampledTypes | USDZExporter.cs:467-539 | a map type is sampled iff its branch is taken |
| ExporterMaterialProperties.SampledMaps | USDZExporter.cs:467-539 | roughness and metallic are sampled iff connected, diffuse iff there is a colour map, and diffuse comes first |
| ExporterMaterialProperties.MaterialsTextOk | USDZExporter.cs:330-341 | all materials together succeed iff each material succeeds |
| ExporterMaterialProperties.MaterialsTextScope | USDZExporter.cs:330-341 | on success the text is the materials' texts in table order |
| ExporterMaterialProperties.MaterialsTextErr | USDZExporter.cs:334-338 | the error is that of the first failing material |
| ExporterMaterial.CollectMapOk | USDZExporter.cs:334-338 | the loop over the materials succeeds iff every call succeeds, and then yields every call's value in order |
| ExporterMaterial.CollectMapFirstErr | USDZExporter.cs:334-338 | the loop throws the exception of the first call that throws |
| ExporterMaterialProperties.StoredPresent | USDZExporter.cs:388-390 | a texture Id is present iff it was before or some used map has it |
| ExporterMaterialProperties.StoredLast | USDZExporter.cs:390 | an Id holds the texture of its last use, since later uses overwrite |
| ExporterMaterialProperties.StoredUntouched | USDZExporter.cs:390 | an Id no map uses keeps its texture |
| ExporterMaterialProperties.StoredPrefix | USDZExporter.cs:390 | the Ids present before keep their enumeration positions |
| ProgramWalker.Run | Program.cs:9-68 | the buffer becomes `ProgramOutput` of the default scene: the header and the blocks, or `NullReference` |
| ProgramWalker.Process | Program.cs:17-65 | success iff every reached triangle primitive has POSITION; the error is `NullReference`; on success the buffer gains the blocks of the container in pre-order |
| ProgramWalker.ProcessNode | Program.cs:20-63 | on a node: success iff every triangle primitive of its mesh and of its descendants has POSITION; the error is `NullReference`; on success the buffer gains the node's own blocks, then its children's |
| ProgramWalker.ProcessChildren | Program.cs:60-63 | every child is processed in order, whether or not the parent has a mesh |
| ProgramWalker.ProcessPrimitives | Program.cs:24-52 | one block per TRIANGLES primitive, failing iff one lacks POSITION |
| ProgramWalker.WriteQuad | Program.cs:28-50 | the buffer gains exactly one `Block` |
| ProgramWalker.WriteXformOpen | Program.cs:38-43 | the Xform opening carries the node translation in `F3` |
| ProgramWalker.WriteQuadMesh | Program.cs:44-50 | the mesh carries the points, then the indices, then `|indices| / 3` threes |
| ProgramWalker.Block | Program.cs:38-50 | a block has thirteen lines |
| ProgramWalker.BlockLines | Program.cs:38-50 | unfolding helper: the line-by-line block equals the quad template filled with the translation, points, indices and counts; what a block holds is stated by `BlockRead` |
| ProgramWalker.F3Texts | Program.cs:46 | one `F3` tuple per vertex, in order |
| ProgramWalker.OwnPlaced | Program.cs:24-26 | a node places only its own TRIANGLES primitives |
| ProgramWalker.MissingPosition | Program.cs:32 | a triangle primitive without POSITION makes the walk fail |
| ProgramProperties.NodePlacedPreOrder | Program.cs:17-65 | a node's blocks are the own blocks of the nodes of its pre-order |
| ProgramProperties.OwnAllMembers | Program.cs:24-26 | every placed primitive belongs to a visited node and is TRIANGLES |
| ProgramProperties.SceneWalk | Program.cs:60-68 | the scene's blocks follow the pre-order of its roots and come from TRIANGLES primitives only |
| ProgramProperties.BlockRead | Program.cs:38-50 | each key of a block holds exactly one value, its own |
| ProgramProperties.BlockNoHeader | Program.cs:38-50 | a block never repeats the `#usda` header |
| ProgramProperties.BlocksRead | Program.cs:24-63 | over many blocks each key holds one value per block, in order |
| ProgramProperties.OutputRead | Program.cs:14-68 | the output fails iff some placed primitive lacks POSITION; otherwise it has the header once, then one value per block per key |
| ProgramProperties.PointsShape | Program.cs:46 | the points text is `[`, the tuples joined by `,`, `]`, and splits back into them |
| ProgramProperties.BlockValuesParse | Program.cs:46-48 | the block's points, indices and counts parse back to the positions, the index list and `|indices| / 3` threes |

## Left out

- Floating point: numbers are exact `real`s, and matrix products and UV flips are exact. Rounding is not modelled.
- `FormatDefault`: a stand-in for .NET's default float `ToString`, emitting fixed digits with trailing zeros trimmed. Only its number-token shape is relied on.
- Locale: the `CultureInfo` save and restore in `WriteUsdzAsync` is left out; formatting is invariant.
- The `ToXYZUsdString` call on a `float?` in `ProcessMaterial` has no overload in `UsdzUtils`. It is modelled as the same fixed formatter, `F7`.
- Asynchrony: `async`, `await` and `Task.Run` are modelled as sequential calls.
- Zip internals: an archive is an ordered list of entries (name, bytes, compressed or stored). The zip byte layout and the compression are not modelled.
- `ZipSync` ignores its `level` argument, as the source does; entries get the default compression.
- `ZipSync`: the source returns `ms.ToArray()` while `archive` is still open, since both `using var` declarations are disposed only when the method returns. An open `ZipArchive` has written its local entries but not its central directory or end record, so the returned bytes are not a complete zip file. The model's entry list is what a finished archive would hold. The missing directory is not modelled, because the archive's byte layout is not modelled.
- Three.js input types: `Three.Face` corners and every `id` are `nat`, where the source's are `int`; a negative corner would be printed as written at USDZExporter.cs:252. `MeshObject.geometry` is always present and `Geometry.faces` is always a list, so the NullReferenceException at `geometry.Id` (:52) or `geometry.Faces.Count` (:245) for a null geometry or face list is not modelled. The `Mesh` and `Geometry` classes are not part of this model; only the fields the exporter reads are.
- SharpGLTF decoding and accessors: the input is already decoded into `Gltf` datatypes. The reflection-based clearcoat lookup is modelled as optional fields.
- `GetVertices` for NORMAL and TEXCOORD_0 in `Program.cs` is fetched and unused. It is modelled as returning nothing, so it never fails.
- THREE's `TraverseVisible`: the exporter receives the visited objects, in visiting order, as a sequence.
- SkiaSharp PNG encoding: each texture carries its encoded PNG bytes.
- The texture-transform trigonometry in `BuildTexture`: the translation text is a field of the map.
- `Color.GetHex` is outside the files modelled. `Three.Hex` stands for it: the channels scaled by 255, truncated and packed as `0xRRGGBB`, so only its sign matters.
- The exporter's int32 `offset` could overflow only with gigabyte files. It is modelled as unbounded, and `& 63` as `% 64`, which agree on a non-negative offset.
- Padding and alignment: the pad arithmetic of USDZExporter.cs:104-121 does not align any entry's data on a 64-byte boundary. The zero bytes go after the data, not before it. `offset` is reset to the previous file's unpadded length (:121) instead of accumulating. Every entry is then deflated by default (:141). The model follows the arithmetic as written (`ExporterPackaging.PadLengthAligns`, `ExporterPackaging.AlignedValue`) and promises no alignment of the archive's bytes.
- The exporter's unused `padding` array: the padded file is the original bytes followed by zero bytes, as `new byte[]` and `Array.Copy` produce.
- The `Console` lines of `BuildVector3Array`'s null branch and of `BuildXform`: the dereference that follows is modelled as `NullReference`.
- Dictionary enumeration: modelled as insertion order with overwrites keeping their position. That is what .NET's `Dictionary` does without removals.
- The alignment loop assigns `files[filename]` while it enumerates `files.Keys`. Only on .NET Core 3.0 and later does overwriting an existing key leave the enumerator valid; earlier runtimes throw InvalidOperationException there. The model assumes the newer runtime.
- Texture table after a failing `BuildMaterial`: `BuildMaterial`, `BuildMaterials` and `BuildModel` state the table only on success. After an exception nothing reads it.
- `WriteGlbAsync`: it only wraps SharpGLTF scene building.
- Options beyond `includeAnchoringProperties` and `quickLookCompatible`: the exporter reads no others.
- Option values are booleans (`Three.Options` holds `Option<bool>`). The source casts the stored `object` with `(bool)` (USDZExporter.cs:81 and :159); a value of another type throws InvalidCastException. That exception path is not modelled.
- A default scene: `Gltf.ModelRoot` always has one (`defaultScene` is not optional). `Program.cs` (lines 11 and 68) and `GlbToUsdzBuilder.cs` (line 96) read `DefaultScene` unguarded, so a glTF file without a scene makes them throw NullReferenceException. That exception path is not modelled.
- Entry points and I/O: the server routes, the console wrapper, the converter's `Task.Run` and `Program.cs`'s file write and console output.
- String lengths count characters, not UTF-16 code units. Every file name counted in the padding arithmetic is ASCII.
- Texture table: each textured material sets its key whether or not the key is present already, so a later material overwrites an earlier one's texture. The model follows that code.
- Mesh names: the mesh name depends only on the model and the node, so a node with several triangle primitives repeats it (`BuilderProperties.DuplicateMeshNames`). Names are not unique per primitive.
