/**
 * The part of a three.js scene graph that USDZExporter.cs reads: the visible
 * objects (already flattened by `TraverseVisible`), their geometries, their
 * materials and the textures those use, and the exporter's options.
 */
module Three {
  import opened Wrappers
  import opened Text
  import opened Numerics

  /** A triangle of a geometry: three vertex indices. */
  datatype Face = Face(a: nat, b: nat, c: nat)

  /** A geometry; either attribute array may be missing (null). */
  datatype Geometry = Geometry(
    id: nat,
    faces: seq<Face>,
    normals: Option<seq<Vec3>>,
    vertices: Option<seq<Vec3>>)

  datatype Color = Color(r: real, g: real, b: real)

  /**
   * A texture. `png` is the image as `Encode(SKEncodedImageFormat.Png, 5)`
   * returns it. `translation` and `translationQuickLook` are the values
   * `BuildTexture` computes for `inputs:translation` from the offset, the
   * repeat and the sine and cosine of the rotation, without and with
   * `quickLookCompatible`.
   */
  datatype Texture = Texture(
    id: nat,
    compressed: bool,
    png: seq<uint8>,
    isSrgb: bool,
    wrapS: int,
    wrapT: int,
    rotation: real,
    repeat: Vec2,
    translation: Vec2,
    translationQuickLook: Vec2)

  /** The material fields `BuildMaterial` reads (`colorMap` is `Map`); a missing map is null. */
  datatype Material = Material(
    id: nat,
    color: Option<Color>,
    colorMap: Option<Texture>,
    transparent: bool,
    alphaTest: real,
    emissive: Option<Color>,
    emissiveMap: Option<Texture>,
    normalMap: Option<Texture>,
    aoMap: Option<Texture>,
    roughnessMap: Option<Texture>,
    roughness: real,
    metalnessMap: Option<Texture>,
    metalness: real,
    alphaMap: Option<Texture>,
    opacity: real)

  /** A visible object: a mesh (whose material may be null) or anything else. */
  datatype Object3D =
    | MeshObject(id: nat, matrixWorld: Matrix4x4, geometry: Geometry, material: Option<Material>)
    | OtherObject(id: nat)

  /**
   * The options dictionary, by the two keys the exporter reads; a key that is
   * absent is `None`. A null dictionary is replaced by the defaults.
   */
  datatype Options = Options(includeAnchoringProperties: Option<bool>, quickLookCompatible: Option<bool>)

  const DefaultOptions := Options(Some(true), Some(false))

  /** `options ?? defaults`, then `TryGetValue(key, out v) ? (bool)v : false`. */
  function IncludeAnchoring(options: Option<Options>): (b: bool)
    ensures options.None? ==> b
    ensures options.Some? ==> (b <==> options.value.includeAnchoringProperties == Some(true))
  {
    var o := if options.Some? then options.value else DefaultOptions;
    o.includeAnchoringProperties == Some(true)
  }

  function QuickLookCompatible(options: Option<Options>): (b: bool)
    ensures options.None? ==> !b
    ensures options.Some? ==> (b <==> options.value.quickLookCompatible == Some(true))
  {
    var o := if options.Some? then options.value else DefaultOptions;
    o.quickLookCompatible == Some(true)
  }

  /** Truncation toward zero, as a float-to-int cast does. */
  function Truncate(x: real): int
  {
    if x >= 0.0 then x.Floor else -((-x).Floor)
  }

  /** `Color.GetHex()`: the channels scaled to 0..255, truncated, packed as 0xRRGGBB. */
  function Hex(c: Color): int
  {
    Truncate(c.r * 255.0) * 65536 + Truncate(c.g * 255.0) * 256 + Truncate(c.b * 255.0)
  }
}
