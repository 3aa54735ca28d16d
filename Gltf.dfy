/**
 * The decoded glTF scene graph the builder reads, reduced to what the
 * emitter looks at. Accessor contents appear already decoded: optional
 * attribute arrays stand for "the primitive has a POSITION, NORMAL or
 * TEXCOORD_0 accessor", and the clear-coat extension's two factors for the
 * reflection-based lookup of the MaterialClearCoat extension.
 */
module Gltf {
  import opened Wrappers
  import opened Text
  import opened Numerics

  type uint32 = x: int | 0 <= x < 0x1_0000_0000

  /** glTF's primitive topology (the `mode` of a mesh primitive). */
  datatype PrimitiveType =
    POINTS | LINES | LINE_LOOP | LINE_STRIP | TRIANGLES | TRIANGLE_STRIP | TRIANGLE_FAN

  /** An embedded image: its bytes and its file extension (`png`, `jpg`, ...). */
  datatype MemoryImage = MemoryImage(content: seq<uint8>, fileExtension: string)

  datatype Texture = Texture(logicalIndex: nat, primaryImage: MemoryImage)

  /**
   * A logical material: the BaseColor channel's colour and texture, the
   * MetallicRoughness channel's two factors, and the clear-coat extension's
   * two factors, each one absent when the parameter or extension is.
   */
  datatype Material = Material(
    logicalIndex: nat,
    baseColor: Vec4,
    baseColorTexture: Option<Texture>,
    metallicFactor: Option<real>,
    roughnessFactor: Option<real>,
    clearCoatFactor: Option<real>,
    clearCoatRoughnessFactor: Option<real>)

  datatype Primitive = Primitive(
    drawPrimitiveType: PrimitiveType,
    indices: seq<uint32>,
    position: Option<seq<Vec3>>,
    normal: Option<seq<Vec3>>,
    texCoord0: Option<seq<Vec2>>,
    material: Option<Material>)

  datatype Mesh = Mesh(primitives: seq<Primitive>)

  /** A node of the visual tree, with its world matrix already resolved. */
  datatype Node = Node(
    logicalIndex: nat,
    worldMatrix: Matrix4x4,
    mesh: Option<Mesh>,
    visualChildren: seq<Node>)

  datatype Scene = Scene(visualChildren: seq<Node>)

  /** `IVisualNodeContainer`: either a scene or one of its nodes. */
  datatype VisualNodeContainer = SceneContainer(scene: Scene) | NodeContainer(node: Node)
  {
    function VisualChildren(): seq<Node>
    {
      match this
      case SceneContainer(s) => s.visualChildren
      case NodeContainer(n) => n.visualChildren
    }
  }

  datatype ModelRoot = ModelRoot(defaultScene: Scene, logicalMaterials: seq<Material>)
}
