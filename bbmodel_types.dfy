/**
 * The parsed .bbmodel document the reader consumes (the members of the JSON
 * that BBModelReader reads), and the bone/asset records it produces.
 */
module BBModelTypes {
  import opened Wrappers
  import opened Vectors
  import opened OrderedMaps

  // ---- Input: the parsed Blockbench document ----

  /** The face names of a cube's `faces` object (keys read through CubeFace.valueOf). */
  datatype CubeFace = North | East | South | West | Up | Down

  /** One entry of a cube's `faces`: `texture` (None when absent or null) and the four `uv` numbers. */
  datatype FaceJson = FaceJson(texture: Option<int>, uv: Vec4)

  /** One entry of the flat `elements` list; `rotation` is None when absent or null. */
  datatype CubeJson = CubeJson(
    uuid: string,
    origin: Vec3,
    from: Vec3,
    to: Vec3,
    rotation: Option<Vec3>,
    faces: seq<(CubeFace, FaceJson)>)

  /** An entry of `outliner` or of a bone's `children`: an object (a bone), a string (a cube uuid) or anything else. */
  datatype OutlinerNode = ObjectNode(bone: BoneJson) | StringNode(id: string) | OtherNode

  /** A bone object of the outliner; `rotation` is None when absent or null. */
  datatype BoneJson = BoneJson(
    name: string,
    origin: Vec3,
    rotation: Option<Vec3>,
    children: seq<OutlinerNode>)

  /** The document members BBModelReader reads; `boxUv` is None when `meta.box_uv` is absent or null. */
  datatype Document = Document(
    geometryName: string,
    name: string,
    boxUv: Option<bool>,
    width: int,
    height: int,
    elements: seq<CubeJson>,
    outliner: seq<OutlinerNode>)

  // ---- Output: cubes, bone assets, bones and the model ----

  datatype Axis = X | Y | Z

  /** ElementRotation: the rotation pivot, the single axis and the angle. */
  datatype ElementRotation = ElementRotation(origin: Vec3, axis: Axis, angle: real)

  /** ElementFace: normalised UV rectangle and texture reference `#<id>`. */
  datatype ElementFace = ElementFace(uv: Vec4, texture: string)

  /** ElementAsset: a cube with its corners, rotation and visible faces. */
  datatype ElementAsset = ElementAsset(
    from: Vec3,
    to: Vec3,
    rotation: ElementRotation,
    faces: map<CubeFace, ElementFace>)

  /** What ElementProcessor.process returns for a bone's pivot and cubes. */
  datatype ProcessResult = ProcessResult(offset: Vec3, elements: seq<ElementAsset>, small: bool)

  /** ElementProcessor.process, whose code is not part of this model. */
  type Processor = (Vec3, seq<ElementAsset>) -> ProcessResult

  /** BoneAsset: the geometry payload of one bone and its child assets, keyed by name. */
  datatype BoneAsset = BoneAsset(
    name: string,
    pivot: Vec3,
    customModelData: int,
    offset: Vec3,
    elements: seq<ElementAsset>,
    small: bool,
    children: OrderedMap<BoneAsset>)

  /** The bone the reader builds: name, initial rotation, child bones, offset from the parent and its asset. */
  datatype ReadBone = ReadBone(
    name: string,
    rotation: Vec3,
    bones: OrderedMap<ReadBone>,
    offset: Vec3,
    asset: BoneAsset)

  /** ModelAsset, restricted to the name and the bone-asset tree. */
  datatype ModelAsset = ModelAsset(name: string, bones: OrderedMap<BoneAsset>)

  /** Model: name, root bones, texture resolution and asset. */
  datatype Model = Model(name: string, bones: OrderedMap<ReadBone>, width: int, height: int, asset: ModelAsset)

  /** The exceptions the reader throws. */
  datatype ReadError =
    | BoxUvNotSupported                            // IOException
    | MultipleAxisRotation                         // UnsupportedOperationException
    | InvalidCubeId(bone: string, cubeId: string)  // IOException
    | InvalidChildType(bone: string)               // IOException
  {
    predicate IsIOException() {
      !MultipleAxisRotation?
    }

    function Message(): string {
      match this
      case BoxUvNotSupported => "Box UV not supported, please turn it off"
      case MultipleAxisRotation => "Cube can't be rotated in multiple axis"
      case InvalidCubeId(bone, id) =>
        "Bone " + bone + " contains an invalid cube id: '" + id + "', not present in the 'elements' section"
      case InvalidChildType(bone) => "Invalid child type in bone " + bone
    }
  }
}
