/**
 * What BBModelReader computes, as functions of the parsed document: the header
 * checks of `read`, the cube parsing and the outliner walk of `readElements`,
 * and the recursive construction of `createBone`. The handles drawn from the
 * ModelDataCursor are a parameter: `hs` is the sequence of values the cursor
 * returns, in order, and `pos` the index of the next one to be drawn.
 */
module BBModelSpec {
  import opened Wrappers
  import opened Vectors
  import opened OrderedMaps
  import opened Decimal
  import opened BBModelTypes

  // ---- Header ----

  /** `meta.box_uv` is present, not null, and true. */
  predicate BoxUvEnabled(flag: Option<bool>) {
    flag == Some(true)
  }

  /** `geometry_name`, falling back to `name` when it is empty. */
  function ModelName(d: Document): string {
    if |d.geometryName| == 0 then d.name else d.geometryName
  }

  // ---- Cubes ----

  /** `multiply(-1, 1, 1)`: the change of handedness applied to pivots. */
  function FlipX(v: Vec3): Vec3 {
    v.Multiply(-1.0, 1.0, 1.0)
  }

  function Bit(nonZero: bool): int {
    if nonZero then 1 else 0
  }

  /** Java's `^` on the values 0 and 1. */
  function Xor(a: int, b: int): int {
    if a == b then 0 else 1
  }

  function NonZeroCount(r: Vec3): nat {
    Bit(r.x != 0.0) + Bit(r.y != 0.0) + Bit(r.z != 0.0)
  }

  function Component(r: Vec3, a: Axis): real {
    match a
    case X => r.x
    case Y => r.y
    case Z => r.z
  }

  /**
   * The single rotation axis of a cube and its angle. The check is a parity
   * test, so it rejects exactly the rotations with two non-zero components;
   * three non-zero components pass as a rotation about X.
   */
  function RotationAxis(r: Vec3): (res: Result<(Axis, real), ReadError>)
    ensures res.Err? <==> NonZeroCount(r) == 2
    ensures res.Err? ==> res.error == MultipleAxisRotation
    ensures res.Ok? ==> res.value.1 == Component(r, res.value.0)
    ensures res.Ok? && NonZeroCount(r) <= 1 ==> forall a :: a != res.value.0 ==> Component(r, a) == 0.0
    ensures NonZeroCount(r) == 0 ==> res == Ok((Z, 0.0))
    ensures NonZeroCount(r) == 3 ==> res == Ok((X, r.x))
  {
    if Xor(Xor(Bit(r.x != 0.0), Bit(r.y != 0.0)), Bit(r.z != 0.0)) == 0 && (r.x != 0.0 || r.y != 0.0) then
      Err(MultipleAxisRotation)
    else if r.x != 0.0 then Ok((X, r.x))
    else if r.y != 0.0 then Ok((Y, r.y))
    else Ok((Z, r.z))
  }

  /**
   * The rebased corners (origin, to) of a cube: the source box mirrored in x,
   * with y and z kept, so its extent is unchanged.
   */
  function RebaseCorners(from: Vec3, to: Vec3): (corners: (Vec3, Vec3))
    ensures corners.1.Subtract(corners.0) == to.Subtract(from)
    ensures corners.0 == Vec3(-to.x, from.y, from.z) && corners.1 == Vec3(-from.x, to.y, to.z)
  {
    var origin := Vec3(-to.x, from.y, from.z);
    (origin, origin.Add(to.Subtract(from)))
  }

  /** The UV rectangle divided by the texture resolution (width, height, width, height). */
  function NormalizeUv(uv: Vec4, width: int, height: int): Vec4
    requires width != 0 && height != 0
  {
    Vec4(uv.x / width as real, uv.y / height as real, uv.z / width as real, uv.w / height as real)
  }

  /** The texture reference `"#" + id`, with id -1 when `texture` is absent or null. */
  function TextureRef(texture: Option<int>): string {
    "#" + IntToString(texture.GetOr(-1))
  }

  /** The faces loop: faces with an all-zero normalised UV are not stored. */
  function FaceMap(faces: seq<(CubeFace, FaceJson)>, width: int, height: int): map<CubeFace, ElementFace>
    requires width != 0 && height != 0
  {
    if faces == [] then map[]
    else
      var m := FaceMap(faces[..|faces| - 1], width, height);
      var (face, json) := faces[|faces| - 1];
      var uv := NormalizeUv(json.uv, width, height);
      if uv != Zero4 then m[face := ElementFace(uv, TextureRef(json.texture))] else m
  }

  /** One cube of `elements`. */
  function ParseCube(c: CubeJson, width: int, height: int): Result<ElementAsset, ReadError>
    requires width != 0 && height != 0
  {
    var pivot := FlipX(c.origin);
    var corners := RebaseCorners(c.from, c.to);
    match RotationAxis(c.rotation.GetOr(Zero3))
    case Err(e) => Err(e)
    case Ok((axis, angle)) =>
      Ok(ElementAsset(corners.0, corners.1, ElementRotation(pivot, axis, angle), FaceMap(c.faces, width, height)))
  }

  /** The `elements` loop: uuid to cube, a later cube overwriting an earlier one with the same uuid. */
  function CubeMap(elements: seq<CubeJson>, width: int, height: int): Result<map<string, ElementAsset>, ReadError>
    requires width != 0 && height != 0
  {
    if elements == [] then Ok(map[])
    else
      match CubeMap(elements[..|elements| - 1], width, height)
      case Err(e) => Err(e)
      case Ok(m) =>
        var c := elements[|elements| - 1];
        match ParseCube(c, width, height)
        case Err(e) => Err(e)
        case Ok(cube) => Ok(m[c.uuid := cube])
  }

  // ---- Bones ----

  /** `divide(16, 16, -16)`: source units to blocks, with the z axis flipped. */
  function ScaledPivot(pivot: Vec3): Vec3 {
    pivot.Divide(16.0, 16.0, -16.0)
  }

  /** The handle at index k of the cursor's output. */
  function HandleAt(hs: seq<int>, k: nat): int {
    if k < |hs| then hs[k] else 0
  }

  /** A built bone, its asset, and the index of the next handle to draw. */
  datatype BoneOut = BoneOut(bone: ReadBone, asset: BoneAsset, next: nat)

  /** The sibling maps and cube list of one level, and the index of the next handle to draw. */
  datatype Level = Level(bones: OrderedMap<ReadBone>, assets: OrderedMap<BoneAsset>, cubes: seq<ElementAsset>, next: nat)

  /** The number of bone objects in a bone's subtree, itself included. */
  function BoneCount(j: BoneJson): nat
    decreases j, 1, 0
  {
    1 + ChildBoneCount(j, |j.children|)
  }

  /** The number of bone objects in the subtrees of the first i children. */
  function ChildBoneCount(j: BoneJson, i: nat): nat
    requires i <= |j.children|
    decreases j, 0, i
  {
    if i == 0 then 0
    else
      ChildBoneCount(j, i - 1) +
      match j.children[i - 1]
      case ObjectNode(b) => BoneCount(b)
      case _ => 0
  }

  /**
   * `createBone`: the bone and asset built from bone object j under a parent
   * whose scaled pivot is parentScaledPivot. Each bone draws exactly one
   * handle, after all of its children.
   */
  function BuildBone(process: Processor, parentScaledPivot: Vec3, cubes: map<string, ElementAsset>,
                     j: BoneJson, hs: seq<int>, pos: nat): (r: Result<BoneOut, ReadError>)
    decreases j, 1, 0
    ensures r.Ok? ==> r.value.next == pos + BoneCount(j)
    ensures r.Ok? ==> r.value.asset.customModelData == HandleAt(hs, r.value.next - 1)
  {
    match BuildChildren(process, ScaledPivot(FlipX(j.origin)), cubes, j, |j.children|, hs, pos)
    case Err(e) => Err(e)
    case Ok(level) => Ok(AssembleBone(process, parentScaledPivot, j, level, HandleAt(hs, level.next)))
  }

  /**
   * The end of `createBone`, once the children loop has built `level`: the
   * element processor's result, the asset with the bone's handle, and the bone.
   */
  function AssembleBone(process: Processor, parentScaledPivot: Vec3, j: BoneJson, level: Level, handle: int): (out: BoneOut)
    ensures out.next == level.next + 1 && out.asset.customModelData == handle
  {
    var pivot := FlipX(j.origin);
    var scaledPivot := ScaledPivot(pivot);
    var result := process(pivot, level.cubes);
    var asset := BoneAsset(j.name, pivot, handle, result.offset, result.elements, result.small, level.assets);
    BoneOut(ReadBone(j.name, j.rotation.GetOr(Zero3), level.bones, scaledPivot.Subtract(parentScaledPivot), asset), asset, level.next + 1)
  }

  /** The children loop of `createBone`, over the first i children of j. */
  function BuildChildren(process: Processor, scaledPivot: Vec3, cubes: map<string, ElementAsset>,
                         j: BoneJson, i: nat, hs: seq<int>, pos: nat): (r: Result<Level, ReadError>)
    requires i <= |j.children|
    decreases j, 0, i
    ensures r.Ok? ==> r.value.next == pos + ChildBoneCount(j, i)
  {
    if i == 0 then Ok(Level(Empty(), Empty(), [], pos))
    else
      match BuildChildren(process, scaledPivot, cubes, j, i - 1, hs, pos)
      case Err(e) => Err(e)
      case Ok(level) => BuildChild(process, scaledPivot, cubes, j.name, j.children[i - 1], hs, level)
  }

  /** One pass of the children loop of `createBone` of bone `parent`, over child c. */
  function BuildChild(process: Processor, scaledPivot: Vec3, cubes: map<string, ElementAsset>,
                      parent: string, c: OutlinerNode, hs: seq<int>, level: Level): (r: Result<Level, ReadError>)
    decreases c, 0, 0
    ensures r.Ok? ==> r.value.next == level.next + (match c case ObjectNode(b) => BoneCount(b) case _ => 0)
  {
    match c
    case ObjectNode(b) =>
      (match BuildBone(process, scaledPivot, cubes, b, hs, level.next)
       case Err(e) => Err(e)
       case Ok(out) =>
         Ok(Level(level.bones.Put(b.name, out.bone), level.assets.Put(b.name, out.asset), level.cubes, out.next)))
    case StringNode(id) =>
      if id in cubes then Ok(level.(cubes := level.cubes + [cubes[id]]))
      else Err(InvalidCubeId(parent, id))
    case OtherNode => Err(InvalidChildType(parent))
  }

  /** The number of bone objects under the object entries of the outliner. */
  function RootsBoneCount(roots: seq<OutlinerNode>): nat {
    if roots == [] then 0
    else
      RootsBoneCount(roots[..|roots| - 1]) +
      match roots[|roots| - 1]
      case ObjectNode(b) => BoneCount(b)
      case _ => 0
  }

  /** The outliner loop of `readElements`: bones at the root, other entries skipped. */
  function BuildRoots(process: Processor, cubes: map<string, ElementAsset>, roots: seq<OutlinerNode>,
                      hs: seq<int>, pos: nat): (r: Result<Level, ReadError>)
    ensures r.Ok? ==> r.value.next == pos + RootsBoneCount(roots) && r.value.cubes == []
  {
    if roots == [] then Ok(Level(Empty(), Empty(), [], pos))
    else
      match BuildRoots(process, cubes, roots[..|roots| - 1], hs, pos)
      case Err(e) => Err(e)
      case Ok(level) => BuildRoot(process, cubes, roots[|roots| - 1], hs, level)
  }

  /** One pass of the outliner loop of `readElements`, over entry c. */
  function BuildRoot(process: Processor, cubes: map<string, ElementAsset>, c: OutlinerNode,
                     hs: seq<int>, level: Level): (r: Result<Level, ReadError>)
    ensures r.Ok? ==> r.value.next == level.next + (match c case ObjectNode(b) => BoneCount(b) case _ => 0)
    ensures r.Ok? ==> r.value.cubes == level.cubes
  {
    match c
    case ObjectNode(b) =>
      (match BuildBone(process, Zero3, cubes, b, hs, level.next)
       case Err(e) => Err(e)
       case Ok(out) =>
         Ok(Level(level.bones.Put(b.name, out.bone), level.assets.Put(b.name, out.asset), level.cubes, out.next)))
    case _ => Ok(level)
  }

  /** `readElements`: the cube map, then the bone tree. */
  function BuildElements(process: Processor, d: Document, hs: seq<int>, pos: nat): Result<Level, ReadError>
    requires d.width != 0 && d.height != 0
  {
    match CubeMap(d.elements, d.width, d.height)
    case Err(e) => Err(e)
    case Ok(cubes) => BuildRoots(process, cubes, d.outliner, hs, pos)
  }

  /** `read`: the header checks, then `readElements`, then the model. */
  function ReadModel(process: Processor, d: Document, hs: seq<int>, pos: nat): Result<Model, ReadError>
    requires d.width != 0 && d.height != 0
  {
    if BoxUvEnabled(d.boxUv) then Err(BoxUvNotSupported)
    else
      match BuildElements(process, d, hs, pos)
      case Err(e) => Err(e)
      case Ok(level) =>
        Ok(Model(ModelName(d), level.bones, d.width, d.height, ModelAsset(ModelName(d), level.assets)))
  }
}
