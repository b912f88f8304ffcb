# hephaestus: the Blockbench model reader, bones and keyframes, in Dafny

This project models the part of hephaestus-engine that turns a Blockbench
`.bbmodel` document into a model's bone tree (`BBModelReader`), the immutable
bone type of the API (`Bone`) and the animation keyframe (`KeyFrame`), and
proves what these promise.

- **Input** (`bbmodel_types.dfy`). The parsed JSON document is the datatype
  `Document`:
  - `geometry_name`, `name` and `meta.box_uv`;
  - the texture resolution;
  - the flat `elements` list of cubes;
  - the `outliner` tree, whose entries are a bone object, a cube uuid string,
    or anything else.

  The output records are `ElementAsset`, `BoneAsset`, `ReadBone`, `Model`
  and `ModelAsset`. The reader's exceptions are `ReadError`.
- **Specification** (`bbmodel_spec.dfy`, module `BBModelSpec`). Functions
  state what `read`, `readElements` and `createBone` compute:
  - the header checks;
  - one cube: mirrored corners, single rotation axis, normalised UVs, faces;
  - the uuid → cube map;
  - the recursive bone construction and the outliner loop.

  The custom model data handles are a parameter: `hs` is the sequence of
  values the `ModelDataCursor` returns, and `pos` is the index of the next one
  to be drawn.
- **Reader** (`bbmodel_reader.dfy`, module `BBModelReading`). The reader is
  imperative, as in Java:
  - the class `BBModelReader` holds the cursor and the element processor;
  - the caller-supplied sibling maps are `LinkedHashMap` objects that
    `createBone` puts into;
  - the `elements`, `faces`, `children` and `outliner` loops are `for`/`while`
    loops with invariants;
  - the cursor is a `ModelDataCursor` object whose `Next` changes its state.

  Every method is proved to compute the specification function, evaluated on
  the handles the cursor actually returned.
- **Properties**, proved about the specification functions:
  - `BBModelErrors`: when reading fails, and with which exception.
  - `BBModelCubes`: what a cube and its faces become.
  - `BBModelShape`:
    - the bone and asset maps of every level are parallel;
    - offsets are taken from the parent's scaled pivot;
    - cubes are handed over in child order;
    - the keys of a level are the names of its bone objects;
    - non-object outliner entries are skipped.
  - `BBModelHandles`: one handle per bone, drawn after its children, so the
    handles of a model are pairwise distinct.
  - `BBModelStability` and `BBModelSteps`: a result does not change once the
    cursor has issued more handles, and an error ends its loop.
- **`Bone`** (`bone.dfy`) is a datatype whose destructors are the accessors
  `name()`, `position()`, `rotation()`, `childrenMap()`, `customModelData()`
  and `isParentOnly()` (the field `isParentOnly`).
  - The documented invariants are `Valid` (scale at least one, children keyed
    by their own names) and `ValidModel` (names and handles unique in the
    whole tree).
- **`KeyFrame`** (`keyframe.dfy`) is a datatype with `time()`, `value()` and
  `interpolator()` as destructors, plus `interpolatorOr`.
- **Supporting modules**:
  - `OrderedMaps` models `LinkedHashMap`'s `put`/`get`/`values`: a present key
    keeps its position.
  - `Vectors` models `Vector3Float` and `Vector4Float` over the reals.
  - `Decimal` gives the decimal text of an int, for `"#" + textureId`.
  - `Sequences` and `Wrappers` hold small general helpers.

Where the code and its own documentation disagree, this model follows the
code:

- **Duplicate names.** The Javadoc of `name()` (`Bone.java:73-81`) says bone
  names are unique in the model. But `createBone` has no duplicate check.
  When a later sibling has the same name, it replaces the earlier one in both
  maps, and the name keeps the position of its first occurrence. The same
  name may also appear at different levels. The code's behaviour is stated
  by these lemmas:
  - `BBModelShape.BuildChildrenLastWins` and, at the root,
    `BBModelShape.BuildRootsLastWins`: the last sibling with the name wins;
  - `BBModelShape.BuildChildrenFirstPosition`: the name stays where it was
    first put (proved for child levels; the root maps use the same `put`);
  - `BBModelShape.BuildChildrenKeys`: repeated names collapse to one key, with
    no error;
  - `OrderedMaps.PutGet` and `OrderedMaps.PutKeys`: the same for a single
    `put`.
- **Bone constructor arity.** `BBModelReader.java:341` calls a 5-argument
  `Bone(name, rotation, bones, offset, asset)`. `Bone.java:55-63` declares a
  7-argument constructor. The two files come from different revisions. The
  reader therefore builds a `ReadBone` record with exactly those five parts,
  and `Bone` is modelled on its own from `Bone.java`. No mapping between the
  two is invented.
- **Three-axis rotations.** The comment at `BBModelReader.java:183` says the
  check makes sure the cube is rotated in a single direction. The check
  itself is a parity test. It rejects exactly the rotations with two
  non-zero components, and accepts three non-zero components as a rotation
  about X by `x`. The model does the same (`BBModelSpec.RotationAxis`).

## Model

| member | source | states |
|---|---|---|
| `BBModelReading.BBModelReader.Read` | reader-blockbench/src/main/java/team/unnamed/hephaestus/reader/BBModelReader.java:69-113 | `read` returns exactly `ReadModel` of the document, on the handles the cursor issued during the call. On success it drew one handle per bone object of the outliner. A box-UV document draws none. The handles of the model are pairwise distinct and none was issued before the call. |
| `BBModelReading.BBModelReader.ReadElements` | reader-blockbench/src/main/java/team/unnamed/hephaestus/reader/BBModelReader.java:150-254 | Starting from empty root maps, `readElements` leaves in them exactly the bone and asset maps of `BuildElements`, having used exactly the handles it drew. On failure it returns the same exception. |
| `BBModelReading.BBModelReader.ReadCubes` | reader-blockbench/src/main/java/team/unnamed/hephaestus/reader/BBModelReader.java:163-236 | The `elements` loop yields the uuid → cube map `CubeMap`, or the exception of the first cube that fails. |
| `BBModelReading.BBModelReader.ReadCube` | reader-blockbench/src/main/java/team/unnamed/hephaestus/reader/BBModelReader.java:165-235 | One cube is parsed as `ParseCube` says. |
| `BBModelReading.BBModelReader.ReadFaces` | reader-blockbench/src/main/java/team/unnamed/hephaestus/reader/BBModelReader.java:200-226 | The faces loop builds exactly `FaceMap` of the cube's face entries. |
| `BBModelReading.BBModelReader.ReadRoot` | reader-blockbench/src/main/java/team/unnamed/hephaestus/reader/BBModelReader.java:240-253 | One outliner entry updates the root maps and the cursor as `BuildRoot` says. An object becomes a root bone with the zero vector as parent pivot, and any other entry changes nothing. |
| `BBModelReading.BBModelReader.CreateBone` | reader-blockbench/src/main/java/team/unnamed/hephaestus/reader/BBModelReader.java:270-343 | On success, the sibling maps become the old ones with `put(name, bone)` and `put(name, asset)`, where the bone is `BuildBone`'s on the handles drawn. Every drawn handle was consumed. On failure the sibling maps are unchanged and the exception is `BuildBone`'s. |
| `BBModelReading.BBModelReader.ReadChildren` | reader-blockbench/src/main/java/team/unnamed/hephaestus/reader/BBModelReader.java:294-327 | The children loop yields fresh child maps and the cube list of `BuildChildren` over all children, or its exception. |
| `BBModelReading.BBModelReader.ReadChild` | reader-blockbench/src/main/java/team/unnamed/hephaestus/reader/BBModelReader.java:298-327 | One child extends the loop from child i to i+1 as `BuildChildren` does, or raises the exception that is the result of the whole loop. |
| `BBModelReading.LinkedHashMap.Put` | reader-blockbench/src/main/java/team/unnamed/hephaestus/reader/BBModelReader.java:341-342 | `siblings.put` replaces the shared map's contents by `OrderedMap.Put` of the old contents. |
| `BBModelReading.BBModelReader.Blockbench` | reader-blockbench/src/main/java/team/unnamed/hephaestus/reader/BBModelReader.java:141-143 | The reader keeps the given cursor. The static `ElementProcessor.process` it calls is passed here as a function value. |
| `ModelData.ModelDataCursor.Next` | reader-blockbench/src/main/java/team/unnamed/hephaestus/reader/BBModelReader.java:334 | `cursor.next()` returns a handle it never returned before, and records it. |
| `BBModelSpec.ReadModel` | reader-blockbench/src/main/java/team/unnamed/hephaestus/reader/BBModelReader.java:69-113 | The reference definition of `read`: box-UV check, then `readElements`, then the model named `ModelName`. Characterised by `BBModelErrors.ReadModelErrors` and `ReadModelName`, `BBModelShape.ReadModelShape` and `BBModelHandles.ModelHandlesDistinct`. |
| `BBModelSpec.BuildElements` | reader-blockbench/src/main/java/team/unnamed/hephaestus/reader/BBModelReader.java:150-254 | The reference definition of `readElements`: the cube map, then the outliner loop. Its failures are given by `BBModelErrors.CubeMapOk` and `BuildRootsOk`. Its result's shape is given by `BBModelShape.BuildRootsShape` and `BuildRootsKeys`. |
| `BBModelSpec.CubeMap` | reader-blockbench/src/main/java/team/unnamed/hephaestus/reader/BBModelReader.java:163-236 | The reference definition of the `elements` loop. It succeeds exactly when no cube is two-axis (`BBModelErrors.CubeMapOk`), and the first error ends it (`BBModelStability.CubeMapErrPersists`). A successful map has one key per uuid (`BBModelCubes.CubeMapKeys`), holding the cube of the last element with that uuid (`BBModelCubes.CubeMapLastWins`). |
| `BBModelSpec.ParseCube` | reader-blockbench/src/main/java/team/unnamed/hephaestus/reader/BBModelReader.java:165-235 | The reference definition of one cube. It succeeds exactly when the rotation is single-axis. Its corners, pivot, angle and faces are given by `BBModelCubes.ParseCubeElement`. |
| `BBModelSpec.FaceMap` | reader-blockbench/src/main/java/team/unnamed/hephaestus/reader/BBModelReader.java:200-226 | The reference definition of the faces loop. Which faces are kept is given by `BBModelCubes.FaceMapKey`, what each stores by `BBModelCubes.FaceMapValue`, and which of several entries for one face wins by `BBModelCubes.FaceMapLastWins`. |
| `BBModelSpec.NormalizeUv` | reader-blockbench/src/main/java/team/unnamed/hephaestus/reader/BBModelReader.java:212-220 | The UV rectangle divided by (width, height, width, height). `BBModelCubes.NormalizeUvInverse` proves this loses nothing. |
| `BBModelSpec.TextureRef` | reader-blockbench/src/main/java/team/unnamed/hephaestus/reader/BBModelReader.java:208-223 | `#` followed by the texture id, -1 when absent. It is injective and parses back (`BBModelCubes.TextureRefInjective`, `TextureRefRoundTrip`). |
| `BBModelSpec.ModelName` | reader-blockbench/src/main/java/team/unnamed/hephaestus/reader/BBModelReader.java:76-80 | `geometry_name`, or `name` when that is empty (`BBModelErrors.ReadModelName`). |
| `BBModelSpec.RotationAxis` | reader-blockbench/src/main/java/team/unnamed/hephaestus/reader/BBModelReader.java:179-198 | The axis check fails exactly when two of x, y, z are non-zero, and then with the axis exception. Otherwise the angle is the chosen axis's component. With at most one non-zero component, all other components are zero. All zero gives (Z, 0). Three non-zero give (X, x). |
| `BBModelSpec.RebaseCorners` | reader-blockbench/src/main/java/team/unnamed/hephaestus/reader/BBModelReader.java:169-173 | The rebased origin is (-to.x, from.y, from.z) and the new `to` is (-from.x, to.y, to.z), so the cube's extent `to - from` is unchanged. |
| `BBModelCubes.NormalizeUvInverse` | reader-blockbench/src/main/java/team/unnamed/hephaestus/reader/BBModelReader.java:212-220 | Multiplying the normalised UV back by (width, height, width, height) gives the source numbers. So a UV normalises to all zero exactly when it is all zero. |
| `BBModelCubes.TextureRefInjective` | reader-blockbench/src/main/java/team/unnamed/hephaestus/reader/BBModelReader.java:208-223 | Distinct texture ids (-1 standing for no texture) give distinct texture references. |
| `BBModelCubes.TextureRefRoundTrip` | reader-blockbench/src/main/java/team/unnamed/hephaestus/reader/BBModelReader.java:208-223 | A face's texture reference is `#` followed by the decimal text of the texture id. Parsing that text gives back the id, or -1 when `texture` is absent or null. |
| `BBModelCubes.FaceMapKey` | reader-blockbench/src/main/java/team/unnamed/hephaestus/reader/BBModelReader.java:200-226 | A face is stored exactly when some entry for it has a UV that is not all zero. |
| `BBModelCubes.FaceMapValue` | reader-blockbench/src/main/java/team/unnamed/hephaestus/reader/BBModelReader.java:208-225 | A stored face holds the normalised UV and texture reference of one of its entries, and its UV is never all zero. |
| `BBModelCubes.FaceMapLastWins` | reader-blockbench/src/main/java/team/unnamed/hephaestus/reader/BBModelReader.java:200-226 | When several entries name one face, the face stores the normalised UV and texture reference of the last entry whose UV is not all zero, because each later `faces.put` (:221-224) overwrites the earlier one. |
| `BBModelCubes.FaceMapPut` | reader-blockbench/src/main/java/team/unnamed/hephaestus/reader/BBModelReader.java:212-224 | A last entry whose UV is not all zero is stored under its face, with its normalised UV and texture reference. |
| `BBModelCubes.FaceMapKeep` | reader-blockbench/src/main/java/team/unnamed/hephaestus/reader/BBModelReader.java:212-224 | A last entry that names another face, or whose UV is all zero, leaves that face's presence and value as they were. |
| `BBModelCubes.ParseCubeElement` | reader-blockbench/src/main/java/team/unnamed/hephaestus/reader/BBModelReader.java:165-235 | A cube parses exactly when its rotation is not about two axes. The element then keeps the source extent, starts at the mirrored corner, rotates about the x-mirrored origin, and has the faces of `FaceMap`. Its axis and angle are exactly `RotationAxis`'s choice: X when x is non-zero, else Y when y is, else Z, with that axis's component as the angle. |
| `BBModelCubes.CubeMapKeys` | reader-blockbench/src/main/java/team/unnamed/hephaestus/reader/BBModelReader.java:228-235 | The keys of a successful cube map are exactly the uuids of the `elements` list. |
| `BBModelCubes.CubeMapLastWins` | reader-blockbench/src/main/java/team/unnamed/hephaestus/reader/BBModelReader.java:228-235 | Under a uuid, the cube map holds the parsed cube of the last element with that uuid, because `cubeIdMap.put` overwrites. |
| `BBModelSpec.BuildBone` | reader-blockbench/src/main/java/team/unnamed/hephaestus/reader/BBModelReader.java:270-343 | A built bone consumes exactly one handle per bone object of its subtree. Its own handle is the last one drawn, after all of its children's. |
| `BBModelSpec.AssembleBone` | reader-blockbench/src/main/java/team/unnamed/hephaestus/reader/BBModelReader.java:330-339 | After the children loop, a bone draws exactly one handle, which becomes its asset's custom model data. |
| `BBModelSpec.BuildChildren` | reader-blockbench/src/main/java/team/unnamed/hephaestus/reader/BBModelReader.java:298-327 | The children loop draws exactly one handle per bone object under the children visited. |
| `BBModelSpec.BuildChild` | reader-blockbench/src/main/java/team/unnamed/hephaestus/reader/BBModelReader.java:299-326 | A sub-bone child draws the handles of its subtree. A cube id or any other child draws none. |
| `BBModelSpec.BuildRoots` | reader-blockbench/src/main/java/team/unnamed/hephaestus/reader/BBModelReader.java:240-253 | The outliner loop draws one handle per bone object under its object entries, and collects no cubes. |
| `BBModelSpec.BuildRoot` | reader-blockbench/src/main/java/team/unnamed/hephaestus/reader/BBModelReader.java:241-251 | An object entry draws the handles of its subtree. Any other entry draws none. No entry adds to the cube list. |
| `BBModelErrors.BuildBoneOk` | reader-blockbench/src/main/java/team/unnamed/hephaestus/reader/BBModelReader.java:298-327 | `createBone` succeeds exactly when every child in its subtree is a bone object or a known cube id. Otherwise its exception is an invalid cube id or an invalid child type. |
| `BBModelErrors.BuildChildrenOk` | reader-blockbench/src/main/java/team/unnamed/hephaestus/reader/BBModelReader.java:298-327 | The children loop succeeds exactly when all visited children are accepted. It raises only the two child exceptions. |
| `BBModelErrors.BuildChildOk` | reader-blockbench/src/main/java/team/unnamed/hephaestus/reader/BBModelReader.java:310-326 | A string child not in the cube map and a child that is neither object nor string are errors. Everything else, recursively, is not. An unknown id raises `InvalidCubeId(bone, id)`. Any other non-object, non-string child raises `InvalidChildType(bone)`. |
| `BBModelErrors.BuildChildrenFirstError` | reader-blockbench/src/main/java/team/unnamed/hephaestus/reader/BBModelReader.java:298-327 | A failing children loop ends on its first child that is not accepted: every child before it is accepted, and the loop's exception is the one that child raises. |
| `BBModelErrors.ReadErrorKinds` | reader-blockbench/src/main/java/team/unnamed/hephaestus/reader/BBModelReader.java:82-85 | Every exception but the multiple-axis one (`UnsupportedOperationException`, :188) is an `IOException`. The bone-tree messages name the bone, and the invalid-id message names the cube id (:318-320, :325). |
| `BBModelErrors.BuildBoneIOException` | reader-blockbench/src/main/java/team/unnamed/hephaestus/reader/BBModelReader.java:270-343 | `createBone` only raises `IOException`s. |
| `BBModelErrors.BuildRootsOk` | reader-blockbench/src/main/java/team/unnamed/hephaestus/reader/BBModelReader.java:240-253 | The outliner loop succeeds exactly when every root bone object is well formed. Non-object entries never cause an error. |
| `BBModelErrors.CubeMapOk` | reader-blockbench/src/main/java/team/unnamed/hephaestus/reader/BBModelReader.java:163-198 | The `elements` loop succeeds exactly when no cube is rotated about two axes. Otherwise it raises the axis exception. |
| `BBModelErrors.ReadModelErrors` | reader-blockbench/src/main/java/team/unnamed/hephaestus/reader/BBModelReader.java:82-85 | `read` fails with the box-UV exception exactly when `meta.box_uv` is present and true; an absent, null or false flag never causes it. Otherwise it fails with the axis exception exactly when some cube is rotated about two axes. |
| `BBModelErrors.ReadModelName` | reader-blockbench/src/main/java/team/unnamed/hephaestus/reader/BBModelReader.java:76-80 | The model name is `geometry_name`, or `name` when `geometry_name` is empty. A model read successfully carries it. |
| `BBModelShape.ReadModelShape` | reader-blockbench/src/main/java/team/unnamed/hephaestus/reader/BBModelReader.java:98-112 | A successful read gives the model and its asset the model name and keeps the resolution. Its root bone and asset maps are parallel, and their keys are the names of the outliner's bone objects. |
| `BBModelShape.BuildBoneShape` | reader-blockbench/src/main/java/team/unnamed/hephaestus/reader/BBModelReader.java:279-342 | A built bone has:<br>- the object's name;<br>- the x-mirrored origin as its asset's pivot;<br>- the source rotation, or zero when absent;<br>- as offset, its scaled pivot (-ox/16, oy/16, -oz/16) minus the parent's;<br>- child maps built under its own scaled pivot;<br>- the element processor's result, computed on its valid cube ids in child order. |
| `BBModelShape.BuildChildrenShape` | reader-blockbench/src/main/java/team/unnamed/hephaestus/reader/BBModelReader.java:298-309 | At every level, the bone map and the asset map are parallel: unique keys, the same keys in the same order, each bone under its own name and its own asset under that name. |
| `BBModelShape.BuildChildShape` | reader-blockbench/src/main/java/team/unnamed/hephaestus/reader/BBModelReader.java:299-309 | Putting a built sub-bone keeps the maps parallel. |
| `BBModelShape.SiblingsPut` | reader-blockbench/src/main/java/team/unnamed/hephaestus/reader/BBModelReader.java:341-342 | Putting a bone and its asset under the bone's name keeps the two sibling maps parallel, whether or not the name was present. |
| `BBModelShape.BuildChildrenCubes` | reader-blockbench/src/main/java/team/unnamed/hephaestus/reader/BBModelReader.java:310-323 | The cube list handed to the element processor is the valid cube ids among the children, in child order. |
| `BBModelShape.BuildChildrenCubesStep` | reader-blockbench/src/main/java/team/unnamed/hephaestus/reader/BBModelReader.java:298-323 | One more child extends the cube list by that child's cube, if any. |
| `BBModelShape.BuildChildCubes` | reader-blockbench/src/main/java/team/unnamed/hephaestus/reader/BBModelReader.java:314-323 | A child appends its cube when it is a known cube id, and nothing otherwise. |
| `BBModelShape.BuildChildrenKeys` | reader-blockbench/src/main/java/team/unnamed/hephaestus/reader/BBModelReader.java:341-342 | The keys of both maps of a level are exactly the names of its bone objects. A repeated name is one key, with no error. |
| `BBModelShape.BuildChildrenKeysStep` | reader-blockbench/src/main/java/team/unnamed/hephaestus/reader/BBModelReader.java:298-309 | One more child keeps the keys equal to the names of the bone objects visited. |
| `BBModelShape.BuildChildKeys` | reader-blockbench/src/main/java/team/unnamed/hephaestus/reader/BBModelReader.java:299-309 | A bone object adds its name to the keys of both maps. Any other child adds none. Keys stay unique. |
| `BBModelShape.BuildChildrenLastWins` | reader-blockbench/src/main/java/team/unnamed/hephaestus/reader/BBModelReader.java:341-342 | When several bone objects among the children share a name, the level holds under it the bone and asset built from the last one. |
| `BBModelShape.BuildRootsLastWins` | reader-blockbench/src/main/java/team/unnamed/hephaestus/reader/BBModelReader.java:240-253 | Under a name shared by several outliner objects, the root maps hold the bone and asset built from the last of them. |
| `BBModelShape.BuildRootKeepsLookup` | reader-blockbench/src/main/java/team/unnamed/hephaestus/reader/BBModelReader.java:241-251 | An outliner entry that is not a bone object named n leaves n's lookups in both root maps unchanged. |
| `BBModelShape.BuildChildKeepsLookup` | reader-blockbench/src/main/java/team/unnamed/hephaestus/reader/BBModelReader.java:299-326 | A child that is not a bone object named n leaves the lookups of n in both maps unchanged. |
| `BBModelShape.BuildChildrenKeysPrefix` | reader-blockbench/src/main/java/team/unnamed/hephaestus/reader/BBModelReader.java:298-327 | Keys never move during the children loop: the keys after k children are a prefix of the keys after any later child. |
| `BBModelShape.BuildChildrenFirstPosition` | reader-blockbench/src/main/java/team/unnamed/hephaestus/reader/BBModelReader.java:341-342 | A name sits at the position of its first bone object, right after the keys of the children before it, whatever later siblings share it. |
| `BBModelShape.KeySetPut` | reader-blockbench/src/main/java/team/unnamed/hephaestus/reader/BBModelReader.java:341 | After `put(k, v)` the keys are the old keys plus k. |
| `BBModelShape.BuildRootsShape` | reader-blockbench/src/main/java/team/unnamed/hephaestus/reader/BBModelReader.java:240-253 | The root maps are parallel, and root bones are offset from the zero vector. |
| `BBModelShape.BuildRootsKeys` | reader-blockbench/src/main/java/team/unnamed/hephaestus/reader/BBModelReader.java:240-251 | The keys of the root maps are exactly the names of the outliner's bone objects. |
| `BBModelShape.BuildRootsSkipsNonObjects` | reader-blockbench/src/main/java/team/unnamed/hephaestus/reader/BBModelReader.java:240-252 | The outliner loop gives the same result on the outliner and on its bone objects alone: other entries are skipped. |
| `BBModelHandles.BuildBoneHandles` | reader-blockbench/src/main/java/team/unnamed/hephaestus/reader/BBModelReader.java:330-339 | A bone's own handle is the last one it drew. Its descendants' handles were drawn before it, from the stretch of the cursor's output the bone consumed. |
| `BBModelHandles.BuildChildrenHandles` | reader-blockbench/src/main/java/team/unnamed/hephaestus/reader/BBModelReader.java:298-327 | The handles in a level's child maps were drawn during that level's loop. |
| `BBModelHandles.BuildChildHandles` | reader-blockbench/src/main/java/team/unnamed/hephaestus/reader/BBModelReader.java:299-309 | One child adds to the child maps only handles drawn during that pass. |
| `BBModelHandles.BuildRootsHandles` | reader-blockbench/src/main/java/team/unnamed/hephaestus/reader/BBModelReader.java:240-253 | The handles in the root maps were drawn during the outliner loop. |
| `BBModelHandles.PutHandles` | reader-blockbench/src/main/java/team/unnamed/hephaestus/reader/BBModelReader.java:341 | `put` adds the new tree's handles, and at most drops those of the tree it replaces. |
| `BBModelHandles.ModelHandlesDistinct` | api/src/main/java/team/unnamed/hephaestus/Bone.java:102-118 | With a cursor that never repeats a value, every custom model data handle in a model read occurs at most once, and none was issued before the read. |
| `BBModelStability.BuildBoneStable` | reader-blockbench/src/main/java/team/unnamed/hephaestus/reader/BBModelReader.java:334 | A bone's result depends only on the handles it drew, not on those the cursor issues later. |
| `BBModelStability.BuildRootsStable` | reader-blockbench/src/main/java/team/unnamed/hephaestus/reader/BBModelReader.java:240-253 | The same holds for the outliner loop. |
| `BBModelStability.BuildChildrenErrPersists` | reader-blockbench/src/main/java/team/unnamed/hephaestus/reader/BBModelReader.java:317-326 | An exception raised by one child is the result of the whole children loop. |
| `BBModelStability.BuildRootsErrPersists` | reader-blockbench/src/main/java/team/unnamed/hephaestus/reader/BBModelReader.java:240-253 | An exception raised by one root bone is the result of the whole outliner loop. |
| `BBModelStability.CubeMapErrPersists` | reader-blockbench/src/main/java/team/unnamed/hephaestus/reader/BBModelReader.java:187-188 | An exception raised by one cube is the result of the whole `elements` loop. |
| `BBModelStability.BuildChildrenAdvance` | reader-blockbench/src/main/java/team/unnamed/hephaestus/reader/BBModelReader.java:298-327 | One child, processed after the cursor has issued more handles, continues the loop so far or ends it with its exception. |
| `BBModelStability.BuildRootsAdvance` | reader-blockbench/src/main/java/team/unnamed/hephaestus/reader/BBModelReader.java:240-253 | The same for one outliner entry. |
| `BBModelStability.BuildBoneAdvance` | reader-blockbench/src/main/java/team/unnamed/hephaestus/reader/BBModelReader.java:330-342 | A bone whose children loop succeeded is assembled from that loop's result and the next handle drawn. |
| `OrderedMaps.PutGet` | reader-blockbench/src/main/java/team/unnamed/hephaestus/reader/BBModelReader.java:341-342 | After `put(k, v)`, `get(k)` is v and every other key's lookup is unchanged. |
| `OrderedMaps.PutKeys` | reader-blockbench/src/main/java/team/unnamed/hephaestus/reader/BBModelReader.java:341-342 | `put` keeps a present key at its position and appends a new key last. |
| `OrderedMaps.PutValid` | reader-blockbench/src/main/java/team/unnamed/hephaestus/reader/BBModelReader.java:341-342 | `put` keeps keys unique. |
| `OrderedMaps.PutValues` | reader-blockbench/src/main/java/team/unnamed/hephaestus/reader/BBModelReader.java:341-342 | `put` adds no value but the one it stores. |
| `OrderedMaps.PutEntries` | reader-blockbench/src/main/java/team/unnamed/hephaestus/reader/BBModelReader.java:341-342 | Every entry after `put(k, v)` is (k, v) or an old entry under another key. |
| `OrderedMaps.ValuesAreLookups` | api/src/main/java/team/unnamed/hephaestus/Bone.java:125-127 | In a map with unique keys, `values()` holds exactly what `get` returns for some key. |
| `Bones.Bone.Scale` | api/src/main/java/team/unnamed/hephaestus/Bone.java:139-154 | The scale of a valid bone is one or greater. |
| `Bones.Bone.Children` | api/src/main/java/team/unnamed/hephaestus/Bone.java:120-127 | `children()` is the values of `childrenMap()`. It holds exactly the bones stored under their own names (`Bones.ChildrenAreKeyedValues`). |
| `Bones.ValidModel` | api/src/main/java/team/unnamed/hephaestus/Bone.java:73-118 | The documented whole-tree invariants: every bone valid and keyed by its name, names unique in the model, custom model data unique. They pass to any root's children (`Bones.ChildrenFormValidModel`). |
| `Bones.ChildrenAreKeyedValues` | api/src/main/java/team/unnamed/hephaestus/Bone.java:120-137 | `children()` contains a bone exactly when `childrenMap().get(bone.name)` is that bone. |
| `Bones.KeyedEntryFound` | api/src/main/java/team/unnamed/hephaestus/Bone.java:129-137 | Each entry of a valid bone's child map is found under its bone's name. |
| `Bones.ChildrenFormValidModel` | api/src/main/java/team/unnamed/hephaestus/Bone.java:73-81 | The tree invariants are hereditary: valid bones, names unique in the whole tree, and handles pairwise distinct. The children of any root of a valid model form a valid model. |
| `KeyFrames.KeyFrame.InterpolatorOr` | api/src/main/java/team/unnamed/hephaestus/animation/timeline/KeyFrame.java:53-55 | `interpolatorOr(f)` is the keyframe's own interpolator when it has one, and `f` when it is null. |
| `KeyFrames.OwnInterpolatorIgnoresFallback` | api/src/main/java/team/unnamed/hephaestus/animation/timeline/KeyFrame.java:53-55 | With an own interpolator, the fallback argument has no influence on the result. |
| `KeyFrames.InterpolatorOrIsFallback` | api/src/main/java/team/unnamed/hephaestus/animation/timeline/KeyFrame.java:53-55 | `interpolatorOr(f)` returns `f` exactly when the own interpolator is null or is `f` itself. |
| `Decimal.IntToStringRoundTrip` | reader-blockbench/src/main/java/team/unnamed/hephaestus/reader/BBModelReader.java:223 | The decimal text of an int parses back to that int. |

## Left out

- **Text and JSON parsing.** Reading the stream and parsing it with Gson are
  left out. The model starts from the parsed members, the `Document`
  datatype.
- **Malformed JSON members.** A member that is missing or has the wrong type
  (`getAsString`, `getAsInt`, `getAsJsonArray` failing) is not modelled. The
  document datatype only holds well-typed members, and only the "object /
  string / anything else" split of children is kept.
- **Face names.** A face key is resolved with `CubeFace.valueOf` after
  upper-casing. Here the key already is a `CubeFace`. An unknown face name,
  which throws `IllegalArgumentException` in Java, is not modelled.
- **Textures and animations.** `TextureReader.readTextures` and
  `AnimationReader.readAnimations` are not part of this model. `ModelAsset`
  keeps only the name and the bone-asset tree.
- `BBModelErrors.ReadModelErrors`, `BBModelSpec.ReadModel` and
  `BBModelReading.BBModelReader.Read`: these describe `read` as if
  `readTextures` (`BBModelReader.java:97`, before `readElements`) and
  `readAnimations` (:99, after it) always return normally. If either throws
  an `IOException`, Java's `read` fails with that exception instead. The
  model has no such outcome, so the claim that every other document fails
  exactly on a two-axis cube holds only when both calls succeed.
- **`GsonUtil`** is not part of this model. Its `isNullOrAbsent` is modelled
  by `Option` fields.
- **Element processor.** `ElementProcessor.process` is not part of this model.
  It is the function value `processor` given to the reader, and its
  `offset`, `elements` and `small` are passed through as produced.
- **`ModelDataCursor`.** Its code is not part of this model. Its only
  contract is that `next()` never repeats a value. `ModelData.ModelDataCursor`
  uses a counter as one implementation of that contract, and the counter's
  increment rule is not stated.
- **Float arithmetic.** `Vector3Float` and `Vector4Float` are modelled over
  the reals. Rounding, infinities, NaN and the distinction between -0.0 and
  0.0 in `uv.equals(Vector4Float.ZERO)` are not modelled.
- `BBModelReading.BBModelReader.Read`, `BBModelReading.BBModelReader.ReadElements`,
  `BBModelReading.BBModelReader.ReadCubes`, `BBModelReading.BBModelReader.ReadCube`,
  `BBModelReading.BBModelReader.ReadFaces`, `BBModelSpec.ReadModel`,
  `BBModelSpec.BuildElements`, `BBModelSpec.CubeMap`, `BBModelSpec.ParseCube`,
  `BBModelSpec.FaceMap` and `BBModelSpec.NormalizeUv`: require a non-zero
  texture width and height. The UV normalisation divides by them, and the
  float division by zero that Java performs (giving an infinity or NaN) has
  no counterpart over the reals.
- **`ElementRotation.DEFAULT_RESCALE`** is a constant flag passed through
  unchanged, and is not represented in `ElementRotation`.
- **Bone construction in the reader.** The reader builds `ReadBone` records
  (name, rotation, child bones, offset, asset), as its 5-argument call at
  `BBModelReader.java:341` does. The mapping to `Bone.java`'s 7-argument
  constructor does not exist in these sources and is not invented.
- **Loop bodies as methods.** The loop bodies of `createBone` and
  `readElements` are separate methods: `ReadChild` and `ReadRoot` for the
  children and outliner loops, `ReadCube`, `ReadFaces` and `ReadCubes` for
  the cube loops. Each keeps the order of operations and the early exit on
  exceptions of the Java loop.
- **`HandleAt`** gives 0 past the end of the handle stream. This only makes
  the specification functions total. The reader methods always evaluate them
  on the handles actually drawn, where the default never applies.
- **`Bone` scale invariant.** The `Bone` constructor does not enforce
  "scale is one or greater". The invariant is the predicate `Bone.Valid`, a
  precondition of `Scale`.
- **Name uniqueness.** Names unique across the whole tree and handles
  pairwise distinct are the predicate `ValidModel`. The reader does not
  establish name uniqueness: see the note on duplicate names above.
- **String rendering.** `examinableProperties` and `toString` of `Bone` and
  `KeyFrame` are left out.
