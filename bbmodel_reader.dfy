/**
 * BBModelReader (reader-blockbench/.../reader/BBModelReader.java): reads a
 * parsed .bbmodel document into a model, drawing one handle per bone from its
 * ModelDataCursor. Every method is proved to compute what BBModelSpec says,
 * given the handles the cursor returned while it ran.
 */
module BBModelReading {
  import opened Wrappers
  import opened Vectors
  import opened OrderedMaps
  import opened BBModelTypes
  import opened BBModelSpec
  import opened BBModelStability
  import opened BBModelSteps
  import opened ModelData
  import opened Decimal
  import opened BBModelHandles

  /** A java.util.LinkedHashMap<String, V> that callers share and `put` into. */
  class LinkedHashMap<V> {
    var contents: OrderedMap<V>

    constructor ()
      ensures contents == Empty()
    {
      contents := Empty();
    }

    method Put(key: string, value: V)
      modifies this
      ensures contents == old(contents).Put(key, value)
    {
      contents := contents.Put(key, value);
    }
  }

  class BBModelReader {
    const cursor: ModelDataCursor
    /** ElementProcessor.process. */
    const processor: Processor

    /** `blockbench(cursor)`. */
    constructor Blockbench(cursor: ModelDataCursor, processor: Processor)
      ensures this.cursor == cursor && this.processor == processor
    {
      this.cursor := cursor;
      this.processor := processor;
    }

    /**
     * `read`: the model name, the box-UV check, then `readElements` into fresh
     * root maps. The texture resolution must not be zero (the source divides by it).
     */
    method Read(d: Document) returns (r: Result<Model, ReadError>)
      requires d.width != 0 && d.height != 0
      requires cursor.Valid()
      modifies cursor
      ensures cursor.Valid() && old(cursor.issued) <= cursor.issued
      ensures r == ReadModel(processor, d, cursor.issued, |old(cursor.issued)|)
      ensures r.Ok? ==> |cursor.issued| == |old(cursor.issued)| + RootsBoneCount(d.outliner)
      ensures BoxUvEnabled(d.boxUv) ==> cursor.issued == old(cursor.issued)
      ensures r.Ok? ==> forall h :: MapHandles(r.value.bones)[h] <= 1
      ensures r.Ok? ==> forall h :: h in MapHandles(r.value.bones) ==> h in cursor.issued && h !in old(cursor.issued)
    {
      var modelName := d.geometryName;
      if |modelName| == 0 {
        modelName := d.name;
      }
      if d.boxUv.Some? && d.boxUv.value {
        return Err(BoxUvNotSupported);
      }
      var bones := new LinkedHashMap<ReadBone>();
      var boneAssets := new LinkedHashMap<BoneAsset>();
      var outcome := ReadElements(d, bones, boneAssets);
      match outcome
      case Fail(e) => r := Err(e);
      case Pass =>
        r := Ok(Model(modelName, bones.contents, d.width, d.height, ModelAsset(modelName, boneAssets.contents)));
        ModelHandlesDistinct(processor, d, cursor.issued, |old(cursor.issued)|);
        assert old(cursor.issued) == cursor.issued[..|old(cursor.issued)|];
    }

    /** One cube of the `elements` loop of `readElements`, with its faces loop. */
    static method ReadCube(c: CubeJson, width: int, height: int) returns (r: Result<ElementAsset, ReadError>)
      requires width != 0 && height != 0
      ensures r == ParseCube(c, width, height)
    {
      var pivot := c.origin.Multiply(-1.0, 1.0, 1.0);
      var to := c.to;
      var from := c.from;
      var origin := Vec3(-to.x, from.y, from.z);
      to := origin.Add(to.Subtract(from));
      var rotation := if c.rotation.None? then Zero3 else c.rotation.value;
      var x, y, z := rotation.x, rotation.y, rotation.z;
      var axis: Axis;
      var angle: real;
      if Xor(Xor(Bit(x != 0.0), Bit(y != 0.0)), Bit(z != 0.0)) == 0 && (x != 0.0 || y != 0.0) {
        return Err(MultipleAxisRotation);
      } else if x != 0.0 {
        axis, angle := X, x;
      } else if y != 0.0 {
        axis, angle := Y, y;
      } else {
        axis, angle := Z, z;
      }
      var faces := ReadFaces(c.faces, width, height);
      r := Ok(ElementAsset(origin, to, ElementRotation(pivot, axis, angle), faces));
    }

    /** The faces loop of one cube: a face with an all-zero UV is skipped. */
    static method ReadFaces(faceList: seq<(CubeFace, FaceJson)>, width: int, height: int)
      returns (faces: map<CubeFace, ElementFace>)
      requires width != 0 && height != 0
      ensures faces == FaceMap(faceList, width, height)
    {
      faces := map[];
      for k := 0 to |faceList|
        invariant faces == FaceMap(faceList[..k], width, height)
      {
        var (face, faceJson) := faceList[k];
        var textureId := if faceJson.texture.None? then -1 else faceJson.texture.value;
        var uvJson := faceJson.uv;
        var uv := Vec4(uvJson.x / width as real, uvJson.y / height as real,
                       uvJson.z / width as real, uvJson.w / height as real);
        if uv != Zero4 {
          faces := faces[face := ElementFace(uv, "#" + IntToString(textureId))];
        }
        assert faceList[..k + 1][..k] == faceList[..k];
      }
      assert faceList[..|faceList|] == faceList;
    }

    /** The `elements` loop of `readElements`: the first cube that fails ends the read. */
    static method ReadCubes(elements: seq<CubeJson>, width: int, height: int)
      returns (r: Result<map<string, ElementAsset>, ReadError>)
      requires width != 0 && height != 0
      ensures r == CubeMap(elements, width, height)
    {
      var cubeIdMap: map<string, ElementAsset> := map[];
      for k := 0 to |elements|
        invariant CubeMap(elements[..k], width, height) == Ok(cubeIdMap)
      {
        var cube := ReadCube(elements[k], width, height);
        assert elements[..k + 1][..k] == elements[..k];
        if cube.Err? {
          CubeMapErrPersists(elements, k + 1, width, height);
          return Err(cube.error);
        }
        cubeIdMap := cubeIdMap[elements[k].uuid := cube.value];
      }
      assert elements[..|elements|] == elements;
      r := Ok(cubeIdMap);
    }

    /**
     * `readElements`: the cube map from `elements`, then one `createBone` per
     * object entry of `outliner` into the root maps, which start empty.
     */
    method ReadElements(d: Document, bones: LinkedHashMap<ReadBone>, boneAssets: LinkedHashMap<BoneAsset>)
      returns (outcome: Outcome<ReadError>)
      requires d.width != 0 && d.height != 0
      requires cursor.Valid()
      requires bones.contents == Empty() && boneAssets.contents == Empty()
      modifies cursor, bones, boneAssets
      ensures cursor.Valid() && old(cursor.issued) <= cursor.issued
      ensures match BuildElements(processor, d, cursor.issued, |old(cursor.issued)|)
        case Ok(level) =>
          && outcome == Pass && level.next == |cursor.issued|
          && bones.contents == level.bones && boneAssets.contents == level.assets
        case Err(e) => outcome == Fail(e)
    {
      var cubes := ReadCubes(d.elements, d.width, d.height);
      if cubes.Err? {
        return Fail(cubes.error);
      }
      var cubeIdMap := cubes.value;

      ghost var pos := |cursor.issued|;
      for k := 0 to |d.outliner|
        invariant cursor.Valid() && old(cursor.issued) <= cursor.issued
        invariant BuildRoots(processor, cubeIdMap, d.outliner[..k], cursor.issued, pos)
                  == Ok(Level(bones.contents, boneAssets.contents, [], |cursor.issued|))
      {
        ghost var before := cursor.issued;
        ghost var level := Level(bones.contents, boneAssets.contents, [], |cursor.issued|);
        var o := ReadRoot(cubeIdMap, d.outliner[k], bones, boneAssets);
        BuildRootsAdvance(processor, cubeIdMap, d.outliner, k, before, cursor.issued, pos, level);
        if o.Fail? {
          return o;
        }
      }
      assert d.outliner[..|d.outliner|] == d.outliner;
      outcome := Pass;
    }

    /** One entry of the `outliner` loop of `readElements`: an object is a root bone, anything else is skipped. */
    method ReadRoot(cubeIdMap: map<string, ElementAsset>, c: OutlinerNode,
                    bones: LinkedHashMap<ReadBone>, boneAssets: LinkedHashMap<BoneAsset>)
      returns (outcome: Outcome<ReadError>)
      requires cursor.Valid()
      modifies cursor, bones, boneAssets
      ensures cursor.Valid() && old(cursor.issued) <= cursor.issued
      ensures match BuildRoot(processor, cubeIdMap, c, cursor.issued,
                              Level(old(bones.contents), old(boneAssets.contents), [], |old(cursor.issued)|))
        case Ok(level) =>
          outcome == Pass && level == Level(bones.contents, boneAssets.contents, [], |cursor.issued|)
        case Err(e) => outcome == Fail(e)
    {
      outcome := Pass;
      if c.ObjectNode? {
        outcome := CreateBone(Zero3, cubeIdMap, c.bone, bones, boneAssets);
      }
    }

    /**
     * `createBone`: builds the bone of `json` (its sub-bones recursively, its
     * cubes from the cube map), draws its handle, and puts bone and asset under
     * the bone's name into the caller's sibling maps.
     */
    method CreateBone(parentScaledPivot: Vec3, cubeIdMap: map<string, ElementAsset>, json: BoneJson,
                      siblings: LinkedHashMap<ReadBone>, siblingAssets: LinkedHashMap<BoneAsset>)
      returns (outcome: Outcome<ReadError>)
      requires cursor.Valid()
      modifies cursor, siblings, siblingAssets
      decreases json, 2
      ensures cursor.Valid() && old(cursor.issued) <= cursor.issued
      ensures match BuildBone(processor, parentScaledPivot, cubeIdMap, json, cursor.issued, |old(cursor.issued)|)
        case Ok(out) =>
          && outcome == Pass && out.next == |cursor.issued|
          && siblings.contents == old(siblings.contents).Put(json.name, out.bone)
          && siblingAssets.contents == old(siblingAssets.contents).Put(json.name, out.asset)
        case Err(e) =>
          && outcome == Fail(e)
          && siblings.contents == old(siblings.contents)
          && siblingAssets.contents == old(siblingAssets.contents)
    {
      var name := json.name;
      var pivot := json.origin.Multiply(-1.0, 1.0, 1.0);
      var rotation := if json.rotation.None? then Zero3 else json.rotation.value;
      var scaledPivot := pivot.Divide(16.0, 16.0, -16.0);
      var offset := scaledPivot.Subtract(parentScaledPivot);
      ghost var pos := |cursor.issued|;

      var bones, boneAssets, cubes;
      outcome, bones, boneAssets, cubes := ReadChildren(scaledPivot, cubeIdMap, json);
      if outcome.Fail? {
        BuildBoneUnfold(processor, parentScaledPivot, cubeIdMap, json, cursor.issued, pos);
        return;
      }

      var result := processor(pivot, cubes);
      ghost var before := cursor.issued;
      var handle := cursor.Next();
      BuildBoneAdvance(processor, parentScaledPivot, cubeIdMap, json, before, cursor.issued, pos,
                       Level(bones.contents, boneAssets.contents, cubes, |before|));
      var asset := BoneAsset(name, pivot, handle, result.offset, result.elements, result.small, boneAssets.contents);
      siblings.Put(name, ReadBone(name, rotation, bones.contents, offset, asset));
      siblingAssets.Put(name, asset);
    }

    /**
     * The children loop of `createBone`: sub-bones are built into fresh child
     * maps, cube ids are resolved into the cube list in child order, and any
     * other child is an error.
     */
    method ReadChildren(scaledPivot: Vec3, cubeIdMap: map<string, ElementAsset>, json: BoneJson)
      returns (outcome: Outcome<ReadError>, bones: LinkedHashMap<ReadBone>, boneAssets: LinkedHashMap<BoneAsset>,
               cubes: seq<ElementAsset>)
      requires cursor.Valid()
      modifies cursor
      decreases json, 1
      ensures fresh(bones) && fresh(boneAssets)
      ensures cursor.Valid() && old(cursor.issued) <= cursor.issued
      ensures match BuildChildren(processor, scaledPivot, cubeIdMap, json, |json.children|, cursor.issued, |old(cursor.issued)|)
        case Ok(level) =>
          && outcome == Pass && level.next == |cursor.issued|
          && bones.contents == level.bones && boneAssets.contents == level.assets && cubes == level.cubes
        case Err(e) => outcome == Fail(e)
    {
      cubes := [];
      bones := new LinkedHashMap<ReadBone>();
      boneAssets := new LinkedHashMap<BoneAsset>();
      ghost var pos := |cursor.issued|;

      var i := 0;
      while i < |json.children|
        invariant 0 <= i <= |json.children|
        invariant cursor.Valid() && old(cursor.issued) <= cursor.issued
        invariant BuildChildren(processor, scaledPivot, cubeIdMap, json, i, cursor.issued, pos)
                  == Ok(Level(bones.contents, boneAssets.contents, cubes, |cursor.issued|))
      {
        var o;
        o, cubes := ReadChild(scaledPivot, cubeIdMap, json, i, pos, bones, boneAssets, cubes);
        if o.Fail? {
          return o, bones, boneAssets, cubes;
        }
        i := i + 1;
      }
      outcome := Pass;
    }

    /**
     * One pass of the children loop of `createBone`: child i of `json` is a
     * sub-bone (built into the child maps), a cube id (resolved into the cube
     * list) or anything else (an error, which ends the loop).
     */
    method ReadChild(scaledPivot: Vec3, cubeIdMap: map<string, ElementAsset>, json: BoneJson, i: nat, ghost pos: nat,
                     bones: LinkedHashMap<ReadBone>, boneAssets: LinkedHashMap<BoneAsset>, cubes: seq<ElementAsset>)
      returns (outcome: Outcome<ReadError>, cubes': seq<ElementAsset>)
      requires cursor.Valid()
      requires i < |json.children|
      requires BuildChildren(processor, scaledPivot, cubeIdMap, json, i, cursor.issued, pos)
               == Ok(Level(bones.contents, boneAssets.contents, cubes, |cursor.issued|))
      modifies cursor, bones, boneAssets
      decreases json, 0
      ensures cursor.Valid() && old(cursor.issued) <= cursor.issued
      ensures outcome.Pass? ==>
        BuildChildren(processor, scaledPivot, cubeIdMap, json, i + 1, cursor.issued, pos)
        == Ok(Level(bones.contents, boneAssets.contents, cubes', |cursor.issued|))
      ensures outcome.Fail? ==>
        BuildChildren(processor, scaledPivot, cubeIdMap, json, |json.children|, cursor.issued, pos)
        == Err(outcome.error)
    {
      ghost var before := cursor.issued;
      ghost var level := Level(bones.contents, boneAssets.contents, cubes, |cursor.issued|);
      cubes' := cubes;
      match json.children[i] {
        case ObjectNode(b) =>
          outcome := CreateBone(scaledPivot, cubeIdMap, b, bones, boneAssets);
        case StringNode(cubeId) =>
          if cubeId !in cubeIdMap {
            outcome := Fail(InvalidCubeId(json.name, cubeId));
          } else {
            outcome := Pass;
            cubes' := cubes + [cubeIdMap[cubeId]];
          }
        case OtherNode =>
          outcome := Fail(InvalidChildType(json.name));
      }
      BuildChildrenAdvance(processor, scaledPivot, cubeIdMap, json, i, before, cursor.issued, pos, level);
    }
  }
}
