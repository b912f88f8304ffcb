/**
 * What `readElements` makes of one cube: the faces it keeps, and the corners,
 * pivot and single rotation axis of the element.
 */
module BBModelCubes {
  import opened Wrappers
  import opened Vectors
  import opened BBModelTypes
  import opened Decimal
  import opened BBModelSpec

  /**
   * Normalising a UV rectangle loses nothing: multiplying back by the
   * resolution gives the source numbers, so only the all-zero rectangle
   * normalises to all zero.
   */
  lemma NormalizeUvInverse(uv: Vec4, width: int, height: int)
    requires width != 0 && height != 0
    ensures var n := NormalizeUv(uv, width, height);
      && Vec4(n.x * width as real, n.y * height as real, n.z * width as real, n.w * height as real) == uv
      && (n == Zero4 <==> uv == Zero4)
  {
  }

  /** A texture reference is `#` followed by the decimal texture id, -1 standing for no texture. */
  lemma TextureRefRoundTrip(texture: Option<int>)
    ensures var ref := TextureRef(texture);
      |ref| >= 2 && ref[0] == '#' && ParseInt(ref[1..]) == Some(texture.GetOr(-1))
  {
    IntToStringRoundTrip(texture.GetOr(-1));
    assert TextureRef(texture)[1..] == IntToString(texture.GetOr(-1));
  }

  /** Distinct texture ids (-1 standing for no texture) give distinct texture references. */
  lemma TextureRefInjective(a: Option<int>, b: Option<int>)
    requires TextureRef(a) == TextureRef(b)
    ensures a.GetOr(-1) == b.GetOr(-1)
  {
    assert TextureRef(a)[1..] == IntToString(a.GetOr(-1));
    assert TextureRef(b)[1..] == IntToString(b.GetOr(-1));
    IntToStringInjective(a.GetOr(-1), b.GetOr(-1));
  }

  /** The face an entry of `faces` stores when it is kept. */
  function StoredFace(json: FaceJson, width: int, height: int): ElementFace
    requires width != 0 && height != 0
  {
    ElementFace(NormalizeUv(json.uv, width, height), TextureRef(json.texture))
  }

  /** Face f is stored exactly when some entry for it has a UV rectangle that is not all zero. */
  lemma {:induction false} FaceMapKey(faces: seq<(CubeFace, FaceJson)>, width: int, height: int, f: CubeFace)
    requires width != 0 && height != 0
    ensures f in FaceMap(faces, width, height) <==>
      exists k :: 0 <= k < |faces| && faces[k].0 == f && faces[k].1.uv != Zero4
    decreases |faces|
  {
    if faces != [] {
      var last := |faces| - 1;
      var init := faces[..last];
      FaceMapKey(init, width, height, f);
      forall k | 0 <= k < last
        ensures faces[k] == init[k]
      {
      }
      if faces[last].0 == f && faces[last].1.uv != Zero4 {
        FaceMapPut(faces, width, height);
      } else {
        FaceMapKeep(faces, width, height, f);
      }
    }
  }

  /**
   * What is stored for face f is the normalised UV and texture reference of
   * one of its entries, and never an all-zero UV.
   */
  lemma {:induction false} FaceMapValue(faces: seq<(CubeFace, FaceJson)>, width: int, height: int, f: CubeFace)
    requires width != 0 && height != 0
    requires f in FaceMap(faces, width, height)
    ensures FaceMap(faces, width, height)[f].uv != Zero4
    ensures exists k :: 0 <= k < |faces| && faces[k].0 == f && FaceMap(faces, width, height)[f] == StoredFace(faces[k].1, width, height)
    decreases |faces|
  {
    var last := |faces| - 1;
    var init := faces[..last];
    var m, m' := FaceMap(init, width, height), FaceMap(faces, width, height);
    if faces[last].0 == f && faces[last].1.uv != Zero4 {
      FaceMapPut(faces, width, height);
      NormalizeUvInverse(faces[last].1.uv, width, height);
    } else {
      FaceMapKeep(faces, width, height, f);
      FaceMapValue(init, width, height, f);
      var k :| 0 <= k < |init| && init[k].0 == f && m[f] == StoredFace(init[k].1, width, height);
      assert faces[k] == init[k];
    }
  }

  /**
   * A face named by several entries stores the last of them whose UV
   * rectangle is not all zero: a later `put` overwrites an earlier one.
   */
  lemma {:induction false} FaceMapLastWins(faces: seq<(CubeFace, FaceJson)>, width: int, height: int, k: nat)
    requires width != 0 && height != 0
    requires k < |faces| && faces[k].1.uv != Zero4
    requires forall l :: k < l < |faces| && faces[l].0 == faces[k].0 ==> faces[l].1.uv == Zero4
    ensures faces[k].0 in FaceMap(faces, width, height)
    ensures FaceMap(faces, width, height)[faces[k].0] == StoredFace(faces[k].1, width, height)
    decreases |faces|
  {
    var last := |faces| - 1;
    if k == last {
      FaceMapPut(faces, width, height);
    } else {
      var init := faces[..last];
      var face := faces[k].0;
      assert face in FaceMap(init, width, height) && FaceMap(init, width, height)[face] == StoredFace(faces[k].1, width, height) by {
        forall l | k <= l < last
          ensures init[l] == faces[l]
        {}
        FaceMapLastWins(init, width, height, k);
      }
      assert faces[last].0 != face || faces[last].1.uv == Zero4;
      FaceMapKeep(faces, width, height, face);
    }
  }

  /** An entry whose UV rectangle is not all zero is stored under its face. */
  lemma FaceMapPut(faces: seq<(CubeFace, FaceJson)>, width: int, height: int)
    requires width != 0 && height != 0
    requires faces != [] && faces[|faces| - 1].1.uv != Zero4
    ensures faces[|faces| - 1].0 in FaceMap(faces, width, height)
    ensures FaceMap(faces, width, height)[faces[|faces| - 1].0] == StoredFace(faces[|faces| - 1].1, width, height)
  {
    NormalizeUvInverse(faces[|faces| - 1].1.uv, width, height);
  }

  /**
   * The last entry leaves a face untouched when it names another face or
   * carries an all-zero UV rectangle.
   */
  lemma FaceMapKeep(faces: seq<(CubeFace, FaceJson)>, width: int, height: int, face: CubeFace)
    requires width != 0 && height != 0
    requires faces != []
    requires faces[|faces| - 1].0 != face || faces[|faces| - 1].1.uv == Zero4
    ensures var m := FaceMap(faces[..|faces| - 1], width, height);
      (face in FaceMap(faces, width, height) <==> face in m)
      && (face in m ==> FaceMap(faces, width, height)[face] == m[face])
  {
    if faces[|faces| - 1].1.uv == Zero4 {
      assert NormalizeUv(Zero4, width, height) == Zero4;
    }
  }

  /**
   * A cube parses exactly when its rotation names a single axis; the element
   * is the source box mirrored in x with the same extent, rotating about the
   * mirrored origin by the component of its axis.
   */
  lemma ParseCubeElement(c: CubeJson, width: int, height: int)
    requires width != 0 && height != 0
    ensures ParseCube(c, width, height).Ok? <==> NonZeroCount(c.rotation.GetOr(Zero3)) != 2
    ensures ParseCube(c, width, height).Ok? ==>
      var e := ParseCube(c, width, height).value;
      && e.to.Subtract(e.from) == c.to.Subtract(c.from)
      && e.from == Vec3(-c.to.x, c.from.y, c.from.z)
      && e.rotation.origin == Vec3(-c.origin.x, c.origin.y, c.origin.z)
      && e.rotation.angle == Component(c.rotation.GetOr(Zero3), e.rotation.axis)
      && (e.rotation.axis, e.rotation.angle) == RotationAxis(c.rotation.GetOr(Zero3)).value
      && e.faces == FaceMap(c.faces, width, height)
  {
  }

  /** The cube map has exactly one key per uuid of the `elements` list. */
  lemma {:induction false} CubeMapKeys(elements: seq<CubeJson>, width: int, height: int, id: string)
    requires width != 0 && height != 0
    requires CubeMap(elements, width, height).Ok?
    ensures id in CubeMap(elements, width, height).value <==> exists k :: 0 <= k < |elements| && elements[k].uuid == id
    decreases |elements|
  {
    if elements != [] {
      var last := |elements| - 1;
      var init := elements[..last];
      CubeMapKeys(init, width, height, id);
      forall k | 0 <= k < last
        ensures elements[k] == init[k]
      {
      }
    }
  }

  /**
   * Under a uuid the cube map holds the cube parsed from the last element
   * with that uuid: a later `put` overwrites an earlier one.
   */
  lemma {:induction false} CubeMapLastWins(elements: seq<CubeJson>, width: int, height: int, k: nat)
    requires width != 0 && height != 0
    requires CubeMap(elements, width, height).Ok?
    requires k < |elements|
    requires forall l :: k < l < |elements| ==> elements[l].uuid != elements[k].uuid
    ensures ParseCube(elements[k], width, height).Ok?
    ensures elements[k].uuid in CubeMap(elements, width, height).value
    ensures CubeMap(elements, width, height).value[elements[k].uuid] == ParseCube(elements[k], width, height).value
    decreases |elements|
  {
    var last := |elements| - 1;
    var init := elements[..last];
    if k < last {
      assert init[k] == elements[k];
      forall l | k < l < last
        ensures init[l].uuid != init[k].uuid
      {
        assert init[l] == elements[l];
      }
      CubeMapLastWins(init, width, height, k);
    }
  }
}
