/**
 * When BBModelReader fails, and with which exception: box UV documents are
 * refused before anything else is read, a cube fails exactly when two of its
 * rotation components are non-zero, and the bone tree fails exactly when some
 * bone has a child that is an unknown cube id or neither an object nor a
 * string. The outcome of the bone tree never depends on the handles drawn.
 */
module BBModelErrors {
  import opened Wrappers
  import opened Vectors
  import opened BBModelTypes
  import opened BBModelSpec

  /** Every child of bone j, hereditarily, is a bone object or a known cube id. */
  ghost predicate WellFormedBone(j: BoneJson, cubes: map<string, ElementAsset>)
    decreases j, 1
  {
    forall k :: 0 <= k < |j.children| ==> WellFormedChild(j.children[k], cubes)
  }

  /** A child `createBone` accepts: a well-formed bone object, or the uuid of a parsed cube. */
  ghost predicate WellFormedChild(c: OutlinerNode, cubes: map<string, ElementAsset>)
    decreases c, 0
  {
    match c
    case ObjectNode(b) => WellFormedBone(b, cubes)
    case StringNode(id) => id in cubes
    case OtherNode => false
  }

  /** The first i children of j are accepted. */
  ghost predicate ChildrenWellFormed(j: BoneJson, i: nat, cubes: map<string, ElementAsset>)
    requires i <= |j.children|
  {
    forall k :: 0 <= k < i ==> WellFormedChild(j.children[k], cubes)
  }

  /** The exceptions the bone tree can raise. */
  predicate ChildError(e: ReadError) {
    e.InvalidCubeId? || e.InvalidChildType?
  }

  /** A cube rotation the single-axis check accepts. */
  predicate SingleAxis(c: CubeJson) {
    NonZeroCount(c.rotation.GetOr(Zero3)) != 2
  }

  /** `createBone` succeeds exactly on well-formed bones; otherwise it raises a child error. */
  lemma {:induction false} BuildBoneOk(p: Processor, pp: Vec3, cubes: map<string, ElementAsset>,
                                       j: BoneJson, hs: seq<int>, pos: nat)
    ensures BuildBone(p, pp, cubes, j, hs, pos).Ok? <==> WellFormedBone(j, cubes)
    ensures BuildBone(p, pp, cubes, j, hs, pos).Err? ==> ChildError(BuildBone(p, pp, cubes, j, hs, pos).error)
    decreases j, 1, 0
  {
    BuildChildrenOk(p, ScaledPivot(FlipX(j.origin)), cubes, j, |j.children|, hs, pos);
  }

  /** The children loop succeeds exactly when all the children it has visited are accepted. */
  lemma {:induction false} BuildChildrenOk(p: Processor, sp: Vec3, cubes: map<string, ElementAsset>,
                                           j: BoneJson, i: nat, hs: seq<int>, pos: nat)
    requires i <= |j.children|
    ensures BuildChildren(p, sp, cubes, j, i, hs, pos).Ok? <==> ChildrenWellFormed(j, i, cubes)
    ensures BuildChildren(p, sp, cubes, j, i, hs, pos).Err? ==> ChildError(BuildChildren(p, sp, cubes, j, i, hs, pos).error)
    decreases j, 0, i
  {
    if i > 0 {
      var prev := BuildChildren(p, sp, cubes, j, i - 1, hs, pos);
      assert prev.Ok? <==> ChildrenWellFormed(j, i - 1, cubes) by {
        BuildChildrenOk(p, sp, cubes, j, i - 1, hs, pos);
      }
      assert prev.Err? ==> ChildError(prev.error) by {
        BuildChildrenOk(p, sp, cubes, j, i - 1, hs, pos);
      }
      if prev.Ok? {
        BuildChildOk(p, sp, cubes, j.name, j.children[i - 1], hs, prev.value);
      }
    }
  }

  /** One pass of the children loop succeeds exactly when the child is accepted. */
  lemma {:induction false} BuildChildOk(p: Processor, sp: Vec3, cubes: map<string, ElementAsset>,
                                        parent: string, c: OutlinerNode, hs: seq<int>, level: Level)
    ensures BuildChild(p, sp, cubes, parent, c, hs, level).Ok? <==> WellFormedChild(c, cubes)
    ensures BuildChild(p, sp, cubes, parent, c, hs, level).Err? ==> ChildError(BuildChild(p, sp, cubes, parent, c, hs, level).error)
    ensures c.StringNode? && c.id !in cubes ==> BuildChild(p, sp, cubes, parent, c, hs, level) == Err(InvalidCubeId(parent, c.id))
    ensures c.OtherNode? ==> BuildChild(p, sp, cubes, parent, c, hs, level) == Err(InvalidChildType(parent))
    decreases c, 0, 0
  {
    if c.ObjectNode? {
      BuildBoneOk(p, sp, cubes, c.bone, hs, level.next);
    }
  }

  /**
   * A children loop that fails ends on the first child it does not accept:
   * every child before k is accepted, and the loop's exception is the one
   * child k raises after them.
   */
  lemma {:induction false} BuildChildrenFirstError(p: Processor, sp: Vec3, cubes: map<string, ElementAsset>,
                                                   j: BoneJson, i: nat, hs: seq<int>, pos: nat)
    requires i <= |j.children|
    requires BuildChildren(p, sp, cubes, j, i, hs, pos).Err?
    ensures exists k :: (
      && 0 <= k < i && ChildrenWellFormed(j, k, cubes) && !WellFormedChild(j.children[k], cubes)
      && BuildChildren(p, sp, cubes, j, k, hs, pos).Ok?
      && BuildChild(p, sp, cubes, j.name, j.children[k], hs, BuildChildren(p, sp, cubes, j, k, hs, pos).value)
         == BuildChildren(p, sp, cubes, j, i, hs, pos))
  {
    var prev := BuildChildren(p, sp, cubes, j, i - 1, hs, pos);
    if prev.Err? {
      BuildChildrenFirstError(p, sp, cubes, j, i - 1, hs, pos);
      var k :| 0 <= k < i - 1 && ChildrenWellFormed(j, k, cubes) && !WellFormedChild(j.children[k], cubes)
        && BuildChildren(p, sp, cubes, j, k, hs, pos).Ok?
        && BuildChild(p, sp, cubes, j.name, j.children[k], hs, BuildChildren(p, sp, cubes, j, k, hs, pos).value) == prev;
    } else {
      BuildChildrenOk(p, sp, cubes, j, i - 1, hs, pos);
      BuildChildOk(p, sp, cubes, j.name, j.children[i - 1], hs, prev.value);
    }
  }

  /** The outliner loop succeeds exactly when every root bone object is well formed. */
  lemma {:induction false} BuildRootsOk(p: Processor, cubes: map<string, ElementAsset>, roots: seq<OutlinerNode>,
                                        hs: seq<int>, pos: nat)
    ensures BuildRoots(p, cubes, roots, hs, pos).Ok? <==>
      forall k :: 0 <= k < |roots| && roots[k].ObjectNode? ==> WellFormedBone(roots[k].bone, cubes)
    ensures BuildRoots(p, cubes, roots, hs, pos).Err? ==> ChildError(BuildRoots(p, cubes, roots, hs, pos).error)
    decreases |roots|
  {
    if roots != [] {
      var init := roots[..|roots| - 1];
      var c := roots[|roots| - 1];
      var prev := BuildRoots(p, cubes, init, hs, pos);
      assert (prev.Ok? <==> forall k :: 0 <= k < |init| && init[k].ObjectNode? ==> WellFormedBone(init[k].bone, cubes))
             && (prev.Err? ==> ChildError(prev.error)) by {
        BuildRootsOk(p, cubes, init, hs, pos);
      }
      if prev.Ok? && c.ObjectNode? {
        BuildBoneOk(p, Zero3, cubes, c.bone, hs, prev.value.next);
      }
      RootsWellFormedLast(cubes, roots);
    }
  }

  lemma RootsWellFormedLast(cubes: map<string, ElementAsset>, roots: seq<OutlinerNode>)
    requires roots != []
    ensures var init, c := roots[..|roots| - 1], roots[|roots| - 1];
      (forall k :: 0 <= k < |roots| && roots[k].ObjectNode? ==> WellFormedBone(roots[k].bone, cubes)) <==>
        && (forall k :: 0 <= k < |init| && init[k].ObjectNode? ==> WellFormedBone(init[k].bone, cubes))
        && (c.ObjectNode? ==> WellFormedBone(c.bone, cubes))
  {
    var init := roots[..|roots| - 1];
    assert forall k :: 0 <= k < |init| ==> init[k] == roots[k];
  }

  /** The `elements` loop succeeds exactly when every cube has a single-axis rotation; otherwise it raises that error. */
  lemma {:induction false} CubeMapOk(elements: seq<CubeJson>, width: int, height: int)
    requires width != 0 && height != 0
    ensures CubeMap(elements, width, height).Ok? <==> forall k :: 0 <= k < |elements| ==> SingleAxis(elements[k])
    ensures CubeMap(elements, width, height).Err? ==> CubeMap(elements, width, height).error == MultipleAxisRotation
    decreases |elements|
  {
    if elements != [] {
      var init := elements[..|elements| - 1];
      CubeMapOk(init, width, height);
      assert forall k :: 0 <= k < |init| ==> init[k] == elements[k];
    }
  }

  /**
   * `read` refuses box UV documents before reading anything else, and no
   * later step raises that exception; for other documents it fails with the
   * axis error exactly when some cube is rotated about two axes.
   */
  lemma ReadModelErrors(p: Processor, d: Document, hs: seq<int>, pos: nat)
    requires d.width != 0 && d.height != 0
    ensures ReadModel(p, d, hs, pos) == Err(BoxUvNotSupported) <==> BoxUvEnabled(d.boxUv)
    ensures !BoxUvEnabled(d.boxUv) ==>
      (ReadModel(p, d, hs, pos) == Err(MultipleAxisRotation) <==> exists k :: 0 <= k < |d.elements| && !SingleAxis(d.elements[k]))
  {
    CubeMapOk(d.elements, d.width, d.height);
    match CubeMap(d.elements, d.width, d.height)
    case Err(_) =>
    case Ok(cubes) => BuildRootsOk(p, cubes, d.outliner, hs, pos);
  }

  /**
   * Every exception of the reader but the axis check is an `IOException`, and
   * the messages of the bone tree's exceptions name the bone (and the cube id).
   */
  lemma ReadErrorKinds(e: ReadError)
    ensures e.IsIOException() <==> e != MultipleAxisRotation
    ensures ChildError(e) ==> e.IsIOException()
    ensures e.InvalidCubeId? ==>
      var m, b := e.Message(), e.bone;
      && |m| > 5 + |b| && m[5..5 + |b|] == b
      && var at := 5 + |b| + |" contains an invalid cube id: '"|;
         |m| > at + |e.cubeId| && m[at..at + |e.cubeId|] == e.cubeId
    ensures e.InvalidChildType? ==>
      var m := e.Message(); |m| >= |e.bone| && m[|m| - |e.bone|..] == e.bone
  {
  }

  /** `createBone` raises only `IOException`s. */
  lemma BuildBoneIOException(p: Processor, pp: Vec3, cubes: map<string, ElementAsset>,
                             j: BoneJson, hs: seq<int>, pos: nat)
    requires BuildBone(p, pp, cubes, j, hs, pos).Err?
    ensures BuildBone(p, pp, cubes, j, hs, pos).error.IsIOException()
  {
    BuildBoneOk(p, pp, cubes, j, hs, pos);
  }

  /**
   * The model name is `geometry_name` when that is not empty and `name`
   * otherwise; a document that is read successfully carries it.
   */
  lemma ReadModelName(p: Processor, d: Document, hs: seq<int>, pos: nat)
    requires d.width != 0 && d.height != 0
    ensures |d.geometryName| > 0 ==> ModelName(d) == d.geometryName
    ensures |d.geometryName| == 0 ==> ModelName(d) == d.name
    ensures ReadModel(p, d, hs, pos).Ok? ==> ReadModel(p, d, hs, pos).value.name == ModelName(d)
  {
  }
}
