/**
 * The shape of the bone tree the reader builds: at every level the bone map
 * and the asset map are parallel (same keys, in the same order, each bone next
 * to its own asset, under its own name); every bone's offset is its scaled
 * pivot minus its parent's, the roots' parent being the zero vector; the
 * cubes handed to the element processor are the children's valid cube ids in
 * child order; and outliner entries that are not bone objects are skipped.
 */
module BBModelShape {
  import opened Wrappers
  import opened Vectors
  import opened OrderedMaps
  import opened BBModelTypes
  import opened BBModelSpec
  import opened BBModelSteps
  import opened BBModelStability

  /** A built bone, hereditarily: named like its asset, offset from its parent, children parallel. */
  ghost predicate Built(b: ReadBone, parentScaledPivot: Vec3)
    decreases b, 1
  {
    && b.asset.name == b.name
    && b.offset == ScaledPivot(b.asset.pivot).Subtract(parentScaledPivot)
    && Siblings(b.bones, b.asset.children, ScaledPivot(b.asset.pivot))
  }

  /**
   * Parallel sibling maps under a parent with scaled pivot sp: unique keys,
   * the same keys in the same order, and each bone stored under its own name,
   * with its own asset stored under that name in the asset map.
   */
  ghost predicate Siblings(bones: OrderedMap<ReadBone>, assets: OrderedMap<BoneAsset>, sp: Vec3)
    decreases bones, 0
  {
    && bones.Valid()
    && bones.Keys() == assets.Keys()
    && forall e :: e in bones.entries ==> e.1.name == e.0 && assets.Get(e.0) == Some(e.1.asset) && Built(e.1, sp)
  }

  /** The cube a child contributes: its cube when it is a known cube id, nothing otherwise. */
  function CubeRef(c: OutlinerNode, cubes: map<string, ElementAsset>): seq<ElementAsset> {
    match c
    case StringNode(id) => if id in cubes then [cubes[id]] else []
    case _ => []
  }

  /** The cubes referenced by the first n children, in child order. */
  function CubeRefs(children: seq<OutlinerNode>, n: nat, cubes: map<string, ElementAsset>): seq<ElementAsset>
    requires n <= |children|
  {
    if n == 0 then [] else CubeRefs(children, n - 1, cubes) + CubeRef(children[n - 1], cubes)
  }

  /** The names of the bone objects in a list of children or outliner entries. */
  function ObjectNames(nodes: seq<OutlinerNode>): set<string> {
    set k | 0 <= k < |nodes| && nodes[k].ObjectNode? :: nodes[k].bone.name
  }

  /** The name a node adds to its level's keys: its own when it is a bone object. */
  function AddedName(c: OutlinerNode): set<string> {
    if c.ObjectNode? then {c.bone.name} else {}
  }

  /** The keys of a map, as a set. */
  function KeySet<V>(m: OrderedMap<V>): set<string> {
    set k | k in m.Keys()
  }

  /** The bone objects of the outliner, in order. */
  function Objects(roots: seq<OutlinerNode>): (objects: seq<OutlinerNode>)
    ensures forall k :: 0 <= k < |objects| ==> objects[k].ObjectNode?
  {
    if roots == [] then []
    else Objects(roots[..|roots| - 1]) + if roots[|roots| - 1].ObjectNode? then [roots[|roots| - 1]] else []
  }

  lemma ObjectNamesLast(cs: seq<OutlinerNode>)
    requires cs != []
    ensures ObjectNames(cs) == ObjectNames(cs[..|cs| - 1]) + AddedName(cs[|cs| - 1])
  {
    var init := cs[..|cs| - 1];
    forall n | n in ObjectNames(cs)
      ensures n in ObjectNames(init) + AddedName(cs[|cs| - 1])
    {
      var k :| 0 <= k < |cs| && cs[k].ObjectNode? && cs[k].bone.name == n;
      if k < |init| {
        assert init[k] == cs[k];
      }
    }
    forall n | n in ObjectNames(init)
      ensures n in ObjectNames(cs)
    {
      var k :| 0 <= k < |init| && init[k].ObjectNode? && init[k].bone.name == n;
      assert cs[k] == init[k];
    }
  }

  lemma ObjectNamesPrefix(cs: seq<OutlinerNode>, i: nat)
    requires 0 < i <= |cs|
    ensures ObjectNames(cs[..i]) == ObjectNames(cs[..i - 1]) + AddedName(cs[i - 1])
  {
    ObjectNamesLast(cs[..i]);
    assert cs[..i][..i - 1] == cs[..i - 1];
  }

  lemma KeySetPut<V>(m: OrderedMap<V>, k: string, v: V)
    ensures KeySet(m.Put(k, v)) == KeySet(m) + {k}
  {
    PutKeys(m, k, v);
    forall n ensures n in KeySet(m.Put(k, v)) <==> n in KeySet(m) + {k} {
    }
  }

  /** Putting a built bone and its asset under the bone's name keeps the maps parallel. */
  lemma SiblingsPut(bones: OrderedMap<ReadBone>, assets: OrderedMap<BoneAsset>, sp: Vec3, b: ReadBone)
    requires Siblings(bones, assets, sp) && Built(b, sp)
    ensures Siblings(bones.Put(b.name, b), assets.Put(b.name, b.asset), sp)
  {
    var bones', assets' := bones.Put(b.name, b), assets.Put(b.name, b.asset);
    PutEntries(bones, b.name, b);
    PutValid(bones, b.name, b);
    PutKeys(bones, b.name, b);
    PutKeys(assets, b.name, b.asset);
    PutGet(assets, b.name, b.asset);
    forall e | e in bones'.entries
      ensures e.1.name == e.0 && assets'.Get(e.0) == Some(e.1.asset) && Built(e.1, sp)
    {
      if e != (b.name, b) {
        assert e in bones.entries && e.0 != b.name;
      }
    }
  }

  /**
   * A built bone is named after its object, its asset's pivot is the
   * mirrored origin, its rotation the source rotation or zero, its sub-bones
   * are built under its scaled pivot, and the element processor received its
   * cubes in child order.
   */
  lemma {:induction false} BuildBoneShape(p: Processor, pp: Vec3, cubes: map<string, ElementAsset>,
                                          j: BoneJson, hs: seq<int>, pos: nat)
    requires BuildBone(p, pp, cubes, j, hs, pos).Ok?
    ensures var out := BuildBone(p, pp, cubes, j, hs, pos).value;
      var result := p(FlipX(j.origin), CubeRefs(j.children, |j.children|, cubes));
      && Built(out.bone, pp)
      && out.bone.asset == out.asset
      && out.bone.name == j.name && out.asset.pivot == FlipX(j.origin)
      && out.bone.rotation == j.rotation.GetOr(Zero3)
      && out.asset.offset == result.offset && out.asset.elements == result.elements && out.asset.small == result.small
    decreases j, 1, 0
  {
    var sp := ScaledPivot(FlipX(j.origin));
    BuildBoneUnfold(p, pp, cubes, j, hs, pos);
    BuildChildrenShape(p, sp, cubes, j, |j.children|, hs, pos);
    BuildChildrenCubes(p, sp, cubes, j, |j.children|, hs, pos);
  }

  /** The child maps of a children loop are parallel maps of bones built under the parent's scaled pivot. */
  lemma {:induction false} BuildChildrenShape(p: Processor, sp: Vec3, cubes: map<string, ElementAsset>,
                                              j: BoneJson, i: nat, hs: seq<int>, pos: nat)
    requires i <= |j.children|
    requires BuildChildren(p, sp, cubes, j, i, hs, pos).Ok?
    ensures var level := BuildChildren(p, sp, cubes, j, i, hs, pos).value;
      Siblings(level.bones, level.assets, sp)
    decreases j, 0, i
  {
    if i > 0 {
      BuildChildrenSplit(p, sp, cubes, j, i, hs, pos);
      var level := BuildChildren(p, sp, cubes, j, i - 1, hs, pos).value;
      assert Siblings(level.bones, level.assets, sp) by {
        BuildChildrenShape(p, sp, cubes, j, i - 1, hs, pos);
      }
      BuildChildShape(p, sp, cubes, j.name, j.children[i - 1], hs, level);
    }
  }

  /** One child keeps the maps parallel. */
  lemma {:induction false} BuildChildShape(p: Processor, sp: Vec3, cubes: map<string, ElementAsset>,
                                           parent: string, c: OutlinerNode, hs: seq<int>, level: Level)
    requires BuildChild(p, sp, cubes, parent, c, hs, level).Ok?
    requires Siblings(level.bones, level.assets, sp)
    ensures var level' := BuildChild(p, sp, cubes, parent, c, hs, level).value;
      Siblings(level'.bones, level'.assets, sp)
    decreases c, 0, 0
  {
    match c
    case ObjectNode(b) =>
      var out := BuildBone(p, sp, cubes, b, hs, level.next).value;
      BuildBoneShape(p, sp, cubes, b, hs, level.next);
      SiblingsPut(level.bones, level.assets, sp, out.bone);
    case StringNode(_) =>
    case OtherNode =>
  }

  /** The cubes a children loop hands to the element processor are the valid cube ids among its children, in order. */
  lemma {:induction false} BuildChildrenCubes(p: Processor, sp: Vec3, cubes: map<string, ElementAsset>,
                                              j: BoneJson, i: nat, hs: seq<int>, pos: nat)
    requires i <= |j.children|
    requires BuildChildren(p, sp, cubes, j, i, hs, pos).Ok?
    ensures BuildChildren(p, sp, cubes, j, i, hs, pos).value.cubes == CubeRefs(j.children, i, cubes)
    decreases i
  {
    if i > 0 {
      BuildChildrenOkPrefix(p, sp, cubes, j, i, hs, pos);
      BuildChildrenCubes(p, sp, cubes, j, i - 1, hs, pos);
      BuildChildrenCubesStep(p, sp, cubes, j, i, hs, pos);
    }
  }

  lemma BuildChildrenCubesStep(p: Processor, sp: Vec3, cubes: map<string, ElementAsset>,
                               j: BoneJson, i: nat, hs: seq<int>, pos: nat)
    requires 0 < i <= |j.children|
    requires BuildChildren(p, sp, cubes, j, i, hs, pos).Ok?
    requires BuildChildren(p, sp, cubes, j, i - 1, hs, pos).Ok?
    requires BuildChildren(p, sp, cubes, j, i - 1, hs, pos).value.cubes == CubeRefs(j.children, i - 1, cubes)
    ensures BuildChildren(p, sp, cubes, j, i, hs, pos).value.cubes == CubeRefs(j.children, i, cubes)
  {
    var level := BuildChildren(p, sp, cubes, j, i - 1, hs, pos).value;
    BuildChildrenStep(p, sp, cubes, j, i - 1, hs, pos, level);
    BuildChildCubes(p, sp, cubes, j.name, j.children[i - 1], hs, level);
  }

  /** One child appends its cube to the level's cube list when it is a cube id, and nothing otherwise. */
  lemma BuildChildCubes(p: Processor, sp: Vec3, cubes: map<string, ElementAsset>,
                        parent: string, c: OutlinerNode, hs: seq<int>, level: Level)
    requires BuildChild(p, sp, cubes, parent, c, hs, level).Ok?
    ensures BuildChild(p, sp, cubes, parent, c, hs, level).value.cubes == level.cubes + CubeRef(c, cubes)
  {
  }

  /** The keys of both maps of a level, as the names of the bone objects among its first i children. */
  ghost predicate KeyedByObjects(level: Level, children: seq<OutlinerNode>, i: nat)
    requires i <= |children|
  {
    && level.bones.Valid() && level.assets.Valid()
    && KeySet(level.bones) == ObjectNames(children[..i])
    && KeySet(level.assets) == ObjectNames(children[..i])
  }

  /**
   * The keys of a level's maps are the names of its bone objects: a name
   * given to several siblings is one key, with no error raised.
   */
  lemma {:induction false} BuildChildrenKeys(p: Processor, sp: Vec3, cubes: map<string, ElementAsset>,
                                             j: BoneJson, i: nat, hs: seq<int>, pos: nat)
    requires i <= |j.children|
    requires BuildChildren(p, sp, cubes, j, i, hs, pos).Ok?
    ensures KeyedByObjects(BuildChildren(p, sp, cubes, j, i, hs, pos).value, j.children, i)
    decreases i
  {
    if i == 0 {
      assert j.children[..i] == [];
    } else {
      BuildChildrenOkPrefix(p, sp, cubes, j, i, hs, pos);
      BuildChildrenKeys(p, sp, cubes, j, i - 1, hs, pos);
      BuildChildrenKeysStep(p, sp, cubes, j, i, hs, pos);
    }
  }

  lemma BuildChildrenKeysStep(p: Processor, sp: Vec3, cubes: map<string, ElementAsset>,
                              j: BoneJson, i: nat, hs: seq<int>, pos: nat)
    requires 0 < i <= |j.children|
    requires BuildChildren(p, sp, cubes, j, i, hs, pos).Ok?
    requires BuildChildren(p, sp, cubes, j, i - 1, hs, pos).Ok?
    requires KeyedByObjects(BuildChildren(p, sp, cubes, j, i - 1, hs, pos).value, j.children, i - 1)
    ensures KeyedByObjects(BuildChildren(p, sp, cubes, j, i, hs, pos).value, j.children, i)
  {
    var level := BuildChildren(p, sp, cubes, j, i - 1, hs, pos).value;
    BuildChildrenStep(p, sp, cubes, j, i - 1, hs, pos, level);
    BuildChildKeys(p, sp, cubes, j.name, j.children[i - 1], hs, level);
    ObjectNamesPrefix(j.children, i);
  }

  /** One child adds its name to the keys of both maps when it is a bone object, and no key otherwise. */
  lemma BuildChildKeys(p: Processor, sp: Vec3, cubes: map<string, ElementAsset>,
                       parent: string, c: OutlinerNode, hs: seq<int>, level: Level)
    requires BuildChild(p, sp, cubes, parent, c, hs, level).Ok?
    requires level.bones.Valid() && level.assets.Valid()
    ensures var level' := BuildChild(p, sp, cubes, parent, c, hs, level).value;
      && level'.bones.Valid() && level'.assets.Valid()
      && KeySet(level'.bones) == KeySet(level.bones) + AddedName(c)
      && KeySet(level'.assets) == KeySet(level.assets) + AddedName(c)
  {
    if c.ObjectNode? {
      var out := BuildBone(p, sp, cubes, c.bone, hs, level.next).value;
      KeySetPut(level.bones, c.bone.name, out.bone);
      KeySetPut(level.assets, c.bone.name, out.asset);
      PutValid(level.bones, c.bone.name, out.bone);
      PutValid(level.assets, c.bone.name, out.asset);
    }
  }

  /** Child k is a bone object, and no later child before i is a bone object with its name. */
  predicate LastNamed(children: seq<OutlinerNode>, k: nat, i: nat)
    requires k < i <= |children|
  {
    && children[k].ObjectNode?
    && forall l :: k < l < i ==> !(children[l].ObjectNode? && children[l].bone.name == children[k].bone.name)
  }

  /**
   * Siblings sharing a name: a level holds under that name the bone and the
   * asset built from the last bone object child with it, each later `put`
   * replacing the earlier one.
   */
  lemma {:induction false} BuildChildrenLastWins(p: Processor, sp: Vec3, cubes: map<string, ElementAsset>,
                                                 j: BoneJson, k: nat, i: nat, hs: seq<int>, pos: nat)
    requires k < i <= |j.children|
    requires LastNamed(j.children, k, i)
    requires BuildChildren(p, sp, cubes, j, i, hs, pos).Ok?
    ensures BuildChildren(p, sp, cubes, j, k, hs, pos).Ok?
    ensures var b := j.children[k].bone;
      var out := BuildBone(p, sp, cubes, b, hs, BuildChildren(p, sp, cubes, j, k, hs, pos).value.next);
      var level := BuildChildren(p, sp, cubes, j, i, hs, pos).value;
      && out.Ok?
      && level.bones.Get(b.name) == Some(out.value.bone)
      && level.assets.Get(b.name) == Some(out.value.asset)
    decreases i
  {
    BuildChildrenSplit(p, sp, cubes, j, i, hs, pos);
    var prev := BuildChildren(p, sp, cubes, j, i - 1, hs, pos).value;
    if i == k + 1 {
      var b := j.children[k].bone;
      var out := BuildBone(p, sp, cubes, b, hs, prev.next).value;
      PutGet(prev.bones, b.name, out.bone);
      PutGet(prev.assets, b.name, out.asset);
    } else {
      BuildChildrenLastWins(p, sp, cubes, j, k, i - 1, hs, pos);
      BuildChildKeepsLookup(p, sp, cubes, j.name, j.children[i - 1], hs, prev, j.children[k].bone.name);
    }
  }

  /** A child that is not a bone object named n leaves the lookups of n in both maps as they were. */
  lemma BuildChildKeepsLookup(p: Processor, sp: Vec3, cubes: map<string, ElementAsset>,
                              parent: string, c: OutlinerNode, hs: seq<int>, level: Level, n: string)
    requires BuildChild(p, sp, cubes, parent, c, hs, level).Ok?
    requires !(c.ObjectNode? && c.bone.name == n)
    ensures var level' := BuildChild(p, sp, cubes, parent, c, hs, level).value;
      level'.bones.Get(n) == level.bones.Get(n) && level'.assets.Get(n) == level.assets.Get(n)
  {
    if c.ObjectNode? {
      var out := BuildBone(p, sp, cubes, c.bone, hs, level.next).value;
      PutGet(level.bones, c.bone.name, out.bone);
      PutGet(level.assets, c.bone.name, out.asset);
    }
  }

  /** Keys never move: the keys after the first k children are a prefix of the keys after the first i. */
  lemma {:induction false} BuildChildrenKeysPrefix(p: Processor, sp: Vec3, cubes: map<string, ElementAsset>,
                                                   j: BoneJson, k: nat, i: nat, hs: seq<int>, pos: nat)
    requires k <= i <= |j.children|
    requires BuildChildren(p, sp, cubes, j, i, hs, pos).Ok?
    ensures BuildChildren(p, sp, cubes, j, k, hs, pos).Ok?
    ensures BuildChildren(p, sp, cubes, j, k, hs, pos).value.bones.Keys() <= BuildChildren(p, sp, cubes, j, i, hs, pos).value.bones.Keys()
    decreases i
  {
    if k < i {
      BuildChildrenSplit(p, sp, cubes, j, i, hs, pos);
      BuildChildrenKeysPrefix(p, sp, cubes, j, k, i - 1, hs, pos);
      var prev := BuildChildren(p, sp, cubes, j, i - 1, hs, pos).value;
      match j.children[i - 1]
      case ObjectNode(c) =>
        PutKeys(prev.bones, c.name, BuildBone(p, sp, cubes, c, hs, prev.next).value.bone);
      case _ =>
    }
  }

  /**
   * A name keeps the position of its first bone object: when child k is the
   * first bone object named n, n is the key right after the keys of the first
   * k children, however many later siblings are also named n.
   */
  lemma BuildChildrenFirstPosition(p: Processor, sp: Vec3, cubes: map<string, ElementAsset>,
                                   j: BoneJson, k: nat, i: nat, hs: seq<int>, pos: nat)
    requires k < i <= |j.children|
    requires j.children[k].ObjectNode?
    requires forall l :: 0 <= l < k ==> !(j.children[l].ObjectNode? && j.children[l].bone.name == j.children[k].bone.name)
    requires BuildChildren(p, sp, cubes, j, i, hs, pos).Ok?
    ensures BuildChildren(p, sp, cubes, j, k, hs, pos).Ok?
    ensures var keys := BuildChildren(p, sp, cubes, j, i, hs, pos).value.bones.Keys();
      var before := |BuildChildren(p, sp, cubes, j, k, hs, pos).value.bones.Keys()|;
      before < |keys| && keys[before] == j.children[k].bone.name
  {
    var n := j.children[k].bone.name;
    BuildChildrenKeysPrefix(p, sp, cubes, j, k + 1, i, hs, pos);
    BuildChildrenSplit(p, sp, cubes, j, k + 1, hs, pos);
    var level := BuildChildren(p, sp, cubes, j, k, hs, pos).value;
    BuildChildrenKeys(p, sp, cubes, j, k, hs, pos);
    assert n !in ObjectNames(j.children[..k]);
    assert n !in level.bones.Keys() by {
      assert n !in KeySet(level.bones);
    }
    PutKeys(level.bones, n, BuildBone(p, sp, cubes, j.children[k].bone, hs, level.next).value.bone);
  }

  /**
   * The same at the root: under a name shared by several outliner objects,
   * the root maps hold the bone and asset built from the last of them.
   */
  lemma {:induction false} BuildRootsLastWins(p: Processor, cubes: map<string, ElementAsset>, roots: seq<OutlinerNode>,
                                              k: nat, hs: seq<int>, pos: nat)
    requires k < |roots|
    requires LastNamed(roots, k, |roots|)
    requires BuildRoots(p, cubes, roots, hs, pos).Ok?
    ensures BuildRoots(p, cubes, roots[..k], hs, pos).Ok?
    ensures var b := roots[k].bone;
      var out := BuildBone(p, Zero3, cubes, b, hs, BuildRoots(p, cubes, roots[..k], hs, pos).value.next);
      var level := BuildRoots(p, cubes, roots, hs, pos).value;
      && out.Ok?
      && level.bones.Get(b.name) == Some(out.value.bone)
      && level.assets.Get(b.name) == Some(out.value.asset)
    decreases |roots|
  {
    BuildRootsSplit(p, cubes, roots, hs, pos);
    var last := |roots| - 1;
    var init := roots[..last];
    var prev := BuildRoots(p, cubes, init, hs, pos).value;
    var n := roots[k].bone.name;
    if k == last {
      var out := BuildBone(p, Zero3, cubes, roots[k].bone, hs, prev.next).value;
      PutGet(prev.bones, n, out.bone);
      PutGet(prev.assets, n, out.asset);
    } else {
      assert init[..k] == roots[..k];
      assert init[k] == roots[k];
      forall l | k < l < |init|
        ensures !(init[l].ObjectNode? && init[l].bone.name == n)
      {
        assert init[l] == roots[l];
      }
      BuildRootsLastWins(p, cubes, init, k, hs, pos);
      BuildRootKeepsLookup(p, cubes, roots[last], hs, prev, n);
    }
  }

  /** An outliner entry that is not a bone object named n leaves the lookups of n in both root maps as they were. */
  lemma BuildRootKeepsLookup(p: Processor, cubes: map<string, ElementAsset>, c: OutlinerNode, hs: seq<int>,
                             level: Level, n: string)
    requires BuildRoot(p, cubes, c, hs, level).Ok?
    requires !(c.ObjectNode? && c.bone.name == n)
    ensures var level' := BuildRoot(p, cubes, c, hs, level).value;
      level'.bones.Get(n) == level.bones.Get(n) && level'.assets.Get(n) == level.assets.Get(n)
  {
    if c.ObjectNode? {
      var out := BuildBone(p, Zero3, cubes, c.bone, hs, level.next).value;
      PutGet(level.bones, c.bone.name, out.bone);
      PutGet(level.assets, c.bone.name, out.asset);
    }
  }

  /** The root maps are parallel and the roots are offset from the origin. */
  lemma {:induction false} BuildRootsShape(p: Processor, cubes: map<string, ElementAsset>, roots: seq<OutlinerNode>,
                                           hs: seq<int>, pos: nat)
    requires BuildRoots(p, cubes, roots, hs, pos).Ok?
    ensures var level := BuildRoots(p, cubes, roots, hs, pos).value;
      Siblings(level.bones, level.assets, Zero3)
    decreases |roots|
  {
    if roots != [] {
      var init := roots[..|roots| - 1];
      BuildRootsSplit(p, cubes, roots, hs, pos);
      var level := BuildRoots(p, cubes, init, hs, pos).value;
      assert Siblings(level.bones, level.assets, Zero3) by {
        BuildRootsShape(p, cubes, init, hs, pos);
      }
      match roots[|roots| - 1]
      case ObjectNode(b) =>
        var out := BuildBone(p, Zero3, cubes, b, hs, level.next).value;
        BuildBoneShape(p, Zero3, cubes, b, hs, level.next);
        SiblingsPut(level.bones, level.assets, Zero3, out.bone);
      case StringNode(_) =>
      case OtherNode =>
    }
  }

  /** The keys of the root maps are the names of the outliner's bone objects. */
  lemma {:induction false} BuildRootsKeys(p: Processor, cubes: map<string, ElementAsset>, roots: seq<OutlinerNode>,
                                          hs: seq<int>, pos: nat)
    requires BuildRoots(p, cubes, roots, hs, pos).Ok?
    ensures var level := BuildRoots(p, cubes, roots, hs, pos).value;
      && level.bones.Valid() && level.assets.Valid()
      && KeySet(level.bones) == ObjectNames(roots)
      && KeySet(level.assets) == ObjectNames(roots)
    decreases |roots|
  {
    if roots != [] {
      var init := roots[..|roots| - 1];
      var c := roots[|roots| - 1];
      BuildRootsSplit(p, cubes, roots, hs, pos);
      var level := BuildRoots(p, cubes, init, hs, pos).value;
      assert && level.bones.Valid() && level.assets.Valid()
             && KeySet(level.bones) == ObjectNames(init)
             && KeySet(level.assets) == ObjectNames(init) by {
        BuildRootsKeys(p, cubes, init, hs, pos);
      }
      ObjectNamesLast(roots);
      if c.ObjectNode? {
        var out := BuildBone(p, Zero3, cubes, c.bone, hs, level.next).value;
        KeySetPut(level.bones, c.bone.name, out.bone);
        KeySetPut(level.assets, c.bone.name, out.asset);
        PutValid(level.bones, c.bone.name, out.bone);
        PutValid(level.assets, c.bone.name, out.asset);
      }
    }
  }

  /** Outliner entries that are not bone objects have no effect: only the objects are read. */
  lemma {:induction false} BuildRootsSkipsNonObjects(p: Processor, cubes: map<string, ElementAsset>,
                                                     roots: seq<OutlinerNode>, hs: seq<int>, pos: nat)
    ensures BuildRoots(p, cubes, roots, hs, pos) == BuildRoots(p, cubes, Objects(roots), hs, pos)
    decreases |roots|
  {
    if roots != [] {
      var init := roots[..|roots| - 1];
      var c := roots[|roots| - 1];
      BuildRootsSkipsNonObjects(p, cubes, init, hs, pos);
      var objects := Objects(roots);
      if c.ObjectNode? {
        assert objects == Objects(init) + [c];
        assert objects[..|objects| - 1] == Objects(init);
        assert objects[|objects| - 1] == c;
      } else {
        assert objects == Objects(init);
      }
    }
  }

  /**
   * A model read successfully carries the model name in both the model and
   * its asset, and parallel root maps of built bones keyed by the names of
   * the outliner's bone objects.
   */
  lemma ReadModelShape(p: Processor, d: Document, hs: seq<int>, pos: nat)
    requires d.width != 0 && d.height != 0
    requires ReadModel(p, d, hs, pos).Ok?
    ensures var model := ReadModel(p, d, hs, pos).value;
      && model.name == ModelName(d) && model.asset.name == ModelName(d)
      && model.width == d.width && model.height == d.height
      && Siblings(model.bones, model.asset.bones, Zero3)
      && KeySet(model.bones) == ObjectNames(d.outliner)
  {
    var cubes := CubeMap(d.elements, d.width, d.height).value;
    BuildRootsShape(p, cubes, d.outliner, hs, pos);
    BuildRootsKeys(p, cubes, d.outliner, hs, pos);
  }
}
