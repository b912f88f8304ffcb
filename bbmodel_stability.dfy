module BBModelSteps {
  import opened Wrappers
  import opened Vectors
  import opened OrderedMaps
  import opened BBModelTypes
  import opened BBModelSpec

  /** BuildBone in terms of its children loop. */
  lemma BuildBoneUnfold(p: Processor, pp: Vec3, cubes: map<string, ElementAsset>, j: BoneJson, hs: seq<int>, pos: nat)
    ensures match BuildChildren(p, ScaledPivot(FlipX(j.origin)), cubes, j, |j.children|, hs, pos)
      case Err(e) => BuildBone(p, pp, cubes, j, hs, pos) == Err(e)
      case Ok(level) => BuildBone(p, pp, cubes, j, hs, pos) == Ok(AssembleBone(p, pp, j, level, HandleAt(hs, level.next)))
  {
  }

  /** One step of the children loop: the pass over child i, from the level built so far. */
  lemma BuildChildrenStep(p: Processor, sp: Vec3, cubes: map<string, ElementAsset>, j: BoneJson, i: nat,
                          hs: seq<int>, pos: nat, level: Level)
    requires i < |j.children|
    requires BuildChildren(p, sp, cubes, j, i, hs, pos) == Ok(level)
    ensures BuildChildren(p, sp, cubes, j, i + 1, hs, pos) == BuildChild(p, sp, cubes, j.name, j.children[i], hs, level)
  {
  }

  /** A children loop that succeeds is the pass over its last child from a prefix that succeeded. */
  lemma BuildChildrenSplit(p: Processor, sp: Vec3, cubes: map<string, ElementAsset>, j: BoneJson, i: nat,
                           hs: seq<int>, pos: nat)
    requires 0 < i <= |j.children|
    requires BuildChildren(p, sp, cubes, j, i, hs, pos).Ok?
    ensures var prev := BuildChildren(p, sp, cubes, j, i - 1, hs, pos);
      && prev.Ok?
      && BuildChildren(p, sp, cubes, j, i, hs, pos) == BuildChild(p, sp, cubes, j.name, j.children[i - 1], hs, prev.value)
      && prev.value.next <= BuildChildren(p, sp, cubes, j, i, hs, pos).value.next
  {
  }

  /** An outliner loop that succeeds is the pass over its last entry from a prefix that succeeded. */
  lemma BuildRootsSplit(p: Processor, cubes: map<string, ElementAsset>, roots: seq<OutlinerNode>, hs: seq<int>, pos: nat)
    requires roots != []
    requires BuildRoots(p, cubes, roots, hs, pos).Ok?
    ensures var prev := BuildRoots(p, cubes, roots[..|roots| - 1], hs, pos);
      && prev.Ok?
      && BuildRoots(p, cubes, roots, hs, pos) == BuildRoot(p, cubes, roots[|roots| - 1], hs, prev.value)
  {
  }

  /** One step of the outliner loop: the pass over entry k, from the root level built so far. */
  lemma BuildRootsStep(p: Processor, cubes: map<string, ElementAsset>, roots: seq<OutlinerNode>, k: nat,
                       hs: seq<int>, pos: nat, level: Level)
    requires k < |roots|
    requires BuildRoots(p, cubes, roots[..k], hs, pos) == Ok(level)
    ensures BuildRoots(p, cubes, roots[..k + 1], hs, pos) == BuildRoot(p, cubes, roots[k], hs, level)
  {
    assert roots[..k + 1][..k] == roots[..k];
  }
}

/**
 * Facts the imperative reader needs to follow its specification step by step:
 * a result does not change when the cursor has issued more handles than it
 * used, and an error, once raised, is the result of the whole loop.
 */
module BBModelStability {
  import opened Wrappers
  import opened Vectors
  import opened BBModelTypes
  import opened BBModelSpec
  import opened BBModelSteps

  lemma {:induction false} BuildBoneStable(p: Processor, pp: Vec3, cubes: map<string, ElementAsset>,
                                           j: BoneJson, hs: seq<int>, hs': seq<int>, pos: nat)
    requires hs <= hs'
    requires BuildBone(p, pp, cubes, j, hs, pos).Ok? && BuildBone(p, pp, cubes, j, hs, pos).value.next <= |hs|
    ensures BuildBone(p, pp, cubes, j, hs', pos) == BuildBone(p, pp, cubes, j, hs, pos)
    decreases j, 1, 0
  {
    BuildChildrenStable(p, ScaledPivot(FlipX(j.origin)), cubes, j, |j.children|, hs, hs', pos);
  }

  lemma {:induction false} BuildChildrenStable(p: Processor, sp: Vec3, cubes: map<string, ElementAsset>,
                                               j: BoneJson, i: nat, hs: seq<int>, hs': seq<int>, pos: nat)
    requires i <= |j.children|
    requires hs <= hs'
    requires BuildChildren(p, sp, cubes, j, i, hs, pos).Ok? && BuildChildren(p, sp, cubes, j, i, hs, pos).value.next <= |hs|
    ensures BuildChildren(p, sp, cubes, j, i, hs', pos) == BuildChildren(p, sp, cubes, j, i, hs, pos)
    decreases j, 0, i
  {
    if i > 0 {
      BuildChildrenSplit(p, sp, cubes, j, i, hs, pos);
      BuildChildrenStable(p, sp, cubes, j, i - 1, hs, hs', pos);
      BuildChildrenStableStep(p, sp, cubes, j, i - 1, hs, hs', pos, BuildChildren(p, sp, cubes, j, i - 1, hs, pos).value);
    }
  }

  /** The inductive step of `BuildChildrenStable`: the pass over child i from a prefix both streams agree on. */
  lemma BuildChildrenStableStep(p: Processor, sp: Vec3, cubes: map<string, ElementAsset>,
                                j: BoneJson, i: nat, hs: seq<int>, hs': seq<int>, pos: nat, prev: Level)
    requires i < |j.children|
    requires hs <= hs'
    requires BuildChildren(p, sp, cubes, j, i, hs, pos) == Ok(prev) && BuildChildren(p, sp, cubes, j, i, hs', pos) == Ok(prev)
    requires BuildChild(p, sp, cubes, j.name, j.children[i], hs, prev).Ok?
    requires BuildChild(p, sp, cubes, j.name, j.children[i], hs, prev).value.next <= |hs|
    ensures BuildChildren(p, sp, cubes, j, i + 1, hs', pos) == BuildChildren(p, sp, cubes, j, i + 1, hs, pos)
    decreases j, 0, i + 1, 0
  {
    BuildChildrenStep(p, sp, cubes, j, i, hs, pos, prev);
    BuildChildStable(p, sp, cubes, j.name, j.children[i], hs, hs', prev);
    BuildChildrenStep(p, sp, cubes, j, i, hs', pos, prev);
  }

  lemma {:induction false} BuildChildStable(p: Processor, sp: Vec3, cubes: map<string, ElementAsset>,
                                            parent: string, c: OutlinerNode, hs: seq<int>, hs': seq<int>, level: Level)
    requires hs <= hs'
    requires BuildChild(p, sp, cubes, parent, c, hs, level).Ok? && BuildChild(p, sp, cubes, parent, c, hs, level).value.next <= |hs|
    ensures BuildChild(p, sp, cubes, parent, c, hs', level) == BuildChild(p, sp, cubes, parent, c, hs, level)
    decreases c, 0, 0
  {
    match c
    case ObjectNode(b) =>
      BuildBoneStable(p, sp, cubes, b, hs, hs', level.next);
    case StringNode(_) =>
    case OtherNode =>
  }

  lemma {:induction false} BuildRootsStable(p: Processor, cubes: map<string, ElementAsset>, roots: seq<OutlinerNode>,
                                            hs: seq<int>, hs': seq<int>, pos: nat)
    requires hs <= hs'
    requires BuildRoots(p, cubes, roots, hs, pos).Ok? && BuildRoots(p, cubes, roots, hs, pos).value.next <= |hs|
    ensures BuildRoots(p, cubes, roots, hs', pos) == BuildRoots(p, cubes, roots, hs, pos)
  {
    if roots != [] {
      var init := roots[..|roots| - 1];
      BuildRootsStable(p, cubes, init, hs, hs', pos);
      var level := BuildRoots(p, cubes, init, hs, pos).value;
      if roots[|roots| - 1].ObjectNode? {
        BuildBoneStable(p, Zero3, cubes, roots[|roots| - 1].bone, hs, hs', level.next);
      }
    }
  }

  lemma {:induction false} BuildChildrenErrPersists(p: Processor, sp: Vec3, cubes: map<string, ElementAsset>,
                                                    j: BoneJson, i: nat, k: nat, hs: seq<int>, pos: nat)
    requires i <= k <= |j.children|
    requires BuildChildren(p, sp, cubes, j, i, hs, pos).Err?
    ensures BuildChildren(p, sp, cubes, j, k, hs, pos) == BuildChildren(p, sp, cubes, j, i, hs, pos)
    decreases k
  {
    if k > i {
      var prev := BuildChildren(p, sp, cubes, j, k - 1, hs, pos);
      assert prev == BuildChildren(p, sp, cubes, j, i, hs, pos) by {
        BuildChildrenErrPersists(p, sp, cubes, j, i, k - 1, hs, pos);
      }
      BuildChildrenErrStep(p, sp, cubes, j, k, hs, pos);
    }
  }

  lemma BuildChildrenErrStep(p: Processor, sp: Vec3, cubes: map<string, ElementAsset>,
                             j: BoneJson, k: nat, hs: seq<int>, pos: nat)
    requires 0 < k <= |j.children|
    requires BuildChildren(p, sp, cubes, j, k - 1, hs, pos).Err?
    ensures BuildChildren(p, sp, cubes, j, k, hs, pos) == BuildChildren(p, sp, cubes, j, k - 1, hs, pos)
  {
  }

  lemma {:induction false} BuildRootsErrPersists(p: Processor, cubes: map<string, ElementAsset>, roots: seq<OutlinerNode>,
                                                 i: nat, hs: seq<int>, pos: nat)
    requires i <= |roots|
    requires BuildRoots(p, cubes, roots[..i], hs, pos).Err?
    ensures BuildRoots(p, cubes, roots, hs, pos) == BuildRoots(p, cubes, roots[..i], hs, pos)
    decreases |roots|
  {
    if i < |roots| {
      var init := roots[..|roots| - 1];
      assert init[..i] == roots[..i];
      BuildRootsErrPersists(p, cubes, init, i, hs, pos);
    } else {
      assert roots[..i] == roots;
    }
  }

  lemma {:induction false} CubeMapErrPersists(elements: seq<CubeJson>, i: nat, width: int, height: int)
    requires width != 0 && height != 0
    requires i <= |elements|
    requires CubeMap(elements[..i], width, height).Err?
    ensures CubeMap(elements, width, height) == CubeMap(elements[..i], width, height)
    decreases |elements|
  {
    if i < |elements| {
      var init := elements[..|elements| - 1];
      assert init[..i] == elements[..i];
      CubeMapErrPersists(init, i, width, height);
    } else {
      assert elements[..i] == elements;
    }
  }

  /** A children loop that succeeds succeeded on every shorter prefix. */
  lemma BuildChildrenOkPrefix(p: Processor, sp: Vec3, cubes: map<string, ElementAsset>,
                              j: BoneJson, i: nat, hs: seq<int>, pos: nat)
    requires 0 < i <= |j.children|
    requires BuildChildren(p, sp, cubes, j, i, hs, pos).Ok?
    ensures BuildChildren(p, sp, cubes, j, i - 1, hs, pos).Ok?
  {
    if BuildChildren(p, sp, cubes, j, i - 1, hs, pos).Err? {
      BuildChildrenErrStep(p, sp, cubes, j, i, hs, pos);
    }
  }

  /**
   * One pass of the children loop run after the cursor has issued more
   * handles: the loop so far keeps its result, and the pass continues it.
   */
  lemma BuildChildrenAdvance(p: Processor, sp: Vec3, cubes: map<string, ElementAsset>, j: BoneJson, i: nat,
                             hs: seq<int>, hs': seq<int>, pos: nat, level: Level)
    requires i < |j.children|
    requires hs <= hs'
    requires BuildChildren(p, sp, cubes, j, i, hs, pos) == Ok(level) && level.next <= |hs|
    ensures match BuildChild(p, sp, cubes, j.name, j.children[i], hs', level)
      case Ok(level') => BuildChildren(p, sp, cubes, j, i + 1, hs', pos) == Ok(level')
      case Err(e) => BuildChildren(p, sp, cubes, j, |j.children|, hs', pos) == Err(e)
  {
    BuildChildrenStable(p, sp, cubes, j, i, hs, hs', pos);
    BuildChildrenStep(p, sp, cubes, j, i, hs', pos, level);
    if BuildChildren(p, sp, cubes, j, i + 1, hs', pos).Err? {
      BuildChildrenErrPersists(p, sp, cubes, j, i + 1, |j.children|, hs', pos);
    }
  }

  /** The same for one pass of the outliner loop. */
  lemma BuildRootsAdvance(p: Processor, cubes: map<string, ElementAsset>, roots: seq<OutlinerNode>, k: nat,
                          hs: seq<int>, hs': seq<int>, pos: nat, level: Level)
    requires k < |roots|
    requires hs <= hs'
    requires BuildRoots(p, cubes, roots[..k], hs, pos) == Ok(level) && level.next <= |hs|
    ensures match BuildRoot(p, cubes, roots[k], hs', level)
      case Ok(level') => BuildRoots(p, cubes, roots[..k + 1], hs', pos) == Ok(level')
      case Err(e) => BuildRoots(p, cubes, roots, hs', pos) == Err(e)
  {
    BuildRootsStable(p, cubes, roots[..k], hs, hs', pos);
    BuildRootsStep(p, cubes, roots, k, hs', pos, level);
    if BuildRoots(p, cubes, roots[..k + 1], hs', pos).Err? {
      BuildRootsErrPersists(p, cubes, roots, k + 1, hs', pos);
    }
  }

  /**
   * A bone whose children loop succeeded, built after the cursor has issued
   * more handles, is assembled from that loop's result and the next handle.
   */
  lemma BuildBoneAdvance(p: Processor, pp: Vec3, cubes: map<string, ElementAsset>, j: BoneJson,
                         hs: seq<int>, hs': seq<int>, pos: nat, level: Level)
    requires hs <= hs'
    requires BuildChildren(p, ScaledPivot(FlipX(j.origin)), cubes, j, |j.children|, hs, pos) == Ok(level)
    requires level.next <= |hs|
    ensures BuildBone(p, pp, cubes, j, hs', pos) == Ok(AssembleBone(p, pp, j, level, HandleAt(hs', level.next)))
  {
    BuildChildrenStable(p, ScaledPivot(FlipX(j.origin)), cubes, j, |j.children|, hs, hs', pos);
    BuildBoneUnfold(p, pp, cubes, j, hs', pos);
  }
}
