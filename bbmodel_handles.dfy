/**
 * Custom model data handles of the bone tree the reader builds. Every bone
 * draws one handle from the cursor after its children, so the handles of a
 * subtree are drawn from one contiguous stretch of the cursor's output, the
 * children's before the parent's own; since the cursor never repeats a value,
 * no two bones of a model share a handle, even where a later sibling with the
 * same name replaced an earlier one.
 */
module BBModelHandles {
  import opened Wrappers
  import opened Vectors
  import opened OrderedMaps
  import opened Sequences
  import opened BBModelTypes
  import opened BBModelSpec
  import opened BBModelSteps
  import opened BBModelStability

  /** The handles of a bone and all its descendants, with multiplicity. */
  function TreeHandles(b: ReadBone): multiset<int>
    decreases b, 1
  {
    multiset{b.asset.customModelData} + ReadForestHandles(b.bones, |b.bones.entries|)
  }

  /** The handles of the trees stored in the first i entries of m. */
  function ReadForestHandles(m: OrderedMap<ReadBone>, i: nat): multiset<int>
    requires i <= |m.entries|
    decreases m, 0, i
  {
    if i == 0 then multiset{} else ReadForestHandles(m, i - 1) + TreeHandles(m.entries[i - 1].1)
  }

  /** The handles of all trees of a sibling map. */
  function MapHandles(m: OrderedMap<ReadBone>): multiset<int> {
    ReadForestHandles(m, |m.entries|)
  }

  /** The values the cursor returned at indexes from..to-1, with multiplicity. */
  function Drawn(hs: seq<int>, from: nat, to: nat): multiset<int>
    requires from <= to <= |hs|
  {
    multiset(hs[from..to])
  }

  lemma DrawnSplit(hs: seq<int>, a: nat, b: nat, c: nat)
    requires a <= b <= c <= |hs|
    ensures Drawn(hs, a, c) == Drawn(hs, a, b) + Drawn(hs, b, c)
  {
    assert hs[a..c] == hs[a..b] + hs[b..c];
  }

  lemma DrawnLast(hs: seq<int>, a: nat, b: nat)
    requires a <= b < |hs|
    ensures Drawn(hs, a, b + 1) == Drawn(hs, a, b) + multiset{hs[b]}
  {
    assert hs[a..b + 1] == hs[a..b] + [hs[b]];
  }

  lemma UnionMono(a: multiset<int>, b: multiset<int>, c: multiset<int>, d: multiset<int>)
    requires a <= b && c <= d
    ensures a + c <= b + d
  {
    forall x ensures (a + c)[x] <= (b + d)[x] {
      assert a[x] <= b[x] && c[x] <= d[x];
    }
  }

  lemma {:induction false} ForestSame(m: OrderedMap<ReadBone>, m': OrderedMap<ReadBone>, n: nat)
    requires n <= |m.entries| && n <= |m'.entries|
    requires m.entries[..n] == m'.entries[..n]
    ensures ReadForestHandles(m, n) == ReadForestHandles(m', n)
  {
    if n > 0 {
      assert m.entries[..n - 1] == m.entries[..n][..n - 1];
      assert m'.entries[..n - 1] == m'.entries[..n][..n - 1];
      assert m.entries[n - 1] == m.entries[..n][n - 1];
      assert m'.entries[n - 1] == m'.entries[..n][n - 1];
      ForestSame(m, m', n - 1);
    }
  }

  /** Replacing the entry at index i swaps that tree's handles for the new tree's. */
  lemma {:induction false} ForestReplace(m: OrderedMap<ReadBone>, i: nat, e: (string, ReadBone), n: nat)
    requires i < n <= |m.entries|
    ensures ReadForestHandles(OrderedMap(m.entries[i := e]), n) + TreeHandles(m.entries[i].1)
            == ReadForestHandles(m, n) + TreeHandles(e.1)
  {
    var m' := OrderedMap(m.entries[i := e]);
    if n == i + 1 {
      assert m.entries[..i] == m'.entries[..i];
      ForestSame(m, m', i);
    } else {
      ForestReplace(m, i, e, n - 1);
      assert m'.entries[n - 1] == m.entries[n - 1];
      assert ReadForestHandles(m', n) == ReadForestHandles(m', n - 1) + TreeHandles(m.entries[n - 1].1);
      assert ReadForestHandles(m, n) == ReadForestHandles(m, n - 1) + TreeHandles(m.entries[n - 1].1);
      var lhs := ReadForestHandles(m', n) + TreeHandles(m.entries[i].1);
      var rhs := ReadForestHandles(m, n) + TreeHandles(e.1);
      forall x ensures lhs[x] == rhs[x] {
        assert (ReadForestHandles(m', n - 1) + TreeHandles(m.entries[i].1))[x]
            == (ReadForestHandles(m, n - 1) + TreeHandles(e.1))[x];
      }
      assert lhs == rhs;
    }
  }

  /** `put` adds the handles of the new tree and at most drops those of the tree it replaces. */
  lemma PutHandles(m: OrderedMap<ReadBone>, k: string, v: ReadBone)
    ensures MapHandles(m.Put(k, v)) <= MapHandles(m) + TreeHandles(v)
  {
    match IndexOf(m.entries, k)
    case Some(i) =>
      ForestReplace(m, i, (k, v), |m.entries|);
    case None =>
      var m' := OrderedMap(m.entries + [(k, v)]);
      assert m'.entries[..|m.entries|] == m.entries[..|m.entries|];
      ForestSame(m, m', |m.entries|);
  }

  /**
   * The handles of a built bone were drawn from the stretch of the cursor's
   * output it consumed; those of its descendants before its own, which is
   * the last one.
   */
  lemma {:induction false} BuildBoneHandles(p: Processor, pp: Vec3, cubes: map<string, ElementAsset>,
                                            j: BoneJson, hs: seq<int>, pos: nat)
    requires BuildBone(p, pp, cubes, j, hs, pos).Ok? && BuildBone(p, pp, cubes, j, hs, pos).value.next <= |hs|
    ensures var out := BuildBone(p, pp, cubes, j, hs, pos).value;
      && out.bone.asset.customModelData == hs[out.next - 1]
      && MapHandles(out.bone.bones) <= Drawn(hs, pos, out.next - 1)
      && TreeHandles(out.bone) <= Drawn(hs, pos, out.next)
    decreases j, 1, 0
  {
    var sp := ScaledPivot(FlipX(j.origin));
    var out := BuildBone(p, pp, cubes, j, hs, pos).value;
    var children := BuildChildren(p, sp, cubes, j, |j.children|, hs, pos);
    assert children.Ok? && out.bone.bones == children.value.bones && out.next == children.value.next + 1
        && out.bone.asset.customModelData == HandleAt(hs, children.value.next) by {
      BuildBoneUnfold(p, pp, cubes, j, hs, pos);
    }
    var next := children.value.next;
    BuildChildrenHandles(p, sp, cubes, j, |j.children|, hs, pos);
    assert TreeHandles(out.bone) == MapHandles(out.bone.bones) + multiset{hs[next]};
    DrawnLast(hs, pos, next);
    UnionMono(MapHandles(out.bone.bones), Drawn(hs, pos, next), multiset{hs[next]}, multiset{hs[next]});
  }

  lemma {:induction false} BuildChildrenHandles(p: Processor, sp: Vec3, cubes: map<string, ElementAsset>,
                                                j: BoneJson, i: nat, hs: seq<int>, pos: nat)
    requires i <= |j.children|
    requires BuildChildren(p, sp, cubes, j, i, hs, pos).Ok? && BuildChildren(p, sp, cubes, j, i, hs, pos).value.next <= |hs|
    ensures var level := BuildChildren(p, sp, cubes, j, i, hs, pos).value;
      MapHandles(level.bones) <= Drawn(hs, pos, level.next)
    decreases j, 0, i
  {
    if i > 0 {
      BuildChildrenSplit(p, sp, cubes, j, i, hs, pos);
      var level := BuildChildren(p, sp, cubes, j, i - 1, hs, pos).value;
      var level' := BuildChildren(p, sp, cubes, j, i, hs, pos).value;
      assert MapHandles(level.bones) <= Drawn(hs, pos, level.next) by {
        BuildChildrenHandles(p, sp, cubes, j, i - 1, hs, pos);
      }
      BuildChildHandles(p, sp, cubes, j.name, j.children[i - 1], hs, level);
      HandlesAccumulate(hs, pos, level.bones, level.next, level'.bones, level'.next);
    }
  }

  lemma HandlesAccumulate(hs: seq<int>, pos: nat, m: OrderedMap<ReadBone>, next: nat,
                          m': OrderedMap<ReadBone>, next': nat)
    requires pos <= next <= next' <= |hs|
    requires MapHandles(m) <= Drawn(hs, pos, next)
    requires MapHandles(m') <= MapHandles(m) + Drawn(hs, next, next')
    ensures MapHandles(m') <= Drawn(hs, pos, next')
  {
    DrawnSplit(hs, pos, next, next');
    UnionMono(MapHandles(m), Drawn(hs, pos, next), Drawn(hs, next, next'), Drawn(hs, next, next'));
  }

  /** One child adds to its parent's map only handles it drew itself. */
  lemma {:induction false} BuildChildHandles(p: Processor, sp: Vec3, cubes: map<string, ElementAsset>,
                                             parent: string, c: OutlinerNode, hs: seq<int>, level: Level)
    requires BuildChild(p, sp, cubes, parent, c, hs, level).Ok?
    requires BuildChild(p, sp, cubes, parent, c, hs, level).value.next <= |hs|
    ensures var level' := BuildChild(p, sp, cubes, parent, c, hs, level).value;
      MapHandles(level'.bones) <= MapHandles(level.bones) + Drawn(hs, level.next, level'.next)
    decreases c, 0, 0
  {
    match c
    case ObjectNode(b) =>
      var out := BuildBone(p, sp, cubes, b, hs, level.next).value;
      BuildBoneHandles(p, sp, cubes, b, hs, level.next);
      PutHandles(level.bones, b.name, out.bone);
      UnionMono(MapHandles(level.bones), MapHandles(level.bones), TreeHandles(out.bone), Drawn(hs, level.next, out.next));
    case StringNode(_) =>
    case OtherNode =>
  }

  lemma {:induction false} BuildRootsHandles(p: Processor, cubes: map<string, ElementAsset>, roots: seq<OutlinerNode>,
                                             hs: seq<int>, pos: nat)
    requires BuildRoots(p, cubes, roots, hs, pos).Ok? && BuildRoots(p, cubes, roots, hs, pos).value.next <= |hs|
    ensures var level := BuildRoots(p, cubes, roots, hs, pos).value;
      MapHandles(level.bones) <= Drawn(hs, pos, level.next)
  {
    if roots != [] {
      var level := BuildRoots(p, cubes, roots[..|roots| - 1], hs, pos).value;
      BuildRootsHandles(p, cubes, roots[..|roots| - 1], hs, pos);
      var level' := BuildRoots(p, cubes, roots, hs, pos).value;
      match roots[|roots| - 1]
      case ObjectNode(b) =>
        var out := BuildBone(p, Zero3, cubes, b, hs, level.next).value;
        BuildBoneHandles(p, Zero3, cubes, b, hs, level.next);
        PutHandles(level.bones, b.name, out.bone);
        DrawnSplit(hs, pos, level.next, out.next);
        UnionMono(MapHandles(level.bones), Drawn(hs, pos, level.next), TreeHandles(out.bone), Drawn(hs, level.next, out.next));
      case StringNode(_) =>
      case OtherNode =>
    }
  }

  /** A sequence without duplicates holds each value at most once. */
  lemma {:induction false} NoDuplicatesMultiset(s: seq<int>)
    requires NoDuplicates(s)
    ensures forall x :: multiset(s)[x] <= 1
  {
    if s != [] {
      var init := s[..|s| - 1];
      assert s == init + [s[|s| - 1]];
      assert NoDuplicates(init);
      NoDuplicatesMultiset(init);
      assert s[|s| - 1] !in init;
    }
  }

  /**
   * The handles of a model read with a cursor that never repeats a value are
   * pairwise distinct, and none of them was issued before the model was read.
   */
  lemma ModelHandlesDistinct(p: Processor, d: Document, hs: seq<int>, pos: nat)
    requires d.width != 0 && d.height != 0
    requires ReadModel(p, d, hs, pos).Ok? && pos + RootsBoneCount(d.outliner) <= |hs|
    requires NoDuplicates(hs)
    ensures var model := ReadModel(p, d, hs, pos).value;
      && (forall h :: MapHandles(model.bones)[h] <= 1)
      && (forall h :: h in MapHandles(model.bones) ==> h in hs[pos..] && h !in hs[..pos])
  {
    var cubes := CubeMap(d.elements, d.width, d.height).value;
    var level := BuildRoots(p, cubes, d.outliner, hs, pos).value;
    BuildRootsHandles(p, cubes, d.outliner, hs, pos);
    var drawn := hs[pos..level.next];
    assert NoDuplicates(drawn);
    NoDuplicatesMultiset(drawn);
    forall h | h in MapHandles(level.bones)
      ensures h in hs[pos..] && h !in hs[..pos]
    {
      assert h in drawn;
      var k :| 0 <= k < |drawn| && drawn[k] == h;
      assert hs[pos + k] == h;
    }
  }
}
