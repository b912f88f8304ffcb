/**
 * Bone (api/.../Bone.java): an immutable node of a model's bone tree. Every
 * field is set once by the constructor and read back unchanged by its accessor
 * (`name()`, `position()`, `rotation()`, `customModelData()`, `childrenMap()`,
 * `isParentOnly()` are the datatype's destructors); `children()` and `scale()`
 * are the functions below.
 */
module Bones {
  import opened Wrappers
  import opened Vectors
  import opened OrderedMaps
  import opened Sequences

  datatype Bone = Bone(
    name: string,
    position: Vec3,
    rotation: Vec3,
    childrenMap: OrderedMap<Bone>,
    customModelData: int,
    scale: real,
    isParentOnly: bool)
  {
    /** `children()`: the values of the children map, in its order. */
    function Children(): seq<Bone> {
      childrenMap.Values()
    }

    /**
     * The documented per-bone invariant, hereditary: scale is at least one,
     * and the children map is keyed by the children's own names.
     */
    ghost predicate Valid()
      decreases this
    {
      && scale >= 1.0
      && childrenMap.Valid()
      && forall i :: 0 <= i < |childrenMap.entries| ==>
           childrenMap.entries[i].0 == childrenMap.entries[i].1.name && childrenMap.entries[i].1.Valid()
    }

    /** `scale()`: one or greater, as its documentation promises. */
    function Scale(): (s: real)
      requires Valid()
      ensures s >= 1.0
    {
      scale
    }
  }

  /** The names of a bone and all its descendants, parent before children. */
  function Names(b: Bone): seq<string>
    decreases b
  {
    [b.name] + ForestNames(b.childrenMap)
  }

  /** The names of all bones of a forest, tree by tree. */
  function ForestNames(m: OrderedMap<Bone>): seq<string>
    decreases m
  {
    Concat(NameParts(m))
  }

  function NameParts(m: OrderedMap<Bone>): (parts: seq<seq<string>>)
    decreases m, 0
    ensures |parts| == |m.entries|
  {
    seq(|m.entries|, i requires 0 <= i < |m.entries| => Names(m.entries[i].1))
  }

  /** The handles of a bone and all its descendants, parent before children. */
  function Handles(b: Bone): seq<int>
    decreases b
  {
    [b.customModelData] + ForestHandles(b.childrenMap)
  }

  function ForestHandles(m: OrderedMap<Bone>): seq<int>
    decreases m
  {
    Concat(HandleParts(m))
  }

  function HandleParts(m: OrderedMap<Bone>): (parts: seq<seq<int>>)
    decreases m, 0
    ensures |parts| == |m.entries|
  {
    seq(|m.entries|, i requires 0 <= i < |m.entries| => Handles(m.entries[i].1))
  }

  /**
   * The invariants of a model's bone tree: every bone valid and keyed by its
   * name, bone names unique in the whole model, and custom model data handles
   * pairwise distinct (each binds one resource-pack model).
   */
  ghost predicate ValidModel(roots: OrderedMap<Bone>) {
    && roots.Valid()
    && (forall i :: 0 <= i < |roots.entries| ==> roots.entries[i].0 == roots.entries[i].1.name && roots.entries[i].1.Valid())
    && NoDuplicates(ForestNames(roots))
    && NoDuplicates(ForestHandles(roots))
  }

  /** `children()` yields exactly the bones of `childrenMap()`, each stored under its own name. */
  lemma ChildrenAreKeyedValues(b: Bone)
    requires b.Valid()
    ensures forall c :: c in b.Children() <==> b.childrenMap.Get(c.name) == Some(c)
  {
    var es := b.childrenMap.entries;
    var vs := b.Children();
    forall c | c in vs
      ensures b.childrenMap.Get(c.name) == Some(c)
    {
      var i :| 0 <= i < |vs| && vs[i] == c;
      KeyedEntryFound(b, i);
    }
    forall c: Bone | b.childrenMap.Get(c.name) == Some(c)
      ensures c in vs
    {
      var i :| 0 <= i < |es| && es[i] == (c.name, c);
      assert vs[i] == c;
    }
  }

  /** The i-th child of a valid bone is what `get` returns for its name. */
  lemma KeyedEntryFound(b: Bone, i: nat)
    requires b.Valid() && i < |b.childrenMap.entries|
    ensures b.childrenMap.Get(b.childrenMap.entries[i].1.name) == Some(b.childrenMap.entries[i].1)
  {
    var es := b.childrenMap.entries;
    assert es[i].0 == es[i].1.name;
    IndexOfFirst(es, es[i].0, i);
  }

  /**
   * The invariants are hereditary: the children of any root of a valid model
   * form a valid model themselves, so client code may recurse into them.
   */
  lemma ChildrenFormValidModel(roots: OrderedMap<Bone>, k: nat)
    requires ValidModel(roots)
    requires k < |roots.entries|
    ensures ValidModel(roots.entries[k].1.childrenMap)
  {
    var es := roots.entries;
    var b := es[k].1;
    var kids := b.childrenMap;
    var nameParts := NameParts(roots);
    ConcatSlice(nameParts, k);
    assert nameParts[k] == Names(b) == [b.name] + ForestNames(kids);
    assert ForestNames(roots) == Concat(nameParts[..k]) + [b.name] + ForestNames(kids) + Concat(nameParts[k + 1..]);
    NoDuplicatesSlice(Concat(nameParts[..k]) + [b.name], ForestNames(kids), Concat(nameParts[k + 1..]));
    var handleParts := HandleParts(roots);
    ConcatSlice(handleParts, k);
    assert handleParts[k] == Handles(b) == [b.customModelData] + ForestHandles(kids);
    assert ForestHandles(roots) == Concat(handleParts[..k]) + [b.customModelData] + ForestHandles(kids) + Concat(handleParts[k + 1..]);
    NoDuplicatesSlice(Concat(handleParts[..k]) + [b.customModelData], ForestHandles(kids), Concat(handleParts[k + 1..]));
  }
}
