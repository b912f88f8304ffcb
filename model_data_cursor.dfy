/**
 * ModelDataCursor: the source of custom model data handles. Its code is not
 * part of this model; what the reader relies on is that `next()` never returns
 * a value it returned before. The counter below is one implementation of that
 * promise; its increment rule is not part of the contract.
 */
module ModelData {
  import opened Sequences

  class ModelDataCursor {
    var counter: int
    /** Every value `next()` has returned, in order. */
    ghost var issued: seq<int>

    ghost predicate Valid()
      reads this
    {
      && NoDuplicates(issued)
      && forall i :: 0 <= i < |issued| ==> issued[i] < counter
    }

    constructor (start: int)
      ensures Valid() && issued == []
    {
      counter := start;
      issued := [];
    }

    /** `next()`: a handle that was never returned before. */
    method Next() returns (handle: int)
      requires Valid()
      modifies this
      ensures Valid()
      ensures issued == old(issued) + [handle]
      ensures handle !in old(issued)
    {
      handle := counter;
      counter := counter + 1;
      issued := issued + [handle];
    }
  }
}
