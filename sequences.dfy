/** Flattening and duplicate-freedom of sequences, shared by the bone-tree invariants. */
module Sequences {

  function Concat<T>(ss: seq<seq<T>>): seq<T> {
    if ss == [] then [] else ss[0] + Concat(ss[1..])
  }

  predicate NoDuplicates<T(==)>(s: seq<T>) {
    forall i, j :: 0 <= i < j < |s| ==> s[i] != s[j]
  }

  lemma {:induction false} ConcatAppend<T>(ss: seq<seq<T>>, t: seq<T>)
    ensures Concat(ss + [t]) == Concat(ss) + t
  {
    if ss != [] {
      assert (ss + [t])[1..] == ss[1..] + [t];
      ConcatAppend(ss[1..], t);
    }
  }

  /** Each part of a flattened sequence is a contiguous slice of it. */
  lemma {:induction false} ConcatSlice<T>(ss: seq<seq<T>>, k: nat)
    requires k < |ss|
    ensures Concat(ss) == Concat(ss[..k]) + ss[k] + Concat(ss[k + 1..])
  {
    if k > 0 {
      ConcatSlice(ss[1..], k - 1);
      assert ss[1..][..k - 1] == ss[1..k];
      assert ss[1..][k - 1 + 1..] == ss[k + 1..];
      assert ss[..k] == [ss[0]] + ss[1..k];
      assert Concat(ss[..k]) == ss[0] + Concat(ss[1..k]);
    } else {
      assert ss[k + 1..] == ss[1..];
    }
  }

  lemma NoDuplicatesSlice<T>(a: seq<T>, b: seq<T>, c: seq<T>)
    requires NoDuplicates(a + b + c)
    ensures NoDuplicates(b)
  {
    forall i, j | 0 <= i < j < |b|
      ensures b[i] != b[j]
    {
      assert b[i] == (a + b + c)[|a| + i];
      assert b[j] == (a + b + c)[|a| + j];
    }
  }
}
