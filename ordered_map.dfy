/**
 * A string-keyed map that remembers insertion order, with the `put` semantics
 * of java.util.LinkedHashMap: putting a new key appends an entry, putting a key
 * that is already present replaces its value and keeps its position.
 */
module OrderedMaps {
  import opened Wrappers

  datatype OrderedMap<V> = OrderedMap(entries: seq<(string, V)>) {

    /** Keys are unique; every map built from Empty() by Put keeps this. */
    ghost predicate Valid() {
      forall i, j :: 0 <= i < j < |entries| ==> entries[i].0 != entries[j].0
    }

    function Keys(): (ks: seq<string>)
      ensures |ks| == |entries|
      ensures forall i :: 0 <= i < |entries| ==> ks[i] == entries[i].0
    {
      seq(|entries|, i requires 0 <= i < |entries| => entries[i].0)
    }

    /** The values in insertion order, as `values()`. */
    function Values(): (vs: seq<V>)
      ensures |vs| == |entries|
      ensures forall i :: 0 <= i < |entries| ==> vs[i] == entries[i].1
    {
      seq(|entries|, i requires 0 <= i < |entries| => entries[i].1)
    }

    /** The value stored under `k`, as `get(k)` (None for Java's null). */
    function Get(k: string): (r: Option<V>)
      ensures r.Some? <==> k in Keys()
      ensures r.Some? ==> exists i :: 0 <= i < |entries| && entries[i] == (k, r.value)
    {
      match IndexOf(entries, k)
      case None => None
      case Some(i) => Some(entries[i].1)
    }

    /**
     * `put(k, v)`: a key already present keeps its position and takes the new
     * value; a new key is appended (PutGet, PutKeys and PutValid state this).
     */
    function Put(k: string, v: V): OrderedMap<V> {
      match IndexOf(entries, k)
      case Some(i) => OrderedMap(entries[i := (k, v)])
      case None => OrderedMap(entries + [(k, v)])
    }
  }

  function Empty<V>(): (m: OrderedMap<V>)
    ensures m.Valid() && m.Keys() == [] && m.Values() == []
  {
    OrderedMap([])
  }

  /** The position of the first entry whose key is `k`. */
  function IndexOf<V>(es: seq<(string, V)>, k: string): (r: Option<nat>)
    ensures r.Some? ==> r.value < |es| && es[r.value].0 == k
    ensures r.Some? ==> forall i :: 0 <= i < r.value ==> es[i].0 != k
    ensures r.None? ==> forall i :: 0 <= i < |es| ==> es[i].0 != k
  {
    if |es| == 0 then None
    else if es[0].0 == k then Some(0)
    else
      match IndexOf(es[1..], k)
      case None => None
      case Some(i) => Some(i + 1)
  }

  /** The first entry for a key determines IndexOf, whatever follows it. */
  lemma IndexOfFirst<V>(es: seq<(string, V)>, k: string, i: nat)
    requires i < |es| && es[i].0 == k
    requires forall j :: 0 <= j < i ==> es[j].0 != k
    ensures IndexOf(es, k) == Some(i)
  {
  }

  lemma PutAtIndex<V>(m: OrderedMap<V>, i: nat, k: string, v: V)
    requires i < |m.entries| && m.entries[i].0 == k
    requires forall j :: 0 <= j < i ==> m.entries[j].0 != k
    ensures var m' := OrderedMap(m.entries[i := (k, v)]);
      && m'.Get(k) == Some(v)
      && (forall k' :: k' != k ==> m'.Get(k') == m.Get(k'))
  {
    var es' := m.entries[i := (k, v)];
    IndexOfFirst(es', k, i);
    forall k' | k' != k
      ensures OrderedMap(es').Get(k') == m.Get(k')
    {
      match IndexOf(m.entries, k')
      case None =>
      case Some(j) => IndexOfFirst(es', k', j);
    }
  }

  lemma PutAppend<V>(m: OrderedMap<V>, k: string, v: V)
    requires forall j :: 0 <= j < |m.entries| ==> m.entries[j].0 != k
    ensures var m' := OrderedMap(m.entries + [(k, v)]);
      && m'.Get(k) == Some(v)
      && (forall k' :: k' != k ==> m'.Get(k') == m.Get(k'))
  {
    var es' := m.entries + [(k, v)];
    IndexOfFirst(es', k, |m.entries|);
    forall k' | k' != k
      ensures OrderedMap(es').Get(k') == m.Get(k')
    {
      match IndexOf(m.entries, k')
      case None =>
      case Some(j) => IndexOfFirst(es', k', j);
    }
  }

  /** After `put(k, v)`, `get(k)` yields v and every other key's lookup is unchanged. */
  lemma PutGet<V>(m: OrderedMap<V>, k: string, v: V)
    ensures m.Put(k, v).Get(k) == Some(v)
    ensures forall k' :: k' != k ==> m.Put(k, v).Get(k') == m.Get(k')
  {
    match IndexOf(m.entries, k)
    case Some(i) => PutAtIndex(m, i, k, v);
    case None => PutAppend(m, k, v);
  }

  /** `put` keeps the key order: a present key stays where it is, a new key goes last. */
  lemma PutKeys<V>(m: OrderedMap<V>, k: string, v: V)
    ensures m.Put(k, v).Keys() == if k in m.Keys() then m.Keys() else m.Keys() + [k]
  {
    match IndexOf(m.entries, k)
    case Some(i) =>
      assert m.Get(k).Some?;
      assert m.Put(k, v).Keys() == m.Keys();
    case None =>
      assert m.Get(k).None?;
      assert m.Put(k, v).Keys() == m.Keys() + [k];
  }

  /** `put` keeps the keys unique. */
  lemma PutValid<V>(m: OrderedMap<V>, k: string, v: V)
    requires m.Valid()
    ensures m.Put(k, v).Valid()
  {
    match IndexOf(m.entries, k)
    case Some(i) =>
    case None =>
  }

  /** `put` adds no value but the one it stores. */
  lemma PutValues<V>(m: OrderedMap<V>, k: string, v: V)
    ensures forall x :: x in m.Put(k, v).Values() ==> x == v || x in m.Values()
  {
    var vs := m.Put(k, v).Values();
    forall x | x in vs
      ensures x == v || x in m.Values()
    {
      var l :| 0 <= l < |vs| && vs[l] == x;
      if m.Put(k, v).entries[l] != (k, v) {
        assert m.Put(k, v).entries[l] == m.entries[l];
        assert m.Values()[l] == x;
      }
    }
  }

  /**
   * After `put(k, v)` on a map with unique keys, every entry is the new pair
   * or an old pair under another key: nothing else is created.
   */
  lemma PutEntries<V>(m: OrderedMap<V>, k: string, v: V)
    requires m.Valid()
    ensures forall e :: e in m.Put(k, v).entries ==> e == (k, v) || (e in m.entries && e.0 != k)
  {
    match IndexOf(m.entries, k)
    case Some(i) =>
      forall e | e in m.Put(k, v).entries
        ensures e == (k, v) || (e in m.entries && e.0 != k)
      {
        var l :| 0 <= l < |m.entries| && m.entries[i := (k, v)][l] == e;
      }
    case None =>
  }

  /**
   * In a map with unique keys, the values are exactly what `get` returns for
   * some key: `values()` is the collection view of the map.
   */
  lemma ValuesAreLookups<V>(m: OrderedMap<V>)
    requires m.Valid()
    ensures forall x :: x in m.Values() <==> exists k :: m.Get(k) == Some(x)
  {
    forall x | x in m.Values()
      ensures exists k :: m.Get(k) == Some(x)
    {
      var i :| 0 <= i < |m.entries| && m.entries[i].1 == x;
      IndexOfFirst(m.entries, m.entries[i].0, i);
      assert m.Get(m.entries[i].0) == Some(x);
    }
  }
}
