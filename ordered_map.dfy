/** The insertion-ordered maps (Kotlin `mutableMapOf`, a LinkedHashMap) that hold
    every builder registry and child-builder table of the DSL. */
module OrderedMaps {
  import opened Common

  datatype OMap<K(==), V> = OMap(keys: seq<K>, entries: map<K, V>) {

    /** Keys are listed once each, and exactly the keys of the map are listed. */
    predicate Valid()
    {
      Distinct(keys) && (forall k :: k in entries ==> k in keys) && (forall k :: k in keys ==> k in entries)
    }

    function Get(k: K): (r: Option<V>)
      ensures r.Some? <==> k in entries
      ensures r.Some? ==> r.value == entries[k]
    {
      if k in entries then Some(entries[k]) else None
    }

    /** `put`: a new key goes to the end of the order, an existing key keeps its
        position and takes the new value. */
    function Put(k: K, v: V): (r: OMap<K, V>)
      requires Valid()
      ensures r.Valid()
      ensures r.entries == entries[k := v]
      ensures k in entries ==> r.keys == keys
      ensures k !in entries ==> r.keys == keys + [k]
    {
      if k in entries then OMap(keys, entries[k := v]) else OMap(keys + [k], entries[k := v])
    }

    /** The values in key order (`map.values`, `forEach`). */
    function Values(): (r: seq<V>)
      requires Valid()
      ensures |r| == |keys|
      ensures forall i :: 0 <= i < |keys| ==> r[i] == entries[keys[i]]
    {
      seq(|keys|, i requires 0 <= i < |keys| => entries[keys[i]])
    }
  }

  function Empty<K(==), V>(): (r: OMap<K, V>)
    ensures r.Valid() && r.keys == [] && r.entries == map[]
  {
    OMap([], map[])
  }

  /** Putting the keys `xs` one after the other leaves the map ordered by first occurrence. */
  lemma {:induction false} PutKeepsFirstOccurrenceOrder<K, V>(m: OMap<K, V>, xs: seq<K>, k: K, v: V)
    requires m.Valid() && m.keys == Dedup(xs)
    ensures m.Put(k, v).keys == Dedup(xs + [k])
  {
    DedupIsOrderedSet(xs);
    assert (xs + [k])[..|xs + [k]| - 1] == xs;
  }

  /** The step of a loop that puts `xs[0]`, `xs[1]`, … in turn. */
  lemma PutNextKey<K, V>(m: OMap<K, V>, xs: seq<K>, i: nat, v: V)
    requires m.Valid() && i < |xs| && m.keys == Dedup(xs[..i])
    ensures m.Put(xs[i], v).keys == Dedup(xs[..i + 1])
  {
    PutKeepsFirstOccurrenceOrder(m, xs[..i], xs[i], v);
    assert xs[..i + 1] == xs[..i] + [xs[i]];
  }
}
