/** A JavaScript `Map`: its entries, and its keys in the order they were first
    inserted, which is the order `keys()` and `values()` iterate in. */
module OrderedMaps {
  import opened Wrappers

  predicate NoDuplicates<K(==)>(s: seq<K>) {
    forall i, j :: 0 <= i < j < |s| ==> s[i] != s[j]
  }

  /** s with every key in ks removed, the rest kept in order. */
  function WithoutAll<K(==,!new)>(s: seq<K>, ks: set<K>): (r: seq<K>)
    ensures forall x :: x in r <==> x in s && x !in ks
    ensures NoDuplicates(s) ==> NoDuplicates(r)
    ensures ks !! (set x | x in s) ==> r == s
  {
    if s == [] then []
    else
      var rest := WithoutAll(s[1..], ks);
      assert NoDuplicates(s) ==> NoDuplicates(s[1..]) && s[0] !in s[1..];
      if s[0] in ks then rest else [s[0]] + rest
  }

  /** Removing one key after a set of keys removes their union. */
  lemma {:induction false} WithoutAllStep<K(!new)>(s: seq<K>, ks: set<K>, k: K)
    ensures WithoutAll(WithoutAll(s, ks), {k}) == WithoutAll(s, ks + {k})
  {
    if s != [] {
      WithoutAllStep(s[1..], ks, k);
      var rest := WithoutAll(s[1..], ks);
      if s[0] !in ks {
        assert ([s[0]] + rest)[1..] == rest;
      }
    }
  }

  datatype OrderedMap<K(==,!new), V> = OrderedMap(order: seq<K>, entries: map<K, V>) {
    ghost predicate Valid() {
      NoDuplicates(order) && forall k :: k in entries <==> k in order
    }

    /** `map.get(k)` */
    function Get(k: K): (r: Option<V>)
      ensures r.Some? <==> k in entries
      ensures r.Some? ==> r.value == entries[k]
    {
      if k in entries then Some(entries[k]) else None
    }

    /** `map.set(k, v)`: a new key goes last; an existing key keeps its place. */
    function Set(k: K, v: V): (r: OrderedMap<K, V>)
      requires Valid()
      ensures r.Valid()
      ensures r.entries == entries[k := v]
      ensures k in entries ==> r.order == order
      ensures k !in entries ==> r.order == order + [k]
    {
      OrderedMap(if k in entries then order else order + [k], entries[k := v])
    }

    /** `map.delete(k)` for every k in ks; keys that are absent are ignored. */
    function DeleteAll(ks: set<K>): (r: OrderedMap<K, V>)
      requires Valid()
      ensures r.Valid()
      ensures r.entries == entries - ks
      ensures r.order == WithoutAll(order, ks)
      ensures ks !! entries.Keys ==> r == this
    {
      OrderedMap(WithoutAll(order, ks), entries - ks)
    }

    /** `map.delete(k)`: removing an absent key leaves the map as it was. */
    function Delete(k: K): (r: OrderedMap<K, V>)
      requires Valid()
      ensures r.Valid()
      ensures r.entries == entries - {k}
      ensures r.order == WithoutAll(order, {k})
      ensures k !in entries ==> r == this
    {
      DeleteAll({k})
    }
  }

  function EmptyMap<K(==,!new), V>(): (m: OrderedMap<K, V>)
    ensures m.Valid() && m.entries == map[] && m.order == []
  {
    OrderedMap([], map[])
  }

  /** Deleting keys one at a time is deleting them all at once. */
  lemma DeleteAllThenDelete<K(!new), V>(m: OrderedMap<K, V>, ks: set<K>, k: K)
    requires m.Valid()
    ensures m.DeleteAll(ks).Delete(k) == m.DeleteAll(ks + {k})
  {
    WithoutAllStep(m.order, ks, k);
    assert (m.entries - ks) - {k} == m.entries - (ks + {k});
  }
}
