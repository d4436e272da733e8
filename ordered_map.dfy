/**
  JavaScript's `Map`: every key is bound to one value, and iteration visits the
  keys in the order in which they were first inserted. `set` on a key that is
  already present replaces its value and keeps its position.
 */
module OrderedMaps {
  import opened Wrappers

  datatype OrderedMap<K(==,!new), V> = OrderedMap(keys: seq<K>, values: map<K, V>) {

    /** The keys are listed once each, and exactly the bound keys are listed. */
    ghost predicate Valid() {
      && (forall i, j :: 0 <= i < j < |keys| ==> keys[i] != keys[j])
      && (forall k :: k in values <==> k in keys)
    }

    /** `map.size` */
    function Size(): nat {
      |keys|
    }

    /** `map.has(k)` */
    predicate Has(k: K) {
      k in values
    }

    /** `map.get(k)`: `undefined` (None) for a key that is not bound. */
    function Get(k: K): (r: Option<V>)
      ensures r.Some? <==> Has(k)
    {
      if k in values then Some(values[k]) else None
    }

    /** `map.set(k, v)` */
    function Set(k: K, v: V): (r: OrderedMap<K, V>)
      ensures r.Get(k) == Some(v)
      ensures forall k' :: k' != k ==> r.Get(k') == Get(k')
      ensures r.Size() == if Has(k) then Size() else Size() + 1
      ensures keys <= r.keys
      ensures Valid() ==> r.Valid()
    {
      if k in values then OrderedMap(keys, values[k := v])
      else OrderedMap(keys + [k], values[k := v])
    }

    /** The values in key-insertion order, as `for (const [, v] of map)` visits them. */
    function OrderedValues(): (r: seq<V>)
      requires Valid()
      ensures |r| == Size()
      ensures forall i :: 0 <= i < |r| ==> r[i] == values[keys[i]]
    {
      seq(|keys|, i requires 0 <= i < |keys| => values[keys[i]])
    }
  }

  /** `new Map()` and the state `map.clear()` leaves behind. */
  function Empty<K(==,!new), V>(): (r: OrderedMap<K, V>)
    ensures r.Valid() && r.Size() == 0
    ensures forall k :: r.Get(k) == None
  {
    OrderedMap([], map[])
  }

  /** Distinct keys in a sequence number as many as the set they form. */
  lemma {:induction false} DistinctCardinality<K(!new)>(ks: seq<K>)
    requires forall i, j :: 0 <= i < j < |ks| ==> ks[i] != ks[j]
    ensures |set k | k in ks| == |ks|
  {
    if ks != [] {
      var rest := ks[1..];
      DistinctCardinality(rest);
      assert (set k | k in ks) == {ks[0]} + (set k | k in rest);
      assert ks[0] !in (set k | k in rest) by {
        forall j | 0 <= j < |rest| ensures rest[j] != ks[0] {
          assert rest[j] == ks[j + 1];
        }
      }
    }
  }

  /** `map.size` counts exactly the keys that are bound. */
  lemma SizeIsBoundKeys<K(!new), V>(m: OrderedMap<K, V>)
    requires m.Valid()
    ensures m.Size() == |m.values.Keys|
  {
    DistinctCardinality(m.keys);
    assert m.values.Keys == set k | k in m.keys;
  }

  /** Sequence concatenation associates. */
  lemma AppendAssociates<T>(a: seq<T>, b: seq<T>, c: seq<T>)
    ensures (a + b) + c == a + (b + c)
  {
  }
}
