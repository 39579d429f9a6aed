/** Python's insertion-ordered dictionaries, as `OrderedDict` is used by auth/token_pool.py. */
module OrderedDict {
  import opened Prelude

  datatype Dict<K, V> = Dict(entries: map<K, V>, order: seq<K>)

  ghost predicate Valid<K(!new), V>(d: Dict<K, V>) {
    Distinct(d.order) && forall k :: k in d.order <==> k in d.entries
  }

  function Without<K(==, !new)>(keys: seq<K>, key: K): (r: seq<K>)
    ensures forall k :: k in r <==> k in keys && k != key
    ensures Distinct(keys) ==> Distinct(r)
    ensures |r| <= |keys|
    ensures key !in keys ==> r == keys
  {
    if keys == [] then []
    else
      assert Distinct(keys) ==> Distinct(keys[1..]) && keys[0] !in keys[1..];
      assert keys == [keys[0]] + keys[1..];
      var rest := Without(keys[1..], key);
      if keys[0] == key then rest else [keys[0]] + rest
  }

  function Empty<K, V>(): Dict<K, V> { Dict(map[], []) }

  /** `d.pop(key, None)`. */
  function Pop<K(==, !new), V>(d: Dict<K, V>, key: K): Dict<K, V> {
    Dict(d.entries - {key}, Without(d.order, key))
  }

  /** `d[key] = value; d.move_to_end(key)`. */
  function PutLast<K(==, !new), V>(d: Dict<K, V>, key: K, value: V): Dict<K, V> {
    Dict(d.entries[key := value], Without(d.order, key) + [key])
  }

  lemma PopValid<K(!new), V>(d: Dict<K, V>, key: K)
    requires Valid(d)
    ensures Valid(Pop(d, key))
    ensures |Pop(d, key).entries| == |d.entries| - if key in d.entries then 1 else 0
  {
    var p := Pop(d, key);
    assert p.entries.Keys == d.entries.Keys - {key};
    assert forall k :: k in p.order <==> k in d.order && k != key;
  }

  lemma PutLastValid<K(!new), V>(d: Dict<K, V>, key: K, value: V)
    requires Valid(d)
    ensures Valid(PutLast(d, key, value))
    ensures |PutLast(d, key, value).entries| == |d.entries| + if key in d.entries then 0 else 1
  {
    var p := PutLast(d, key, value);
    assert p.entries.Keys == d.entries.Keys + {key};
    assert forall k :: k in p.order <==> k in Without(d.order, key) || k == key;
  }

  /** Order and entries agree on the size. */
  lemma {:induction false} SameSize<K(!new), V>(d: Dict<K, V>)
    requires Valid(d)
    ensures |d.order| == |d.entries|
    decreases |d.order|
  {
    if d.order == [] {
      assert forall k :: k in d.entries ==> k in d.order;
      assert d.entries == map[];
    } else {
      var key := d.order[0];
      var rest := Dict(d.entries - {key}, d.order[1..]);
      assert d.order == [key] + rest.order;
      assert rest.entries.Keys == d.entries.Keys - {key};
      SameSize(rest);
    }
  }
}
