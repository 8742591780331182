/** Python dictionaries keyed by name as the source uses them: values that remember the
    order in which their keys were first inserted. */
module PyDict {
  datatype Dict<V> = Dict(keys: seq<string>, values: map<string, V>)

  /** No key is listed twice. */
  ghost predicate Distinct(keys: seq<string>)
    decreases |keys|
  {
    |keys| == 0 || (Distinct(keys[..|keys| - 1]) && keys[|keys| - 1] !in keys[..|keys| - 1])
  }

  /** The keys listed once each, exactly the keys that have a value. */
  ghost predicate Valid<V>(d: Dict<V>)
  {
    Distinct(d.keys) && (forall k :: k in d.values <==> k in d.keys)
  }

  function Empty<V>(): (d: Dict<V>)
    ensures Valid(d) && d.keys == []
  {
    Dict([], map[])
  }

  /** d[k] = v: a new key goes to the end, an existing key keeps its place. */
  function Put<V>(d: Dict<V>, k: string, v: V): (r: Dict<V>)
    requires Valid(d)
    ensures Valid(r)
    ensures r.values == d.values[k := v]
    ensures r.keys == if k in d.values then d.keys else d.keys + [k]
  {
    if k in d.values then Dict(d.keys, d.values[k := v])
    else
      assert (d.keys + [k])[..|d.keys|] == d.keys;
      Dict(d.keys + [k], d.values[k := v])
  }

  /** d.items(), in insertion order. */
  function Items<V>(d: Dict<V>): (r: seq<(string, V)>)
    requires Valid(d)
    ensures |r| == |d.keys|
    ensures forall i :: 0 <= i < |r| ==> r[i] == (d.keys[i], d.values[d.keys[i]])
  {
    seq(|d.keys|, i requires 0 <= i < |d.keys| => (d.keys[i], d.values[d.keys[i]]))
  }

  /** The sum of f over the values stored under `keys`. */
  function SumOver<V>(keys: seq<string>, m: map<string, V>, f: V -> int): int
    requires forall k :: k in keys ==> k in m
  {
    if |keys| == 0 then 0 else SumOver(keys[..|keys| - 1], m, f) + f(m[keys[|keys| - 1]])
  }

  /** The sum of f over all values of the dictionary. */
  function Total<V>(d: Dict<V>, f: V -> int): int
    requires Valid(d)
  {
    SumOver(d.keys, d.values, f)
  }

  lemma {:induction false} SumOverUntouched<V>(keys: seq<string>, m: map<string, V>, f: V -> int, k: string, v: V)
    requires forall k' :: k' in keys ==> k' in m
    requires k !in keys
    ensures SumOver(keys, m[k := v], f) == SumOver(keys, m, f)
  {
    if |keys| > 0 {
      SumOverUntouched(keys[..|keys| - 1], m, f, k, v);
    }
  }

  lemma {:induction false} SumOverUpdate<V>(keys: seq<string>, m: map<string, V>, f: V -> int, k: string, v: V)
    requires forall k' :: k' in keys ==> k' in m
    requires Distinct(keys)
    requires k in keys
    ensures SumOver(keys, m[k := v], f) == SumOver(keys, m, f) - f(m[k]) + f(v)
  {
    var front := keys[..|keys| - 1];
    assert keys == front + [keys[|keys| - 1]];
    if keys[|keys| - 1] == k {
      SumOverUntouched(front, m, f, k, v);
    } else {
      SumOverUpdate(front, m, f, k, v);
    }
  }

  /** How d[k] = v changes the sum of f over the values. */
  lemma TotalPut<V>(d: Dict<V>, f: V -> int, k: string, v: V)
    requires Valid(d)
    ensures Total(Put(d, k, v), f) == Total(d, f) - (if k in d.values then f(d.values[k]) else 0) + f(v)
  {
    if k in d.values {
      SumOverUpdate(d.keys, d.values, f, k, v);
    } else {
      SumOverUntouched(d.keys, d.values, f, k, v);
      var keys := d.keys + [k];
      assert keys[..|keys| - 1] == d.keys;
    }
  }
}
