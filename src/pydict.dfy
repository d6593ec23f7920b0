/** A Python `dict`: its keys in insertion order together with the mapping. */
module PyDict {
  import opened Wrappers

  datatype Dict<K(==), V> = Dict(keys: seq<K>, vals: map<K, V>)

  /** Keys are listed once each, and exactly the mapped keys are listed. */
  predicate Valid<K(==), V>(d: Dict<K, V>) {
    (forall i, j :: 0 <= i < j < |d.keys| ==> d.keys[i] != d.keys[j])
    && d.vals.Keys == (set i | 0 <= i < |d.keys| :: d.keys[i])
  }

  function Empty<K(==), V>(): (d: Dict<K, V>)
    ensures Valid(d) && d.keys == [] && d.vals == map[]
  {
    Dict([], map[])
  }

  /** `d.get(k)`. */
  function Get<K(==), V>(d: Dict<K, V>, k: K): (r: Option<V>)
    ensures r.Some? <==> k in d.vals
    ensures r.Some? ==> r.value == d.vals[k]
  {
    if k in d.vals then Some(d.vals[k]) else None
  }

  /** `d[k] = v`: a new key goes to the end, an existing key keeps its place. */
  function Put<K(==), V>(d: Dict<K, V>, k: K, v: V): (r: Dict<K, V>)
    ensures Valid(d) ==> Valid(r)
    ensures r.vals == d.vals[k := v]
    ensures r.keys == if k in d.vals then d.keys else d.keys + [k]
  {
    KeysAppend(d.keys, k);
    Dict(if k in d.vals then d.keys else d.keys + [k], d.vals[k := v])
  }

  lemma KeysAppend<K>(keys: seq<K>, k: K)
    ensures (set i | 0 <= i < |keys + [k]| :: (keys + [k])[i]) == (set i | 0 <= i < |keys| :: keys[i]) + {k}
  {
    var l := keys + [k];
    assert l[|keys|] == k;
    forall i | 0 <= i < |keys| ensures keys[i] in (set j | 0 <= j < |l| :: l[j]) {
      assert l[i] == keys[i];
    }
  }

  /** `for x in xs: d[key(x)] = val(x)`. */
  function PutAll<T, K(==), V>(d: Dict<K, V>, xs: seq<T>, key: T -> K, val: T -> V): (r: Dict<K, V>)
    ensures Valid(d) ==> Valid(r)
  {
    if xs == [] then d else Put(PutAll(d, xs[..|xs| - 1], key, val), key(xs[|xs| - 1]), val(xs[|xs| - 1]))
  }

  /** The position of the last element of `xs` with key `k`. */
  function LastWith<T, K(==)>(xs: seq<T>, key: T -> K, k: K): (r: Option<nat>)
    ensures r.Some? ==>
      (r.value < |xs| && key(xs[r.value]) == k && forall j :: r.value < j < |xs| ==> key(xs[j]) != k)
    ensures r.None? ==> forall j :: 0 <= j < |xs| ==> key(xs[j]) != k
  {
    if xs == [] then None
    else if key(xs[|xs| - 1]) == k then Some(|xs| - 1)
    else LastWith(xs[..|xs| - 1], key, k)
  }

  /** After the loop each key holds the value of its last element; the keys
      no element has keep their value. */
  lemma {:induction false} PutAllAt<T, K, V>(d: Dict<K, V>, xs: seq<T>, key: T -> K, val: T -> V, k: K)
    ensures Get(PutAll(d, xs, key, val), k)
      == match LastWith(xs, key, k) case None => Get(d, k) case Some(j) => Some(val(xs[j]))
  {
    if xs != [] {
      var init := xs[..|xs| - 1];
      PutAllAt(d, init, key, val, k);
      if key(xs[|xs| - 1]) != k {
        assert LastWith(xs, key, k) == LastWith(init, key, k);
        match LastWith(init, key, k)
        case None =>
        case Some(j) => assert xs[j] == init[j];
      }
    }
  }
}
