/**
 * Python's `dict` as a value: a map from keys to values together with the
 * order in which the keys were first inserted. Assigning to a key that is
 * already present changes its value but not its place; a new key goes to
 * the end. Iteration (`values()`) follows that order.
 */
module OrderedDict {

  datatype DictRep<K, V> = DictRep(keys: seq<K>, vals: map<K, V>)

  /** Each key is listed once, and exactly the mapped keys are listed. */
  ghost predicate Valid<K, V>(d: DictRep<K, V>) {
    && (forall i, j :: 0 <= i < j < |d.keys| ==> d.keys[i] != d.keys[j])
    && d.vals.Keys == set k | k in d.keys
  }

  type Dict<K, V> = d: DictRep<K, V> | Valid(d) witness DictRep([], map[])

  /** `{}` */
  function Empty<K, V>(): (d: Dict<K, V>)
    ensures d.keys == [] && d.vals == map[]
  {
    DictRep([], map[])
  }

  /** `d[k] = v`: the value of `k` becomes `v`; a new key is appended, an existing one keeps its place. */
  function Set<K, V>(d: Dict<K, V>, k: K, v: V): (r: Dict<K, V>)
    ensures r.vals == d.vals[k := v]
    ensures r.keys == if k in d.vals then d.keys else d.keys + [k]
  {
    if k in d.vals then DictRep(d.keys, d.vals[k := v])
    else DictRep(d.keys + [k], d.vals[k := v])
  }

  /** The values stored under `ks`, in that order. */
  function ValuesAt<K, V>(ks: seq<K>, m: map<K, V>): (r: seq<V>)
    requires forall k :: k in ks ==> k in m
    ensures |r| == |ks|
    ensures forall i :: 0 <= i < |ks| ==> r[i] == m[ks[i]]
  {
    if ks == [] then [] else [m[ks[0]]] + ValuesAt(ks[1..], m)
  }

  /** `list(d.values())`: one value per key, in insertion order. */
  function Values<K, V>(d: Dict<K, V>): (r: seq<V>)
    ensures |r| == |d.keys|
    ensures forall i :: 0 <= i < |d.keys| ==> r[i] == d.vals[d.keys[i]]
  {
    ValuesAt(d.keys, d.vals)
  }
}
