/**
 * A Python dict with string keys, as a value: its entries, and its keys in
 * the order they were first inserted (the order in which the dict iterates).
 */
module PyDict {

  datatype Dict<V> = Dict(keys: seq<string>, entries: map<string, V>)

  /** Every key is listed once, and the listed keys are exactly the keys of the entries. */
  ghost predicate ValidDict<V>(d: Dict<V>) {
    && (forall i, j :: 0 <= i < j < |d.keys| ==> d.keys[i] != d.keys[j])
    && (forall k :: k in d.entries <==> k in d.keys)
  }

  /** `{}` */
  function Empty<V>(): (d: Dict<V>)
    ensures ValidDict(d) && d.entries == map[]
  {
    Dict([], map[])
  }

  /** `d[k] = v`: a new key goes to the end of the order, an existing key keeps its place. */
  function Put<V>(d: Dict<V>, k: string, v: V): (r: Dict<V>)
    ensures r.entries == d.entries[k := v]
    ensures k in d.entries ==> r.keys == d.keys
    ensures k !in d.entries ==> r.keys == d.keys + [k]
  {
    if k in d.entries then Dict(d.keys, d.entries[k := v]) else Dict(d.keys + [k], d.entries[k := v])
  }

  /** Writing a key keeps the dict valid. */
  lemma PutValid<V>(d: Dict<V>, k: string, v: V)
    requires ValidDict(d)
    ensures ValidDict(Put(d, k, v))
  {
  }

  /** A valid dict with no entries is the empty dict. */
  lemma EmptyIsEmpty<V>(d: Dict<V>)
    requires ValidDict(d) && d.entries == map[]
    ensures d == Empty()
  {
    if d.keys != [] {
      assert d.keys[0] in d.keys;
    }
  }
}
