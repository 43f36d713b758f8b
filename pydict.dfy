/** Python's dict with string keys, as the catalogs of projects use it. */
module PyDict {

  /** The keys in insertion order (the order `items()` and `values()`
      follow), and the value of each. */
  datatype Dict<V> = Dict(keys: seq<string>, values: map<string, V>)

  /** Each key listed once, and exactly the keys that have a value. */
  predicate ValidDict<V>(d: Dict<V>) {
    && (forall i, j :: 0 <= i < j < |d.keys| ==> d.keys[i] != d.keys[j])
    && (forall k :: k in d.values ==> k in d.keys)
    && (forall i :: 0 <= i < |d.keys| ==> d.keys[i] in d.values)
  }
}
