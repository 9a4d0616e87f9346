/** JavaScript's `Map` as the dashboard uses it: entries kept in insertion
    order; `set` on a key already present replaces its value where it stands,
    `set` on a new key appends an entry; `keys()` and `entries()` iterate in
    that order. */
module JsMap {
  import opened Wrappers

  type Entries<K, V> = seq<(K, V)>

  predicate Distinct<T(==)>(s: seq<T>) {
    forall i, j :: 0 <= i < j < |s| ==> s[i] != s[j]
  }

  /** `Array.from(m.keys())` */
  function Keys<K, V>(m: Entries<K, V>): (ks: seq<K>)
    ensures |ks| == |m|
    ensures forall i :: 0 <= i < |m| ==> ks[i] == m[i].0
  {
    if m == [] then [] else [m[0].0] + Keys(m[1..])
  }

  /** `m.get(k)`: the value of the entry for `k`, if any. */
  function Get<K(==), V>(m: Entries<K, V>, k: K): Option<V> {
    if m == [] then None
    else if m[0].0 == k then Some(m[0].1)
    else Get(m[1..], k)
  }

  /** `m.set(k, v)` */
  function Set<K(==), V>(m: Entries<K, V>, k: K, v: V): Entries<K, V> {
    if m == [] then [(k, v)]
    else if m[0].0 == k then [(k, v)] + m[1..]
    else [m[0]] + Set(m[1..], k, v)
  }

  /** A key has an entry exactly when it is among the keys. */
  lemma {:induction false} GetIffKey<K, V>(m: Entries<K, V>, k: K)
    ensures Get(m, k).Some? <==> k in Keys(m)
  {
    if m != [] {
      GetIffKey(m[1..], k);
      assert Keys(m) == [m[0].0] + Keys(m[1..]);
    }
  }

  /** After `set(k, v)`, `get(k)` is `v` and every other key reads as before. */
  lemma {:induction false} GetSet<K, V>(m: Entries<K, V>, k: K, v: V, k': K)
    ensures Get(Set(m, k, v), k') == if k' == k then Some(v) else Get(m, k')
  {
    if m != [] && m[0].0 != k {
      GetSet(m[1..], k, v, k');
      assert Set(m, k, v)[1..] == Set(m[1..], k, v);
    }
  }

  /** `set` keeps the order of the keys: a present key stays where it is, a
      new key comes last. */
  lemma {:induction false} KeysSet<K, V>(m: Entries<K, V>, k: K, v: V)
    ensures Keys(Set(m, k, v)) == if k in Keys(m) then Keys(m) else Keys(m) + [k]
  {
    if m == [] {
    } else if m[0].0 == k {
      assert Keys(m) == [k] + Keys(m[1..]);
      assert Keys(Set(m, k, v)) == [k] + Keys(m[1..]);
    } else {
      KeysSet(m[1..], k, v);
      assert Set(m, k, v) == [m[0]] + Set(m[1..], k, v);
      assert Set(m, k, v)[1..] == Set(m[1..], k, v);
      assert Keys(Set(m, k, v)) == [m[0].0] + Keys(Set(m[1..], k, v));
      assert Keys(m) == [m[0].0] + Keys(m[1..]);
    }
  }

  /** A map built by `set` never holds two entries for one key. */
  lemma SetKeepsKeysDistinct<K, V>(m: Entries<K, V>, k: K, v: V)
    requires Distinct(Keys(m))
    ensures Distinct(Keys(Set(m, k, v)))
  {
    KeysSet(m, k, v);
  }
}
