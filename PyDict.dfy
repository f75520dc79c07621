/** Python dictionaries written as literals, as both front ends use them for
    their code tables. A dict literal keeps its entries in insertion order,
    which matters for `list(d.keys())` and `list(d.values())`, so a dict is
    modelled as the sequence of its (key, value) entries. */
module PyDict {

  type Dict<K, V> = seq<(K, V)>

  /** `list(d.keys())` */
  function Keys<K, V>(d: Dict<K, V>): seq<K> {
    seq(|d|, i requires 0 <= i < |d| => d[i].0)
  }

  /** `list(d.values())` */
  function Values<K, V>(d: Dict<K, V>): seq<V> {
    seq(|d|, i requires 0 <= i < |d| => d[i].1)
  }

  /** No key occurs twice (every table literal in the source is of this kind). */
  predicate DistinctKeys<K(==), V>(d: Dict<K, V>) {
    forall i, j :: 0 <= i < j < |d| ==> d[i].0 != d[j].0
  }

  /** No value occurs twice: the table is a bijection between keys and values. */
  predicate DistinctValues<K, V(==)>(d: Dict<K, V>) {
    forall i, j :: 0 <= i < j < |d| ==> d[i].1 != d[j].1
  }

  /** `xs.index(x)`: the position of the first occurrence of `x`. Python raises
      ValueError when `x` is absent, so presence is the caller's obligation. */
  function IndexOf<T(==)>(xs: seq<T>, x: T): (r: nat)
    requires x in xs
    ensures r < |xs| && xs[r] == x
    ensures forall j :: 0 <= j < r ==> xs[j] != x
  {
    if xs[0] == x then 0 else 1 + IndexOf(xs[1..], x)
  }

  /** `d.get(k, default)`: the value stored under `k`, or `default` when `k` is
      not a key. */
  function Get<K(==), V>(d: Dict<K, V>, k: K, default: V): (r: V)
    ensures k !in Keys(d) ==> r == default
    ensures k in Keys(d) ==> exists i :: 0 <= i < |d| && d[i].0 == k && d[i].1 == r
  {
    if k in Keys(d) then d[IndexOf(Keys(d), k)].1 else default
  }

  /** `list(d.keys())[list(d.values()).index(v)]`: the key of the first entry
      whose value is `v`. Defined only when `v` is one of the values. */
  function ReverseLookup<K, V(==)>(d: Dict<K, V>, v: V): (r: K)
    requires v in Values(d)
    ensures exists i :: 0 <= i < |d| && d[i].0 == r && d[i].1 == v &&
                        forall j :: 0 <= j < i ==> d[j].1 != v
  {
    var i := IndexOf(Values(d), v);
    assert forall j :: 0 <= j < i ==> Values(d)[j] == d[j].1;
    Keys(d)[i]
  }

  /** With distinct keys, `get` on the key of entry `i` returns that entry's value. */
  lemma GetAt<K, V>(d: Dict<K, V>, i: nat, default: V)
    requires DistinctKeys(d) && i < |d|
    ensures Get(d, d[i].0, default) == d[i].1
  {
    assert Keys(d)[i] == d[i].0;
    var j := IndexOf(Keys(d), d[i].0);
    assert Keys(d)[j] == d[j].0;
  }

  /** With distinct values, the reverse lookup of entry `i`'s value is entry
      `i`'s key: key -> value -> key is the identity. */
  lemma ReverseLookupAt<K, V>(d: Dict<K, V>, i: nat)
    requires DistinctValues(d) && i < |d|
    ensures d[i].1 in Values(d)
    ensures ReverseLookup(d, d[i].1) == d[i].0
  {
    assert Values(d)[i] == d[i].1;
    var j := IndexOf(Values(d), d[i].1);
    assert Values(d)[j] == d[j].1;
  }

  /** Distinct keys that are both present get distinct values from a table
      whose values are distinct: `get` is injective on recognised keys. */
  lemma GetInjective<K, V>(d: Dict<K, V>, k1: K, k2: K, default: V)
    requires DistinctValues(d)
    requires k1 in Keys(d) && k2 in Keys(d) && k1 != k2
    ensures Get(d, k1, default) != Get(d, k2, default)
  {
    var i :| 0 <= i < |d| && d[i].0 == k1 && d[i].1 == Get(d, k1, default);
    var j :| 0 <= j < |d| && d[j].0 == k2 && d[j].1 == Get(d, k2, default);
    assert i != j;
  }

  /** The value of every entry equals its position: the codes of a table are
      exactly 0, 1, ..., |d| - 1 in order. */
  predicate CodesAreIndices<K>(d: Dict<K, int>) {
    forall i :: 0 <= i < |d| ==> d[i].1 == i
  }

  /** A table whose codes are its positions, looked up with default -1,
      gives -1 exactly for a missing key and a code in [0, |d| - 1] otherwise. */
  lemma GetCodeRange<K>(d: Dict<K, int>, k: K)
    requires CodesAreIndices(d)
    ensures -1 <= Get(d, k, -1) < |d|
    ensures Get(d, k, -1) == -1 <==> k !in Keys(d)
  {
    if k in Keys(d) {
      var i :| 0 <= i < |d| && d[i].0 == k && d[i].1 == Get(d, k, -1);
      assert d[i].1 == i;
    }
  }

  /** `e` is `d` with every entry turned round, in the same order: a
      `{label: code}` table and a `{code: label}` table that are inverses. */
  predicate Swapped<K(==), V(==)>(d: Dict<K, V>, e: Dict<V, K>) {
    |d| == |e| && forall i :: 0 <= i < |d| ==> e[i].0 == d[i].1 && e[i].1 == d[i].0
  }

  /** For inverse tables, the values offered by `e` are exactly the keys of
      `d`, and for every such value, reverse lookup in `e` agrees with `get`
      in `d` whatever default `get` is given. */
  lemma SwappedLookupsAgree<K, V>(d: Dict<K, V>, e: Dict<V, K>, default: V)
    requires Swapped(d, e) && DistinctKeys(d)
    ensures Values(e) == Keys(d)
    ensures forall k :: k in Keys(d) ==> ReverseLookup(e, k) == Get(d, k, default)
  {
    assert Values(e) == Keys(d);
    forall k | k in Keys(d)
      ensures ReverseLookup(e, k) == Get(d, k, default)
    {
      var i := IndexOf(Keys(d), k);
      assert d[i].0 == k;
      GetAt(d, i, default);
      assert DistinctValues(e) by {
        forall a, b | 0 <= a < b < |e| ensures e[a].1 != e[b].1 {
          assert e[a].1 == d[a].0 && e[b].1 == d[b].0;
        }
      }
      ReverseLookupAt(e, i);
    }
  }
}
