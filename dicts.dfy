/** Python dictionaries keep their keys in insertion order, and the classifier
    depends on that order (it breaks ties between categories by it) and sums
    dictionary values. A `Dict` is such a dictionary: `keys` lists the keys in
    the order they were first inserted and `items` maps each key to its value. */
module Dicts {

  datatype Dict<K, V> = Dict(keys: seq<K>, items: map<K, V>)

  ghost predicate Distinct<K>(s: seq<K>) {
    forall i, j :: 0 <= i < j < |s| ==> s[i] != s[j]
  }

  /** The key list holds every key of the map exactly once. */
  ghost predicate WellFormed<K(!new), V>(d: Dict<K, V>) {
    Distinct(d.keys) && forall k :: k in d.items <==> k in d.keys
  }

  /** Every stored count is at least one. */
  ghost predicate Positive<K>(d: Dict<K, nat>) {
    forall k :: k in d.items ==> d.items[k] >= 1
  }

  function EmptyDict<K, V>(): Dict<K, V> {
    Dict([], map[])
  }

  /** `d.get(k, default)` */
  function Get<K, V>(d: Dict<K, V>, k: K, default: V): V {
    if k in d.items then d.items[k] else default
  }

  /** `d[k] = v`: an existing key keeps its place, a new key goes last. */
  function Put<K, V>(d: Dict<K, V>, k: K, v: V): Dict<K, V> {
    Dict(if k in d.items then d.keys else d.keys + [k], d.items[k := v])
  }

  lemma PutWellFormed<K(!new), V>(d: Dict<K, V>, k: K, v: V)
    requires WellFormed(d)
    ensures WellFormed(Put(d, k, v))
  {
  }

  /** The sum of the values stored under the keys `ks`, in that order. */
  function SumOver<K>(ks: seq<K>, m: map<K, nat>): nat {
    if ks == [] then 0
    else SumOver(ks[..|ks| - 1], m) + (if ks[|ks| - 1] in m then m[ks[|ks| - 1]] else 0)
  }

  /** `sum(d.values())` */
  function Sum<K>(d: Dict<K, nat>): nat {
    SumOver(d.keys, d.items)
  }

  lemma {:induction false} SumOverUpdate<K>(ks: seq<K>, m: map<K, nat>, k: K, v: nat)
    requires Distinct(ks)
    ensures SumOver(ks, m[k := v]) as int
         == SumOver(ks, m) + (if k in ks then v - (if k in m then m[k] else 0) else 0)
  {
    if ks != [] {
      var init := ks[..|ks| - 1];
      assert Distinct(init);
      SumOverUpdate(init, m, k, v);
      assert k in ks <==> k in init || k == ks[|ks| - 1];
      assert k == ks[|ks| - 1] ==> k !in init;
    }
  }

  /** Storing `v` under `k` changes the sum of values by `v` minus the old value. */
  lemma SumPut<K(!new)>(d: Dict<K, nat>, k: K, v: nat)
    requires WellFormed(d)
    ensures Sum(Put(d, k, v)) as int == Sum(d) - Get(d, k, 0) + v
  {
    var r := Put(d, k, v);
    SumOverUpdate(d.keys, d.items, k, v);
    if k !in d.items {
      assert r.keys[..|r.keys| - 1] == d.keys;
    }
  }

  /** No single value exceeds the sum of the values. */
  lemma {:induction false} ValueAtMostSum<K>(ks: seq<K>, m: map<K, nat>, k: K)
    requires k in ks && k in m
    ensures m[k] <= SumOver(ks, m)
  {
    var init := ks[..|ks| - 1];
    if k != ks[|ks| - 1] {
      assert k in init;
      ValueAtMostSum(init, m, k);
    }
  }

  /** A dictionary of positive counts with at least one key has a positive sum. */
  lemma SumOfPositiveIsPositive<K(!new)>(d: Dict<K, nat>)
    requires WellFormed(d) && Positive(d) && d.keys != []
    ensures Sum(d) >= 1
  {
    ValueAtMostSum(d.keys, d.items, d.keys[0]);
  }
}
