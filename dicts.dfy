/**
 * Python's insertion-ordered `dict`: the keys in the order they were first
 * stored, and the current value of each. Storing an existing key replaces
 * its value and keeps its position.
 */
module Dicts {

  datatype Dict<K, V> = Dict(keys: seq<K>, values: map<K, V>)

  /** No key listed twice, every listed key stored, and as many stored as listed: the listed keys are the stored ones. */
  predicate Valid<K, V>(d: Dict<K, V>)
  {
    && (forall i, j :: 0 <= i < j < |d.keys| ==> d.keys[i] != d.keys[j])
    && (forall i :: 0 <= i < |d.keys| ==> d.keys[i] in d.values)
    && |d.values| == |d.keys|
  }

  function Empty<K, V>(): (d: Dict<K, V>)
    ensures Valid(d) && |d.keys| == 0
  {
    Dict([], map[])
  }

  /** `d[k] = v` */
  function Put<K, V>(d: Dict<K, V>, k: K, v: V): Dict<K, V>
  {
    if k in d.values then Dict(d.keys, d.values[k := v])
    else Dict(d.keys + [k], d.values[k := v])
  }

  /**
   * Storing a key keeps the dict valid, maps the key to the new value and leaves
   * every other key alone; a new key goes to the end of the order, an existing
   * one keeps its place.
   */
  lemma PutSpec<K, V>(d: Dict<K, V>, k: K, v: V)
    ensures Valid(d) ==> Valid(Put(d, k, v))
    ensures k in Put(d, k, v).values && Put(d, k, v).values[k] == v
    ensures forall j :: j in d.values && j != k ==> j in Put(d, k, v).values && Put(d, k, v).values[j] == d.values[j]
    ensures forall j :: j in Put(d, k, v).values ==> j in d.values || j == k
    ensures k in d.values ==> Put(d, k, v).keys == d.keys
    ensures k !in d.values ==> Put(d, k, v).keys == d.keys + [k]
  {
    if Valid(d) && k !in d.values {
      var r := Put(d, k, v);
      forall i | 0 <= i < |d.keys| ensures r.keys[i] != k {
        assert d.keys[i] in d.values;
      }
      assert r.values.Keys == d.values.Keys + {k};
    }
  }

  /**
   * Storing `val(x)` under `key(x)` for every `x` of `s` that passes `keep`,
   * in turn, starting from an empty dict.
   */
  function StoreAll<T, K, V>(s: seq<T>, keep: T -> bool, key: T -> K, val: T -> V): Dict<K, V>
    decreases |s|
  {
    if s == [] then Empty()
    else
      var init, last := s[..|s| - 1], s[|s| - 1];
      var d := StoreAll(init, keep, key, val);
      if keep(last) then Put(d, key(last), val(last)) else d
  }

  /** The stored dict is valid and lists no more keys than there were elements. */
  lemma {:induction false} StoreAllValid<T, K, V>(s: seq<T>, keep: T -> bool, key: T -> K, val: T -> V)
    ensures Valid(StoreAll(s, keep, key, val))
    ensures |StoreAll(s, keep, key, val).keys| <= |s|
    decreases |s|
  {
    if s != [] {
      var init, last := s[..|s| - 1], s[|s| - 1];
      StoreAllValid(init, keep, key, val);
      PutSpec(StoreAll(init, keep, key, val), key(last), val(last));
    }
  }

  /** A key is stored iff some kept element has it. */
  lemma {:induction false} StoreAllHasKey<T, K, V>(s: seq<T>, keep: T -> bool, key: T -> K, val: T -> V, k: K)
    ensures k in StoreAll(s, keep, key, val).values <==> exists i :: 0 <= i < |s| && keep(s[i]) && key(s[i]) == k
    decreases |s|
  {
    if s != [] {
      var init, last := s[..|s| - 1], s[|s| - 1];
      StoreAllHasKey(init, keep, key, val, k);
      PutSpec(StoreAll(init, keep, key, val), key(last), val(last));
      if k in StoreAll(s, keep, key, val).values {
        if keep(last) && key(last) == k {
          assert keep(s[|s| - 1]) && key(s[|s| - 1]) == k;
        } else {
          var i :| 0 <= i < |init| && keep(init[i]) && key(init[i]) == k;
          assert s[i] == init[i];
        }
      }
      if exists i :: 0 <= i < |s| && keep(s[i]) && key(s[i]) == k {
        var i :| 0 <= i < |s| && keep(s[i]) && key(s[i]) == k;
        if i < |init| {
          assert init[i] == s[i];
        }
      }
    }
  }

  /** The value stored under a key comes from the last kept element that has the key: a later duplicate overwrites. */
  lemma {:induction false} StoreAllLastWins<T, K, V>(s: seq<T>, keep: T -> bool, key: T -> K, val: T -> V, i: int)
    requires 0 <= i < |s| && keep(s[i])
    requires forall j :: i < j < |s| && keep(s[j]) ==> key(s[j]) != key(s[i])
    ensures key(s[i]) in StoreAll(s, keep, key, val).values
    ensures StoreAll(s, keep, key, val).values[key(s[i])] == val(s[i])
    decreases |s|
  {
    var init, last := s[..|s| - 1], s[|s| - 1];
    PutSpec(StoreAll(init, keep, key, val), key(last), val(last));
    if i < |s| - 1 {
      assert init[i] == s[i];
      assert forall j :: i < j < |init| ==> init[j] == s[j];
      StoreAllLastWins(init, keep, key, val, i);
    }
  }

  /** Every stored value was stored for an element that has its key. */
  lemma {:induction false} StoreAllSource<T, K, V>(s: seq<T>, keep: T -> bool, key: T -> K, val: T -> V, k: K)
    requires k in StoreAll(s, keep, key, val).values
    ensures exists i :: 0 <= i < |s| && keep(s[i]) && key(s[i]) == k && StoreAll(s, keep, key, val).values[k] == val(s[i])
    decreases |s|
  {
    var init, last := s[..|s| - 1], s[|s| - 1];
    PutSpec(StoreAll(init, keep, key, val), key(last), val(last));
    if keep(last) && key(last) == k {
      assert keep(s[|s| - 1]) && key(s[|s| - 1]) == k;
    } else {
      StoreAllSource(init, keep, key, val, k);
      var i :| 0 <= i < |init| && keep(init[i]) && key(init[i]) == k && StoreAll(init, keep, key, val).values[k] == val(init[i]);
      assert s[i] == init[i];
    }
  }
}
