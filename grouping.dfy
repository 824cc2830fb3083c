/**
 * Accumulation into a dictionary keyed by a string computed per record, as
 * the dashboard does for payment methods and products: the keys in the order
 * they were first seen, and per key the sum of a weight over the records
 * with that key.
 */
module Grouping {
  import opened Seqs

  /** No key occurs twice. */
  predicate Distinct<K(==)>(ks: seq<K>)
  {
    forall i, j :: 0 <= i < j < |ks| ==> ks[i] != ks[j]
  }

  /** The keys of `s`, each once, in the order of their first occurrence. */
  function FirstSeen<T, K(==)>(s: seq<T>, key: T -> K): (r: seq<K>)
    ensures Distinct(r)
    decreases |s|
  {
    if s == [] then []
    else
      var p := FirstSeen(s[..|s| - 1], key);
      var k := key(s[|s| - 1]);
      if k in p then p else p + [k]
  }

  /** The first-seen keys are exactly the keys of the records. */
  lemma {:induction false} FirstSeenMembers<T, K(!new)>(s: seq<T>, key: T -> K)
    ensures forall k :: k in FirstSeen(s, key) <==> exists i :: 0 <= i < |s| && key(s[i]) == k
    decreases |s|
  {
    if s != [] {
      var init := s[..|s| - 1];
      FirstSeenMembers(init, key);
      assert forall i :: 0 <= i < |s| - 1 ==> init[i] == s[i];
    }
  }

  /** A key no record carries. */
  lemma AbsentKey<T, K(!new)>(s: seq<T>, key: T -> K, k: K)
    requires k !in FirstSeen(s, key)
    ensures forall i :: 0 <= i < |s| ==> key(s[i]) != k
  {
    FirstSeenMembers(s, key);
  }

  /** The sum of `w` over the records of `s` whose key is `k`. */
  function GroupSum<T, K(==)>(s: seq<T>, key: T -> K, k: K, w: T -> int): int
    decreases |s|
  {
    if s == [] then 0
    else GroupSum(s[..|s| - 1], key, k, w) + (if key(s[|s| - 1]) == k then w(s[|s| - 1]) else 0)
  }

  /** The `f` of the last record of `s` whose key is `k`, or `default` when there is none. */
  function LastSeen<T, K(==)>(s: seq<T>, key: T -> K, k: K, f: T -> int, default: int): (r: int)
    ensures forall i :: 0 <= i < |s| && key(s[i]) == k && (forall j :: i < j < |s| ==> key(s[j]) != k) ==> r == f(s[i])
    ensures (forall i :: 0 <= i < |s| ==> key(s[i]) != k) ==> r == default
    decreases |s|
  {
    if s == [] then default
    else if key(s[|s| - 1]) == k then f(s[|s| - 1])
    else
      assert forall i :: 0 <= i < |s| - 1 ==> s[..|s| - 1][i] == s[i];
      LastSeen(s[..|s| - 1], key, k, f, default)
  }

  /** Appending a record extends the first-seen keys by its key if that is new. */
  lemma FirstSeenStep<T, K(!new)>(s: seq<T>, x: T, key: T -> K)
    ensures FirstSeen(s + [x], key) == if key(x) in FirstSeen(s, key) then FirstSeen(s, key) else FirstSeen(s, key) + [key(x)]
  {
    assert (s + [x])[..|s|] == s;
  }

  /** Appending a record adds its weight to its own group only. */
  lemma GroupSumStep<T, K>(s: seq<T>, x: T, key: T -> K, k: K, w: T -> int)
    ensures GroupSum(s + [x], key, k, w) == GroupSum(s, key, k, w) + (if key(x) == k then w(x) else 0)
  {
    assert (s + [x])[..|s|] == s;
  }

  /** Appending a record makes it the last one of its group. */
  lemma LastSeenStep<T, K>(s: seq<T>, x: T, key: T -> K, k: K, f: T -> int, default: int)
    ensures LastSeen(s + [x], key, k, f, default) == if key(x) == k then f(x) else LastSeen(s, key, k, f, default)
  {
    assert (s + [x])[..|s|] == s;
  }

  /**
   * The state of an accumulating dictionary after the records `s`: its keys
   * are those of the records, listed in `ks` in the order first seen.
   */
  ghost predicate KeysInFirstSeenOrder<T, K(!new), V>(s: seq<T>, key: T -> K, ks: seq<K>, m: map<K, V>)
  {
    ks == FirstSeen(s, key) && forall k :: k in m <==> k in ks
  }

  /** Adding the entry of one more record, created if its key is new, keeps the keys in order. */
  lemma KeysInFirstSeenOrderStep<T, K(!new), V>(s: seq<T>, x: T, next: seq<T>, key: T -> K,
                                                ks: seq<K>, m: map<K, V>, ks': seq<K>, m': map<K, V>)
    requires next == s + [x]
    requires KeysInFirstSeenOrder(s, key, ks, m)
    requires ks' == (if key(x) in m then ks else ks + [key(x)])
    requires m'.Keys == m.Keys + {key(x)}
    ensures KeysInFirstSeenOrder(next, key, ks', m')
  {
    FirstSeenStep(s, x, key);
  }

  /** The group sums of the keys `ks`, added up. */
  function SumOverKeys<T, K(==)>(ks: seq<K>, s: seq<T>, key: T -> K, w: T -> int): int
    decreases |ks|
  {
    if ks == [] then 0 else SumOverKeys(ks[..|ks| - 1], s, key, w) + GroupSum(s, key, ks[|ks| - 1], w)
  }

  /** A key that no record carries has an empty group. */
  lemma {:induction false} GroupSumOfAbsentKey<T, K>(s: seq<T>, key: T -> K, k: K, w: T -> int)
    requires forall i :: 0 <= i < |s| ==> key(s[i]) != k
    ensures GroupSum(s, key, k, w) == 0
    decreases |s|
  {
    if s != [] {
      assert forall i :: 0 <= i < |s| - 1 ==> s[..|s| - 1][i] == s[i];
      GroupSumOfAbsentKey(s[..|s| - 1], key, k, w);
    }
  }

  /** Appending one record adds its weight to exactly one of a list of distinct keys, if any. */
  lemma {:induction false} SumOverKeysStep<T, K>(ks: seq<K>, s: seq<T>, x: T, key: T -> K, w: T -> int)
    requires Distinct(ks)
    ensures SumOverKeys(ks, s + [x], key, w) == SumOverKeys(ks, s, key, w) + (if key(x) in ks then w(x) else 0)
    decreases |ks|
  {
    if ks != [] {
      var init := ks[..|ks| - 1];
      assert (s + [x])[..|s + [x]| - 1] == s;
      assert Distinct(init);
      SumOverKeysStep(init, s, x, key, w);
      assert ks == init + [ks[|ks| - 1]];
      assert key(x) in ks <==> key(x) in init || key(x) == ks[|ks| - 1];
      assert key(x) == ks[|ks| - 1] ==> key(x) !in init;
    }
  }

  /**
   * Nothing is lost or counted twice: the groups of all keys seen add up to
   * the weight of the whole sequence.
   */
  lemma {:induction false} GroupSumsAddUp<T, K(!new)>(s: seq<T>, key: T -> K, w: T -> int)
    ensures SumOverKeys(FirstSeen(s, key), s, key, w) == Total(s, w)
    decreases |s|
  {
    if s != [] {
      var init, x := s[..|s| - 1], s[|s| - 1];
      assert s == init + [x];
      var p := FirstSeen(init, key);
      GroupSumsAddUp(init, key, w);
      SumOverKeysStep(p, init, x, key, w);
      if key(x) !in p {
        var ks := p + [key(x)];
        assert ks[..|ks| - 1] == p;
        SumOverKeysStep(p, init, x, key, w);
        AbsentKey(init, key, key(x));
        GroupSumOfAbsentKey(init, key, key(x), w);
      }
    }
  }
}
