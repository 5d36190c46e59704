/**
 * The Go idiom `m := make(map[K]V); for _, x := range xs { m[key(x)] = x }`: a map filled
 * in sequence order, where a later element overwrites an earlier one with the same key.
 */
module Indexing {

  function IndexBy<K(==), V>(s: seq<V>, key: V -> K): map<K, V>
  {
    if s == [] then map[] else IndexBy(s[..|s| - 1], key)[key(s[|s| - 1]) := s[|s| - 1]]
  }

  /** Writing one more element is one more map update. */
  lemma IndexBySnoc<K, V>(s: seq<V>, x: V, key: V -> K)
    ensures IndexBy(s + [x], key) == IndexBy(s, key)[key(x) := x]
  {
    assert (s + [x])[..|s|] == s;
  }

  /** The keys are exactly the keys of the elements. */
  lemma {:induction false} IndexByKeys<K, V>(s: seq<V>, key: V -> K, k: K)
    ensures k in IndexBy(s, key) <==> exists i :: 0 <= i < |s| && key(s[i]) == k
  {
    if s != [] {
      var p := s[..|s| - 1];
      IndexByKeys(p, key, k);
      if k in IndexBy(p, key) {
        var i :| 0 <= i < |p| && key(p[i]) == k;
        assert s[i] == p[i];
      }
      if exists i :: 0 <= i < |s| && key(s[i]) == k {
        var i :| 0 <= i < |s| && key(s[i]) == k;
        if i < |p| { assert p[i] == s[i]; }
      }
    }
  }

  /** Every value is an element of the sequence stored under its own key. */
  lemma {:induction false} IndexByValues<K, V>(s: seq<V>, key: V -> K, k: K)
    requires k in IndexBy(s, key)
    ensures key(IndexBy(s, key)[k]) == k && IndexBy(s, key)[k] in s
  {
    var p := s[..|s| - 1];
    if key(s[|s| - 1]) != k {
      IndexByValues(p, key, k);
      assert IndexBy(p, key)[k] in s by {
        var i :| 0 <= i < |p| && p[i] == IndexBy(p, key)[k];
        assert s[i] == p[i];
      }
    }
  }

  /** The element stored under a key is the last element with that key: later writes win. */
  lemma {:induction false} IndexByLastWins<K, V>(before: seq<V>, x: V, after: seq<V>, key: V -> K)
    requires forall j :: 0 <= j < |after| ==> key(after[j]) != key(x)
    ensures key(x) in IndexBy(before + [x] + after, key)
    ensures IndexBy(before + [x] + after, key)[key(x)] == x
    decreases |after|
  {
    if after == [] {
      assert before + [x] + after == before + [x];
      IndexBySnoc(before, x, key);
    } else {
      var s := before + [x] + after;
      var p := after[..|after| - 1];
      assert s[..|s| - 1] == before + [x] + p;
      IndexByLastWins(before, x, p, key);
    }
  }
}
