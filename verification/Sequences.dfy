/** Small facts about sequences, sets and maps that several modules need. */
module Sequences {
  ghost predicate NoDuplicates<T>(xs: seq<T>) {
    forall i, j :: 0 <= i < j < |xs| ==> xs[i] != xs[j]
  }

  function ToSet<T>(xs: seq<T>): set<T> {
    set x | x in xs
  }

  ghost function Pick<T>(s: set<T>): T
    requires s != {}
  {
    var x :| x in s; x
  }

  lemma {:induction false} CardinalityOfDistinct<T>(xs: seq<T>)
    requires NoDuplicates(xs)
    ensures |ToSet(xs)| == |xs|
  {
    if xs != [] {
      CardinalityOfDistinct(xs[1..]);
      assert ToSet(xs) == ToSet(xs[1..]) + {xs[0]};
    }
  }

  lemma NextDistinct<T>(xs: seq<T>, n: nat)
    requires NoDuplicates(xs) && n < |xs|
    ensures NoDuplicates(xs[..n]) && xs[n] !in xs[..n] && xs[..n + 1] == xs[..n] + [xs[n]]
  {
  }

  lemma SubsetCardinality<T>(a: set<T>, b: set<T>)
    requires a <= b
    ensures |a| <= |b|
  {
    assert b == a + (b - a);
  }

  lemma MapMinus<K, V>(m: map<K, V>, ks: set<K>)
    requires ks <= m.Keys
    ensures |m - ks| == |m| - |ks|
  {
    assert (m - ks).Keys == m.Keys - ks;
    assert |m.Keys - ks| == |m.Keys| - |ks|;
  }

  lemma CardinalityAfterInsert<K, V>(m: map<K, V>, k: K, v: V)
    ensures |m[k := v]| == |m| + if k in m then 0 else 1
  {
    assert m[k := v].Keys == m.Keys + {k};
  }
}
