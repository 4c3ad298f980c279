/**
 Subsequences: what is left of a sequence after some elements were lost but none
 duplicated, invented or reordered.
 */
module Subsequences {

  predicate Subseq<T(==)>(a: seq<T>, b: seq<T>)
    decreases |b|
  {
    if a == [] then true
    else if b == [] then false
    else
      || (a[|a| - 1] == b[|b| - 1] && Subseq(a[..|a| - 1], b[..|b| - 1]))
      || Subseq(a, b[..|b| - 1])
  }

  lemma SubseqExtend<T>(a: seq<T>, b: seq<T>, x: T)
    requires Subseq(a, b)
    ensures Subseq(a, b + [x])
  {
    assert (b + [x])[..|b|] == b;
  }

  lemma SubseqAppend<T>(a: seq<T>, b: seq<T>, x: T)
    requires Subseq(a, b)
    ensures Subseq(a + [x], b + [x])
  {
    assert (a + [x])[..|a|] == a && (b + [x])[..|b|] == b;
  }

  /** Losing one element of a subsequence leaves a subsequence. */
  lemma {:induction false} SubseqDrop<T>(a: seq<T>, x: T, c: seq<T>, b: seq<T>)
    requires Subseq(a + [x] + c, b)
    ensures Subseq(a + c, b)
    decreases |b|
  {
    var whole, last := a + [x] + c, |b| - 1;
    if whole[|whole| - 1] == b[last] && Subseq(whole[..|whole| - 1], b[..last]) {
      if c == [] {
        assert whole[..|whole| - 1] == a && a + c == a;
        SubseqExtend(a, b[..last], b[last]);
      } else {
        var c' := c[..|c| - 1];
        assert whole[..|whole| - 1] == a + [x] + c';
        SubseqDrop(a, x, c', b[..last]);
        SubseqAppend(a + c', b[..last], b[last]);
        assert a + c == a + c' + [b[last]];
      }
    } else {
      SubseqDrop(a, x, c, b[..last]);
      SubseqExtend(a + c, b[..last], b[last]);
    }
    assert b[..last] + [b[last]] == b;
  }

  /** Losing the tail of a subsequence leaves a subsequence. */
  lemma {:induction false} SubseqTruncate<T>(a: seq<T>, c: seq<T>, b: seq<T>)
    requires Subseq(a + c, b)
    ensures Subseq(a, b)
    decreases |c|
  {
    if c == [] {
      assert a + c == a;
    } else {
      var c', x := c[..|c| - 1], c[|c| - 1];
      assert a + c == (a + c') + [x] + [];
      SubseqDrop(a + c', x, [], b);
      assert (a + c') + [] == a + c';
      SubseqTruncate(a, c', b);
    }
  }

  /** A subsequence picks its elements at strictly increasing positions. */
  lemma {:induction false} SubseqPositions<T>(a: seq<T>, b: seq<T>) returns (at: seq<nat>)
    requires Subseq(a, b)
    ensures |at| == |a|
    ensures forall k :: 0 <= k < |a| ==> at[k] < |b| && b[at[k]] == a[k]
    ensures forall j, k :: 0 <= j < k < |a| ==> at[j] < at[k]
    decreases |b|
  {
    at := [];
    if a == [] {
    } else {
      var m, n := |a| - 1, |b| - 1;
      if a[m] == b[n] && Subseq(a[..m], b[..n]) {
        at := SubseqPositions(a[..m], b[..n]);
        assert forall k :: 0 <= k < m ==> a[..m][k] == a[k] && b[..n][at[k]] == b[at[k]];
        at := at + [n];
      } else {
        at := SubseqPositions(a, b[..n]);
        assert forall k :: 0 <= k < |a| ==> b[..n][at[k]] == b[at[k]];
      }
    }
  }

  /** A subsequence never holds an element more often than the whole does. */
  lemma {:induction false} SubseqMultiset<T>(a: seq<T>, b: seq<T>)
    requires Subseq(a, b)
    ensures multiset(a) <= multiset(b)
    decreases |b|
  {
    if a == [] {
    } else {
      var m, n := |a| - 1, |b| - 1;
      assert a == a[..m] + [a[m]] && b == b[..n] + [b[n]];
      if a[m] == b[n] && Subseq(a[..m], b[..n]) {
        SubseqMultiset(a[..m], b[..n]);
      } else {
        SubseqMultiset(a, b[..n]);
      }
    }
  }

  // ----- logs of keyed messages -----

  /** The messages of one key, in log order. */
  function For<K(==), V>(log: seq<(K, V)>, key: K): seq<V> {
    if log == [] then [] else
      var rest, last := For(log[..|log| - 1], key), log[|log| - 1];
      if last.0 == key then rest + [last.1] else rest
  }

  lemma ForAppend<K, V>(log: seq<(K, V)>, k: K, v: V, key: K)
    ensures For(log + [(k, v)], key) == if k == key then For(log, key) + [v] else For(log, key)
  {
    assert (log + [(k, v)])[..|log|] == log;
  }

  /** Picking one key's messages keeps their number. */
  lemma {:induction false} ForCount<K, V>(log: seq<(K, V)>, key: K, v: V)
    ensures multiset(For(log, key))[v] == multiset(log)[(key, v)]
  {
    if log == [] {
    } else {
      var n := |log| - 1;
      assert log == log[..n] + [log[n]];
      ForCount(log[..n], key, v);
    }
  }

  lemma ForMultiset<K(!new), V(!new)>(log: seq<(K, V)>, whole: seq<(K, V)>, key: K)
    requires forall v :: multiset(log)[(key, v)] <= multiset(whole)[(key, v)]
    ensures multiset(For(log, key)) <= multiset(For(whole, key))
  {
    forall v ensures multiset(For(log, key))[v] <= multiset(For(whole, key))[v] {
      ForCount(log, key, v);
      ForCount(whole, key, v);
    }
  }
}
