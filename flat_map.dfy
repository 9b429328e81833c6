/**
 * Concatenating what a function gives for each element of a sequence, and
 * the fact that reordering the elements only reorders the result.
 */
module FlatMaps {

  /** `f(xs[0]) + f(xs[1]) + ...`, built from the last element backwards. */
  function FlatMap<T, X>(f: T -> seq<X>, xs: seq<T>): seq<X> {
    if xs == [] then [] else FlatMap(f, xs[..|xs| - 1]) + f(xs[|xs| - 1])
  }

  lemma {:induction false} FlatMapAppend<T, X>(f: T -> seq<X>, a: seq<T>, b: seq<T>)
    ensures FlatMap(f, a + b) == FlatMap(f, a) + FlatMap(f, b)
    decreases |b|
  {
    if b == [] {
      assert a + b == a;
    } else {
      var c := b[..|b| - 1];
      assert (a + b)[..|a + b| - 1] == a + c;
      assert (a + b)[|a + b| - 1] == b[|b| - 1];
      FlatMapAppend(f, a, c);
    }
  }

  /** Reordering the elements reorders the concatenation: the same values, as often as before. */
  lemma {:induction false} FlatMapPermutation<T, X>(f: T -> seq<X>, xs: seq<T>, ys: seq<T>)
    requires multiset(xs) == multiset(ys)
    ensures multiset(FlatMap(f, xs)) == multiset(FlatMap(f, ys))
    decreases |xs|
  {
    if xs != [] {
      var n := |xs| - 1;
      var x := xs[n];
      assert xs == xs[..n] + [x];
      assert x in multiset(ys);
      var i :| 0 <= i < |ys| && ys[i] == x;
      var left, right := ys[..i], ys[i + 1..];
      assert ys == left + [x] + right;
      assert multiset(xs[..n]) == multiset(left + right) by {
        assert multiset(xs) == multiset(xs[..n]) + multiset{x};
        assert multiset(ys) == multiset(left) + multiset{x} + multiset(right);
        assert multiset(left + right) == multiset(left) + multiset(right);
        MultisetCancel(multiset(xs[..n]), multiset(left + right), x);
      }
      FlatMapPermutation(f, xs[..n], left + right);
      FlatMapAppend(f, left, right);
      FlatMapAppend(f, left + [x], right);
      FlatMapAppend(f, left, [x]);
      assert FlatMap(f, [x]) == f(x) by {
        assert [x][..0] == [];
      }
    }
  }

  lemma MultisetCancel<T>(a: multiset<T>, b: multiset<T>, x: T)
    requires a + multiset{x} == b + multiset{x}
    ensures a == b
  {
    forall y ensures a[y] == b[y] {
      assert (a + multiset{x})[y] == (b + multiset{x})[y];
    }
  }

  lemma SliceSplit<T>(s: seq<T>, i: nat, j: nat, k: nat)
    requires i <= j <= k <= |s|
    ensures s[i..j] + s[j..k] == s[i..k]
  {
  }

  lemma AppendAssoc<T>(a: seq<T>, b: seq<T>, c: seq<T>)
    ensures (a + b) + c == a + (b + c)
  {
  }

  lemma SliceOfSlice<T>(s: seq<T>, a: nat, j: nat)
    requires a + j <= |s|
    ensures s[a..][..j] == s[a..a + j]
  {
  }
}
