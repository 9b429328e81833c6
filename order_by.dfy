/**
 * `OrderBy(_ => rng.Next())`: a stable sort of a sequence by one random key
 * per element, the keys drawn in the sequence's order.
 */
module OrderBy {

  /** Keys `from .. from + n - 1` of a stream of random draws. */
  function Keys(draws: nat -> int, from: nat, n: nat): (r: seq<int>)
    ensures |r| == n
    ensures forall i :: 0 <= i < n ==> r[i] == draws(from + i)
  {
    seq(n, i requires 0 <= i < n => draws(from + i))
  }

  predicate KeysSorted<T>(ps: seq<(int, T)>) {
    forall i, j :: 0 <= i < j < |ps| ==> ps[i].0 <= ps[j].0
  }

  function Values<T>(ps: seq<(int, T)>): (r: seq<T>)
    ensures |r| == |ps|
    ensures forall i :: 0 <= i < |ps| ==> r[i] == ps[i].1
  {
    if ps == [] then [] else Values(ps[..|ps| - 1]) + [ps[|ps| - 1].1]
  }

  lemma ValuesAppend<T>(a: seq<(int, T)>, b: seq<(int, T)>)
    ensures Values(a + b) == Values(a) + Values(b)
  {
  }

  /** Inserts `p` after every element whose key is not larger, so equal keys keep their order. */
  function Insert<T>(s: seq<(int, T)>, p: (int, T)): (r: seq<(int, T)>)
    ensures |r| == |s| + 1
  {
    if s == [] || s[|s| - 1].0 <= p.0 then s + [p]
    else Insert(s[..|s| - 1], p) + [s[|s| - 1]]
  }

  /** Insertion sort by key, taking the elements in their original order. */
  function SortByKey<T>(ps: seq<(int, T)>): (r: seq<(int, T)>)
    ensures |r| == |ps|
  {
    if ps == [] then [] else Insert(SortByKey(ps[..|ps| - 1]), ps[|ps| - 1])
  }

  function Zip<T>(keys: seq<int>, xs: seq<T>): (r: seq<(int, T)>)
    requires |keys| == |xs|
    ensures |r| == |xs|
    ensures forall i :: 0 <= i < |xs| ==> r[i] == (keys[i], xs[i])
  {
    seq(|xs|, i requires 0 <= i < |xs| => (keys[i], xs[i]))
  }

  /** `xs.OrderBy(_ => key)` where the i-th key drawn is `keys[i]`. */
  function OrderBy<T>(xs: seq<T>, keys: seq<int>): (r: seq<T>)
    requires |keys| == |xs|
    ensures |r| == |xs|
    ensures multiset(r) == multiset(xs)
  {
    var keyed := Zip(keys, xs);
    SortByKeyValues(keyed);
    assert Values(keyed) == xs;
    Values(SortByKey(keyed))
  }

  /** Inserting adds the inserted element's value once and keeps every other value. */
  lemma {:induction false} InsertValues<T>(s: seq<(int, T)>, p: (int, T))
    ensures multiset(Values(Insert(s, p))) == multiset(Values(s)) + multiset{p.1}
  {
    if s == [] || s[|s| - 1].0 <= p.0 {
      ValuesAppend(s, [p]);
    } else {
      var init := s[..|s| - 1];
      var last := s[|s| - 1];
      assert s == init + [last];
      ValuesAppend(init, [last]);
      InsertValues(init, p);
      ValuesAppend(Insert(init, p), [last]);
    }
  }

  /** Sorting by key only reorders the values. */
  lemma {:induction false} SortByKeyValues<T>(ps: seq<(int, T)>)
    ensures multiset(Values(SortByKey(ps))) == multiset(Values(ps))
  {
    if ps != [] {
      var init := ps[..|ps| - 1];
      assert ps == init + [ps[|ps| - 1]];
      ValuesAppend(init, [ps[|ps| - 1]]);
      SortByKeyValues(init);
      InsertValues(SortByKey(init), ps[|ps| - 1]);
    }
  }

  /** The sorted sequence carries its keys in non-decreasing order, and is a permutation of the keyed input. */
  lemma {:induction false} SortByKeySorts<T>(ps: seq<(int, T)>)
    ensures KeysSorted(SortByKey(ps))
    ensures multiset(SortByKey(ps)) == multiset(ps)
  {
    if ps != [] {
      var init := ps[..|ps| - 1];
      assert ps == init + [ps[|ps| - 1]];
      SortByKeySorts(init);
      InsertSorts(SortByKey(init), ps[|ps| - 1]);
      InsertPermutes(SortByKey(init), ps[|ps| - 1]);
    }
  }

  lemma {:induction false} InsertPermutes<T>(s: seq<(int, T)>, p: (int, T))
    ensures multiset(Insert(s, p)) == multiset(s) + multiset{p}
  {
    if s == [] || s[|s| - 1].0 <= p.0 {
    } else {
      var init := s[..|s| - 1];
      assert s == init + [s[|s| - 1]];
      InsertPermutes(init, p);
    }
  }

  lemma {:induction false} InsertSorts<T>(s: seq<(int, T)>, p: (int, T))
    requires KeysSorted(s)
    ensures KeysSorted(Insert(s, p))
  {
    if s == [] || s[|s| - 1].0 <= p.0 {
    } else {
      var init := s[..|s| - 1];
      var last := s[|s| - 1];
      assert s == init + [last];
      InsertSorts(init, p);
      InsertPermutes(init, p);
      var head := Insert(init, p);
      var r := head + [last];
      forall i | 0 <= i < |head|
        ensures head[i].0 <= last.0
      {
        assert head[i] in multiset(init) + multiset{p};
        if head[i] != p {
          var k :| 0 <= k < |init| && init[k] == head[i];
          assert s[k] == head[i];
        }
      }
      assert Insert(s, p) == r;
    }
  }

  /**
   * With the keys of `OrderBy` attached, its result is sorted by key and holds
   * exactly the keyed input elements.
   */
  lemma OrderByIsSorted<T>(xs: seq<T>, keys: seq<int>)
    requires |keys| == |xs|
    ensures KeysSorted(SortByKey(Zip(keys, xs)))
    ensures multiset(SortByKey(Zip(keys, xs))) == multiset(Zip(keys, xs))
    ensures Values(SortByKey(Zip(keys, xs))) == OrderBy(xs, keys)
  {
    SortByKeySorts(Zip(keys, xs));
  }
}
