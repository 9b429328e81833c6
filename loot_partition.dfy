/**
 * The split of the shuffled loot pile among the randomized encounters: the
 * encounter with loot index `i` of `n` receives the items between the
 * bounds `len * i / n` and `len * (i + 1) / n`.
 */
module LootPartition {

  /** Where the slice of slot `i` starts, for a pile of `len` items shared by `n` slots. */
  function Bound(len: nat, n: nat, i: nat): (b: nat)
    requires 0 < n && i <= n
    ensures b <= len
    ensures i == 0 ==> b == 0
    ensures i == n ==> b == len
  {
    MulDivAtMost(len, n, i);
    len * i / n
  }

  /** The items slot `i` of `n` receives from `pile`. */
  function Slice<T>(pile: seq<T>, n: nat, i: nat): (r: seq<T>)
    requires i < n
    ensures Bound(|pile|, n, i) <= Bound(|pile|, n, i + 1)
    ensures |r| == Bound(|pile|, n, i + 1) - Bound(|pile|, n, i)
  {
    BoundMonotone(|pile|, n, i, i + 1);
    pile[Bound(|pile|, n, i)..Bound(|pile|, n, i + 1)]
  }

  /** The slices of slots `0 .. k - 1`, concatenated. */
  function Slices<T>(pile: seq<T>, n: nat, k: nat): seq<T>
    requires k <= n
  {
    if k == 0 then [] else Slices(pile, n, k - 1) + Slice(pile, n, k - 1)
  }

  lemma MulDivAtMost(len: nat, n: nat, i: nat)
    requires 0 < n && i <= n
    ensures len * i / n <= len
    ensures i == 0 ==> len * i / n == 0
    ensures i == n ==> len * i / n == len
  {
    MulMonotone(len, i, n);
    DivMonotone(len * i, len * n, n);
    QuotientUnique(len * n, n, len, 0);
  }

  lemma MulMonotone(a: nat, i: nat, j: nat)
    requires i <= j
    ensures a * i <= a * j
  {
    assert a * j == a * i + a * (j - i);
  }

  /** A multiple of `n` strictly between `-n` and `n` is zero. */
  lemma SmallMultiple(d: int, n: int)
    requires 0 < n && -n < d * n < n
    ensures d == 0
  {
  }

  /** Euclidean division has one quotient: `x = q * n + r` with `0 <= r < n` fixes `x / n`. */
  lemma QuotientUnique(x: int, n: nat, q: int, r: int)
    requires 0 < n && x == q * n + r && 0 <= r < n
    ensures x / n == q
  {
    var d := x / n - q;
    assert x == (x / n) * n + x % n;
    assert d * n == r - x % n;
    SmallMultiple(d, n);
  }

  lemma DivMonotone(x: nat, y: nat, n: nat)
    requires 0 < n && x <= y
    ensures x / n <= y / n
  {
    var qx := x / n;
    var qy := y / n;
    assert x == qx * n + x % n;
    assert y == qy * n + y % n;
    assert (qx - qy - 1) * n < 0;
    if qx > qy {
      assert (qx - qy - 1) * n == n * (qx - qy - 1);
      MulMonotone(n, 0, qx - qy - 1);
    }
  }

  /** Slot bounds never decrease: the slices are in pile order and do not overlap. */
  lemma BoundMonotone(len: nat, n: nat, i: nat, j: nat)
    requires 0 < n && i <= j <= n
    ensures Bound(len, n, i) <= Bound(len, n, j)
  {
    MulMonotone(len, i, j);
    DivMonotone(len * i, len * j, n);
  }

  /** Together, the slices of all slots are exactly the pile: no item is lost or handed out twice. */
  lemma {:induction false} SlicesCoverPile<T>(pile: seq<T>, n: nat, k: nat)
    requires 0 < n && k <= n
    ensures Slices(pile, n, k) == pile[..Bound(|pile|, n, k)]
  {
    if k > 0 {
      SlicesCoverPile(pile, n, k - 1);
      BoundMonotone(|pile|, n, k - 1, k);
      var a := Bound(|pile|, n, k - 1);
      var b := Bound(|pile|, n, k);
      assert pile[..a] + pile[a..b] == pile[..b];
    }
  }

  lemma AllSlicesArePile<T>(pile: seq<T>, n: nat)
    requires 0 < n
    ensures Slices(pile, n, n) == pile
  {
    SlicesCoverPile(pile, n, n);
  }

  /** Dividing `a * n + b` by `n` takes `a` out whole. */
  lemma DivAddMultiple(a: nat, b: nat, n: nat)
    requires 0 < n
    ensures (a * n + b) / n == a + b / n
  {
    var q := b / n;
    var r := b % n;
    assert b == q * n + r;
    assert a * n + b == (a + q) * n + r;
    QuotientUnique(a * n + b, n, a + q, r);
  }

  /** With `len = q * n + r`, slot `i` starts at `q * i + r * i / n`. */
  lemma BoundSplit(len: nat, n: nat, i: nat)
    requires 0 < n && i <= n
    ensures Bound(len, n, i) == (len / n) * i + ((len % n) * i) / n
  {
    var q := len / n;
    var r := len % n;
    assert len == q * n + r;
    Distribute(q * n, r, i);
    Rearrange(q, n, i);
    assert len * i == (q * i) * n + r * i;
    DivAddMultiple(q * i, r * i, n);
  }

  lemma Distribute(a: int, b: int, c: int)
    ensures (a + b) * c == a * c + b * c
  {
  }

  lemma Rearrange(q: int, n: int, i: int)
    ensures (q * n) * i == (q * i) * n
  {
  }

  /** Consecutive multiples of `r < n` differ by at most one after dividing by `n`. */
  lemma StepAtMostOne(r: nat, n: nat, i: nat)
    requires r < n
    ensures r * i / n <= r * (i + 1) / n <= r * i / n + 1
  {
    assert r * (i + 1) == r * i + r;
    DivMonotone(r * i, r * (i + 1), n);
    var q := r * i / n;
    var m := (r * i) % n;
    assert r * i == q * n + m;
    if m + r < n {
      QuotientUnique(r * (i + 1), n, q, m + r);
    } else {
      QuotientUnique(r * (i + 1), n, q + 1, m + r - n);
    }
  }

  /**
   * The split is as even as it can be: every slot receives `len / n` items
   * or one more, so an encounter never gets more than its fair share rounded up.
   */
  lemma SliceSize<T>(pile: seq<T>, n: nat, i: nat)
    requires i < n
    ensures |pile| / n <= |Slice(pile, n, i)| <= |pile| / n + 1
  {
    BoundStep(|pile|, n, i);
  }

  lemma BoundStep(len: nat, n: nat, i: nat)
    requires i < n
    ensures len / n <= Bound(len, n, i + 1) - Bound(len, n, i) <= len / n + 1
  {
    var q := len / n;
    var r := len % n;
    BoundSplit(len, n, i);
    BoundSplit(len, n, i + 1);
    StepAtMostOne(r, n, i);
    assert q * (i + 1) == q * i + q;
  }
}
