/**
 * The C# integer operators the source relies on.  Dafny's `/` and `%` are
 * Euclidean; C# truncates toward zero, and a cast from `long` to `int` keeps
 * the low 32 bits.  Only positive divisors occur in the source.
 */
module CSharp {

  const Int32Min: int := -0x8000_0000
  const Int32Max: int := 0x7FFF_FFFF

  const Int64Min: int := -0x8000_0000_0000_0000
  const Int64Max: int := 0x7FFF_FFFF_FFFF_FFFF

  predicate IsInt32(x: int) {
    Int32Min <= x <= Int32Max
  }

  predicate IsInt64(x: int) {
    Int64Min <= x <= Int64Max
  }

  /** C# `a / b` for a positive divisor: the quotient truncated toward zero. */
  function Div(a: int, b: int): (q: int)
    requires b > 0
    ensures a >= 0 ==> q == a / b
    ensures a >= 0 ==> q * b <= a < q * b + b
    ensures a < 0 ==> q * b - b < a <= q * b
  {
    if a >= 0 then a / b else -((-a) / b)
  }

  /** C# `a % b` for a positive divisor: the remainder takes the sign of the dividend. */
  function Rem(a: int, b: int): (r: int)
    requires b > 0
    ensures a == Div(a, b) * b + r
    ensures a >= 0 ==> r == a % b
    ensures -b < r < b
    ensures a >= 0 ==> r >= 0
    ensures a < 0 ==> r <= 0
  {
    a - Div(a, b) * b
  }

  /** The explicit conversion `(int)x` of a C# `long`: the low 32 bits, read as two's complement. */
  function ToInt32(x: int): (r: int)
    ensures IsInt32(r)
    ensures (r - x) % 0x1_0000_0000 == 0
    ensures IsInt32(x) ==> r == x
  {
    var low := x % 0x1_0000_0000;
    if low <= Int32Max then low else low - 0x1_0000_0000
  }

  /** C# `x++` on an `int`: one more, except that `int.MaxValue` wraps round to `int.MinValue`. */
  function Increment(x: int): (r: int)
    ensures IsInt32(x) ==> IsInt32(r)
    ensures x != Int32Max ==> r == x + 1
    ensures x == Int32Max ==> r == Int32Min
  {
    if x == Int32Max then Int32Min else x + 1
  }

  /** Numbers that agree modulo 2^32 convert to the same `int`. */
  lemma ToInt32Congruent(a: int, b: int)
    requires (a - b) % 0x1_0000_0000 == 0
    ensures ToInt32(a) == ToInt32(b)
  {
    var q := (a - b) / 0x1_0000_0000;
    assert a == b + q * 0x1_0000_0000;
    assert a % 0x1_0000_0000 == b % 0x1_0000_0000;
  }

  /** Incrementing after the conversion is converting after the increment: `++` is addition modulo 2^32. */
  lemma IncrementToInt32(x: int)
    ensures Increment(ToInt32(x)) == ToInt32(x + 1)
  {
    var r := ToInt32(x);
    assert (r + 1 - (x + 1)) % 0x1_0000_0000 == 0;
    ToInt32Congruent(r + 1, x + 1);
  }

  /** `x++` done `j` times. */
  function IncrementTimes(x: int, j: nat): (r: int)
    ensures IsInt32(x) ==> IsInt32(r)
  {
    if j == 0 then x else Increment(IncrementTimes(x, j - 1))
  }

  /** `j` increments of an `int` add `j` modulo 2^32. */
  lemma {:induction false} IncrementTimesToInt32(x: int, j: nat)
    requires IsInt32(x)
    ensures IncrementTimes(x, j) == ToInt32(x + j)
  {
    if j > 0 {
      IncrementTimesToInt32(x, j - 1);
      IncrementToInt32(x + (j - 1));
    }
  }
}
