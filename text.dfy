/**
 * The .NET string operations the source calls: `char.IsWhiteSpace`,
 * `string.Trim`, `string.Contains` (ordinal) and `string.Split(c, 2)`.
 */
module Text {
  import opened Wrappers

  /** `char.IsWhiteSpace`: the Unicode separators and the control characters 9-13, 0x85. */
  predicate IsWhiteSpace(c: char) {
    var n := c as int;
    (9 <= n <= 13) || n == 0x20 || n == 0x85 || n == 0xA0 || n == 0x1680
    || (0x2000 <= n <= 0x200A) || n == 0x2028 || n == 0x2029 || n == 0x202F
    || n == 0x205F || n == 0x3000
  }

  /** No white space at either end: what `Trim` leaves alone. */
  predicate IsTrimmed(s: string) {
    s == [] || (!IsWhiteSpace(s[0]) && !IsWhiteSpace(s[|s| - 1]))
  }

  function TrimStart(s: string): (r: string)
    ensures |r| <= |s| && r == s[|s| - |r|..]
    ensures r == [] || !IsWhiteSpace(r[0])
    ensures forall i :: 0 <= i < |s| - |r| ==> IsWhiteSpace(s[i])
  {
    if s != [] && IsWhiteSpace(s[0]) then TrimStart(s[1..]) else s
  }

  function TrimEnd(s: string): (r: string)
    ensures |r| <= |s| && r == s[..|r|]
    ensures r == [] || !IsWhiteSpace(r[|r| - 1])
    ensures forall i :: |r| <= i < |s| ==> IsWhiteSpace(s[i])
  {
    if s != [] && IsWhiteSpace(s[|s| - 1]) then TrimEnd(s[..|s| - 1]) else s
  }

  /** The number of white-space characters `Trim` removes from the start of `s`. */
  function LeadingWhiteSpace(s: string): (n: nat)
    ensures n <= |s|
  {
    |s| - |TrimStart(s)|
  }

  /**
   * `string.Trim()`: the slice of `s` that starts after its leading white
   * space and leaves only white space after it, with no white space at
   * either end of its own.
   */
  function Trim(s: string): (r: string)
    ensures IsTrimmed(r)
    ensures LeadingWhiteSpace(s) + |r| <= |s|
    ensures r == s[LeadingWhiteSpace(s)..LeadingWhiteSpace(s) + |r|]
    ensures TrimmedAt(s, LeadingWhiteSpace(s), |r|)
  {
    TrimBothEnds(s, TrimStart(s), TrimEnd(TrimStart(s)), LeadingWhiteSpace(s));
    TrimEnd(TrimStart(s))
  }

  /** Trimming the start and then the end leaves a slice of `s` with white space only outside it. */
  lemma TrimBothEnds(s: string, t: string, r: string, i: nat)
    requires i <= |s| && t == s[i..] && forall k :: 0 <= k < i ==> IsWhiteSpace(s[k])
    requires |r| <= |t| && r == t[..|r|] && forall k :: |r| <= k < |t| ==> IsWhiteSpace(t[k])
    ensures i + |r| <= |s| && r == s[i..i + |r|] && TrimmedAt(s, i, |r|)
  {
    WhiteBefore(s, i);
    WhiteFrom(t, |r|);
    DropTwice(s, i, |r|);
  }

  lemma DropTwice(s: string, i: nat, n: nat)
    requires i + n <= |s|
    ensures s[i..][n..] == s[i + n..]
  {
  }

  lemma WhiteBefore(s: string, n: nat)
    requires n <= |s| && forall k :: 0 <= k < n ==> IsWhiteSpace(s[k])
    ensures AllWhiteSpace(s[..n])
  {
    assert forall k :: 0 <= k < n ==> s[..n][k] == s[k];
  }

  lemma WhiteFrom(s: string, n: nat)
    requires n <= |s| && forall k :: n <= k < |s| ==> IsWhiteSpace(s[k])
    ensures AllWhiteSpace(s[n..])
  {
    assert forall k :: 0 <= k < |s| - n ==> s[n..][k] == s[n + k];
  }

  /** Every character of `x` is white space. */
  predicate AllWhiteSpace(x: string) {
    forall k :: 0 <= k < |x| ==> IsWhiteSpace(x[k])
  }

  /** Everything in `s` before position `i` and from `i + n` on is white space. */
  predicate TrimmedAt(s: string, i: int, n: nat)
    requires 0 <= i <= |s| - n
  {
    AllWhiteSpace(s[..i]) && AllWhiteSpace(s[i + n..])
  }

  lemma TrimmedIsFixpoint(s: string)
    requires IsTrimmed(s)
    ensures Trim(s) == s
  {
  }

  /** `s.Contains(c)`. */
  predicate HasChar(s: string, c: char) {
    c in s
  }

  /** `s.Contains(sub)` with ordinal comparison. */
  predicate Contains(s: string, sub: string) {
    exists i {:trigger s[i..]} :: 0 <= i <= |s| - |sub| && s[i..][..|sub|] == sub
  }

  /** The position of the first `c` in `s`. */
  function IndexOf(s: string, c: char): (r: Option<nat>)
    ensures r.None? <==> c !in s
    ensures r.Some? ==> r.value < |s| && s[r.value] == c && c !in s[..r.value]
  {
    if s == [] then None
    else if s[0] == c then Some(0)
    else match IndexOf(s[1..], c)
      case None => None
      case Some(k) =>
        assert s[..k + 1] == [s[0]] + s[1..][..k];
        Some(k + 1)
  }

  /**
   * `s.Split(c, 2)` on a string that contains `c`: the text before the first
   * `c` and everything after it (which may contain further `c`s).
   */
  function SplitAtFirst(s: string, c: char): (r: (string, string))
    requires c in s
    ensures c !in r.0
    ensures s == r.0 + [c] + r.1
  {
    var k := IndexOf(s, c).value;
    assert s == s[..k] + [c] + s[k + 1..];
    (s[..k], s[k + 1..])
  }

  /** A key without `c`, then `c`, then any value: the split gives back the key and the value. */
  lemma SplitAtFirstUnique(key: string, c: char, value: string)
    requires c !in key
    ensures c in key + [c] + value
    ensures SplitAtFirst(key + [c] + value, c) == (key, value)
  {
    var s := key + [c] + value;
    assert s[|key|] == c;
    var r := SplitAtFirst(s, c);
    assert r.0 == s[..|key|] == key;
    assert r.1 == s[|key| + 1..] == value;
  }
}
