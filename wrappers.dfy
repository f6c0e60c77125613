// Shared helpers: the optional value that stands for a nullable pointer or
// std::optional, and the unsigned 32-bit arithmetic of the C++ source.
module Wrappers {

  datatype Option<T> = None | Some(value: T) {
    predicate IsSome() { Some? }
  }

  /** 2^32, the modulus of C++ `uint32_t` arithmetic. */
  const TWO_32: nat := 0x1_0000_0000
  /** UINT32_MAX. */
  const U32_MAX: nat := 0xFFFF_FFFF

  /** A `uint32_t` value. */
  predicate IsU32(x: int) { 0 <= x < TWO_32 }

  /** Conversion of a mathematical integer to `uint32_t` (wrap-around). */
  function U32(x: int): (r: nat)
    ensures IsU32(r)
    ensures IsU32(x) ==> r == x
  {
    x % TWO_32
  }

  /** A value written as k * 2^32 + r with r a `uint32_t` wraps to r. */
  lemma U32Unique(x: int, k: int, r: int)
    requires x == k * TWO_32 + r && 0 <= r < TWO_32
    ensures U32(x) == r
  {
    var q := x / TWO_32;
    var m := x % TWO_32;
    assert x == q * TWO_32 + m;
    assert (q - k) * TWO_32 == r - m;
  }

  /** Adding to a wrapped value wraps like adding to the value itself. */
  lemma U32AddWrap(a: int, c: int)
    ensures U32(U32(a) + c) == U32(a + c)
  {
    var q := a / TWO_32;
    var s := (a + c) / TWO_32;
    assert a + c == s * TWO_32 + U32(a + c);
    assert U32(a) + c == (s - q) * TWO_32 + U32(a + c);
    U32Unique(U32(a) + c, s - q, U32(a + c));
  }

  /** Multiplying a wrapped value wraps like multiplying the value itself. */
  lemma U32MulWrap(a: int, c: int)
    ensures U32(U32(a) * c) == U32(a * c)
  {
    var q := a / TWO_32;
    var s := (a * c) / TWO_32;
    assert a == q * TWO_32 + U32(a);
    assert a * c == q * c * TWO_32 + U32(a) * c;
    assert a * c == s * TWO_32 + U32(a * c);
    assert U32(a) * c == (s - q * c) * TWO_32 + U32(a * c);
    U32Unique(U32(a) * c, s - q * c, U32(a * c));
  }

  /** std::min / std::max on unsigned values. */
  function Min(a: int, b: int): (r: int)
    ensures r <= a && r <= b && (r == a || r == b)
  {
    if b < a then b else a
  }

  function Max(a: int, b: int): (r: int)
    ensures r >= a && r >= b && (r == a || r == b)
  {
    if a < b then b else a
  }

  /**
   * std::clamp(v, lo, hi) as the usual libstdc++ / libc++ implementation
   * evaluates it: `v < lo ? lo : (hi < v ? hi : v)`. The C++ standard leaves
   * lo > hi undefined; this definition is what the common implementations do.
   */
  function Clamp(v: int, lo: int, hi: int): (r: int)
    ensures lo <= hi ==> lo <= r <= hi
    ensures lo <= v <= hi ==> r == v
    ensures v < lo ==> r == lo
  {
    if v < lo then lo else if hi < v then hi else v
  }

  /**
   * std::vector::resize(n, fill): the first min(|s|, n) elements are kept and
   * any new positions hold `fill`.
   */
  function Resize<T>(s: seq<T>, n: nat, fill: T): (r: seq<T>)
    ensures |r| == n
    ensures forall i :: 0 <= i < n ==> r[i] == if i < |s| then s[i] else fill
  {
    if n <= |s| then s[..n] else s + seq(n - |s|, _ => fill)
  }
}
