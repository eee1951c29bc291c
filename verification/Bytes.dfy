/** Fixed-width integers and their big- and little-endian byte forms. */
module Bytes {

  type Byte = x: int | 0 <= x < 256
  type ByteString = seq<Byte>

  const U32_SIZE: int := 0x1_0000_0000
  const U64_SIZE: int := 0x1_0000_0000_0000_0000

  type U16 = x: int | 0 <= x < 0x1_0000
  type U32 = x: int | 0 <= x < 0x1_0000_0000
  type U64 = x: int | 0 <= x < 0x1_0000_0000_0000_0000
  type I64 = x: int | -0x8000_0000_0000_0000 <= x < 0x8000_0000_0000_0000

  /** The C++ cast to std::uint32_t. */
  function ToU32(n: int): U32 {
    if 0 <= n < 0x1_0000_0000 then n else n % 0x1_0000_0000
  }

  /** The C++ cast to std::uint64_t (also of a negative std::int64_t). */
  function ToU64(n: int): U64 {
    if 0 <= n < 0x1_0000_0000_0000_0000 then n else n % 0x1_0000_0000_0000_0000
  }

  /** The C++ cast of a 64-bit value to std::int64_t. */
  function ToI64(n: int): I64 {
    var u := ToU64(n);
    if u < 0x8000_0000_0000_0000 then u else u - 0x1_0000_0000_0000_0000
  }

  lemma I64RoundTrip(i: I64)
    ensures ToI64(ToU64(i)) == i
  {
  }

  lemma Associate(a: ByteString, b: ByteString, c: ByteString)
    ensures a + b + c == a + (b + c)
  {
  }

  function Pow256(n: nat): (p: int)
    ensures p > 0
  {
    if n == 0 then 1 else 256 * Pow256(n - 1)
  }

  // ---------------------------------------------------------------- big endian

  /** The low `n` bytes of `v`, most significant first. */
  function BeBytes(v: nat, n: nat): (b: ByteString)
    ensures |b| == n
  {
    if n == 0 then [] else BeBytes(v / 256, n - 1) + [v % 256]
  }

  function BeValue(b: ByteString): (v: nat)
  {
    if b == [] then 0 else 256 * BeValue(b[..|b| - 1]) + b[|b| - 1]
  }

  lemma {:induction false} BeValueBound(b: ByteString)
    ensures BeValue(b) < Pow256(|b|)
  {
    if b != [] {
      BeValueBound(b[..|b| - 1]);
    }
  }

  /** Printing then reading gives back every value that fits the width. */
  lemma {:induction false} BeReadsBack(v: nat, n: nat)
    requires v < Pow256(n)
    ensures BeValue(BeBytes(v, n)) == v
  {
    if n > 0 {
      BeReadsBack(v / 256, n - 1);
      assert BeBytes(v, n)[..n - 1] == BeBytes(v / 256, n - 1);
    }
  }

  /** Reading then printing gives back every byte string. */
  lemma {:induction false} BePrintsBack(b: ByteString)
    ensures BeBytes(BeValue(b), |b|) == b
  {
    if b != [] {
      var last := |b| - 1;
      BePrintsBack(b[..last]);
      assert BeValue(b) / 256 == BeValue(b[..last]) && BeValue(b) % 256 == b[last];
      assert b == b[..last] + [b[last]];
    }
  }

  /** The two widths the canonical format uses. */
  function U16Be(v: U16): (b: ByteString)
    ensures |b| == 2 && BeValue(b) == v
  {
    Widths();
    BeReadsBack(v, 2);
    BeBytes(v, 2)
  }

  function U32Be(v: U32): (b: ByteString)
    ensures |b| == 4 && BeValue(b) == v
  {
    Widths();
    BeReadsBack(v, 4);
    BeBytes(v, 4)
  }

  lemma U16BePrintsBack(b: ByteString)
    requires |b| == 2
    ensures BeValue(b) < 0x1_0000 && U16Be(BeValue(b)) == b
  {
    Widths();
    BeValueBound(b);
    BePrintsBack(b);
  }

  lemma U32BePrintsBack(b: ByteString)
    requires |b| == 4
    ensures BeValue(b) < U32_SIZE && U32Be(BeValue(b)) == b
  {
    Widths();
    BeValueBound(b);
    BePrintsBack(b);
  }

  // ------------------------------------------------------------- little endian

  /** The low `n` bytes of `v`, least significant first. */
  function LeBytes(v: nat, n: nat): (b: ByteString)
    ensures |b| == n
  {
    if n == 0 then [] else [v % 256] + LeBytes(v / 256, n - 1)
  }

  function LeValue(b: ByteString): nat
  {
    if b == [] then 0 else b[0] + 256 * LeValue(b[1..])
  }

  lemma {:induction false} LeValueBound(b: ByteString)
    ensures LeValue(b) < Pow256(|b|)
  {
    if b != [] {
      LeValueBound(b[1..]);
    }
  }

  lemma {:induction false} LeReadsBack(v: nat, n: nat)
    requires v < Pow256(n)
    ensures LeValue(LeBytes(v, n)) == v
  {
    if n > 0 {
      LeReadsBack(v / 256, n - 1);
      assert LeBytes(v, n)[1..] == LeBytes(v / 256, n - 1);
    }
  }

  lemma {:induction false} LePrintsBack(b: ByteString)
    ensures LeBytes(LeValue(b), |b|) == b
  {
    if b != [] {
      LePrintsBack(b[1..]);
      assert LeValue(b) / 256 == LeValue(b[1..]) && LeValue(b) % 256 == b[0];
      assert b == [b[0]] + b[1..];
    }
  }

  lemma Widths()
    ensures Pow256(2) == 0x1_0000
    ensures Pow256(4) == 0x1_0000_0000
    ensures Pow256(8) == 0x1_0000_0000_0000_0000
  {
    assert Pow256(1) == 256 && Pow256(2) == 256 * 256 && Pow256(3) == 256 * 256 * 256;
    assert Pow256(4) == 256 * Pow256(3) && Pow256(5) == 256 * Pow256(4) && Pow256(6) == 256 * Pow256(5);
    assert Pow256(7) == 256 * Pow256(6) && Pow256(8) == 256 * Pow256(7);
  }

  // ------------------------------------------------------------- text and bytes

  function Ascii(s: string): ByteString {
    seq(|s|, i requires 0 <= i < |s| => s[i] as int % 256)
  }

  /** A byte string read as characters, to compare it with a literal. */
  function Chars(b: ByteString): string {
    seq(|b|, i requires 0 <= i < |b| => b[i] as char)
  }

  predicate IsAscii(s: string) {
    forall i :: 0 <= i < |s| ==> s[i] < 128 as char
  }

  lemma CharsOfAscii(s: string)
    requires IsAscii(s)
    ensures Chars(Ascii(s)) == s
  {
  }
}
