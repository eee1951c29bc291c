/** Printing and reading of unsigned decimal numbers. */
module Decimals {
  import opened Bytes

  predicate IsDigit(b: Byte) {
    48 <= b <= 57
  }

  function Digit(d: nat): (b: Byte)
    requires d < 10
    ensures IsDigit(b) && b - 48 == d
  {
    48 + d
  }

  /** `std::to_string` of an unsigned number. */
  function Decimal(n: nat): (s: ByteString)
    ensures s != [] && forall i :: 0 <= i < |s| ==> IsDigit(s[i])
  {
    if n < 10 then [Digit(n)] else Decimal(n / 10) + [Digit(n % 10)]
  }

  /** The number a run of digits denotes. */
  function Number(s: ByteString): nat
    requires forall i :: 0 <= i < |s| ==> IsDigit(s[i])
  {
    if s == [] then 0 else
    assert IsDigit(s[|s| - 1]);
    10 * Number(s[..|s| - 1]) + (s[|s| - 1] as int - 48)
  }

  lemma {:induction false} NumberOfDecimal(n: nat)
    ensures Number(Decimal(n)) == n
  {
    if n < 10 {
      assert [Digit(n)][..0] == [];
    } else {
      NumberOfDecimal(n / 10);
      var s := Decimal(n);
      assert s[..|s| - 1] == Decimal(n / 10);
    }
  }
}
