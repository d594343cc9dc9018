// The decimal spelling of a length.
module Decimal {
  import opened Bytes

  const MAX_INT := 0x7FFF_FFFF_FFFF_FFFF
  const MIN_INT := -0x8000_0000_0000_0000

  function Digit(d: nat): (b: byte)
    requires d < 10
  {
    '0' + d as char
  }

  function Decimal(n: nat): (s: bytes)
    ensures s != []
  {
    if n < 10 then [Digit(n)] else Decimal(n / 10) + [Digit(n % 10)]
  }

  predicate AllDigits(s: bytes) { forall i :: 0 <= i < |s| ==> '0' <= s[i] <= '9' }

  function Value(s: bytes): nat
    requires AllDigits(s)
  {
    if s == [] then 0 else 10 * Value(s[..|s| - 1]) + (s[|s| - 1] as int - '0' as int)
  }

  // Reading the spelling back gives the number, and there is only one way to
  // write it: digits, no leading zero.
  lemma {:induction false} DecimalReadsBack(n: nat)
    ensures AllDigits(Decimal(n)) && Value(Decimal(n)) == n
    ensures Decimal(n)[0] == '0' ==> n == 0
  {
    if n < 10 {
      assert [Digit(n)][..0] == [];
    } else {
      DecimalReadsBack(n / 10);
      var s := Decimal(n / 10) + [Digit(n % 10)];
      assert s[..|s| - 1] == Decimal(n / 10);
    }
  }

  function Pow10(k: nat): nat { if k == 0 then 1 else 10 * Pow10(k - 1) }

  lemma NineteenDigits()
    ensures MAX_INT < Pow10(19)
  {
    assert Pow10(10) == 1_0000_000_000;
    assert Pow10(15) == Pow10(10) * 100_000;
    assert Pow10(19) == Pow10(15) * 10_000;
  }

  function Left(m: int): bytes { if m > 0 then Decimal(m) else [] }

  lemma NextDigit(m: int, rest: bytes)
    requires m > 0
    ensures Left(m) + rest == Left(m / 10) + ([Digit(m % 10)] + rest)
  {
  }

  // The digits are produced last first into the tail of a fixed buffer.
  method Itoa(n: int) returns (s: bytes)
    requires MIN_INT <= n <= MAX_INT
    ensures n >= 0 ==> s == Decimal(n)
    ensures n < 0 ==> s == []
  {
    if n == 0 {
      return "0";
    }
    var b := new byte[20];
    var i, m := b.Length, n;
    NineteenDigits();
    while m > 0
      invariant 1 <= i <= b.Length
      invariant m < Pow10(i - 1)
      invariant Left(n) == Left(m) + b[i..]
      decreases m
    {
      NextDigit(m, b[i..]);
      i := i - 1;
      b[i] := Digit(m % 10);
      assert b[i..] == [Digit(m % 10)] + b[i + 1..];
      m := m / 10;
    }
    return b[i..];
  }
}
