/** The hand-written int32 printer of the mutation webhook, under Go's wrapping arithmetic. */
module Decimal {
  import opened Resources

  const MinInt32: Int32 := -0x8000_0000

  /** Go's unary minus on int32 wraps at the minimum. */
  function Negate(i: Int32): Int32 {
    if i == MinInt32 then MinInt32 else -i
  }

  function Digit(d: nat): char
    requires d < 10
  {
    '0' + d as char
  }

  /** Decimal digits without leading zeros; empty unless positive. */
  function Digits(n: int): string {
    if n <= 0 then [] else Digits(n / 10) + [Digit(n % 10)]
  }

  /** What itoa prints. */
  function Printed(i: Int32): string {
    if i == 0 then "0"
    else if i == MinInt32 then "-"
    else if i < 0 then "-" + Digits(-i)
    else Digits(i)
  }

  function Pow10(e: nat): nat {
    if e == 0 then 1 else 10 * Pow10(e - 1)
  }

  /** itoa fills a 12-byte buffer from the right.  `pos` ends at 1 at the lowest, so the buffer
      never overflows. */
  method Itoa(value: Int32) returns (s: string, pos: nat)
    ensures s == Printed(value)
    ensures 1 <= pos <= 12 && (value != 0 ==> |s| == 12 - pos)
  {
    pos := 12;
    if value == 0 {
      return "0", pos;
    }
    var neg := value < 0;
    var i := value;
    if neg {
      i := Negate(i);
    }
    var buf := new char[12];
    ghost var magnitude, tail := i, [];
    AtMostTenDigits(magnitude);
    while i > 0
      invariant |Digits(i)| + 2 <= pos <= 12
      invariant Digits(magnitude) == Digits(i) + tail
      invariant buf[pos..] == tail
    {
      MoveDigit(i, tail);
      tail := [Digit(i % 10)] + tail;
      pos := pos - 1;
      buf[pos] := Digit(i % 10);
      i := i / 10;
    }
    assert tail == Digits(magnitude);
    if neg {
      pos := pos - 1;
      buf[pos] := '-';
      assert buf[pos..] == ['-'] + tail;
    }
    s := buf[pos..];
  }

  /** One turn of the loop moves the last digit over. */
  lemma MoveDigit(i: int, tail: string)
    requires i > 0
    ensures |Digits(i)| == |Digits(i / 10)| + 1
    ensures Digits(i) + tail == Digits(i / 10) + ([Digit(i % 10)] + tail)
  {
  }

  lemma AtMostTenDigits(n: Int32)
    ensures |Digits(n)| <= 10
  {
    TenDigits();
    DigitCount(n, 10);
  }

  lemma {:induction false} DigitCount(n: int, e: nat)
    requires n < Pow10(e)
    ensures |Digits(n)| <= e
  {
    if n > 0 {
      DigitCount(n / 10, e - 1);
    }
  }

  lemma TenDigits()
    ensures Pow10(10) == 10_000_000_000
  {
    assert Pow10(2) == 100;
    assert Pow10(4) == 10000;
    assert Pow10(6) == 1000000;
    assert Pow10(8) == 100000000;
  }

  // ---------- parsing back ----------

  predicate IsDigit(c: char) {
    '0' <= c <= '9'
  }

  function ParseNat(s: string): Option<nat> {
    if s == [] then Some(0)
    else
      var front := ParseNat(s[..|s| - 1]);
      var c := s[|s| - 1];
      if front.Some? && IsDigit(c) then Some(10 * front.value + (c - '0') as nat) else None
  }

  /** Signed decimal: an optional minus and at least one digit. */
  function Parse(s: string): Option<int> {
    var neg := |s| > 0 && s[0] == '-';
    var digits := if neg then s[1..] else s;
    var n := ParseNat(digits);
    if digits == [] || n.None? then None
    else
      var v: int := n.value;
      Some(if neg then -v else v)
  }

  /** No leading zero unless the text is "0" itself. */
  predicate Canonical(s: string) {
    var d := if |s| > 0 && s[0] == '-' then s[1..] else s;
    d != [] && (forall i :: 0 <= i < |d| ==> IsDigit(d[i])) && (d[0] == '0' ==> s == "0")
  }

  lemma {:induction false} DigitsParse(n: nat)
    ensures ParseNat(Digits(n)) == Some(n)
  {
    if n > 0 {
      DigitsParse(n / 10);
      var s := Digits(n);
      assert s[..|s| - 1] == Digits(n / 10);
    }
  }

  lemma {:induction false} DigitsCanonical(n: nat)
    requires n > 0
    ensures |Digits(n)| > 0 && Digits(n)[0] != '0' && forall i :: 0 <= i < |Digits(n)| ==> IsDigit(Digits(n)[i])
  {
    if n >= 10 {
      DigitsCanonical(n / 10);
    } else {
      assert Digits(n / 10) == [];
    }
  }

  /** Every int32 but the minimum prints as canonical decimal that parses back to it; the minimum
      prints as a lone minus, which does not parse. */
  lemma PrintedParsesBack(i: Int32)
    ensures i != MinInt32 ==> Canonical(Printed(i)) && Parse(Printed(i)) == Some(i)
    ensures Parse(Printed(i)).Some? <==> i != MinInt32
    ensures i == MinInt32 ==> Printed(i) == "-"
  {
    if i == 0 {
      var zero := Printed(i);
      assert zero == ['0'] && zero[..0] == [] && IsDigit(zero[0]);
      assert ParseNat(zero[..0]) == Some(0);
      assert ParseNat(zero) == Some(0);
    } else if i == MinInt32 {
    } else {
      var n: nat := if i < 0 then -i else i;
      DigitsParse(n);
      DigitsCanonical(n);
      if i < 0 {
        assert Printed(i)[1..] == Digits(n);
      }
    }
  }

  /** The printer is injective on all of int32. */
  lemma PrintedIsInjective(i: Int32, j: Int32)
    requires Printed(i) == Printed(j)
    ensures i == j
  {
    PrintedParsesBack(i);
    PrintedParsesBack(j);
  }
}
