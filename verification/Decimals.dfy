/** Decimal notation of 64-bit integers: how placeholders and bucket numbers are printed. */
module Decimals {
  import opened Base

  const MIN_INT64 := -0x8000_0000_0000_0000
  const MAX_INT64 := 0x7FFF_FFFF_FFFF_FFFF
  const BUFFER_SIZE := 20

  predicate IsInt64(i: int) {
    MIN_INT64 <= i <= MAX_INT64
  }

  /** Two's complement negation: the least integer is its own negative. */
  function Negate(i: int): int
    requires IsInt64(i)
  {
    if i == MIN_INT64 then MIN_INT64 else -i
  }

  function Digit(d: nat): char
    requires d < 10
  {
    '0' + d as char
  }

  /** The digits of a positive number; nothing for zero. */
  function Digits(n: nat): (s: string)
    ensures n > 0 ==> s != "" && s[0] != '0'
    ensures forall c | c in s :: '0' <= c <= '9'
  {
    if n == 0 then "" else Digits(n / 10) + [Digit(n % 10)]
  }

  /** Canonical decimal notation: no leading zeros, a minus sign for negative numbers. */
  function Decimal(i: int): string {
    if i == 0 then "0" else if i < 0 then "-" + Digits(-i) else Digits(i)
  }

  // ---- reading numbers back ---------------------------------------------------

  function ParseDigits(s: string): Option<nat> {
    if s == "" then Some(0)
    else
      var c := s[|s| - 1];
      var front := ParseDigits(s[..|s| - 1]);
      if front.Some? && '0' <= c <= '9' then Some(front.value * 10 + (c as int - '0' as int)) else None
  }

  function Parse(s: string): Option<int> {
    if s == "" then None
    else if s[0] == '-' then
      var n := ParseDigits(s[1..]);
      if n.Some? then Some(-(n.value as int)) else None
    else
      var n := ParseDigits(s);
      if n.Some? then Some(n.value as int) else None
  }

  lemma {:induction false} ParseDigitsInverts(n: nat)
    ensures ParseDigits(Digits(n)) == Some(n)
  {
    if n == 0 {
    } else {
      ParseDigitsInverts(n / 10);
      var s := Digits(n);
      assert s[..|s| - 1] == Digits(n / 10) && s[|s| - 1] == Digit(n % 10);
    }
  }

  lemma ParseInvertsDecimal(i: int)
    ensures Parse(Decimal(i)) == Some(i)
  {
    if i == 0 {
      assert ParseDigits("0"[..0]) == Some(0);
    } else if i > 0 {
      ParseDigitsInverts(i);
      assert Digits(i)[0] in Digits(i);
    } else {
      ParseDigitsInverts(-i);
      assert Decimal(i)[1..] == Digits(-i);
    }
  }

  lemma DecimalInjective(i: int, j: int)
    requires Decimal(i) == Decimal(j)
    ensures i == j
  {
    ParseInvertsDecimal(i);
    ParseInvertsDecimal(j);
  }

  // ---- itoa -------------------------------------------------------------------

  function Pow10(k: nat): nat {
    if k == 0 then 1 else 10 * Pow10(k - 1)
  }

  lemma {:induction false} DigitsFit(n: nat, k: nat)
    requires n < Pow10(k)
    ensures |Digits(n)| <= k
  {
    if n == 0 {
    } else {
      DigitsFit(n / 10, k - 1);
    }
  }

  lemma Int64HasNineteenDigits(n: nat)
    requires n <= MAX_INT64
    ensures |Digits(n)| <= 19
  {
    assert Pow10(5) == 100_000;
    assert Pow10(10) == 10_000_000_000;
    assert Pow10(15) == 1_000_000_000_000_000;
    assert Pow10(19) == 10_000_000_000_000_000_000;
    DigitsFit(n, 19);
  }

  lemma LastDigit(m: nat, tail: string)
    requires m > 0
    ensures Digits(m) + tail == Digits(m / 10) + ([Digit(m % 10)] + tail)
    ensures |Digits(m)| >= 1
  {
  }

  /** Writes the digits of `n` backwards from the end of the buffer; one byte stays free for a sign. */
  method FillDigits(buf: array<char>, n: int) returns (pos: nat)
    requires buf.Length == BUFFER_SIZE && n <= MAX_INT64
    modifies buf
    ensures 1 <= pos <= BUFFER_SIZE && buf[pos..] == if n > 0 then Digits(n) else ""
  {
    pos := buf.Length;
    if n <= 0 {
      return;
    }
    ghost var all := Digits(n);
    Int64HasNineteenDigits(n);
    var m := n;
    while m > 0
      invariant 0 <= m && pos <= BUFFER_SIZE
      invariant all == Digits(m) + buf[pos..]
      invariant |all| <= 19
    {
      ghost var tail := buf[pos..];
      LastDigit(m, tail);
      pos := pos - 1;
      buf[pos] := Digit(m % 10);
      m := m / 10;
      assert buf[pos..] == [buf[pos]] + tail;
    }
  }

  /**
   * Fills a buffer of twenty bytes from its end. The write position never leaves the
   * buffer, and the result is the canonical notation, except that the least integer,
   * whose negation overflows, prints as a lone minus sign.
   */
  method Itoa(i: int) returns (s: string)
    requires IsInt64(i)
    ensures i != MIN_INT64 ==> s == Decimal(i) && Parse(s) == Some(i)
    ensures i == MIN_INT64 ==> s == "-"
  {
    ParseInvertsDecimal(i);
    if i == 0 {
      return "0";
    }
    hide Parse;
    var neg := i < 0;
    var m := if neg then Negate(i) else i;
    var buf := new char[BUFFER_SIZE];
    var pos := FillDigits(buf, m);
    if neg {
      pos := pos - 1;
      buf[pos] := '-';
      assert buf[pos..] == "-" + buf[pos + 1..];
    }
    s := buf[pos..];
  }
}
