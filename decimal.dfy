/**
 * Decimal text of 64-bit signed integers: the writer renders an
 * `IntegerValue` with Rust's `to_string`, and the reader parses the
 * content of an `integer` element with `i64::from_str`.
 */
module Decimal {
  import opened Plist

  predicate IsDigit(c: char)
  {
    '0' <= c <= '9'
  }

  predicate AllDigits(s: string)
  {
    forall i :: 0 <= i < |s| ==> IsDigit(s[i])
  }

  function DigitChar(d: nat): (c: char)
    requires d < 10
    ensures IsDigit(c) && c as int - '0' as int == d
  {
    (d + '0' as int) as char
  }

  /** The number a string of decimal digits denotes, most significant digit first. */
  function DigitsValue(s: string): nat
    requires AllDigits(s)
  {
    if s == [] then 0 else DigitsValue(s[..|s| - 1]) * 10 + (s[|s| - 1] as int - '0' as int)
  }

  /** The shortest decimal digits of `n`, as Rust's `to_string` prints them. */
  function NatToString(n: nat): string
  {
    if n < 10 then [DigitChar(n)] else NatToString(n / 10) + [DigitChar(n % 10)]
  }

  /** Rust's `to_string` on an integer: a minus sign for negative values, then the digits. */
  function IntToString(i: int): string
  {
    if i < 0 then "-" + NatToString(-i) else NatToString(i)
  }

  /**
   * Rust's `i64::from_str`: an optional `+` or `-`, then at least one
   * decimal digit and nothing else; a value outside the `i64` range is
   * an overflow error. `None` is every kind of failure.
   */
  function ParseI64(s: string): Option<i64>
  {
    if s == [] then None
    else
      var negative := s[0] == '-';
      var digits := if s[0] == '+' || s[0] == '-' then s[1..] else s;
      if digits == [] || !AllDigits(digits) then None
      else
        var magnitude: int := DigitsValue(digits);
        var value: int := if negative then -magnitude else magnitude;
        if -0x8000_0000_0000_0000 <= value < 0x8000_0000_0000_0000 then Some(value as i64) else None
  }

  lemma {:induction false} NatToStringDigits(n: nat)
    ensures |NatToString(n)| > 0
    ensures AllDigits(NatToString(n))
    ensures DigitsValue(NatToString(n)) == n
    decreases n
  {
    if n >= 10 {
      NatToStringDigits(n / 10);
      var s := NatToString(n);
      assert s == NatToString(n / 10) + [DigitChar(n % 10)];
      assert s[..|s| - 1] == NatToString(n / 10);
    }
  }

  /** The text the writer produces for an integer is never empty. */
  lemma IntToStringNonEmpty(i: int)
    ensures IntToString(i) != ""
  {
    NatToStringDigits(if i < 0 then -i else i);
  }

  /** Parsing the decimal text of any `i64` gives that integer back. */
  lemma IntToStringRoundTrip(i: i64)
    ensures ParseI64(IntToString(i as int)) == Some(i)
  {
    var n: nat := if i < 0 then -(i as int) else i as int;
    NatToStringDigits(n);
    var s := IntToString(i as int);
    if i < 0 {
      assert s[1..] == NatToString(n);
    } else {
      assert s == NatToString(n);
      assert IsDigit(s[0]);
    }
  }

  /** The decimal text of an integer outside the `i64` range is refused as an overflow. */
  lemma IntToStringOutOfRange(n: int)
    requires n < -0x8000_0000_0000_0000 || 0x8000_0000_0000_0000 <= n
    ensures ParseI64(IntToString(n)) == None
  {
    var m: nat := if n < 0 then -n else n;
    NatToStringDigits(m);
    var s := IntToString(n);
    if n < 0 {
      assert s[1..] == NatToString(m);
    } else {
      assert s == NatToString(m);
      assert IsDigit(s[0]);
    }
  }

  /** Empty text, a bare sign and a stray character are refused; an explicit `+` and leading zeros are accepted. */
  lemma ParseI64Examples()
    ensures ParseI64("") == None
    ensures ParseI64("-") == None
    ensures ParseI64("+") == None
    ensures ParseI64("12a") == None
    ensures ParseI64("+7") == Some(7)
    ensures ParseI64("007") == Some(7)
  {
    assert !AllDigits("12a") by { assert !IsDigit("12a"[2]); }
    assert DigitsValue("7") == 7;
    assert DigitsValue("007") == 7 by {
      assert "007"[..2] == "00";
      assert "00"[..1] == "0";
    }
  }
}
