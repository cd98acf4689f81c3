/**
 * Kotlin's `String.toLong()` on the JVM (`java.lang.Long.parseLong` in radix 10), which the
 * flattening provider applies to the numeric environment facts it stores as text.
 */
module LongParsing {
  import opened Wrappers

  const LONG_MIN: int := -0x8000_0000_0000_0000
  const LONG_MAX: int := 0x7FFF_FFFF_FFFF_FFFF

  predicate IsDigit(c: char) {
    '0' <= c <= '9'
  }

  predicate AllDigits(s: string) {
    forall i :: 0 <= i < |s| ==> IsDigit(s[i])
  }

  function DigitValue(c: char): (d: nat)
    requires IsDigit(c)
    ensures d < 10
  {
    (c as int) - ('0' as int)
  }

  function DigitChar(d: nat): (c: char)
    requires d < 10
    ensures IsDigit(c) && DigitValue(c) == d
  {
    (('0' as int) + d) as char
  }

  /** The number a run of decimal digits spells, most significant digit first. */
  function DigitsValue(s: string): nat
    requires AllDigits(s)
  {
    if s == [] then 0 else 10 * DigitsValue(s[..|s| - 1]) + DigitValue(s[|s| - 1])
  }

  /**
   * `s.toLong()`: an optional `-` or `+` sign followed by at least one decimal digit, whose
   * value fits in a 64-bit signed Long. `None` stands for the `NumberFormatException`
   * thrown on any other text.
   */
  function ParseLong(s: string): (r: Option<int>)
    ensures r.Some? ==> LONG_MIN <= r.value <= LONG_MAX
    ensures r.Some? ==> 0 < |s| && (IsDigit(s[0]) || s[0] == '-' || s[0] == '+')
    ensures s == [] ==> r.None?
  {
    if |s| == 0 then None
    else
      var digits := if s[0] == '-' || s[0] == '+' then s[1..] else s;
      if |digits| == 0 || !AllDigits(digits) then None
      else
        var magnitude: int := DigitsValue(digits);
        var n := if s[0] == '-' then -magnitude else magnitude;
        if LONG_MIN <= n <= LONG_MAX then Some(n) else None
  }

  /** The shortest decimal text of a non-negative number (no sign, no leading zero). */
  function NatToString(n: nat): (s: string)
    ensures 0 < |s| && AllDigits(s)
    ensures DigitsValue(s) == n
    ensures |s| > 1 ==> s[0] != '0'
    decreases n
  {
    if n < 10 then [DigitChar(n)]
    else
      var prefix := NatToString(n / 10);
      var s := prefix + [DigitChar(n % 10)];
      assert s[..|s| - 1] == prefix;
      s
  }

  /** `n.toString()` for a Long: a leading `-` for negative values. */
  function LongToString(n: int): string {
    if n < 0 then "-" + NatToString(-n) else NatToString(n)
  }

  /** Parsing what `toString()` printed gives the number back, for every Long. */
  lemma {:induction false} ParseLongToString(n: int)
    requires LONG_MIN <= n <= LONG_MAX
    ensures ParseLong(LongToString(n)) == Some(n)
  {
    if n < 0 {
      var t := NatToString(-n);
      assert ("-" + t)[1..] == t;
    } else {
      var t := NatToString(n);
      assert IsDigit(t[0]);
    }
  }

  /** Decimal text of a number beyond the Long range is refused rather than wrapped. */
  lemma {:induction false} ParseLongRejectsOverflow(n: int)
    requires n < LONG_MIN || LONG_MAX < n
    ensures ParseLong(LongToString(n)) == None
  {
    if n < 0 {
      var t := NatToString(-n);
      assert ("-" + t)[1..] == t;
    } else {
      var t := NatToString(n);
      assert IsDigit(t[0]);
    }
  }

  /** A sign with no digit, a non-digit anywhere after the sign, or empty text all throw. */
  lemma {:induction false} ParseLongRejectsMalformed(s: string, i: nat)
    requires 0 < i < |s| && !IsDigit(s[i])
    ensures ParseLong(s) == None
    ensures ParseLong("-") == None && ParseLong("+") == None && ParseLong("") == None
  {
    var digits := if s[0] == '-' || s[0] == '+' then s[1..] else s;
    if s[0] == '-' || s[0] == '+' {
      assert digits[i - 1] == s[i];
    } else {
      assert digits[i] == s[i];
    }
  }
}
