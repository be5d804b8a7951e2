/**
 * Decimal text of Java's integral types: `Integer.toString` (which is also
 * what string concatenation `"" + n` uses for `Short`, `Integer` and `Long`),
 * and `Integer.parseInt`, `Short.parseShort`, `Long.parseLong` with a
 * `NumberFormatException` represented as `None`.
 */
module JavaNumbers {
  import opened JavaLang

  predicate IsDigit(c: char) { '0' <= c <= '9' }

  predicate AllDigits(s: string) {
    forall i :: 0 <= i < |s| ==> IsDigit(s[i])
  }

  function DigitChar(d: int): (c: char)
    requires 0 <= d < 10
    ensures IsDigit(c)
  {
    ('0' as int + d) as char
  }

  function DigitValue(c: char): (d: nat)
    requires IsDigit(c)
    ensures d < 10 && DigitChar(d) == c
  {
    c as int - '0' as int
  }

  /** The number a string of decimal digits denotes (reference definition). */
  function DigitsValue(s: string): nat
    requires AllDigits(s)
  {
    if s == [] then 0 else 10 * DigitsValue(s[..|s| - 1]) + DigitValue(s[|s| - 1])
  }

  /** The grammar `parseXxx` accepts: an optional `+` or `-`, then one or more digits. */
  predicate IsDecimalLiteral(s: string) {
    if |s| > 0 && (s[0] == '+' || s[0] == '-') then |s| > 1 && AllDigits(s[1..])
    else |s| > 0 && AllDigits(s)
  }

  /** The exact (unbounded) number a decimal literal denotes. */
  function LiteralValue(s: string): int
    requires IsDecimalLiteral(s)
  {
    if s[0] == '-' then -(DigitsValue(s[1..]) as int)
    else if s[0] == '+' then DigitsValue(s[1..])
    else DigitsValue(s)
  }

  // ---------------------------------------------------------------------------
  // toString

  /** The digits of `n` without leading zeros. */
  function NatText(n: nat): (s: string)
    ensures |s| > 0 && AllDigits(s)
    ensures s[0] == '0' ==> n == 0 && s == "0"
    decreases n
  {
    if n < 10 then [DigitChar(n)] else NatText(n / 10) + [DigitChar(n % 10)]
  }

  /**
   * `Integer.toString(v)` / `Long.toString(v)`: a `-` for negatives, then the
   * digits of `|v|`. The text is canonical, denotes `v`, and begins with `-`
   * exactly when `v` is negative.
   */
  function DecimalText(v: int): (s: string)
    ensures IsCanonicalDecimal(s)
    ensures IsDecimalLiteral(s) && LiteralValue(s) == v
    ensures s[0] == '-' <==> v < 0
  {
    if v < 0 then
      NatTextValue(-v);
      var t := "-" + NatText(-v);
      assert t[1..] == NatText(-v);
      t
    else
      NatTextValue(v);
      NatText(v)
  }

  lemma {:induction false} NatTextValue(n: nat)
    ensures DigitsValue(NatText(n)) == n
    decreases n
  {
    var s := NatText(n);
    if n >= 10 {
      NatTextValue(n / 10);
      assert s[..|s| - 1] == NatText(n / 10);
    }
  }

  /** Digits without a superfluous leading zero. */
  predicate IsCanonicalDigits(s: string) {
    |s| > 0 && AllDigits(s) && (s[0] == '0' ==> |s| == 1)
  }

  /** Decimal text as `toString` writes it: no `+`, no leading zeros, no `-0`. */
  predicate IsCanonicalDecimal(s: string) {
    if |s| > 0 && s[0] == '-' then IsCanonicalDigits(s[1..]) && s[1..] != "0"
    else IsCanonicalDigits(s)
  }

  lemma {:induction false} LeadingDigitBound(s: string)
    requires |s| > 0 && AllDigits(s)
    ensures DigitsValue(s) >= DigitValue(s[0])
  {
    if |s| > 1 {
      var init := s[..|s| - 1];
      LeadingDigitBound(init);
      assert init[0] == s[0];
    }
  }

  lemma {:induction false} CanonicalDigitsUnique(s: string)
    requires IsCanonicalDigits(s)
    ensures s == NatText(DigitsValue(s))
  {
    if |s| > 1 {
      var init := s[..|s| - 1];
      assert init[0] == s[0];
      LeadingDigitBound(init);
      CanonicalDigitsUnique(init);
      var n := DigitsValue(s);
      assert n / 10 == DigitsValue(init) && n % 10 == DigitValue(s[|s| - 1]);
      assert s == init + [s[|s| - 1]];
    }
  }

  /** Canonical decimal text is unique: it is exactly what `toString` writes for its value. */
  lemma CanonicalDecimalUnique(s: string)
    requires IsCanonicalDecimal(s)
    ensures IsDecimalLiteral(s) && s == DecimalText(LiteralValue(s))
  {
    if s[0] == '-' {
      CanonicalDigitsUnique(s[1..]);
      assert s == "-" + s[1..];
    } else {
      CanonicalDigitsUnique(s);
    }
  }

  // ---------------------------------------------------------------------------
  // parseXxx

  /**
   * The digit loop of `parseInt`: consumes the digits left to right and fails
   * as soon as a character is not a digit or the magnitude exceeds `bound`.
   */
  function AccumulateDigits(s: string, bound: nat): (r: Option<nat>)
  {
    if s == [] then Some(0)
    else
      match AccumulateDigits(s[..|s| - 1], bound)
      case None => None
      case Some(acc) =>
        if !IsDigit(s[|s| - 1]) then None
        else if 10 * acc + DigitValue(s[|s| - 1]) > bound then None
        else Some(10 * acc + DigitValue(s[|s| - 1]))
  }

  /** Failing early on overflow is the same as checking the final value against the bound. */
  lemma {:induction false} AccumulateDigitsCorrect(s: string, bound: nat)
    ensures AccumulateDigits(s, bound) ==
              if AllDigits(s) && DigitsValue(s) <= bound then Some(DigitsValue(s)) else None
  {
    if s != [] {
      var init := s[..|s| - 1];
      AccumulateDigitsCorrect(init, bound);
      if AllDigits(s) {
        assert AllDigits(init);
      } else if AllDigits(init) {
        assert !IsDigit(s[|s| - 1]);
      }
    }
  }

  /**
   * `parseXxx(s)` for a type with range `[min, max]`: the sign decides which
   * end of the range bounds the magnitude, as in the JDK's digit loop.
   */
  function ParseDecimal(s: string, min: int, max: int): (r: Option<int>)
    requires min <= 0 <= max
    ensures r.Some? <==> IsDecimalLiteral(s) && min <= LiteralValue(s) <= max
    ensures r.Some? ==> r.value == LiteralValue(s)
  {
    if s == [] then None
    else
      var negative := s[0] == '-';
      var digits := if s[0] == '-' || s[0] == '+' then s[1..] else s;
      if digits == [] then None
      else
        AccumulateDigitsCorrect(digits, if negative then -min else max);
        match AccumulateDigits(digits, if negative then -min else max)
        case None => None
        case Some(magnitude) => Some(if negative then -(magnitude as int) else magnitude)
  }

  /** `Integer.parseInt(s)`: a value exactly for a literal in 32-bit range. */
  function ParseInt(s: string): (r: Option<int>)
    ensures r.Some? <==> IsDecimalLiteral(s) && IsInt32(LiteralValue(s))
    ensures r.Some? ==> r.value == LiteralValue(s)
  {
    ParseDecimal(s, INT_MIN, INT_MAX)
  }

  /** `Long.parseLong(s)`: a value exactly for a literal in 64-bit range. */
  function ParseLong(s: string): (r: Option<int>)
    ensures r.Some? <==> IsDecimalLiteral(s) && IsInt64(LiteralValue(s))
    ensures r.Some? ==> r.value == LiteralValue(s)
  {
    ParseDecimal(s, LONG_MIN, LONG_MAX)
  }

  /** `Short.parseShort(s)`: `Integer.parseInt` followed by a range check. */
  function ParseShort(s: string): (r: Option<int>)
    ensures r.Some? <==> IsDecimalLiteral(s) && IsInt16(LiteralValue(s))
    ensures r.Some? ==> r.value == LiteralValue(s)
  {
    match ParseInt(s)
    case None => None
    case Some(i) => if i < SHORT_MIN || i > SHORT_MAX then None else Some(i)
  }

  /** Parsing the text `toString` produces gives the number back whenever it is in range. */
  lemma ParseDecimalText(v: int, min: int, max: int)
    requires min <= v <= max && min <= 0 <= max
    ensures ParseDecimal(DecimalText(v), min, max) == Some(v)
  {
  }

  /** The text `"null"` that `"" + null` produces is not a number. */
  lemma NullTextIsNotALiteral()
    ensures !IsDecimalLiteral("null")
  {
    assert !IsDigit("null"[0]);
  }
}
