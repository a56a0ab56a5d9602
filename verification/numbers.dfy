/**
 * Decimal rendering (`String(n)`, template literals) and the subset of
 * JavaScript's `Number(s)` conversion the handlers apply to query and form
 * values: surrounding whitespace is ignored, a blank string is 0, an optional
 * sign is followed by decimal digits, anything else is NaN (`None`).
 */
module Numbers {
  import opened Wrappers
  import Strings

  predicate IsDigit(c: char) {
    '0' <= c <= '9'
  }

  predicate AllDigits(s: string) {
    forall i :: 0 <= i < |s| ==> IsDigit(s[i])
  }

  function DigitChar(d: nat): (c: char)
    requires d < 10
    ensures IsDigit(c)
  {
    ('0' as int + d) as char
  }

  function DigitValue(c: char): (d: nat)
    requires IsDigit(c)
    ensures d < 10 && DigitChar(d) == c
  {
    c as int - '0' as int
  }

  /** The decimal digits of `n`, most significant first, without leading zeros. */
  function NatToString(n: nat): (s: string)
    ensures |s| >= 1 && AllDigits(s)
    ensures s[0] == '0' ==> n == 0
  {
    if n < 10 then [DigitChar(n)] else NatToString(n / 10) + [DigitChar(n % 10)]
  }

  /** `String(i)` for an integer. */
  function IntToString(i: int): string {
    if i < 0 then "-" + NatToString(-i) else NatToString(i)
  }

  /** The value of a run of decimal digits. */
  function DigitsValue(s: string): nat
    requires AllDigits(s)
  {
    if |s| == 0 then 0 else DigitsValue(s[..|s| - 1]) * 10 + DigitValue(s[|s| - 1])
  }

  /** A signed decimal integer literal with no surrounding text. */
  function ParseInt(s: string): (r: Option<int>)
    ensures r.Some? ==> |s| >= 1
  {
    if |s| >= 2 && s[0] == '-' && AllDigits(s[1..]) then Some(-(DigitsValue(s[1..]) as int))
    else if |s| >= 2 && s[0] == '+' && AllDigits(s[1..]) then Some(DigitsValue(s[1..]))
    else if |s| >= 1 && AllDigits(s) then Some(DigitsValue(s))
    else None
  }

  /** `Number(s)`: whitespace-trimmed, blank is 0, NaN is `None`. */
  function ParseNumber(s: string): Option<int> {
    var t := Strings.Trim(s);
    if t == [] then Some(0) else ParseInt(t)
  }

  /**
   * `Number(raw) || fallback`, where an absent value (`Number(null)`) is 0: the
   * parsed value unless it is 0 or NaN, in which case the fallback.
   */
  function NumberOr(raw: Option<string>, fallback: int): (r: int)
    ensures raw.Some? && ParseNumber(raw.value).Some? && ParseNumber(raw.value).value != 0 ==>
      r == ParseNumber(raw.value).value
    ensures raw.None? || ParseNumber(raw.value).None? || ParseNumber(raw.value) == Some(0) ==> r == fallback
  {
    if raw.None? then fallback
    else match ParseNumber(raw.value)
      case Some(n) => if n != 0 then n else fallback
      case None => fallback
  }

  /** Reading back the digits of `n` gives `n`. */
  lemma {:induction false} DigitsOfNat(n: nat)
    ensures DigitsValue(NatToString(n)) == n
  {
    if n >= 10 {
      var s := NatToString(n);
      assert s[..|s| - 1] == NatToString(n / 10);
      DigitsOfNat(n / 10);
    }
  }

  /** Rendering an integer and parsing it back is the identity. */
  lemma ParseIntToString(i: int)
    ensures ParseInt(IntToString(i)) == Some(i)
  {
    if i < 0 {
      ParseNegative(-i);
    } else {
      ParseNonNegative(i);
    }
  }

  lemma ParseNegative(n: nat)
    requires n > 0
    ensures ParseInt("-" + NatToString(n)) == Some(-(n as int))
  {
    DigitsOfNat(n);
    ParseSigned(NatToString(n));
  }

  lemma ParseNonNegative(n: nat)
    ensures ParseInt(NatToString(n)) == Some(n)
  {
    DigitsOfNat(n);
    ParseUnsigned(NatToString(n));
  }

  lemma ParseSigned(d: string)
    requires |d| >= 1 && AllDigits(d)
    ensures ParseInt("-" + d) == Some(-(DigitsValue(d) as int))
  {
    assert ("-" + d)[1..] == d;
  }

  lemma ParseUnsigned(d: string)
    requires |d| >= 1 && AllDigits(d)
    ensures ParseInt(d) == Some(DigitsValue(d))
  {
    assert IsDigit(d[0]);
  }

  /** `Number(String(i)) == i`. */
  lemma ParseNumberOfString(i: int)
    ensures ParseNumber(IntToString(i)) == Some(i)
  {
    var s := IntToString(i);
    forall k | 0 <= k < |s|
      ensures !Strings.IsSpace(s[k])
    {
      if i < 0 && k >= 1 {
        assert s[k] == NatToString(-i)[k - 1];
      }
    }
    Strings.TrimNoSpace(s);
    ParseIntToString(i);
  }

  /** A rendered integer contains neither a `?` nor whitespace. */
  lemma IntToStringPlain(i: int)
    ensures '?' !in IntToString(i)
    ensures Strings.NoSpace(IntToString(i))
  {
    var s := IntToString(i);
    forall k | 0 <= k < |s|
      ensures s[k] == '-' || IsDigit(s[k])
    {
      if i < 0 && k >= 1 {
        assert s[k] == NatToString(-i)[k - 1];
      }
    }
  }
}
