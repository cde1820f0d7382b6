/** The handful of JavaScript value semantics the weather server leans on:
    optional JSON fields, truthiness, the `x || fallback` idiom, ASCII
    upper-casing, the decimal text of integers, `Math.round` and the text of
    an integer number of metres divided by 1000. */
module Js {

  /** A JSON field that may be absent (`undefined` or `null`). */
  datatype Option<+T> = None | Some(value: T)

  /** A JSON number whose text is produced by JavaScript's floating-point
      `Number#toString`; that rendering is not modelled, so the text travels
      with the value. */
  datatype JsNumber = JsNumber(value: real, text: string)

  /** Truthiness of an optional string: absent and `""` are falsy. */
  predicate StringTruthy(s: Option<string>)
  {
    s.Some? && s.value != ""
  }

  /** Truthiness of an optional integer: absent and `0` are falsy. */
  predicate IntTruthy(n: Option<int>)
  {
    n.Some? && n.value != 0
  }

  /** `s || fallback` where `s` is an optional string field. */
  function OrElse(s: Option<string>, fallback: string): string
  {
    if StringTruthy(s) then s.value else fallback
  }

  /** A string field that cannot break a text block into extra lines. */
  predicate NoNewline(s: Option<string>)
  {
    s.Some? ==> '\n' !in s.value
  }

  lemma OrElseNoNewline(s: Option<string>, fallback: string)
    requires NoNewline(s) && '\n' !in fallback
    ensures '\n' !in OrElse(s, fallback)
  {
  }

  /** Gluing two texts without line breaks gives a text without line breaks. */
  lemma NoNewlineConcat(a: string, b: string)
    requires '\n' !in a && '\n' !in b
    ensures '\n' !in a + b
  {
    forall i | 0 <= i < |a + b|
      ensures (a + b)[i] != '\n'
    {
      if i < |a| {
        assert (a + b)[i] == a[i] && a[i] in a;
      } else {
        assert (a + b)[i] == b[i - |a|] && b[i - |a|] in b;
      }
    }
  }

  // ---------------------------------------------------------------------
  // String.prototype.toUpperCase, on the ASCII letters

  function UpperChar(c: char): (u: char)
    ensures !('a' <= u <= 'z')
    ensures 'a' <= c <= 'z' ==> u as int == c as int - 32
    ensures !('a' <= c <= 'z') ==> u == c
  {
    if 'a' <= c <= 'z' then (c as int - 'a' as int + 'A' as int) as char else c
  }

  function ToUpperCase(s: string): (r: string)
    ensures |r| == |s|
    ensures forall i :: 0 <= i < |r| ==> !('a' <= r[i] <= 'z')
    ensures forall i :: 0 <= i < |r| ==> r[i] == UpperChar(s[i])
  {
    if s == [] then [] else [UpperChar(s[0])] + ToUpperCase(s[1..])
  }

  /** Two characters that are equal, or the lower- and upper-case forms of
      the same ASCII letter. */
  predicate SameLetter(c: char, d: char)
  {
    || c == d
    || ('a' <= c <= 'z' && d as int == c as int - 32)
    || ('a' <= d <= 'z' && c as int == d as int - 32)
  }

  /** Two strings that differ at most in the case of ASCII letters. */
  predicate EqualIgnoringCase(a: string, b: string)
  {
    |a| == |b| && forall i :: 0 <= i < |a| ==> SameLetter(a[i], b[i])
  }

  lemma ToUpperCaseIdempotent(s: string)
    ensures ToUpperCase(ToUpperCase(s)) == ToUpperCase(s)
  {
  }

  /** Upper-casing identifies exactly the strings that differ only in case. */
  lemma ToUpperCaseEqual(a: string, b: string)
    ensures ToUpperCase(a) == ToUpperCase(b) <==> EqualIgnoringCase(a, b)
  {
    var ua, ub := ToUpperCase(a), ToUpperCase(b);
    if |a| == |b| {
      forall i | 0 <= i < |a|
        ensures ua[i] == ub[i] <==> SameLetter(a[i], b[i])
      {
        UpperCharSame(a[i], b[i]);
      }
      if EqualIgnoringCase(a, b) {
        assert forall i :: 0 <= i < |a| ==> ua[i] == ub[i];
      }
    }
  }

  /** Two characters upper-case alike exactly when they are the same letter. */
  lemma UpperCharSame(c: char, d: char)
    ensures UpperChar(c) == UpperChar(d) <==> SameLetter(c, d)
  {
  }

  // ---------------------------------------------------------------------
  // Number#toString on integers, and its inverse

  predicate IsDigit(c: char)
  {
    '0' <= c <= '9'
  }

  function DigitChar(d: nat): (c: char)
    requires d < 10
    ensures IsDigit(c) && c as int - '0' as int == d
  {
    (d + '0' as int) as char
  }

  /** The decimal digits of `n`, most significant first, without leading zeros. */
  function NatToString(n: nat): (r: string)
    ensures |r| > 0
    ensures forall i :: 0 <= i < |r| ==> IsDigit(r[i])
    ensures r[0] == '0' ==> n == 0
    decreases n
  {
    if n < 10 then [DigitChar(n)] else NatToString(n / 10) + [DigitChar(n % 10)]
  }

  /** An optionally signed, non-empty string of decimal digits. */
  predicate IsIntText(s: string)
  {
    && |s| > 0
    && (s[0] == '-' ==> |s| > 1 && forall i :: 1 <= i < |s| ==> IsDigit(s[i]))
    && (s[0] != '-' ==> forall i :: 0 <= i < |s| ==> IsDigit(s[i]))
  }

  /** The text JavaScript prints for an integer-valued number (below 10^21). */
  function IntToString(i: int): (r: string)
    ensures |r| > 0 && '\n' !in r
    ensures r[0] == '-' <==> i < 0
  {
    var digits := NatToString(if i < 0 then -i else i);
    assert '\n' !in digits by {
      assert forall k :: 0 <= k < |digits| ==> IsDigit(digits[k]);
    }
    if i < 0 then "-" + digits else digits
  }

  lemma IntToStringIsIntText(i: int)
    ensures IsIntText(IntToString(i))
  {
  }

  /** The number a string of decimal digits denotes. */
  function DigitsValue(s: string): nat
    requires forall i :: 0 <= i < |s| ==> IsDigit(s[i])
  {
    if s == [] then 0
    else
      var last := s[|s| - 1];
      assert IsDigit(last);
      DigitsValue(s[..|s| - 1]) * 10 + (last as int - '0' as int)
  }

  /** Reads back an optionally signed decimal integer. */
  function ParseInt(s: string): int
    requires IsIntText(s)
  {
    if s[0] == '-' then -(DigitsValue(s[1..]) as int) else DigitsValue(s)
  }

  lemma {:induction false} NatToStringValue(n: nat)
    ensures DigitsValue(NatToString(n)) == n
    decreases n
  {
    if n >= 10 {
      var r := NatToString(n);
      NatToStringValue(n / 10);
      assert r[..|r| - 1] == NatToString(n / 10);
    }
  }

  /** Printing an integer and reading it back gives the integer. */
  lemma IntToStringRoundTrip(i: int)
    ensures IsIntText(IntToString(i)) && ParseInt(IntToString(i)) == i
  {
    IntToStringIsIntText(i);
    var r := IntToString(i);
    if i < 0 {
      NatToStringValue(-i);
      assert r[1..] == NatToString(-i);
    } else {
      NatToStringValue(i);
    }
  }

  // ---------------------------------------------------------------------
  // Math.round and the text of m / 1000

  /** `Math.round`: the nearest integer, ties going towards +infinity. */
  function Round(x: real): (r: int)
    ensures r as real - 0.5 <= x < r as real + 0.5
  {
    (x + 0.5).Floor
  }

  /** Drops trailing zero digits. */
  function TrimTrailingZeros(s: string): (r: string)
    ensures |r| <= |s| && r == s[..|r|]
    ensures |r| > 0 ==> r[|r| - 1] != '0'
    ensures forall i :: |r| <= i < |s| ==> s[i] == '0'
  {
    if s == [] || s[|s| - 1] != '0' then s else TrimTrailingZeros(s[..|s| - 1])
  }

  /** The three digits of `f`, with leading zeros. */
  function ThreeDigits(f: nat): (r: string)
    requires f < 1000
    ensures |r| == 3
  {
    [DigitChar(f / 100), DigitChar(f / 10 % 10), DigitChar(f % 10)]
  }

  /** The text JavaScript prints for the quotient of `m` by 1000, for an
      integer `m` of fewer than 15 digits (where the quotient's shortest
      round-trip text is its exact decimal expansion). */
  function ThousandthsToString(m: int): (r: string)
    ensures |r| > 0 && '\n' !in r
    ensures r[0] == '-' <==> m < 0
    ensures m % 1000 == 0 <==> '.' !in r
    ensures m % 1000 != 0 ==> r[|r| - 1] != '0'
  {
    if m < 0 then
      var t := MagnitudeThousandths(-m);
      NegatedMultiple(-m);
      assert '.' in "-" + t <==> '.' in t by {
        assert forall i :: 0 <= i < |t| ==> ("-" + t)[i + 1] == t[i];
      }
      "-" + t
    else MagnitudeThousandths(m)
  }

  lemma NegatedMultiple(a: int)
    ensures (-a) % 1000 == 0 <==> a % 1000 == 0
  {
  }

  /** The text of a / 1000 for a non-negative a: the whole part, then the
      three digits of the remainder without trailing zeros, if any. */
  function MagnitudeThousandths(a: nat): (r: string)
    ensures |r| > 0 && '\n' !in r && r[0] != '-'
    ensures a % 1000 == 0 <==> '.' !in r
    ensures a % 1000 != 0 ==> r[|r| - 1] != '0'
  {
    var whole := NatToString(a / 1000);
    var fraction := if a % 1000 == 0 then "" else "." + TrimTrailingZeros(ThreeDigits(a % 1000));
    assert '.' !in whole by {
      assert forall i :: 0 <= i < |whole| ==> IsDigit(whole[i]);
    }
    assert a % 1000 != 0 ==> TrimTrailingZeros(ThreeDigits(a % 1000)) != [] by {
      var f := a % 1000;
      var t := ThreeDigits(f);
      if f != 0 {
        assert t[0] != '0' || t[1] != '0' || t[2] != '0';
      }
    }
    whole + fraction
  }

  // ---------------------------------------------------------------------
  // Reading a decimal text back

  predicate AllDigits(s: string)
  {
    forall i :: 0 <= i < |s| ==> IsDigit(s[i])
  }

  /** The position of the first `c` in `s`. */
  function FirstIndex(s: string, c: char): (k: nat)
    requires c in s
    ensures k < |s| && s[k] == c && c !in s[..k]
  {
    if s[0] == c then 0
    else
      assert s == [s[0]] + s[1..];
      1 + FirstIndex(s[1..], c)
  }

  /** The text without its leading minus sign, if any. */
  function Unsigned(s: string): string
  {
    if |s| > 0 && s[0] == '-' then s[1..] else s
  }

  /** An optionally signed decimal number: digits, and optionally a point
      followed by at least one digit. */
  predicate IsDecimalText(s: string)
  {
    var t := Unsigned(s);
    && |t| > 0
    && if '.' in t then
         var k := FirstIndex(t, '.');
         0 < k < |t| - 1 && AllDigits(t[..k]) && AllDigits(t[k + 1..])
       else AllDigits(t)
  }

  /** The value of the digits after a decimal point. */
  function FractionValue(s: string): real
    requires AllDigits(s)
  {
    if s == [] then 0.0
    else
      assert IsDigit(s[0]);
      ((s[0] as int - '0' as int) as real + FractionValue(s[1..])) / 10.0
  }

  /** Reads back an optionally signed decimal number. */
  function ParseDecimal(s: string): real
    requires IsDecimalText(s)
  {
    var t := Unsigned(s);
    var magnitude :=
      if '.' in t then
        var k := FirstIndex(t, '.');
        DigitsValue(t[..k]) as real + FractionValue(t[k + 1..])
      else DigitsValue(t) as real;
    if |s| > 0 && s[0] == '-' then -magnitude else magnitude
  }

  /** The text of m / 1000 reads back as m / 1000. */
  lemma ThousandthsToStringValue(m: int)
    ensures IsDecimalText(ThousandthsToString(m))
    ensures ParseDecimal(ThousandthsToString(m)) == m as real / 1000.0
  {
    var a := if m < 0 then -m else m;
    MagnitudeValue(a);
    assert Unsigned(ThousandthsToString(m)) == MagnitudeThousandths(a);
  }

  lemma MagnitudeValue(a: nat)
    ensures IsDecimalText(MagnitudeThousandths(a))
    ensures ParseDecimal(MagnitudeThousandths(a)) == a as real / 1000.0
  {
    if a % 1000 == 0 {
      WholeValue(a);
    } else {
      FractionalValue(a);
    }
  }

  lemma WholeValue(a: nat)
    requires a % 1000 == 0
    ensures IsDecimalText(MagnitudeThousandths(a))
    ensures ParseDecimal(MagnitudeThousandths(a)) == a as real / 1000.0
  {
    var t := MagnitudeThousandths(a);
    assert t == NatToString(a / 1000);
    assert AllDigits(t);
    NatToStringValue(a / 1000);
    assert a == 1000 * (a / 1000);
  }

  lemma FractionalValue(a: nat)
    requires a % 1000 != 0
    ensures IsDecimalText(MagnitudeThousandths(a))
    ensures ParseDecimal(MagnitudeThousandths(a)) == a as real / 1000.0
  {
    var t := MagnitudeThousandths(a);
    var whole := NatToString(a / 1000);
    var tail := TrimTrailingZeros(ThreeDigits(a % 1000));
    assert AllDigits(whole);
    assert '.' !in whole;
    assert t == whole + "." + tail;
    FirstIndexAfter(whole, tail, '.');
    assert t[..|whole|] == whole && t[|whole| + 1..] == tail;
    NatToStringValue(a / 1000);
    ThreeDigitsFraction(a % 1000);
    TrimmedFraction(ThreeDigits(a % 1000));
    assert a == 1000 * (a / 1000) + a % 1000;
  }

  lemma FirstIndexAfter(a: string, b: string, c: char)
    requires c !in a
    ensures c in a + [c] + b && FirstIndex(a + [c] + b, c) == |a|
  {
    var s := a + [c] + b;
    assert s[|a|] == c;
    var k := FirstIndex(s, c);
    assert forall i :: 0 <= i < |a| ==> s[i] == a[i] && a[i] in a;
  }

  /** The three digits of f after a point stand for f / 1000. */
  lemma ThreeDigitsFraction(f: nat)
    requires f < 1000
    ensures AllDigits(ThreeDigits(f)) && FractionValue(ThreeDigits(f)) == f as real / 1000.0
  {
    var t := ThreeDigits(f);
    var d0, d1, d2 := f / 100, f / 10 % 10, f % 10;
    assert f == 100 * d0 + 10 * d1 + d2;
    assert t[2..][1..] == [];
    assert FractionValue(t[2..]) == d2 as real / 10.0;
    assert t[1..][1..] == t[2..];
    assert FractionValue(t[1..]) == (d1 as real + d2 as real / 10.0) / 10.0;
    assert FractionValue(t) == (d0 as real + (d1 as real + d2 as real / 10.0) / 10.0) / 10.0;
  }

  /** Trailing zeros after a point do not change the value. */
  lemma {:induction false} TrimmedFraction(s: string)
    requires AllDigits(s)
    ensures AllDigits(TrimTrailingZeros(s))
    ensures FractionValue(TrimTrailingZeros(s)) == FractionValue(s)
    decreases |s|
  {
    if s != [] && s[|s| - 1] == '0' {
      var p := s[..|s| - 1];
      TrimmedFraction(p);
      FractionAppendZero(p);
      assert p + "0" == s;
    }
  }

  lemma {:induction false} FractionAppendZero(s: string)
    requires AllDigits(s)
    ensures AllDigits(s + "0") && FractionValue(s + "0") == FractionValue(s)
    decreases |s|
  {
    if s == [] {
      assert FractionValue("0") == (0.0 + FractionValue("")) / 10.0;
    } else {
      FractionAppendZero(s[1..]);
      assert (s + "0")[1..] == s[1..] + "0";
    }
  }
}
