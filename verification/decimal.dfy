/**
 * Decimal rendering of integers, as Go's `fmt` verb `%d` and the numeric
 * elements of a `time` layout (`2006`, `01`, `02`, `15`, `04`, `05`) write them,
 * together with the parser that reads such a rendering back.
 */
module Decimal {
  import opened Wrappers

  predicate IsDigit(c: char) {
    '0' <= c <= '9'
  }

  predicate AllDigits(s: string) {
    forall i :: 0 <= i < |s| ==> IsDigit(s[i])
  }

  function Pow10(n: nat): (p: nat)
    ensures p >= 1
  {
    if n == 0 then 1 else 10 * Pow10(n - 1)
  }

  function DigitChar(d: nat): (c: char)
    requires d < 10
    ensures IsDigit(c)
  {
    ('0' as int + d) as char
  }

  function DigitValue(c: char): (d: nat)
    requires IsDigit(c)
    ensures d < 10
  {
    c as int - '0' as int
  }

  /** The shortest decimal rendering of `n`, most significant digit first. */
  function Digits(n: nat): (s: string)
    ensures |s| >= 1
    ensures AllDigits(s)
    decreases n
  {
    if n < 10 then [DigitChar(n)] else Digits(n / 10) + [DigitChar(n % 10)]
  }

  /** The number a string of decimal digits denotes; leading zeros are allowed. */
  function DigitsValue(s: string): nat
    requires AllDigits(s)
  {
    if |s| == 0 then 0 else 10 * DigitsValue(s[..|s| - 1]) + DigitValue(s[|s| - 1])
  }

  /** Reads an unsigned decimal number: at least one digit, nothing else. */
  function ParseNat(s: string): (r: Option<nat>)
    ensures r.Some? <==> |s| > 0 && AllDigits(s)
  {
    if |s| > 0 && AllDigits(s) then Some(DigitsValue(s)) else None
  }

  /** Reads a signed decimal number: an optional '-' followed by at least one digit. */
  function ParseInt(s: string): (r: Option<int>)
    ensures r.Some? && r.value < 0 ==> |s| > 1 && s[0] == '-'
  {
    if |s| > 0 && s[0] == '-' then
      match ParseNat(s[1..])
      case Some(n) => Some(-(n as int))
      case None => None
    else
      match ParseNat(s)
      case Some(n) => Some(n as int)
      case None => None
  }

  /** `n` copies of the character `c`. */
  function Repeat(c: char, n: nat): (s: string)
    ensures |s| == n
    ensures forall i :: 0 <= i < n ==> s[i] == c
  {
    if n == 0 then [] else [c] + Repeat(c, n - 1)
  }

  /** `s` preceded by as many '0' as it takes to reach `width` characters. */
  function ZeroPad(s: string, width: nat): (r: string)
    ensures |s| >= width ==> r == s
    ensures |s| < width ==> |r| == width && r[width - |s|..] == s
  {
    if |s| >= width then s else Repeat('0', width - |s|) + s
  }

  /**
   * The shape of a `%d` rendering: an optional '-', then at least one digit,
   * with no superfluous leading zero ("0" is the only rendering that starts
   * with '0', and there is no "-0").
   */
  predicate Unpadded(s: string) {
    if |s| > 0 && s[0] == '-' then |s| > 1 && s[1] != '0'
    else |s| > 0 && (s[0] == '0' ==> |s| == 1)
  }

  /** `s` is the decimal rendering of `x`: it reads back as `x` and carries no padding. */
  predicate IsDecimalOf(s: string, x: int) {
    ParseInt(s) == Some(x) && Unpadded(s)
  }

  /** Go's `%d`: a '-' for negative values, then the shortest digit string of the magnitude. */
  function IntToString(x: int): (s: string)
    ensures |s| >= 1
    ensures x >= 0 <==> s[0] != '-'
    ensures Unpadded(s)
  {
    DigitsLeadingDigit(if x < 0 then -x else x);
    if x < 0 then "-" + Digits(-x) else Digits(x)
  }

  /**
   * A numeric layout element of Go's `time` package: a '-' for negative values,
   * then the magnitude zero-padded to at least `width` digits.
   */
  function PadInt(x: int, width: nat): (s: string)
  {
    if x < 0 then "-" + ZeroPad(Digits(-x), width) else ZeroPad(Digits(x), width)
  }

  /** The shortest rendering starts with '0' only for zero, which is the single digit "0". */
  lemma {:induction false} DigitsLeadingDigit(n: nat)
    ensures Digits(n)[0] == '0' <==> n == 0
    ensures n == 0 ==> |Digits(n)| == 1
    decreases n
  {
    if n >= 10 {
      DigitsLeadingDigit(n / 10);
    }
  }

  lemma {:induction false} DigitsValueOfDigits(n: nat)
    ensures DigitsValue(Digits(n)) == n
    decreases n
  {
    if n >= 10 {
      var s := Digits(n);
      assert s[..|s| - 1] == Digits(n / 10);
      DigitsValueOfDigits(n / 10);
    }
  }

  lemma {:induction false} DigitsValueIgnoresLeadingZeros(k: nat, s: string)
    requires AllDigits(s)
    ensures AllDigits(Repeat('0', k) + s)
    ensures DigitsValue(Repeat('0', k) + s) == DigitsValue(s)
    decreases |s|
  {
    var z := Repeat('0', k) + s;
    assert AllDigits(z);
    if |s| == 0 {
      ZerosValue(k);
      assert z == Repeat('0', k);
    } else {
      assert z[..|z| - 1] == Repeat('0', k) + s[..|s| - 1];
      DigitsValueIgnoresLeadingZeros(k, s[..|s| - 1]);
    }
  }

  lemma {:induction false} ZerosValue(k: nat)
    ensures AllDigits(Repeat('0', k))
    ensures DigitsValue(Repeat('0', k)) == 0
  {
    if k > 0 {
      var z := Repeat('0', k);
      assert z[..k - 1] == Repeat('0', k - 1) by {
        assert z == Repeat('0', k - 1) + ['0'] by {
          RepeatSnoc(k);
        }
      }
      ZerosValue(k - 1);
    }
  }

  lemma {:induction false} RepeatSnoc(k: nat)
    requires k > 0
    ensures Repeat('0', k) == Repeat('0', k - 1) + ['0']
  {
    if k > 1 {
      RepeatSnoc(k - 1);
      assert Repeat('0', k) == ['0'] + Repeat('0', k - 1);
    }
  }

  /** A number below 10^w has at most w digits. */
  lemma {:induction false} DigitsLength(n: nat, w: nat)
    requires 1 <= w && n < Pow10(w)
    ensures |Digits(n)| <= w
    decreases w
  {
    if n >= 10 {
      assert w > 1;
      DigitsLength(n / 10, w - 1);
    }
  }

  /** A `%d` rendering holds digits and at most a leading '-': never a space. */
  lemma IntToStringHasNoSpace(x: int)
    ensures ' ' !in IntToString(x)
  {
    var d := if x < 0 then Digits(-x) else Digits(x);
    assert ' ' !in d by {
      assert AllDigits(d);
    }
  }

  /** `%d` rendering round-trips through `ParseInt`. */
  lemma IntToStringRoundTrip(x: int)
    ensures ParseInt(IntToString(x)) == Some(x)
  {
    var s := IntToString(x);
    if x < 0 {
      var d := Digits(-x);
      assert s == "-" + d;
      assert s[1..] == d;
      DigitsValueOfDigits(-x);
      assert ParseNat(d) == Some(-x);
    } else {
      var d := Digits(x);
      assert s == d;
      assert IsDigit(d[0]);
      DigitsValueOfDigits(x);
      assert ParseNat(d) == Some(x);
    }
  }

  /** A padded element of a value in range is exactly `width` digits long and reads back as the value. */
  lemma PadIntRoundTrip(x: int, width: nat)
    requires 1 <= width && 0 <= x < Pow10(width)
    ensures |PadInt(x, width)| == width
    ensures AllDigits(PadInt(x, width))
    ensures ParseNat(PadInt(x, width)) == Some(x)
  {
    var d := Digits(x);
    DigitsLength(x, width);
    DigitsValueOfDigits(x);
    DigitsValueIgnoresLeadingZeros(width - |d|, d);
  }

  /** A digit string that does not start with '0' denotes a positive number. */
  lemma {:induction false} LeadingDigitPositive(s: string)
    requires |s| > 0 && AllDigits(s) && s[0] != '0'
    ensures DigitsValue(s) >= 1
    decreases |s|
  {
    if |s| > 1 {
      LeadingDigitPositive(s[..|s| - 1]);
    }
  }

  /** An unpadded digit string is the shortest rendering of the number it denotes. */
  lemma {:induction false} DigitsOfDigitsValue(s: string)
    requires |s| > 0 && AllDigits(s) && (s[0] == '0' ==> |s| == 1)
    ensures Digits(DigitsValue(s)) == s
    decreases |s|
  {
    if |s| > 1 {
      var p := s[..|s| - 1];
      LeadingDigitPositive(p);
      DigitsOfDigitsValue(p);
      assert Digits(DigitsValue(s)) == Digits(DigitsValue(p)) + [DigitChar(DigitValue(s[|s| - 1]))];
    }
  }

  /** `IsDecimalOf` characterises `%d`: a string is the rendering of `x` exactly when it is `IntToString(x)`. */
  lemma IsDecimalOfIff(s: string, x: int)
    ensures IsDecimalOf(s, x) <==> s == IntToString(x)
  {
    if s == IntToString(x) {
      IntToStringRoundTrip(x);
    }
    if IsDecimalOf(s, x) {
      if s[0] == '-' {
        var d := s[1..];
        assert ParseNat(d).Some?;
        DigitsOfDigitsValue(d);
        assert s == "-" + d;
      } else {
        DigitsOfDigitsValue(s);
      }
    }
  }
}
