/** Python's `decimal.Decimal` as far as the codecs need it: a finite
    value is a sign, an integer coefficient and a power-of-ten exponent
    (`Decimal("1234.56")` has coefficient 123456 and exponent -2, and
    keeps trailing zeros: `Decimal("1.50")` is not `Decimal("1.5")`).
    `ToString` is `Decimal.__str__`; `Parse` is the `Decimal(text)`
    constructor restricted to plain notation. */
module PyDecimal {
  import opened Wrappers
  import opened PyInt

  datatype Decimal = Decimal(negative: bool, coefficient: nat, exponent: int)

  function Pow10(e: int): real
    decreases if e < 0 then -e else e
  {
    if e == 0 then 1.0
    else if e > 0 then 10.0 * Pow10(e - 1)
    else Pow10(e + 1) / 10.0
  }

  /** The number a decimal denotes. */
  function Value(d: Decimal): real
  {
    (if d.negative then -1.0 else 1.0) * (d.coefficient as real) * Pow10(d.exponent)
  }

  /** `"%+d"`, the exponent suffix of scientific notation. */
  function SignedInt(n: int): string
  {
    if n < 0 then IntToString(n) else "+" + NatToString(n)
  }

  /** `Decimal.__str__` without the sign: plain notation when the
      exponent is at most 0 and the number has more than -6 digits left
      of the point, scientific notation otherwise. */
  function Magnitude(d: Decimal): string
  {
    var digits := NatToString(d.coefficient);
    var leftdigits := d.exponent + |digits|;
    var dotplace := if d.exponent <= 0 && leftdigits > -6 then leftdigits else 1;
    var intpart :=
      if dotplace <= 0 then "0"
      else if dotplace >= |digits| then digits + Zeros(dotplace - |digits|)
      else digits[..dotplace];
    var fracpart :=
      if dotplace <= 0 then "." + Zeros(-dotplace) + digits
      else if dotplace >= |digits| then ""
      else "." + digits[dotplace..];
    var exp := if leftdigits == dotplace then "" else "E" + SignedInt(leftdigits - dotplace);
    intpart + fracpart + exp
  }

  /** `str(d)`. */
  function ToString(d: Decimal): string
  {
    (if d.negative then "-" else "") + Magnitude(d)
  }

  /** The decimals that `str` writes in plain notation (no exponent). */
  predicate Plain(d: Decimal)
  {
    d.exponent <= 0 && d.exponent + |NatToString(d.coefficient)| > -6
  }

  /** The first position of `c` in `s`, or `|s|` when there is none. */
  function IndexOf(s: string, c: char): (i: nat)
    ensures i <= |s|
    ensures i < |s| ==> s[i] == c
  {
    if s == [] then 0
    else if s[0] == c then 0
    else 1 + IndexOf(s[1..], c)
  }

  /** The text after an optional leading sign. */
  function Unsigned(s: string): string
  {
    if |s| > 0 && (s[0] == '-' || s[0] == '+') then s[1..] else s
  }

  /** The digits before the point. */
  function IntegerPart(body: string): string
  {
    body[..IndexOf(body, '.')]
  }

  /** The digits after the point; empty when there is no point. */
  function FractionPart(body: string): string
  {
    var dot := IndexOf(body, '.');
    if dot < |body| then body[dot + 1..] else ""
  }

  /** `Decimal(s)` for `[+|-] digits [. digits]` with at least one digit,
      such as `"1234.56"`, `"-0.5"`, `".5"` or `"5."`; `None` for every
      other text. The coefficient keeps every digit written, so trailing
      zeros survive. */
  function Parse(s: string): (r: Option<Decimal>)
    ensures r.Some? ==> r.value.exponent <= 0
  {
    var body := Unsigned(s);
    var intpart := IntegerPart(body);
    var fracpart := FractionPart(body);
    if AllDigits(intpart) && AllDigits(fracpart) && |intpart| + |fracpart| > 0 then
      Some(Decimal(|s| > 0 && s[0] == '-', DigitsValue(intpart + fracpart), -|fracpart|))
    else None
  }

  /** Plain-notation text as `str` writes it: an optional `-` (never
      `+`), an integer part without superfluous leading zeros, and, if
      there is a point, at least one digit after it. */
  predicate PlainText(s: string)
  {
    var body := if |s| > 0 && s[0] == '-' then s[1..] else s;
    var dot := IndexOf(body, '.');
    Canonical(body[..dot]) && (dot < |body| ==> |body| - dot > 1 && AllDigits(body[dot + 1..]))
  }

  /** The position of the point when `s` is `intpart + "." + fracpart`. */
  lemma {:induction false} IndexOfSplit(ip: string, fp: string)
    requires AllDigits(ip)
    ensures IndexOf(ip + "." + fp, '.') == |ip|
    ensures IndexOf(ip, '.') == |ip|
  {
    if ip != [] {
      assert (ip + "." + fp)[1..] == ip[1..] + "." + fp;
      assert IsDigit(ip[0]);
      IndexOfSplit(ip[1..], fp);
    }
  }

  /** What `str` writes for a plain decimal, case by case. */
  lemma MagnitudePlain(d: Decimal)
    requires Plain(d)
    ensures var digits := NatToString(d.coefficient);
      var dotplace := d.exponent + |digits|;
      Magnitude(d) ==
        if dotplace <= 0 then "0" + "." + (Zeros(-dotplace) + digits)
        else if dotplace >= |digits| then digits
        else digits[..dotplace] + "." + digits[dotplace..]
  {
    var digits := NatToString(d.coefficient);
    var dotplace := d.exponent + |digits|;
    if dotplace >= |digits| {
      assert Zeros(dotplace - |digits|) == "";
    }
  }

  /** The text `body` splits at its point into `ip` and `fp`; `Parse`
      reads their digits, together, as the coefficient. */
  lemma ParseSplit(s: string, neg: bool, ip: string, fp: string, dotted: bool, coefficient: nat, exponent: int)
    requires AllDigits(ip) && AllDigits(fp) && |ip| + |fp| > 0
    requires dotted || fp == ""
    requires s == (if neg then "-" else "") + (if dotted then ip + "." + fp else ip)
    requires AllDigits(ip + fp) && DigitsValue(ip + fp) == coefficient && exponent == -|fp|
    ensures Parse(s) == Some(Decimal(neg, coefficient, exponent))
  {
    var body := if dotted then ip + "." + fp else ip;
    BodyParts(ip, fp, dotted);
    SignedBody(s, neg, body);
  }

  /** The parts of `ip + "." + fp` (or of `ip` alone) are `ip` and `fp`. */
  lemma BodyParts(ip: string, fp: string, dotted: bool)
    requires AllDigits(ip) && (dotted || fp == "")
    ensures var body := if dotted then ip + "." + fp else ip;
      IntegerPart(body) == ip && FractionPart(body) == fp
  {
    IndexOfSplit(ip, fp);
    if dotted {
      assert (ip + "." + fp)[..|ip|] == ip;
      assert (ip + "." + fp)[|ip| + 1..] == fp;
    } else {
      assert ip[..|ip|] == ip;
    }
  }

  /** A sign in front of a body that starts with a digit or the point. */
  lemma SignedBody(s: string, neg: bool, body: string)
    requires |body| > 0 && (IsDigit(body[0]) || body[0] == '.')
    requires s == (if neg then "-" else "") + body
    ensures Unsigned(s) == body && (|s| > 0 && s[0] == '-') == neg
  {
    if neg {
      assert s[1..] == body;
    }
  }

  lemma ZerosCons(n: nat)
    ensures Zeros(n + 1) == "0" + Zeros(n) == Zeros(n) + "0"
  {
  }

  /** Reading a plain decimal back from the text `str` wrote gives the
      same sign, coefficient and exponent. */
  lemma ParseToString(d: Decimal)
    requires Plain(d)
    ensures Parse(ToString(d)) == Some(d)
  {
    var digits := NatToString(d.coefficient);
    var dotplace := d.exponent + |digits|;
    MagnitudePlain(d);
    if dotplace <= 0 {
      ParseSmall(ToString(d), d.negative, digits, -dotplace, d.coefficient, d.exponent);
    } else if dotplace >= |digits| {
      ParseWhole(ToString(d), d.negative, digits, d.coefficient, d.exponent);
    } else {
      ParseMiddle(ToString(d), d.negative, digits, dotplace, d.coefficient, d.exponent);
    }
  }

  lemma ParseWhole(s: string, neg: bool, digits: string, coefficient: nat, exponent: int)
    requires AllDigits(digits) && |digits| > 0
    requires s == (if neg then "-" else "") + digits
    requires DigitsValue(digits) == coefficient && exponent == 0
    ensures Parse(s) == Some(Decimal(neg, coefficient, exponent))
  {
    assert digits + "" == digits;
    ParseSplit(s, neg, digits, "", false, coefficient, exponent);
  }

  lemma ParseSmall(s: string, neg: bool, digits: string, z: nat, coefficient: nat, exponent: int)
    requires AllDigits(digits) && |digits| > 0
    requires s == (if neg then "-" else "") + ("0" + "." + (Zeros(z) + digits))
    requires DigitsValue(digits) == coefficient && exponent == -(z + |digits|)
    ensures Parse(s) == Some(Decimal(neg, coefficient, exponent))
  {
    LeadingZerosValue(z, digits);
    var fp := Zeros(z) + digits;
    LeadingZeroValue(fp);
    ParseSplit(s, neg, "0", fp, true, coefficient, exponent);
  }

  lemma ParseMiddle(s: string, neg: bool, digits: string, k: nat, coefficient: nat, exponent: int)
    requires AllDigits(digits) && 0 < k < |digits|
    requires s == (if neg then "-" else "") + (digits[..k] + "." + digits[k..])
    requires DigitsValue(digits) == coefficient && exponent == k - |digits|
    ensures Parse(s) == Some(Decimal(neg, coefficient, exponent))
  {
    DigitsSplit(digits, k);
    ParseSplit(s, neg, digits[..k], digits[k..], true, coefficient, exponent);
  }

  function LeadingZeroCount(s: string): (z: nat)
    ensures z <= |s|
    ensures forall i :: 0 <= i < z ==> s[i] == '0'
    ensures z < |s| ==> s[z] != '0'
  {
    if s == [] || s[0] != '0' then 0 else 1 + LeadingZeroCount(s[1..])
  }

  /** `str` of a decimal read from text whose integer part has a
      non-zero first digit. */
  lemma MagnitudeLarge(d: Decimal, ip: string, fp: string)
    requires Canonical(ip) && ip[0] != '0' && AllDigits(fp)
    requires d.coefficient == DigitsValue(ip + fp) && d.exponent == -|fp|
    ensures Magnitude(d) == if fp == "" then ip else ip + "." + fp
  {
    var digits := ip + fp;
    assert digits[0] == ip[0];
    CanonicalRoundTrip(digits);
    assert NatToString(d.coefficient) == digits;
    MagnitudePlain(d);
    if fp == "" {
      assert digits == ip;
    } else {
      assert digits[..|ip|] == ip && digits[|ip|..] == fp;
    }
  }

  /** `str` of a decimal read from `"0." + fp`. */
  lemma MagnitudeSmall(d: Decimal, fp: string)
    requires AllDigits(fp) && fp != ""
    requires d.coefficient == DigitsValue(fp) && d.exponent == -|fp| && Plain(d)
    ensures Magnitude(d) == "0" + "." + fp
  {
    var z := LeadingZeroCount(fp);
    DigitsSplit(fp, z);
    var rest := fp[z..];
    assert fp == Zeros(z) + rest;
    LeadingZerosValue(z, rest);
    if rest == [] {
      ZerosValue(z);
      MagnitudeZero(d, z);
    } else {
      MagnitudeLeadingZeros(d, z, rest);
    }
  }

  /** `str` writes zero with `z` decimal places as `"0."` and `z` zeros. */
  lemma MagnitudeZero(d: Decimal, z: nat)
    requires z > 0 && d.coefficient == 0 && d.exponent + z == 0 && Plain(d)
    ensures Magnitude(d) == "0" + "." + Zeros(z)
  {
    assert NatToString(0) == "0";
    MagnitudePlain(d);
    ZerosCons(z - 1);
  }

  /** `str` writes the point, then `z` zeros, then the significant digits. */
  lemma MagnitudeLeadingZeros(d: Decimal, z: nat, rest: string)
    requires AllDigits(rest) && rest != "" && rest[0] != '0'
    requires d.coefficient == DigitsValue(rest) && d.exponent == -(z + |rest|) && Plain(d)
    ensures Magnitude(d) == "0" + "." + (Zeros(z) + rest)
  {
    CanonicalRoundTrip(rest);
    MagnitudePlain(d);
  }

  /** Text that `Parse` accepts and that is written the way `str` writes
      a plain decimal is exactly what `str` gives back. */
  lemma ToStringParse(s: string)
    requires PlainText(s) && Parse(s).Some? && Plain(Parse(s).value)
    ensures ToString(Parse(s).value) == s
  {
    var d := Parse(s).value;
    var body := Unsigned(s);
    var ip, fp := IntegerPart(body), FractionPart(body);
    PlainTextParts(s);
    assert d == Decimal(|s| > 0 && s[0] == '-', DigitsValue(ip + fp), -|fp|);
    MagnitudeOfParts(d, ip, fp);
  }

  /** How plain text splits: an optional `-`, a canonical integer part and,
      after a point, a non-empty run of digits. */
  lemma PlainTextParts(s: string)
    requires PlainText(s)
    ensures var body := Unsigned(s);
      var ip, fp := IntegerPart(body), FractionPart(body);
      && Canonical(ip) && AllDigits(fp)
      && s == (if |s| > 0 && s[0] == '-' then "-" else "") + (if fp == "" then ip else ip + "." + fp)
  {
    var body := if |s| > 0 && s[0] == '-' then s[1..] else s;
    var dot := IndexOf(body, '.');
    assert body[..dot][0] == body[0];
    assert Unsigned(s) == body;
    if dot < |body| {
      assert body == body[..dot] + "." + body[dot + 1..];
    } else {
      assert body == body[..dot];
    }
  }

  /** What `str` writes for the decimal read from `ip` and `fp`. */
  lemma MagnitudeOfParts(d: Decimal, ip: string, fp: string)
    requires Canonical(ip) && AllDigits(fp) && Plain(d)
    requires AllDigits(ip + fp) && d.coefficient == DigitsValue(ip + fp) && d.exponent == -|fp|
    ensures Magnitude(d) == if fp == "" then ip else ip + "." + fp
  {
    if ip != "0" {
      MagnitudeLarge(d, ip, fp);
    } else if fp == [] {
      assert ip + fp == "0" + "";
      LeadingZeroValue("");
      assert d.coefficient == 0;
      assert Magnitude(d) == "0";
    } else {
      LeadingZeroValue(fp);
      assert ip + fp == "0" + fp;
      MagnitudeSmall(d, fp);
    }
  }

  /** The example from the Collmex documentation, in Python's notation:
      reading `"1234.56"` gives the value 1234.56 with two decimal places. */
  lemma ParseExample()
    ensures Parse("1234.56") == Some(Decimal(false, 123456, -2))
    ensures Value(Decimal(false, 123456, -2)) == 1234.56
  {
    assert "1234" + "56" == "123456";
    assert "123456"[..5] == "12345" && "12345"[..4] == "1234" && "1234"[..3] == "123";
    assert "123"[..2] == "12" && "12"[..1] == "1" && "1"[..0] == "";
    assert DigitsValue("123456") == 123456;
    ParseSplit("1234.56", false, "1234", "56", true, 123456, -2);
  }

  lemma PlainExample()
    ensures PlainText("1234.56")
  {
    var body := "1234.56";
    assert body[1..] == "234.56" && body[2..] == "34.56" && body[3..] == "4.56" && body[4..] == ".56";
    assert IndexOf(body, '.') == 4;
    assert body[..4] == "1234" && body[5..] == "56";
  }

  /** ... and `str` writes it back as `"1234.56"`. */
  lemma ToStringExample()
    ensures ToString(Decimal(false, 123456, -2)) == "1234.56"
  {
    ParseExample();
    PlainExample();
    ToStringParse("1234.56");
  }
}
