/** Python's `str(n)` and `int(s)` on integers, restricted to what the
    codecs use: an optional sign followed by ASCII decimal digits. */
module PyInt {
  import opened Wrappers

  predicate IsDigit(c: char) {
    '0' <= c <= '9'
  }

  predicate AllDigits(s: string) {
    forall i :: 0 <= i < |s| ==> IsDigit(s[i])
  }

  /** A digit string without superfluous leading zeros, as `str` writes it. */
  predicate Canonical(s: string) {
    |s| > 0 && AllDigits(s) && (s[0] == '0' ==> |s| == 1)
  }

  function DigitChar(d: nat): (c: char)
    requires d < 10
    ensures IsDigit(c)
  {
    ('0' as int + d) as char
  }

  function DigitsValue(s: string): nat
    requires AllDigits(s)
  {
    if s == [] then 0
    else DigitsValue(s[..|s| - 1]) * 10 + (s[|s| - 1] as int - '0' as int)
  }

  function Zeros(n: nat): (s: string)
    ensures |s| == n && AllDigits(s)
    ensures forall i :: 0 <= i < n ==> s[i] == '0'
  {
    seq(n, _ => '0')
  }

  /** `str(n)` for a non-negative integer. */
  function NatToString(n: nat): (s: string)
    ensures Canonical(s)
    ensures DigitsValue(s) == n
  {
    if n < 10 then [DigitChar(n)]
    else
      var s := NatToString(n / 10) + [DigitChar(n % 10)];
      assert s[..|s| - 1] == NatToString(n / 10);
      s
  }

  /** `str(i)` for any integer. */
  function IntToString(i: int): string
  {
    if i < 0 then "-" + NatToString(-i) else NatToString(i)
  }

  /** `int(s)`: an optional `+` or `-`, then at least one digit; `None`
      where Python raises `ValueError`. */
  function ParseInt(s: string): Option<int>
  {
    if |s| > 0 && (s[0] == '-' || s[0] == '+') then
      var body := s[1..];
      if |body| > 0 && AllDigits(body) then
        var magnitude: int := DigitsValue(body);
        Some(if s[0] == '-' then -magnitude else magnitude)
      else None
    else if |s| > 0 && AllDigits(s) then Some(DigitsValue(s))
    else None
  }

  /** A digit string with a non-zero first digit is positive, and at
      least ten when it has two digits or more. */
  lemma {:induction false} LeadingDigitPositive(s: string)
    requires AllDigits(s) && |s| > 0 && s[0] != '0'
    ensures DigitsValue(s) > 0
    ensures |s| > 1 ==> DigitsValue(s) >= 10
  {
    if |s| > 1 {
      var init := s[..|s| - 1];
      assert init[0] == s[0];
      LeadingDigitPositive(init);
    }
  }

  /** Leading zeros do not change the value of a digit string. */
  lemma {:induction false} LeadingZerosValue(z: nat, t: string)
    requires AllDigits(t)
    ensures AllDigits(Zeros(z) + t)
    ensures DigitsValue(Zeros(z) + t) == DigitsValue(t)
  {
    var s := Zeros(z) + t;
    if t == [] {
      assert s == Zeros(z);
      ZerosValue(z);
    } else {
      var t' := t[..|t| - 1];
      assert s[..|s| - 1] == Zeros(z) + t';
      LeadingZerosValue(z, t');
    }
  }

  /** One leading zero does not change the value either. */
  lemma LeadingZeroValue(t: string)
    requires AllDigits(t)
    ensures AllDigits("0" + t)
    ensures DigitsValue("0" + t) == DigitsValue(t)
  {
    assert "0" + t == Zeros(1) + t;
    LeadingZerosValue(1, t);
  }

  lemma {:induction false} ZerosValue(z: nat)
    ensures DigitsValue(Zeros(z)) == 0
  {
    if z > 0 {
      assert Zeros(z)[..z - 1] == Zeros(z - 1);
      ZerosValue(z - 1);
    }
  }

  /** `str` undoes the digit reading of every canonical digit string. */
  lemma {:induction false} CanonicalRoundTrip(s: string)
    requires Canonical(s)
    ensures NatToString(DigitsValue(s)) == s
  {
    if |s| > 1 {
      var init := s[..|s| - 1];
      var d := s[|s| - 1] as int - '0' as int;
      assert init[0] == s[0];
      LeadingDigitPositive(s);
      LeadingDigitPositive(init);
      CanonicalRoundTrip(init);
      var v := DigitsValue(s);
      assert v == DigitsValue(init) * 10 + d;
      assert v / 10 == DigitsValue(init) && v % 10 == d;
      assert DigitChar(d) == s[|s| - 1];
      assert s == init + [s[|s| - 1]];
    }
  }

  /** Reading back what `str(i)` wrote gives `i`. */
  lemma ParseIntToString(i: int)
    ensures ParseInt(IntToString(i)) == Some(i)
  {
    var n := if i < 0 then -i else i;
    var digits := NatToString(n);
    if i < 0 {
      assert IntToString(i)[1..] == digits;
    }
  }

  /** `str(int(s))` gives `s` back exactly when `s` is written the way
      `str` writes: no `+`, no leading zeros, no `-0`. */
  lemma ParseIntCanonical(s: string)
    requires (|s| > 0 && s[0] == '-' && Canonical(s[1..]) && s[1..] != "0") || Canonical(s)
    ensures ParseInt(s).Some? && IntToString(ParseInt(s).value) == s
  {
    if Canonical(s) {
      CanonicalRoundTrip(s);
    } else {
      var body := s[1..];
      assert s == "-" + body;
      NegativeRoundTrip(body);
    }
  }

  /** A minus sign in front of a canonical non-zero digit string. */
  lemma NegativeRoundTrip(body: string)
    requires Canonical(body) && body != "0"
    ensures ParseInt("-" + body) == Some(-(DigitsValue(body) as int))
    ensures IntToString(-(DigitsValue(body) as int)) == "-" + body
  {
    CanonicalRoundTrip(body);
    LeadingDigitPositive(body);
    assert ("-" + body)[1..] == body;
  }

  /** Cutting a digit string in two gives two digit strings. */
  lemma DigitsSplit(digits: string, k: nat)
    requires AllDigits(digits) && k <= |digits|
    ensures AllDigits(digits[..k]) && AllDigits(digits[k..])
    ensures digits[..k] + digits[k..] == digits
  {
    assert forall i :: 0 <= i < |digits| - k ==> digits[k..][i] == digits[k + i];
  }

  /** `int()` reads a digit string as its value. */
  lemma DigitsParse(t: string)
    requires |t| > 0 && AllDigits(t)
    ensures ParseInt(t) == Some(DigitsValue(t))
  {
  }
}
