/**
 * Decimal texts as the exchange sends them and as Python's `int()`, `float()`
 * and `str()` read and write them: unsigned digit strings, an optional minus
 * sign and an optional fractional part.
 */
module Decimal {
  import opened Wrappers
  import opened Text

  predicate IsDigit(c: char) { '0' <= c <= '9' }

  predicate AllDigits(s: string) { forall i :: 0 <= i < |s| ==> IsDigit(s[i]) }

  function DigitValue(c: char): (d: nat)
    requires IsDigit(c)
    ensures d < 10
  { c as int - '0' as int }

  function DigitChar(d: nat): (c: char)
    requires d < 10
    ensures IsDigit(c) && DigitValue(c) == d
  { ('0' as int + d) as char }

  /** The number a string of decimal digits denotes, most significant first. */
  function DigitsValue(s: string): nat
    requires AllDigits(s)
  {
    if s == [] then 0 else DigitsValue(s[..|s| - 1]) * 10 + DigitValue(s[|s| - 1])
  }

  function Pow10(n: nat): (p: nat)
    ensures p >= 1
  { if n == 0 then 1 else 10 * Pow10(n - 1) }

  /** `str(n)` for a non-negative integer: its shortest decimal text. */
  function NatToText(n: nat): (r: string)
    ensures |r| > 0 && AllDigits(r) && DigitsValue(r) == n
    ensures |r| > 1 ==> r[0] != '0'
    decreases n
  {
    if n < 10 then [DigitChar(n)]
    else
      var prefix := NatToText(n / 10);
      var r := prefix + [DigitChar(n % 10)];
      assert r[..|r| - 1] == prefix;
      r
  }

  /** `int(s)`: an optional minus sign followed by at least one digit. */
  function ParseInt(s: string): (r: Option<int>)
    ensures r.Some? && s != [] && s[0] != '-' ==> r.value >= 0
  {
    if s != [] && s[0] == '-' then
      if |s| > 1 && AllDigits(s[1..]) then Some(-(DigitsValue(s[1..]) as int)) else None
    else if s != [] && AllDigits(s) then Some(DigitsValue(s))
    else None
  }

  /** The magnitude of an unsigned decimal text `digits[.digits]`; at least one digit overall. */
  function ParseUnsignedReal(s: string): (r: Option<real>)
    ensures r.Some? ==> r.value >= 0.0
  {
    if '.' in s then
      var i := IndexOf(s, '.');
      var whole, frac := s[..i], s[i + 1..];
      if AllDigits(whole) && AllDigits(frac) && |whole| + |frac| > 0 then
        Some(DigitsValue(whole) as real + DigitsValue(frac) as real / Pow10(|frac|) as real)
      else None
    else if s != [] && AllDigits(s) then Some(DigitsValue(s) as real)
    else None
  }

  /** `float(s)` for the plain decimal texts the exchange sends: `[-]digits[.digits]`. */
  function ParseReal(s: string): (r: Option<real>)
    ensures r.Some? && (s == [] || s[0] != '-') ==> r.value >= 0.0
  {
    if s != [] && s[0] == '-' then
      match ParseUnsignedReal(s[1..])
      case Some(m) => Some(-m)
      case None => None
    else ParseUnsignedReal(s)
  }

  /** `int(str(n)) == n`: the decimal text of a timestamp reads back as the same number. */
  lemma NatToTextRoundTrip(n: nat)
    ensures ParseInt(NatToText(n)) == Some(n)
  {
    var t := NatToText(n);
    assert t[0] != '-' by { assert IsDigit(t[0]); }
  }

  /** Appending digits shifts the value left by their count. */
  lemma {:induction false} DigitsValueAppend(a: string, b: string)
    requires AllDigits(a) && AllDigits(b)
    ensures AllDigits(a + b)
    ensures DigitsValue(a + b) == DigitsValue(a) * Pow10(|b|) + DigitsValue(b)
    decreases |b|
  {
    assert forall i :: 0 <= i < |a + b| ==> (a + b)[i] == if i < |a| then a[i] else b[i - |a|];
    if b != [] {
      var c := b[..|b| - 1];
      assert (a + b)[..|a + b| - 1] == a + c;
      DigitsValueAppend(a, c);
      var d := DigitValue(b[|b| - 1]);
      assert b[..|b| - 1] == c;
      assert DigitsValue(a + b) == DigitsValue(a + c) * 10 + d;
      assert DigitsValue(b) == DigitsValue(c) * 10 + d;
      assert Pow10(|b|) == 10 * Pow10(|c|);
      ShiftDigit(DigitsValue(a), Pow10(|c|), DigitsValue(c), d);
    } else {
      assert a + b == a;
    }
  }

  lemma ShiftDigit(x: int, p: int, y: int, d: int)
    ensures (x * p + y) * 10 + d == x * (10 * p) + (y * 10 + d)
  {
  }

  /** `x / p` for `x == a * p + b`: the whole part plus the scaled-down rest. */
  lemma FractionValue(x: nat, a: nat, b: nat, p: nat)
    requires p >= 1 && x == a * p + b
    ensures x as real / p as real == a as real + b as real / p as real
  {
    var ar, br, pr := a as real, b as real, p as real;
    assert x as real == ar * pr + br;
    calc {
      x as real / pr;
      (ar * pr + br) / pr;
      ar * pr / pr + br / pr;
      ar + br / pr;
    }
  }

  /** `float("w.f")`: the digits of both parts read as one number, scaled down by the fraction's length. */
  lemma ParseRealFraction(w: string, f: string)
    requires AllDigits(w) && AllDigits(f) && |w| + |f| > 0
    ensures ParseReal(w + "." + f) == Some(DigitsValue(w + f) as real / Pow10(|f|) as real)
  {
    var s := w + "." + f;
    DotSplit(w, f);
    var a, b, p := DigitsValue(w), DigitsValue(f), Pow10(|f|);
    assert ParseUnsignedReal(s) == Some(a as real + b as real / p as real);
    DigitsValueAppend(w, f);
    FractionValue(DigitsValue(w + f), a, b, p);
    assert ParseReal(s) == ParseUnsignedReal(s);
  }

  /** In `w.f` with a digit-only `w`, the first dot is the one after `w`, and the text has no leading minus. */
  lemma DotSplit(w: string, f: string)
    requires AllDigits(w)
    ensures var s := w + "." + f;
      && '.' in s && IndexOf(s, '.') == |w| && s[..|w|] == w && s[|w| + 1..] == f
      && (s == [] || s[0] != '-')
  {
    var s := w + "." + f;
    assert s[|w|] == '.' && s[..|w|] == w && s[|w| + 1..] == f;
    assert '.' !in w by {
      forall i | 0 <= i < |w| ensures w[i] != '.' { assert IsDigit(w[i]); }
    }
    assert s[0] != '-' by {
      if |w| > 0 { assert s[0] == w[0] && IsDigit(w[0]); }
    }
  }

  /** `float("w")`: a plain digit string reads as the number it denotes. */
  lemma ParseRealWhole(w: string)
    requires AllDigits(w) && w != []
    ensures ParseReal(w) == Some(DigitsValue(w) as real)
  {
    assert IsDigit(w[0]);
    assert '.' !in w by {
      forall i | 0 <= i < |w| ensures w[i] != '.' { assert IsDigit(w[i]); }
    }
  }

  /** A leading minus sign negates the value, and a text that does not parse stays unparsed. */
  lemma ParseRealNegative(t: string)
    requires t == [] || t[0] != '-'
    ensures ParseReal("-" + t) == if ParseReal(t).Some? then Some(-ParseReal(t).value) else None
  {
    assert ("-" + t)[1..] == t;
  }

  /** The flat-position texts: `"0"` reads as zero, and so does `"0.0"`, which is a different text. */
  lemma ZeroTexts()
    ensures ParseReal("0") == Some(0.0)
    ensures ParseReal("0.0") == Some(0.0)
    ensures ParseReal("") == None
  {
    assert IndexOf("0.0", '.') == 1;
    assert "0.0"[..1] == "0" && "0.0"[2..] == "0";
  }
}
