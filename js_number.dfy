/**
 * The numeric side of the parser: the numeral `\d+\.?\d*` its patterns
 * capture, parseFloat of such a numeral, and Number.prototype.toFixed(2).
 * Numbers are exact reals: the model does not reproduce binary floating point.
 */
module JsNumber {
  import opened JsString

  /**
   * A numeral as `\d+\.?\d*` matches it: at least one digit, then optionally a
   * point followed by any number of digits.
   */
  predicate IsNumeral(t: string) {
    var d := Run(t, 0, Digit);
    d >= 1 && (d == |t| || (t[d] == '.' && AllDigits(t[d + 1..])))
  }

  /**
   * End of the match of `\d+\.?\d*` that starts at the digit at p: every
   * quantifier is greedy.
   */
  function NumeralEnd(s: string, p: nat): (e: nat)
    requires p < |s| && IsDigit(s[p])
    ensures p < e <= |s|
  {
    var d := p + Run(s, p, Digit);
    if d < |s| && s[d] == '.' then d + 1 + Run(s, d + 1, Digit) else d
  }

  /** What NumeralEnd delimits is a numeral. */
  lemma NumeralEndIsNumeral(s: string, p: nat)
    requires p < |s| && IsDigit(s[p])
    ensures IsNumeral(s[p..NumeralEnd(s, p)])
  {
    var n := Run(s, p, Digit);
    var d := p + n;
    RunAll(s, p, Digit);
    var e := NumeralEnd(s, p);
    var t := s[p..e];
    forall j | 0 <= j < n ensures IsDigit(t[j]) {
      assert t[j] == s[p + j];
    }
    if d < |s| && s[d] == '.' {
      assert t[n] == '.';
      RunIs(t, 0, n, Digit);
      RunAll(s, d + 1, Digit);
      AllInSlice(s, d + 1, e);
      assert t[n + 1..] == s[d + 1..e];
    } else {
      RunIs(t, 0, n, Digit);
    }
  }

  /**
   * A numeral that is followed by neither a digit nor a point is the one
   * NumeralEnd finds: the greedy quantifiers cannot stop earlier.
   */
  lemma {:induction false} NumeralEndAt(s: string, p: nat, e: nat)
    requires p < e <= |s| && IsNumeral(s[p..e])
    requires e < |s| ==> !IsDigit(s[e]) && s[e] != '.'
    ensures IsDigit(s[p])
    ensures NumeralEnd(s, p) == e
  {
    var t := s[p..e];
    var dd := Run(t, 0, Digit);
    RunAll(t, 0, Digit);
    assert s[p] == t[0];
    forall j | p <= j < p + dd ensures IsDigit(s[j]) {
      assert s[j] == t[j - p];
    }
    assert AllIn(s, p, p + dd, Digit);
    if dd == |t| {
      RunIs(s, p, e, Digit);
    } else {
      assert s[p + dd] == t[dd];
      RunIs(s, p, p + dd, Digit);
      var d := p + dd;
      forall j | d + 1 <= j < e ensures IsDigit(s[j]) {
        assert s[j] == t[dd + 1..][j - d - 1];
      }
      assert AllIn(s, d + 1, e, Digit);
      RunIs(s, d + 1, e, Digit);
    }
  }

  /** Every character of a numeral is a digit or the point. */
  lemma NumeralChars(t: string, k: nat)
    requires IsNumeral(t) && k < |t|
    ensures IsDigit(t[k]) || t[k] == '.'
  {
    var d := Run(t, 0, Digit);
    RunAll(t, 0, Digit);
    if k > d {
      assert t[k] == t[d + 1..][k - d - 1];
    }
  }

  /** The value of the digits after a decimal point: 0.f1 f2 f3 ... */
  function FracValue(f: string): (v: real)
    requires AllDigits(f)
    ensures 0.0 <= v < 1.0
  {
    if f == [] then 0.0 else (DigitValue(f[0]) as real + FracValue(f[1..])) / 10.0
  }

  /** parseFloat of a numeral, as an exact decimal value. */
  function ParseFloat(t: string): (v: real)
    requires IsNumeral(t)
    ensures 0.0 <= v
  {
    var d := Run(t, 0, Digit);
    RunAll(t, 0, Digit);
    RunIs(t[..d], 0, d, Digit);
    DigitsValue(t[..d]) as real + (if d == |t| then 0.0 else FracValue(t[d + 1..]))
  }

  /** What Number.prototype.toFixed(2) yields: digits, a point, two digits. */
  predicate IsFixed2(r: string) {
    |r| >= 4 && r[|r| - 3] == '.' && AllDigits(r[..|r| - 3]) && AllDigits(r[|r| - 2..])
  }

  /** The amount in hundredths that a two-decimal string spells. */
  function Fixed2Cents(r: string): nat
    requires IsFixed2(r)
  {
    DigitsValue(r[..|r| - 3]) * 100 + DigitsValue(r[|r| - 2..])
  }

  /** A number of hundredths written with exactly two fraction digits. */
  function FormatCents(c: nat): string
  {
    FormatParts(c / 100, c % 100)
  }

  /** A whole part and a number of hundredths below 100, as digits, a point and two digits. */
  function FormatParts(whole: nat, hundredths: nat): string
    requires hundredths < 100
  {
    NatToString(whole) + "." + [DigitChar(hundredths / 10), DigitChar(hundredths % 10)]
  }

  /** FormatCents writes a two-decimal string that spells c, with no leading zero. */
  lemma FormatCentsSound(c: nat)
    ensures IsFixed2(FormatCents(c)) && Fixed2Cents(FormatCents(c)) == c
    ensures |FormatCents(c)| > 4 ==> FormatCents(c)[0] != '0'
  {
    var q := NatToString(c / 100);
    var t := c % 100;
    var r := FormatCents(c);
    assert r == q + "." + [DigitChar(t / 10), DigitChar(t % 10)];
    assert r[..|r| - 3] == q;
    assert r[|r| - 2..] == [DigitChar(t / 10), DigitChar(t % 10)];
    TwoDigits(r[|r| - 2..]);
  }

  /**
   * Number.prototype.toFixed(2) of a non-negative number: the integer n for
   * which n / 100 - x is closest to zero, the larger one on a tie, written
   * with two fraction digits.
   */
  function ToFixed2(x: real): (r: string)
    requires 0.0 <= x
    ensures IsFixed2(r)
    ensures var n := Fixed2Cents(r) as real; n - 0.5 <= 100.0 * x < n + 0.5
    ensures |r| > 4 ==> r[0] != '0'
  {
    var c := (100.0 * x + 0.5).Floor;
    FormatCentsSound(c);
    FormatCents(c)
  }

  /** A two-decimal string read back by parseFloat is its amount in hundredths over 100. */
  lemma {:induction false} ParseFixed2(r: string)
    requires IsFixed2(r)
    ensures IsNumeral(r) && ParseFloat(r) == Fixed2Cents(r) as real / 100.0
  {
    var d := |r| - 3;
    RunIs(r, 0, d, Digit);
    assert r[d + 1..] == r[|r| - 2..];
    TwoDigits(r[d + 1..]);
  }

  /** The value of two digits, as an integer and as a fraction. */
  lemma TwoDigits(f: string)
    requires |f| == 2 && AllDigits(f)
    ensures DigitsValue(f) == DigitValue(f[0]) * 10 + DigitValue(f[1])
    ensures FracValue(f) == DigitsValue(f) as real / 100.0
  {
    var a, b := DigitValue(f[0]), DigitValue(f[1]);
    assert f[..1] == [f[0]];
    assert [f[0]][..0] == [];
    assert DigitsValue([f[0]]) == a;
    assert DigitsValue(f) == a * 10 + b;
    assert f[1..] == [f[1]];
    assert [f[1]][1..] == [];
    assert FracValue([f[1]]) == b as real / 10.0;
    assert FracValue(f) == (a as real + b as real / 10.0) / 10.0;
  }

  /**
   * toFixed(2) is idempotent through parseFloat: parsing the two-decimal
   * string and formatting it again gives the same string.
   */
  lemma ToFixed2RoundTrip(x: real)
    requires 0.0 <= x
    ensures IsNumeral(ToFixed2(x)) && ToFixed2(ParseFloat(ToFixed2(x))) == ToFixed2(x)
  {
    var c := (100.0 * x + 0.5).Floor;
    var r := FormatCents(c);
    assert ToFixed2(x) == r;
    FormatCentsSound(c);
    ParseFixed2(r);
    ToFixed2Cents(c);
  }

  lemma DivMod10(x: nat, b: nat)
    requires b < 10
    ensures (x * 10 + b) / 10 == x && (x * 10 + b) % 10 == b
  {
  }

  lemma DivMod100(x: nat, b: nat)
    requires b < 100
    ensures (x * 100 + b) / 100 == x && (x * 100 + b) % 100 == b
  {
  }

  lemma DigitCharValue(ch: char)
    requires IsDigit(ch)
    ensures DigitChar(DigitValue(ch)) == ch
  {
  }

  /** Two digits are below 100, and writing their value's tens and units gives them back. */
  lemma TwoDigitsOf(f: string)
    requires |f| == 2 && AllDigits(f)
    ensures DigitsValue(f) < 100
    ensures [DigitChar(DigitsValue(f) / 10), DigitChar(DigitsValue(f) % 10)] == f
  {
    TwoDigits(f);
    DivMod10(DigitValue(f[0]), DigitValue(f[1]));
    DigitCharValue(f[0]);
    DigitCharValue(f[1]);
  }

  /** The whole part a canonical numeral spells and the two digits f give back q, a point and f. */
  lemma FormatPartsOf(q: string, f: string)
    requires AllDigits(q) && |q| >= 1 && (|q| == 1 || q[0] != '0')
    requires |f| == 2 && AllDigits(f)
    ensures DigitsValue(f) < 100 && FormatParts(DigitsValue(q), DigitsValue(f)) == q + "." + f
  {
    TwoDigitsOf(f);
    DigitsRoundTrip(q);
  }

  /** FormatCents of the amount a canonical two-decimal string spells gives the string back. */
  lemma FormatCentsOf(q: string, f: string, x: nat, y: nat)
    requires AllDigits(q) && |q| >= 1 && (|q| == 1 || q[0] != '0')
    requires |f| == 2 && AllDigits(f)
    requires x == DigitsValue(q) && y == DigitsValue(f)
    ensures FormatCents(x * 100 + y) == q + "." + f
  {
    FormatPartsOf(q, f);
    DivMod100(x, y);
  }

  /** toFixed(2) of a whole number of hundredths writes exactly those hundredths. */
  lemma ToFixed2Cents(c: nat)
    ensures ToFixed2(c as real / 100.0) == FormatCents(c)
  {
    assert 100.0 * (c as real / 100.0) + 0.5 == c as real + 0.5;
    assert (c as real + 0.5).Floor == c;
  }

  /**
   * parseFloat then toFixed(2) gives back every two-decimal string that has
   * no superfluous leading zero, such as "23.45" or "0.50".
   */
  lemma CanonicalFixed2(r: string)
    requires IsFixed2(r) && (|r| == 4 || r[0] != '0')
    ensures IsNumeral(r) && ToFixed2(ParseFloat(r)) == r
  {
    ParseFixed2(r);
    CentsOfFixed2(r);
    ToFixed2Cents(Fixed2Cents(r));
  }

  /** FormatCents gives back a two-decimal string with no superfluous leading zero. */
  lemma CentsOfFixed2(r: string)
    requires IsFixed2(r) && (|r| == 4 || r[0] != '0')
    ensures FormatCents(Fixed2Cents(r)) == r
  {
    var q, f := r[..|r| - 3], r[|r| - 2..];
    assert r == q + "." + f;
    FormatCentsOf(q, f, DigitsValue(q), DigitsValue(f));
  }

  /** The amount 0 is written "0.00". */
  lemma ZeroFixed2()
    ensures ToFixed2(0.0) == "0.00"
  {
    assert (100.0 * 0.0 + 0.5).Floor == 0;
    assert NatToString(0) == "0";
  }

}
