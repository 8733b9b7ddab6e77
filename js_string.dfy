/**
 * The JavaScript string builtins the receipt parser relies on: the character
 * classes of its regular expressions, String.prototype.trim, split,
 * toLowerCase, includes and padStart, and parseInt / Number.toString on
 * decimal digit strings. A JavaScript string is modelled as a `string`
 * (a sequence of Unicode scalar values).
 */
module JsString {

  /** The class `\d`: an ASCII decimal digit. */
  predicate IsDigit(c: char) {
    '0' <= c <= '9'
  }

  /**
   * The class `\s`, which is also the set of characters String.prototype.trim
   * removes: the ECMAScript WhiteSpace characters (tab, vertical tab, form
   * feed, space, no-break space, byte order mark and the other Unicode space
   * separators) and the LineTerminator characters (LF, CR, LS, PS).
   */
  predicate IsSpace(c: char) {
    c == '\t' || c == '\n' || c == '\r' || c == ' ' ||
    c as int == 0x0B || c as int == 0x0C || c as int == 0xA0 ||
    c as int == 0x1680 || (0x2000 <= c as int <= 0x200A) ||
    c as int == 0x2028 || c as int == 0x2029 || c as int == 0x202F ||
    c as int == 0x205F || c as int == 0x3000 || c as int == 0xFEFF
  }

  /** The characters the regular-expression `.` does not match (no `s` flag). */
  predicate IsLineTerminator(c: char) {
    c == '\n' || c == '\r' || c as int == 0x2028 || c as int == 0x2029
  }

  predicate AllDigits(s: string) {
    forall k :: 0 <= k < |s| ==> IsDigit(s[k])
  }

  predicate AllSpace(s: string) {
    forall k :: 0 <= k < |s| ==> IsSpace(s[k])
  }

  /** The character classes the parser's patterns repeat: `\d`, `\s` and `[:\s]`. */
  datatype CharClass = Digit | Space | ColonOrSpace

  predicate InClass(c: char, cls: CharClass) {
    match cls
    case Digit => IsDigit(c)
    case Space => IsSpace(c)
    case ColonOrSpace => c == ':' || IsSpace(c)
  }

  /** Every character of s in [lo, hi) belongs to the class. */
  predicate AllIn(s: string, lo: nat, hi: nat, cls: CharClass) {
    hi <= |s| && forall j :: lo <= j < hi ==> InClass(s[j], cls)
  }

  /**
   * Length of the longest run of characters of a class starting at p: what a
   * greedy `[class]*` consumes there.
   */
  function Run(s: string, p: nat, cls: CharClass): (n: nat)
    ensures p + n <= |s| || n == 0
    ensures p + n < |s| ==> !InClass(s[p + n], cls)
    decreases |s| - p
  {
    if p < |s| && InClass(s[p], cls) then 1 + Run(s, p + 1, cls) else 0
  }

  /** Every character of the greedy run belongs to the class. */
  lemma {:induction false} RunAll(s: string, p: nat, cls: CharClass)
    ensures AllIn(s, p, p + Run(s, p, cls), cls) || Run(s, p, cls) == 0
    decreases |s| - p
  {
    if p < |s| && InClass(s[p], cls) {
      RunAll(s, p + 1, cls);
    }
  }

  /** Every prefix of the greedy run belongs to the class. */
  lemma RunPrefix(s: string, p: nat, k: nat, cls: CharClass)
    requires 1 <= k <= Run(s, p, cls)
    ensures AllIn(s, p, p + k, cls)
  {
    RunAll(s, p, cls);
  }

  /** A run of the class that stops at q is the whole run: the greedy quantifier takes exactly it. */
  lemma {:induction false} RunIs(s: string, p: nat, q: nat, cls: CharClass)
    requires p <= q && AllIn(s, p, q, cls)
    requires q == |s| || !InClass(s[q], cls)
    ensures Run(s, p, cls) == q - p
    decreases q - p
  {
    if p < q {
      RunIs(s, p + 1, q, cls);
    }
  }

  /** Every run of the class at p is at most the greedy run. */
  lemma RunAtLeast(s: string, p: nat, q: nat, cls: CharClass)
    requires p <= q && AllIn(s, p, q, cls)
    ensures Run(s, p, cls) >= q - p
  {
  }

  /** A class test over a slice is the same test over the index range. */
  lemma AllInSlice(s: string, lo: nat, hi: nat)
    requires lo <= hi && AllIn(s, lo, hi, Digit)
    ensures AllDigits(s[lo..hi])
  {
  }

  // ---------------------------------------------------------------------
  // String.prototype.trim

  /** Start of the run of `\s` characters that ends at b (walking backwards). */
  function TrailingSpaceStart(s: string, b: nat): (e: nat)
    requires b <= |s|
    ensures e <= b
    ensures forall k :: e <= k < b ==> IsSpace(s[k])
    ensures e == 0 || !IsSpace(s[e - 1])
  {
    if b > 0 && IsSpace(s[b - 1]) then TrailingSpaceStart(s, b - 1) else b
  }

  /**
   * String.prototype.trim: the slice of s left after removing every leading
   * and trailing `\s` character.
   */
  function Trim(s: string): (r: string)
    ensures |r| <= |s|
  {
    var a := Run(s, 0, Space);
    if a == |s| then [] else s[a..TrailingSpaceStart(s, |s|)]
  }

  /** Trim leaves alone a string that neither starts nor ends with a space. */
  lemma TrimKeeps(s: string)
    requires |s| > 0 && !IsSpace(s[0]) && !IsSpace(s[|s| - 1])
    ensures Trim(s) == s
  {
    RunIs(s, 0, 0, Space);
    assert TrailingSpaceStart(s, |s|) == |s|;
  }

  /** Trim yields the empty string exactly when s is all spaces. */
  lemma TrimEmpty(s: string)
    ensures Trim(s) == [] <==> AllSpace(s)
  {
    var a := Run(s, 0, Space);
    RunAll(s, 0, Space);
    if a == |s| {
      assert forall k :: 0 <= k < |s| ==> InClass(s[k], Space);
    } else {
      var b := TrailingSpaceStart(s, |s|);
      assert a < b;
      assert !IsSpace(s[a]);
    }
  }

  /**
   * Trim removes exactly the leading and trailing spaces: what it yields is
   * a slice of s with only spaces around it, and starts and ends with a
   * non-space.
   */
  lemma TrimSlice(s: string)
    ensures Trim(s) != [] ==> !IsSpace(Trim(s)[0]) && !IsSpace(Trim(s)[|Trim(s)| - 1])
    ensures var a := Run(s, 0, Space); var r := Trim(s);
      a + |r| <= |s| && r == s[a..a + |r|] && AllSpace(s[..a]) && AllSpace(s[a + |r|..])
  {
    var a := Run(s, 0, Space);
    RunAll(s, 0, Space);
    assert forall k :: 0 <= k < a ==> s[..a][k] == s[k];
    if a < |s| {
      var b := TrailingSpaceStart(s, |s|);
      assert a < b;
      var r := s[a..b];
      assert Trim(s) == r && r[0] == s[a] && r[|r| - 1] == s[b - 1];
      assert forall k :: 0 <= k < |s| - b ==> s[b..][k] == s[b + k];
    }
  }

  // ---------------------------------------------------------------------
  // String.prototype.split with a one-character separator, and its inverse

  /** Array.prototype.join: the parts with the separator between them. */
  function Join(parts: seq<string>, sep: char): string
    requires |parts| >= 1
  {
    if |parts| == 1 then parts[0] else parts[0] + [sep] + Join(parts[1..], sep)
  }

  /** The first index of c in s. */
  function IndexOf(s: string, c: char): (i: nat)
    requires c in s
    ensures i < |s| && s[i] == c && c !in s[..i]
  {
    if s[0] == c then 0 else 1 + IndexOf(s[1..], c)
  }

  /**
   * String.prototype.split(sep): the pieces between the separators, in order.
   * Its contract determines it: the pieces hold no separator and joining them
   * back gives s (SplitJoin proves the converse round trip).
   */
  function Split(s: string, sep: char): (r: seq<string>)
    ensures |r| >= 1
    ensures forall k :: 0 <= k < |r| ==> sep !in r[k]
    ensures Join(r, sep) == s
    decreases |s|
  {
    if sep !in s then [s]
    else
      var i := IndexOf(s, sep);
      var rest := Split(s[i + 1..], sep);
      var r := [s[..i]] + rest;
      assert r[1..] == rest;
      assert s == s[..i] + [sep] + s[i + 1..];
      r
  }

  /** The first separator after a separator-free part is right after it. */
  lemma {:induction false} IndexOfAfter(p: string, sep: char, tail: string)
    requires sep !in p
    ensures sep in p + [sep] + tail && IndexOf(p + [sep] + tail, sep) == |p|
  {
    var s := p + [sep] + tail;
    assert s[|p|] == sep;
    if p != [] {
      assert s[0] == p[0];
      assert s[1..] == p[1..] + [sep] + tail;
      IndexOfAfter(p[1..], sep, tail);
    }
  }

  /** Splitting a separator-free part, the separator and a tail: the part, then the tail's pieces. */
  lemma SplitCons(p: string, sep: char, tail: string)
    requires sep !in p
    ensures Split(p + [sep] + tail, sep) == [p] + Split(tail, sep)
  {
    var s := p + [sep] + tail;
    IndexOfAfter(p, sep, tail);
    var i := IndexOf(s, sep);
    assert s[..i] == p;
    assert s[i + 1..] == tail;
  }

  /** Splitting a joined list of separator-free pieces gives the pieces back. */
  lemma {:induction false} SplitJoin(parts: seq<string>, sep: char)
    requires |parts| >= 1
    requires forall k :: 0 <= k < |parts| ==> sep !in parts[k]
    ensures Split(Join(parts, sep), sep) == parts
    decreases |parts|
  {
    if |parts| > 1 {
      assert sep !in parts[0];
      SplitCons(parts[0], sep, Join(parts[1..], sep));
      SplitJoin(parts[1..], sep);
      assert [parts[0]] + parts[1..] == parts;
    }
  }

  // ---------------------------------------------------------------------
  // Case folding and substring search

  /** Lower-casing of one character, restricted to ASCII letters. */
  function AsciiLower(c: char): char {
    if 'A' <= c <= 'Z' then (c as int + 32) as char else c
  }

  /** String.prototype.toLowerCase on the characters that can fold to an ASCII letter. */
  function ToLower(s: string): (r: string)
    ensures |r| == |s|
    ensures forall k :: 0 <= k < |s| ==> r[k] == AsciiLower(s[k])
  {
    if s == [] then [] else [AsciiLower(s[0])] + ToLower(s[1..])
  }

  /** pat occurs in s at index i. */
  predicate OccursAt(s: string, pat: string, i: nat) {
    i + |pat| <= |s| && s[i..i + |pat|] == pat
  }

  function IncludesFrom(s: string, pat: string, i: nat): (b: bool)
    ensures b <==> exists j :: i <= j && OccursAt(s, pat, j)
    decreases |s| - i
  {
    if i + |pat| > |s| then false
    else if s[i..i + |pat|] == pat then assert OccursAt(s, pat, i); true
    else IncludesFrom(s, pat, i + 1)
  }

  /** String.prototype.includes: pat occurs somewhere in s. */
  function Includes(s: string, pat: string): (b: bool)
    ensures b <==> exists j :: OccursAt(s, pat, j)
  {
    IncludesFrom(s, pat, 0)
  }

  /** The word w (lower case) stands at index i of s, ignoring ASCII case (the `i` flag). */
  predicate WordAt(s: string, i: nat, w: string) {
    i + |w| <= |s| && forall k :: 0 <= k < |w| ==> AsciiLower(s[i + k]) == w[k]
  }

  // ---------------------------------------------------------------------
  // Decimal digit strings: parseInt, Number.prototype.toString, padStart

  function DigitValue(c: char): nat
    requires IsDigit(c)
  {
    c as int - '0' as int
  }

  function DigitChar(d: nat): (c: char)
    requires d < 10
    ensures IsDigit(c) && DigitValue(c) == d
  {
    ('0' as int + d) as char
  }

  /** parseInt(s, 10) of a string of decimal digits. */
  function DigitsValue(s: string): nat
    requires AllDigits(s)
  {
    if s == [] then 0 else DigitsValue(s[..|s| - 1]) * 10 + DigitValue(s[|s| - 1])
  }

  /**
   * Number.prototype.toString() of a natural number: its decimal digits,
   * with no leading zero.
   */
  function NatToString(n: nat): (r: string)
    ensures |r| >= 1 && AllDigits(r)
    ensures DigitsValue(r) == n
    ensures |r| > 1 ==> r[0] != '0'
    ensures n >= 10 ==> |r| >= 2
  {
    if n < 10 then [DigitChar(n)]
    else
      var r := NatToString(n / 10) + [DigitChar(n % 10)];
      assert r[..|r| - 1] == NatToString(n / 10);
      r
  }

  /** Digits that do not start with 0 spell a positive number. */
  lemma {:induction false} DigitsPositive(q: string)
    requires AllDigits(q) && |q| >= 1 && q[0] != '0'
    ensures DigitsValue(q) >= 1
    decreases |q|
  {
    if |q| > 1 {
      DigitsPositive(q[..|q| - 1]);
    }
  }

  /** toString of parseInt gives back any digit string without a leading zero. */
  lemma {:induction false} DigitsRoundTrip(q: string)
    requires AllDigits(q) && |q| >= 1 && (|q| == 1 || q[0] != '0')
    ensures NatToString(DigitsValue(q)) == q
    decreases |q|
  {
    var n := DigitsValue(q);
    var init := q[..|q| - 1];
    if |q| == 1 {
      assert init == [];
      assert DigitsValue(init) == 0;
      assert n == DigitValue(q[0]);
      assert q == [q[0]];
    } else {
      DigitsPositive(init);
      DigitsRoundTrip(init);
      assert n / 10 == DigitsValue(init) && n % 10 == DigitValue(q[|q| - 1]);
      assert q == init + [q[|q| - 1]];
    }
  }

  /** s.padStart(width, '0'): zeros in front of s up to the given width. */
  function PadStart(s: string, width: nat): (r: string)
    ensures |r| == if |s| >= width then |s| else width
    ensures r[|r| - |s|..] == s
    ensures forall k :: 0 <= k < |r| - |s| ==> r[k] == '0'
    decreases width - |s|
  {
    if |s| >= width then s
    else
      var r := PadStart(['0'] + s, width);
      assert r[|r| - |s|..] == (['0'] + s)[1..];
      r
  }

  /** A leading zero does not change the value of a digit string. */
  lemma {:induction false} LeadingZero(s: string)
    requires AllDigits(s)
    ensures AllDigits(['0'] + s) && DigitsValue(['0'] + s) == DigitsValue(s)
    decreases |s|
  {
    var z := ['0'] + s;
    if s != [] {
      assert z[..|z| - 1] == ['0'] + s[..|s| - 1];
      LeadingZero(s[..|s| - 1]);
    }
  }

  /** Padding a digit string with zeros keeps its value. */
  lemma {:induction false} PadStartValue(s: string, width: nat)
    requires AllDigits(s)
    ensures AllDigits(PadStart(s, width))
    ensures DigitsValue(PadStart(s, width)) == DigitsValue(s)
    decreases width - |s|
  {
    if |s| < width {
      LeadingZero(s);
      PadStartValue(['0'] + s, width);
    }
  }

  /** Where the parts of a + "-" + b + "-" + c lie, for a two-character b. */
  lemma JoinDashes(a: string, b: string, c: string)
    requires |b| == 2
    ensures var r := a + "-" + b + "-" + c;
      |r| == |a| + 4 + |c| && r[..|a|] == a && r[|a|] == '-' && r[|a| + 3] == '-' &&
      r[|a| + 1..|a| + 3] == b && r[|a| + 4..] == c
  {
    var u := a + "-" + b;
    var r := u + "-" + c;
    Around(a, '-', b);
    Around(u, '-', c);
    assert r[..|a|] == u[..|a|];
    assert r[|a| + 1..|a| + 3] == u[|a| + 1..];
  }

  /** The three parts of a string joined around one separator character. */
  lemma Around(a: string, c: char, b: string)
    ensures var s := a + [c] + b; |s| == |a| + 1 + |b| && s[..|a|] == a && s[|a|] == c && s[|a| + 1..] == b
  {
  }

}
