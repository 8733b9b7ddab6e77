/**
 * The regular expressions of client/src/lib/ocr.ts written out as scans.
 *
 * For each pattern, a ghost predicate `...Shape` describes every way the
 * pattern can match at a start position: one parameter per quantifier, so it
 * covers every alternative a backtracking engine may try. The matcher `...At`
 * computes the alternative the engine settles on (greedy quantifiers take the
 * most they can, the lazy name group the least), and a lemma proves that it
 * is a shape and the one the engine picks: for these patterns backtracking
 * never helps, because the character after a greedy run can never start the
 * next part of the pattern. `Match...` is String.prototype.match without the
 * g flag: the leftmost start position at which the pattern matches, with its
 * index and capture groups.
 */
module OcrPatterns {
  import opened Options
  import opened Scan
  import opened JsString
  import opened JsNumber

  /** `.{m}` matches at i: m characters, none of them a line terminator. */
  predicate Dots(s: string, i: nat, m: nat) {
    i + m <= |s| && forall j :: i <= j < i + m ==> !IsLineTerminator(s[j])
  }

  // ---------------------------------------------------------------------
  // Date: /(\d{1,2})[\/\-](\d{1,2})[\/\-](\d{2,4})/

  predicate IsDateSep(c: char) {
    c == '/' || c == '-'
  }

  /** The date pattern matches at i with groups of a, b and c digits. */
  ghost predicate DateShape(s: string, i: nat, a: nat, b: nat, c: nat) {
    1 <= a <= 2 && 1 <= b <= 2 && 2 <= c <= 4 && i + a + b + c + 2 <= |s| &&
    AllIn(s, i, i + a, Digit) && IsDateSep(s[i + a]) &&
    AllIn(s, i + a + 1, i + a + 1 + b, Digit) && IsDateSep(s[i + a + 1 + b]) &&
    AllIn(s, i + a + b + 2, i + a + b + 2 + c, Digit)
  }

  datatype DateSpan = DateSpan(a: nat, b: nat, c: nat)

  /** The date pattern at i: the group lengths the engine settles on. */
  function DateAt(s: string, i: nat): Option<DateSpan> {
    var a := Min(2, Run(s, i, Digit));
    if a == 0 || i + a >= |s| || !IsDateSep(s[i + a]) then None
    else
      var j := i + a + 1;
      var b := Min(2, Run(s, j, Digit));
      if b == 0 || j + b >= |s| || !IsDateSep(s[j + b]) then None
      else
        var c := Min(4, Run(s, j + b + 1, Digit));
        if c < 2 then None else Some(DateSpan(a, b, c))
  }

  /** DateAt from the three digit runs and the two separators around them. */
  lemma DateAtIs(s: string, i: nat, a: nat, b: nat, c: nat)
    requires 1 <= a <= 2 && Run(s, i, Digit) == a && i + a < |s| && IsDateSep(s[i + a])
    requires 1 <= b <= 2 && Run(s, i + a + 1, Digit) == b && i + a + 1 + b < |s| && IsDateSep(s[i + a + 1 + b])
    requires 2 <= c <= 4 && Min(4, Run(s, i + a + b + 2, Digit)) == c
    ensures DateAt(s, i) == Some(DateSpan(a, b, c))
  {
  }

  /** Whatever DateAt finds is a match of the date pattern. */
  lemma DateAtSound(s: string, i: nat)
    ensures DateAt(s, i).Some? ==>
      var sp := DateAt(s, i).value;
      DateShape(s, i, sp.a, sp.b, sp.c)
  {
    if DateAt(s, i).Some? {
      var sp := DateAt(s, i).value;
      var j := i + sp.a + 1;
      var y := j + sp.b + 1;
      assert sp.a <= Run(s, i, Digit) && sp.b <= Run(s, j, Digit) && sp.c <= Run(s, y, Digit);
      RunPrefix(s, i, sp.a, Digit);
      RunPrefix(s, j, sp.b, Digit);
      RunPrefix(s, y, sp.c, Digit);
    }
  }

  /**
   * Whenever the date pattern can match at i, DateAt finds the match the
   * engine returns: the month and day groups are forced (a separator is not a
   * digit) and the year group is the longest, as the greedy `\d{2,4}` tries 4
   * digits first.
   */
  lemma DateAtIsEngineMatch(s: string, i: nat, a: nat, b: nat, c: nat)
    requires DateShape(s, i, a, b, c)
    ensures DateAt(s, i).Some?
    ensures DateAt(s, i).value.a == a && DateAt(s, i).value.b == b && DateAt(s, i).value.c >= c
  {
    RunIs(s, i, i + a, Digit);
    var j := i + a + 1;
    RunIs(s, j, j + b, Digit);
    RunAtLeast(s, j + b + 1, j + b + 1 + c, Digit);
    DateAtIs(s, i, a, b, Min(4, Run(s, j + b + 1, Digit)));
  }

  lemma DateAtShape(s: string, i: nat, sp: DateSpan)
    requires DateAt(s, i) == Some(sp)
    ensures DateShape(s, i, sp.a, sp.b, sp.c)
  {
    DateAtSound(s, i);
  }

  /** The three digit groups of a date match, as strings of digits. */
  lemma DateGroups(s: string, i: nat, a: nat, b: nat, c: nat)
    requires DateShape(s, i, a, b, c)
    ensures i + a + b + c + 2 <= |s|
    ensures AllDigits(s[i..i + a]) && AllDigits(s[i + a + 1..i + a + 1 + b])
    ensures AllDigits(s[i + a + b + 2..i + a + b + 2 + c])
  {
    AllInSlice(s, i, i + a);
    AllInSlice(s, i + a + 1, i + a + 1 + b);
    AllInSlice(s, i + a + b + 2, i + a + b + 2 + c);
  }

  /** DateAt at every start position of s. */
  function DateProbe(s: string): (f: nat -> Option<DateSpan>)
    ensures forall i: nat :: f(i) == DateAt(s, i)
  {
    (i: nat) => DateAt(s, i)
  }

  /** The result of `line.match(datePattern)`: the index and the three groups. */
  datatype DateMatch = DateMatch(index: nat, month: string, day: string, year: string)

  /**
   * The groups of m are the text of s at m.index: the month, a separator,
   * the day, a separator and the year.
   */
  predicate IsDateTextAt(s: string, m: DateMatch) {
    m.index + |m.month| + |m.day| + |m.year| + 2 <= |s| &&
    m.month == s[m.index..m.index + |m.month|] &&
    m.day == s[m.index + |m.month| + 1..m.index + |m.month| + 1 + |m.day|] &&
    m.year == s[m.index + |m.month| + |m.day| + 2..m.index + |m.month| + |m.day| + 2 + |m.year|]
  }

  function MatchDate(s: string): (r: Option<DateMatch>)
    ensures r.Some? ==> 1 <= |r.value.month| <= 2 && AllDigits(r.value.month)
    ensures r.Some? ==> 1 <= |r.value.day| <= 2 && AllDigits(r.value.day)
    ensures r.Some? ==> 2 <= |r.value.year| <= 4 && AllDigits(r.value.year)
    ensures r.Some? ==> IsDateTextAt(s, r.value)
  {
    DateMatchOf(s, First(DateProbe(s), 0, |s| + 1))
  }

  /** The match read off the position First found, if any: the index and the three groups. */
  function DateMatchOf(s: string, found: Option<(nat, DateSpan)>): (r: Option<DateMatch>)
    requires found.Some? ==> DateAt(s, found.value.0) == Some(found.value.1)
    ensures r.Some? ==> 1 <= |r.value.month| <= 2 && AllDigits(r.value.month)
    ensures r.Some? ==> 1 <= |r.value.day| <= 2 && AllDigits(r.value.day)
    ensures r.Some? ==> 2 <= |r.value.year| <= 4 && AllDigits(r.value.year)
    ensures r.Some? == found.Some? && (r.Some? ==> r.value.index == found.value.0)
    ensures r.Some? ==> IsDateTextAt(s, r.value)
  {
    match found
    case None => None
    case Some((i, sp)) =>
      DateAtGroups(s, i, sp);
      Some(DateMatch(i, s[i..i + sp.a], s[i + sp.a + 1..i + sp.a + 1 + sp.b], s[i + sp.a + sp.b + 2..i + sp.a + sp.b + 2 + sp.c]))
  }

  /** The three groups DateAt settles on lie in s and are digits. */
  lemma DateAtGroups(s: string, i: nat, sp: DateSpan)
    requires DateAt(s, i) == Some(sp)
    ensures 1 <= sp.a <= 2 && 1 <= sp.b <= 2 && 2 <= sp.c <= 4 && i + sp.a + sp.b + sp.c + 2 <= |s|
    ensures AllDigits(s[i..i + sp.a]) && AllDigits(s[i + sp.a + 1..i + sp.a + 1 + sp.b])
    ensures AllDigits(s[i + sp.a + sp.b + 2..i + sp.a + sp.b + 2 + sp.c])
  {
    DateAtShape(s, i, sp);
    DateGroups(s, i, sp.a, sp.b, sp.c);
  }

  /** Where First found the date pattern: the first position DateAt accepts. */
  lemma FoundDate(s: string) returns (i: nat, sp: DateSpan)
    requires MatchDate(s).Some?
    ensures DateAt(s, i) == Some(sp) && forall j: nat :: j < i ==> DateAt(s, j).None?
    ensures MatchDate(s) == DateMatchOf(s, Some((i, sp)))
  {
    var f := First(DateProbe(s), 0, |s| + 1);
    i, sp := f.value.0, f.value.1;
  }

  /** Where DateAt finds nothing, the date pattern cannot match. */
  lemma NoDateBefore(s: string, hi: nat)
    requires forall j: nat :: j < hi ==> DateAt(s, j).None?
    ensures forall j: nat, a: nat, b: nat, c: nat :: j < hi ==> !DateShape(s, j, a, b, c)
  {
    forall j: nat, a: nat, b: nat, c: nat | j < hi && DateShape(s, j, a, b, c) ensures false {
      DateAtIsEngineMatch(s, j, a, b, c);
    }
  }

  /** A line with no `/` and no `-` holds no date. */
  lemma NoDateWithoutSeparator(s: string)
    requires '/' !in s && '-' !in s
    ensures MatchDate(s).None?
  {
    forall i: nat | i <= |s| ensures DateProbe(s)(i).None? {
      var a := Min(2, Run(s, i, Digit));
      if a != 0 && i + a < |s| {
        assert s[i + a] in s;
      }
    }
    FirstNone(DateProbe(s), 0, |s| + 1);
  }

  /** MatchDate finds nothing exactly when the date pattern matches nowhere in s. */
  lemma MatchDateNone(s: string)
    ensures MatchDate(s).None? <==> forall i: nat, a: nat, b: nat, c: nat :: !DateShape(s, i, a, b, c)
  {
    var f := First(DateProbe(s), 0, |s| + 1);
    if f.None? {
      NoDateBefore(s, |s| + 1);
    } else {
      var sp := f.value.1;
      assert DateAt(s, f.value.0) == Some(sp);
      DateAtSound(s, f.value.0);
      assert DateShape(s, f.value.0, sp.a, sp.b, sp.c);
    }
  }

  /**
   * A match MatchDate finds is the leftmost: the pattern matches at its
   * index with groups of the returned lengths, and nowhere before it.
   */
  lemma MatchDateIsLeftmost(s: string, m: DateMatch)
    requires MatchDate(s) == Some(m)
    ensures DateShape(s, m.index, |m.month|, |m.day|, |m.year|)
    ensures forall i: nat, a: nat, b: nat, c: nat :: i < m.index ==> !DateShape(s, i, a, b, c)
  {
    var i, sp := FoundDate(s);
    assert m.index == i && |m.month| == sp.a && |m.day| == sp.b && |m.year| == sp.c;
    DateAtShape(s, i, sp);
    NoDateBefore(s, i);
  }

  /**
   * At the index of MatchDate the month and day groups are forced and the
   * year group is the longest the pattern allows there.
   */
  lemma MatchDateIsGreedy(s: string, m: DateMatch)
    requires MatchDate(s) == Some(m)
    ensures forall a: nat, b: nat, c: nat :: DateShape(s, m.index, a, b, c) ==>
      a == |m.month| && b == |m.day| && c <= |m.year|
  {
    var f := First(DateProbe(s), 0, |s| + 1);
    var sp := f.value.1;
    assert m.index == f.value.0;
    assert DateAt(s, m.index) == Some(sp);
    assert |m.month| == sp.a && |m.day| == sp.b && |m.year| == sp.c;
    forall a: nat, b: nat, c: nat | DateShape(s, m.index, a, b, c) ensures a == sp.a && b == sp.b && c <= sp.c {
      DateAtIsEngineMatch(s, m.index, a, b, c);
    }
  }

  // ---------------------------------------------------------------------
  // Time: /(\d{1,2}):(\d{2})\s*(AM|PM)?/i

  /** The mandatory part `(\d{1,2}):(\d{2})` matches at i with an hour group of h digits. */
  ghost predicate TimeShape(s: string, i: nat, h: nat) {
    1 <= h <= 2 && i + h + 3 <= |s| && AllIn(s, i, i + h, Digit) && s[i + h] == ':' &&
    IsDigit(s[i + h + 1]) && IsDigit(s[i + h + 2])
  }

  /** The length of the hour group the engine settles on at i. */
  function TimeAt(s: string, i: nat): Option<nat> {
    var h := Min(2, Run(s, i, Digit));
    if h >= 1 && i + h + 3 <= |s| && s[i + h] == ':' && IsDigit(s[i + h + 1]) && IsDigit(s[i + h + 2]) then
      Some(h)
    else None
  }

  /** Whatever TimeAt finds is a match of the time pattern. */
  lemma TimeAtSound(s: string, i: nat)
    ensures TimeAt(s, i).Some? ==> TimeShape(s, i, TimeAt(s, i).value)
  {
    RunAll(s, i, Digit);
  }

  /** The hour and minute groups of a time found at i are digits. */
  lemma TimeGroups(s: string, i: nat, h: nat)
    requires TimeAt(s, i) == Some(h)
    ensures 1 <= h <= 2 && i + h + 3 <= |s|
    ensures AllDigits(s[i..i + h]) && AllDigits(s[i + h + 1..i + h + 3])
  {
    TimeAtSound(s, i);
    AllInSlice(s, i, i + h);
    var mm := s[i + h + 1..i + h + 3];
    assert mm[0] == s[i + h + 1] && mm[1] == s[i + h + 2];
  }

  /** The hour group at i is forced: a colon is not a digit. */
  lemma TimeAtIsEngineMatch(s: string, i: nat, h: nat)
    requires TimeShape(s, i, h)
    ensures TimeAt(s, i) == Some(h)
  {
    RunIs(s, i, i + h, Digit);
  }

  datatype Meridiem = NoMeridiem | Am | Pm

  /**
   * `(AM|PM)?` at p, ignoring ASCII case. The optional group comes after the
   * greedy `\s*`, which has taken every space, so the engine never needs to
   * give a space back.
   */
  function MeridiemAt(s: string, p: nat): Meridiem {
    if WordAt(s, p, "am") then Am else if WordAt(s, p, "pm") then Pm else NoMeridiem
  }

  /** TimeAt at every start position of s. */
  function TimeProbe(s: string): (f: nat -> Option<nat>)
    ensures forall i: nat :: f(i) == TimeAt(s, i)
  {
    (i: nat) => TimeAt(s, i)
  }

  /** The result of `line.match(timePattern)`. */
  datatype TimeMatch = TimeMatch(index: nat, hours: string, minutes: string, meridiem: Meridiem)

  function MatchTime(s: string): (r: Option<TimeMatch>)
    ensures r.Some? ==> 1 <= |r.value.hours| <= 2 && AllDigits(r.value.hours)
    ensures r.Some? ==> |r.value.minutes| == 2 && AllDigits(r.value.minutes)
  {
    TimeMatchOf(s, First(TimeProbe(s), 0, |s| + 1))
  }

  /** The match read off the position TimeAt accepts, if any: the index, the two groups and the meridiem. */
  function TimeMatchOf(s: string, found: Option<(nat, nat)>): (r: Option<TimeMatch>)
    requires found.Some? ==> TimeAt(s, found.value.0) == Some(found.value.1)
    ensures r.Some? ==> 1 <= |r.value.hours| <= 2 && AllDigits(r.value.hours)
    ensures r.Some? ==> |r.value.minutes| == 2 && AllDigits(r.value.minutes)
  {
    match found
    case None => None
    case Some((i, h)) =>
      TimeGroups(s, i, h);
      Some(TimeMatch(i, s[i..i + h], s[i + h + 1..i + h + 3], MeridiemAfter(s, i + h + 3)))
  }

  /** The meridiem read after the minutes and any spaces. */
  function MeridiemAfter(s: string, m: nat): Meridiem {
    MeridiemAt(s, m + Run(s, m, Space))
  }

  /** Where the time pattern first matches, the groups are the text there. */
  lemma MatchTimeIs(s: string, i: nat, h: nat)
    requires TimeAt(s, i) == Some(h)
    requires forall j: nat :: j < i ==> TimeAt(s, j).None?
    ensures i + h + 3 <= |s|
    ensures MatchTime(s) == Some(TimeMatch(i, s[i..i + h], s[i + h + 1..i + h + 3], MeridiemAfter(s, i + h + 3)))
  {
    TimeGroups(s, i, h);
    FirstAt(TimeProbe(s), 0, |s| + 1, i);
    MatchTimeFound(s, i, h);
    MatchTimeFirst(s, i, h);
  }

  lemma MatchTimeFound(s: string, i: nat, h: nat)
    requires First(TimeProbe(s), 0, |s| + 1) == Some((i, h))
    ensures MatchTime(s) == TimeMatchOf(s, Some((i, h)))
  {
  }

  lemma MatchTimeFirst(s: string, i: nat, h: nat)
    requires TimeAt(s, i) == Some(h) && i + h + 3 <= |s|
    ensures TimeMatchOf(s, Some((i, h))) == Some(TimeMatch(i, s[i..i + h], s[i + h + 1..i + h + 3], MeridiemAfter(s, i + h + 3)))
  {
  }

  /** The time pattern cannot start two or more places before the first colon. */
  lemma NoTimeBeforeColon(s: string, c: nat)
    requires c <= |s| && ':' !in s[..c]
    ensures forall j: nat :: j + 2 < c ==> TimeAt(s, j).None?
  {
    forall j: nat | j + 2 < c ensures TimeAt(s, j).None? {
      var h := Min(2, Run(s, j, Digit));
      if h >= 1 && j + h < |s| {
        assert s[j + h] == s[..c][j + h];
      }
    }
  }

  lemma NoTimeBefore(s: string, hi: nat)
    requires forall j: nat :: j < hi ==> TimeAt(s, j).None?
    ensures forall j: nat, h: nat :: j < hi ==> !TimeShape(s, j, h)
  {
    forall j: nat, h: nat | j < hi && TimeShape(s, j, h) ensures false {
      TimeAtIsEngineMatch(s, j, h);
    }
  }

  /** MatchTime finds nothing exactly when the time pattern matches nowhere in s. */
  lemma MatchTimeNone(s: string)
    ensures MatchTime(s).None? <==> forall i: nat, h: nat :: !TimeShape(s, i, h)
  {
    var f := First(TimeProbe(s), 0, |s| + 1);
    if f.None? {
      NoTimeBefore(s, |s| + 1);
    } else {
      assert TimeAt(s, f.value.0) == Some(f.value.1);
      TimeAtSound(s, f.value.0);
      assert TimeShape(s, f.value.0, f.value.1);
    }
  }

  /**
   * A match MatchTime finds is the leftmost, and its hour and minute groups
   * are the digits the engine captures there.
   */
  lemma MatchTimeIsLeftmost(s: string, m: TimeMatch)
    requires MatchTime(s) == Some(m)
    ensures TimeShape(s, m.index, |m.hours|)
    ensures m.hours == s[m.index..m.index + |m.hours|]
    ensures m.minutes == s[m.index + |m.hours| + 1..m.index + |m.hours| + 3]
    ensures forall i: nat, h: nat :: i < m.index ==> !TimeShape(s, i, h)
  {
    var f := First(TimeProbe(s), 0, |s| + 1);
    assert m.index == f.value.0;
    assert TimeAt(s, m.index) == Some(f.value.1);
    assert |m.hours| == f.value.1;
    TimeAtSound(s, m.index);
    NoTimeBefore(s, m.index);
  }

  // ---------------------------------------------------------------------
  // Labelled total: /(?:total|amount|sum)[:\s]*\$?(\d+\.?\d*)/i

  /**
   * The pattern matches at i through the first digit of its number group:
   * the label alternative of w letters, k characters of `[:\s]`, d dollar
   * signs (0 or 1), then a digit.
   */
  ghost predicate TotalShape(s: string, i: nat, w: nat, k: nat, d: nat) {
    ((w == 5 && WordAt(s, i, "total")) || (w == 6 && WordAt(s, i, "amount")) ||
     (w == 3 && WordAt(s, i, "sum"))) &&
    d <= 1 && i + w + k + d < |s| &&
    AllIn(s, i + w, i + w + k, ColonOrSpace) &&
    (d == 1 ==> s[i + w + k] == '$') && IsDigit(s[i + w + k + d])
  }

  /** The length of the label alternative that matches at i, ignoring ASCII case; 0 if none. */
  function LabelLength(s: string, i: nat): nat {
    if WordAt(s, i, "total") then 5
    else if WordAt(s, i, "amount") then 6
    else if WordAt(s, i, "sum") then 3
    else 0
  }

  lemma LabelInitial(s: string, i: nat, w: string)
    requires |w| > 0
    ensures WordAt(s, i, w) ==> i < |s| && AsciiLower(s[i]) == w[0]
  {
    if WordAt(s, i, w) {
      assert AsciiLower(s[i + 0]) == w[0];
    }
  }

  datatype TotalSpan = TotalSpan(w: nat, k: nat, d: nat)

  function TotalAt(s: string, i: nat): Option<TotalSpan> {
    var w := LabelLength(s, i);
    if w == 0 then None
    else
      var p := i + w;
      var k := Run(s, p, ColonOrSpace);
      var q := p + k;
      var d := if q < |s| && s[q] == '$' then 1 else 0;
      if q + d < |s| && IsDigit(s[q + d]) then Some(TotalSpan(w, k, d)) else None
  }

  /** Whatever TotalAt finds is a match of the labelled-total pattern. */
  lemma TotalAtSound(s: string, i: nat)
    ensures TotalAt(s, i).Some? ==>
      var sp := TotalAt(s, i).value;
      TotalShape(s, i, sp.w, sp.k, sp.d)
  {
    RunAll(s, i + LabelLength(s, i), ColonOrSpace);
  }

  /**
   * At most one way to match: the labels start with different letters, the
   * greedy `[:\s]*` must take the whole run (a colon or space is neither `$`
   * nor a digit), and the `$` is taken exactly when it is there.
   */
  lemma TotalAtIsEngineMatch(s: string, i: nat, w: nat, k: nat, d: nat)
    requires TotalShape(s, i, w, k, d)
    ensures TotalAt(s, i) == Some(TotalSpan(w, k, d))
  {
    LabelInitial(s, i, "total");
    LabelInitial(s, i, "amount");
    LabelInitial(s, i, "sum");
    assert LabelLength(s, i) == w;
    RunIs(s, i + w, i + w + k, ColonOrSpace);
  }

  /** TotalAt at every start position of s. */
  function TotalProbe(s: string): (f: nat -> Option<TotalSpan>)
    ensures forall i: nat :: f(i) == TotalAt(s, i)
  {
    (i: nat) => TotalAt(s, i)
  }

  /** The result of `line.match(totalPattern)`: the index and the number group. */
  datatype TotalMatch = TotalMatch(index: nat, number: string)

  function MatchTotal(s: string): (r: Option<TotalMatch>)
    ensures r.Some? ==> IsNumeral(r.value.number)
  {
    match First(TotalProbe(s), 0, |s| + 1)
    case None => None
    case Some((i, sp)) =>
      var n := i + sp.w + sp.k + sp.d;
      TotalAtSound(s, i);
      NumeralEndIsNumeral(s, n);
      Some(TotalMatch(i, s[n..NumeralEnd(s, n)]))
  }

  /** A line with none of the letters t, a, s in either case holds no labelled total. */
  lemma NoTotalWithoutLabel(s: string)
    requires 't' !in s && 'T' !in s && 'a' !in s && 'A' !in s && 's' !in s && 'S' !in s
    ensures MatchTotal(s).None?
  {
    forall i: nat | i <= |s| ensures TotalProbe(s)(i).None? {
      LabelInitial(s, i, "total");
      LabelInitial(s, i, "amount");
      LabelInitial(s, i, "sum");
      if i < |s| {
        assert s[i] in s;
      }
    }
    FirstNone(TotalProbe(s), 0, |s| + 1);
  }

  lemma NoTotalBefore(s: string, hi: nat)
    requires forall j: nat :: j < hi ==> TotalAt(s, j).None?
    ensures forall j: nat, w: nat, k: nat, d: nat :: j < hi ==> !TotalShape(s, j, w, k, d)
  {
    forall j: nat, w: nat, k: nat, d: nat | j < hi && TotalShape(s, j, w, k, d) ensures false {
      TotalAtIsEngineMatch(s, j, w, k, d);
    }
  }

  /** MatchTotal finds nothing exactly when the labelled-total pattern matches nowhere in s. */
  lemma MatchTotalNone(s: string)
    ensures MatchTotal(s).None? <==> forall i: nat, w: nat, k: nat, d: nat :: !TotalShape(s, i, w, k, d)
  {
    var f := First(TotalProbe(s), 0, |s| + 1);
    if f.None? {
      NoTotalBefore(s, |s| + 1);
    } else {
      var sp := f.value.1;
      assert TotalAt(s, f.value.0) == Some(sp);
      TotalAtSound(s, f.value.0);
      assert TotalShape(s, f.value.0, sp.w, sp.k, sp.d);
    }
  }

  /**
   * A match MatchTotal finds is the leftmost; its number group is the
   * longest numeral after the label, the `[:\s]` run and the optional `$`.
   */
  lemma MatchTotalIsLeftmost(s: string, m: TotalMatch)
    requires MatchTotal(s) == Some(m)
    ensures TotalAt(s, m.index).Some?
    ensures var sp := TotalAt(s, m.index).value;
      var n := m.index + sp.w + sp.k + sp.d;
      TotalShape(s, m.index, sp.w, sp.k, sp.d) && m.number == s[n..NumeralEnd(s, n)]
    ensures forall i: nat, w: nat, k: nat, d: nat :: i < m.index ==> !TotalShape(s, i, w, k, d)
  {
    var f := First(TotalProbe(s), 0, |s| + 1);
    assert m.index == f.value.0;
    assert TotalAt(s, m.index) == Some(f.value.1);
    TotalAtSound(s, m.index);
    NoTotalBefore(s, m.index);
  }

  // ---------------------------------------------------------------------
  // Price: /\$(\d+\.?\d*)/

  function PriceAt(s: string, i: nat): Option<nat> {
    if i + 1 < |s| && s[i] == '$' && IsDigit(s[i + 1]) then Some(i + 1) else None
  }

  /** PriceAt at every start position of s. */
  function PriceProbe(s: string): (f: nat -> Option<nat>)
    ensures forall i: nat :: f(i) == PriceAt(s, i)
  {
    (i: nat) => PriceAt(s, i)
  }

  /** The result of `line.match(pricePattern)`: the index of the `$` and the number group. */
  datatype PriceMatch = PriceMatch(index: nat, number: string)

  function MatchPrice(s: string): (r: Option<PriceMatch>)
    ensures r.Some? ==> IsNumeral(r.value.number)
    ensures r.Some? ==> r.value.index + 1 + |r.value.number| <= |s|
    ensures r.Some? ==> s[r.value.index] == '$' && s[r.value.index + 1..r.value.index + 1 + |r.value.number|] == r.value.number
  {
    match First(PriceProbe(s), 0, |s| + 1)
    case None => None
    case Some((i, n)) =>
      NumeralEndIsNumeral(s, n);
      Some(PriceMatch(i, s[n..NumeralEnd(s, n)]))
  }

  /** The price pattern matches at the first `$` that a digit follows, and not before. */
  lemma MatchPriceIsLeftmost(s: string, m: PriceMatch)
    requires MatchPrice(s) == Some(m)
    ensures PriceAt(s, m.index) == Some(m.index + 1)
    ensures forall j: nat :: j < m.index ==> PriceAt(s, j).None?
    ensures m.index + 1 < |s| && IsDigit(s[m.index + 1])
    ensures m.number == s[m.index + 1..NumeralEnd(s, m.index + 1)]
  {
    var f := First(PriceProbe(s), 0, |s| + 1);
    assert f.value.0 == m.index;
  }

  /** The price pattern fails exactly when no `$` is followed by a digit. */
  lemma MatchPriceNone(s: string)
    ensures MatchPrice(s).None? <==> forall j: nat :: PriceAt(s, j).None?
  {
    var f := First(PriceProbe(s), 0, |s| + 1);
    if f.None? {
      forall j: nat ensures PriceAt(s, j).None? {
        if j <= |s| {
          assert PriceProbe(s)(j).None?;
        }
      }
    }
  }

  // ---------------------------------------------------------------------
  // Item line: /(.+?)\s+(\d+\.?\d*)\s*\$(\d+\.?\d*)/

  /**
   * What follows the name, `\s+(\d+\.?\d*)\s*\$` and the first digit of the
   * price, matches at p: w spaces, a quantity numeral ending at e, w2 spaces,
   * the `$` and a digit.
   */
  ghost predicate TailShape(s: string, p: nat, w: nat, e: nat, w2: nat) {
    w >= 1 && p + w < e <= |s| && AllIn(s, p, p + w, Space) &&
    IsNumeral(s[p + w..e]) &&
    e + w2 + 1 < |s| && AllIn(s, e, e + w2, Space) &&
    s[e + w2] == '$' && IsDigit(s[e + w2 + 1])
  }

  datatype TailSpan = TailSpan(w: nat, e: nat, w2: nat)

  /** `\s+(\d+\.?\d*)` at p: the end of the quantity numeral after at least one space. */
  function QuantityEnd(s: string, p: nat): Option<nat> {
    var w := Run(s, p, Space);
    if w == 0 || p + w >= |s| || !IsDigit(s[p + w]) then None else Some(NumeralEnd(s, p + w))
  }

  /** `\s*\$\d` at e: the number of spaces before the `$`. */
  function DollarAfter(s: string, e: nat): Option<nat> {
    var w2 := Run(s, e, Space);
    if e + w2 + 1 < |s| && s[e + w2] == '$' && IsDigit(s[e + w2 + 1]) then Some(w2) else None
  }

  /** The tail at p: the spans the engine settles on. */
  function TailAt(s: string, p: nat): Option<TailSpan> {
    match QuantityEnd(s, p)
    case None => None
    case Some(e) =>
      match DollarAfter(s, e)
      case None => None
      case Some(w2) => Some(TailSpan(Run(s, p, Space), e, w2))
  }

  /** TailAt from its three parts. */
  lemma TailAtIs(s: string, p: nat, w: nat, e: nat, w2: nat)
    requires Run(s, p, Space) == w && QuantityEnd(s, p) == Some(e) && DollarAfter(s, e) == Some(w2)
    ensures TailAt(s, p) == Some(TailSpan(w, e, w2))
  {
  }

  /** Whatever TailAt finds is a tail. */
  lemma TailAtSound(s: string, p: nat)
    ensures TailAt(s, p).Some? ==>
      var t := TailAt(s, p).value;
      TailShape(s, p, t.w, t.e, t.w2)
  {
    var w := Run(s, p, Space);
    RunAll(s, p, Space);
    if TailAt(s, p).Some? {
      var e := QuantityEnd(s, p).value;
      NumeralEndIsNumeral(s, p + w);
      RunAll(s, e, Space);
    }
  }

  lemma QuantityEndIs(s: string, p: nat, w: nat, e: nat)
    requires Run(s, p, Space) == w && w > 0 && p + w < |s| && IsDigit(s[p + w])
    requires NumeralEnd(s, p + w) == e
    ensures QuantityEnd(s, p) == Some(e)
  {
  }

  lemma DollarAfterIs(s: string, e: nat, w2: nat)
    requires Run(s, e, Space) == w2
    requires e + w2 + 1 < |s| && s[e + w2] == '$' && IsDigit(s[e + w2 + 1])
    ensures DollarAfter(s, e) == Some(w2)
  {
  }

  /** The tail starts with a space, so no tail starts at any other character. */
  lemma NoTailWithoutSpace(s: string, p: nat)
    requires p < |s| && !IsSpace(s[p])
    ensures TailAt(s, p).None?
  {
    RunIs(s, p, p, Space);
  }

  /**
   * The tail matches in at most one way: the spaces before the quantity and
   * before the `$` are whole runs, and the quantity is the longest numeral,
   * since a space or the `$` follows it.
   */
  lemma TailAtIsEngineMatch(s: string, p: nat, w: nat, e: nat, w2: nat)
    requires TailShape(s, p, w, e, w2)
    ensures TailAt(s, p) == Some(TailSpan(w, e, w2))
  {
    var q := p + w;
    RunIs(s, p, q, Space);
    assert IsSpace(s[e]) || s[e] == '$';
    NumeralEndAt(s, q, e);
    QuantityEndIs(s, p, w, e);
    RunIs(s, e, e + w2, Space);
    DollarAfterIs(s, e, w2);
  }

  /** TailAt at every position of s. */
  function TailProbe(s: string): (f: nat -> Option<TailSpan>)
    ensures forall p: nat :: f(p) == TailAt(s, p)
  {
    (p: nat) => TailAt(s, p)
  }

  /**
   * The lazy `.+?` at i followed by the rest of a pattern: name lengths n,
   * n+1, ... are tried until rest matches after the name; the name cannot
   * run past a line terminator or the end of s.
   */
  function LazyName(s: string, i: nat, n: nat, rest: nat -> Option<TailSpan>): Option<(nat, TailSpan)>
    requires n >= 1
    decreases |s| - i - n
  {
    if i + n > |s| || IsLineTerminator(s[i + n - 1]) then None
    else match rest(i + n)
      case Some(t) => Some((n, t))
      case None => LazyName(s, i, n + 1, rest)
  }

  /** The lazy name `(.+?)` at i, followed by the item tail. */
  function LazyItemAt(s: string, i: nat, n: nat): Option<(nat, TailSpan)>
    requires n >= 1
    decreases |s| - i - n
  {
    if i + n > |s| || IsLineTerminator(s[i + n - 1]) then None
    else match TailAt(s, i + n)
      case Some(t) => Some((n, t))
      case None => LazyItemAt(s, i, n + 1)
  }

  /** LazyItemAt is LazyName with the item tail as the rest of the pattern. */
  lemma {:induction false} LazyItemAtIsLazyName(s: string, i: nat, n: nat)
    requires n >= 1
    ensures LazyItemAt(s, i, n) == LazyName(s, i, n, TailProbe(s))
    decreases |s| - i - n
  {
    if i + n <= |s| && !IsLineTerminator(s[i + n - 1]) {
      assert TailProbe(s)(i + n) == TailAt(s, i + n);
      if TailAt(s, i + n).None? {
        LazyItemAtIsLazyName(s, i, n + 1);
      }
    }
  }

  /** A name LazyName settles on is made of non-terminators and rest matches after it. */
  lemma {:induction false} LazyNameSound(s: string, i: nat, n: nat, rest: nat -> Option<TailSpan>)
    requires n >= 1 && Dots(s, i, n - 1)
    ensures LazyName(s, i, n, rest).Some? ==>
      var (m, t) := LazyName(s, i, n, rest).value;
      n <= m && Dots(s, i, m) && rest(i + m) == Some(t)
    decreases |s| - i - n
  {
    if i + n <= |s| && !IsLineTerminator(s[i + n - 1]) {
      DotsStep(s, i, n);
      if rest(i + n).None? {
        LazyNameSound(s, i, n + 1, rest);
      }
    }
  }

  /** One more character that is not a line terminator extends a `.{n}` match. */
  lemma DotsStep(s: string, i: nat, n: nat)
    requires n >= 1 && Dots(s, i, n - 1) && i + n <= |s| && !IsLineTerminator(s[i + n - 1])
    ensures Dots(s, i, n)
  {
  }

  /** No shorter name from n on is followed by a match of rest. */
  lemma {:induction false} LazyNameShortest(s: string, i: nat, n: nat, rest: nat -> Option<TailSpan>)
    requires n >= 1
    ensures LazyName(s, i, n, rest).Some? ==>
      forall q :: i + n <= q < i + LazyName(s, i, n, rest).value.0 ==> rest(q).None?
    decreases |s| - i - n
  {
    if i + n <= |s| && !IsLineTerminator(s[i + n - 1]) && rest(i + n).None? {
      LazyNameShortest(s, i, n + 1, rest);
    }
  }

  /** When LazyName finds nothing, rest matches after no name of length n or more. */
  lemma {:induction false} LazyNameNone(s: string, i: nat, n: nat, rest: nat -> Option<TailSpan>)
    requires n >= 1
    ensures LazyName(s, i, n, rest).None? ==>
      forall q :: i + n <= q && Dots(s, i, q - i) ==> rest(q).None?
    decreases |s| - i - n
  {
    if i + n <= |s| && !IsLineTerminator(s[i + n - 1]) && rest(i + n).None? {
      LazyNameNone(s, i, n + 1, rest);
    }
  }

  /** A name LazyItemAt settles on is made of non-terminators and a tail follows it. */
  lemma LazyItemAtSound(s: string, i: nat, n: nat)
    requires n >= 1 && Dots(s, i, n - 1)
    ensures LazyItemAt(s, i, n).Some? ==>
      var (m, t) := LazyItemAt(s, i, n).value;
      n <= m && Dots(s, i, m) && TailAt(s, i + m) == Some(t)
  {
    var f := TailProbe(s);
    LazyItemAtIsLazyName(s, i, n);
    LazyNameSound(s, i, n, f);
    var r := LazyName(s, i, n, f);
    if r.Some? {
      assert f(i + r.value.0) == TailAt(s, i + r.value.0);
    }
  }

  /** No shorter name from n on is followed by a tail. */
  lemma LazyItemAtShortest(s: string, i: nat, n: nat)
    requires n >= 1
    ensures LazyItemAt(s, i, n).Some? ==>
      forall q :: i + n <= q < i + LazyItemAt(s, i, n).value.0 ==> TailAt(s, q).None?
  {
    LazyItemAtIsLazyName(s, i, n);
    LazyNameShortest(s, i, n, TailProbe(s));
  }

  /** When LazyItemAt finds nothing, no name of length n or more is followed by a tail. */
  lemma LazyItemAtNone(s: string, i: nat, n: nat)
    requires n >= 1
    ensures LazyItemAt(s, i, n).None? ==>
      forall q :: i + n <= q && Dots(s, i, q - i) ==> TailAt(s, q).None?
  {
    LazyItemAtIsLazyName(s, i, n);
    LazyNameNone(s, i, n, TailProbe(s));
  }

  /** The item pattern matches at i with a name of m characters. */
  ghost predicate ItemShape(s: string, i: nat, m: nat, w: nat, e: nat, w2: nat) {
    m >= 1 && Dots(s, i, m) && TailShape(s, i + m, w, e, w2)
  }

  /** The item pattern at i: the name length and tail the engine settles on. */
  function ItemAt(s: string, i: nat): Option<(nat, TailSpan)> {
    LazyItemAt(s, i, 1)
  }

  /** Whatever ItemAt finds is a match of the item pattern. */
  lemma ItemAtSound(s: string, i: nat)
    ensures ItemAt(s, i).Some? ==>
      var (m, t) := ItemAt(s, i).value;
      ItemShape(s, i, m, t.w, t.e, t.w2)
  {
    if i <= |s| {
      LazyItemAtSound(s, i, 1);
    }
    if ItemAt(s, i).Some? {
      TailAtSound(s, i + ItemAt(s, i).value.0);
    }
  }

  /**
   * ItemAt takes the shortest name after which the rest of the pattern
   * matches, as the lazy `(.+?)` does.
   */
  lemma ItemAtIsShortest(s: string, i: nat, m: nat, w: nat, e: nat, w2: nat)
    requires ItemShape(s, i, m, w, e, w2)
    ensures ItemAt(s, i).Some? && ItemAt(s, i).value.0 <= m
  {
    TailAtIsEngineMatch(s, i + m, w, e, w2);
    LazyItemAtNone(s, i, 1);
    LazyItemAtShortest(s, i, 1);
  }

  /** ItemAt at every start position of s. */
  function ItemProbe(s: string): (f: nat -> Option<(nat, TailSpan)>)
    ensures forall i: nat :: f(i) == ItemAt(s, i)
  {
    (i: nat) => ItemAt(s, i)
  }

  /** The result of `line.match(itemPattern)`: the index and the three groups. */
  datatype ItemMatch = ItemMatch(index: nat, name: string, quantity: string, price: string)

  function MatchItem(s: string): (r: Option<ItemMatch>)
    ensures r.Some? ==> IsNumeral(r.value.price)
  {
    var found := First(ItemProbe(s), 0, |s| + 1);
    FoundItemFits(s, found);
    ItemMatchOf(s, found)
  }

  /** The name, the quantity and the price digit of a match at i lie inside s. */
  predicate ItemSpanFits(s: string, i: nat, m: nat, t: TailSpan) {
    i + m + t.w <= t.e && t.e + t.w2 + 1 < |s| && IsDigit(s[t.e + t.w2 + 1])
  }

  lemma FoundItemFits(s: string, found: Option<(nat, (nat, TailSpan))>)
    requires found == First(ItemProbe(s), 0, |s| + 1)
    ensures found.Some? ==> ItemSpanFits(s, found.value.0, found.value.1.0, found.value.1.1)
  {
    if found.Some? {
      ItemAtBounds(s, found.value.0, found.value.1.0, found.value.1.1);
    }
  }

  /** The match read off the position First found, if any: the index and the three groups. */
  function ItemMatchOf(s: string, found: Option<(nat, (nat, TailSpan))>): (r: Option<ItemMatch>)
    requires found.Some? ==> ItemSpanFits(s, found.value.0, found.value.1.0, found.value.1.1)
    ensures r.Some? ==> IsNumeral(r.value.price)
  {
    match found
    case None => None
    case Some((i, (m, t))) =>
      NumeralEndIsNumeral(s, t.e + t.w2 + 1);
      Some(ItemMatch(i, s[i..i + m], s[i + m + t.w..t.e], s[t.e + t.w2 + 1..NumeralEnd(s, t.e + t.w2 + 1)]))
  }

  /** Where the item pattern first matches, the groups are the name, the quantity and the price there. */
  lemma MatchItemIs(s: string, i: nat, m: nat, t: TailSpan)
    requires ItemAt(s, i) == Some((m, t))
    requires forall j: nat :: j < i ==> ItemAt(s, j).None?
    ensures i + m + t.w <= t.e && t.e + t.w2 + 1 < |s| && IsDigit(s[t.e + t.w2 + 1])
    ensures MatchItem(s) == Some(ItemMatch(i, s[i..i + m], s[i + m + t.w..t.e], s[t.e + t.w2 + 1..NumeralEnd(s, t.e + t.w2 + 1)]))
  {
    ItemAtBounds(s, i, m, t);
    FirstAt(ItemProbe(s), 0, |s| + 1, i);
    MatchItemFound(s, i, m, t);
    MatchItemFirst(s, i, m, t);
  }

  lemma ItemAtBounds(s: string, i: nat, m: nat, t: TailSpan)
    requires ItemAt(s, i) == Some((m, t))
    ensures i <= |s| && ItemSpanFits(s, i, m, t)
  {
    ItemAtSound(s, i);
  }

  lemma MatchItemFound(s: string, i: nat, m: nat, t: TailSpan)
    requires First(ItemProbe(s), 0, |s| + 1) == Some((i, (m, t))) && ItemSpanFits(s, i, m, t)
    ensures MatchItem(s) == ItemMatchOf(s, Some((i, (m, t))))
  {
  }

  /** The groups read off a position whose spans fit in s. */
  lemma MatchItemFirst(s: string, i: nat, m: nat, t: TailSpan)
    requires ItemSpanFits(s, i, m, t)
    ensures ItemMatchOf(s, Some((i, (m, t)))) == Some(ItemMatch(i, s[i..i + m], s[i + m + t.w..t.e], s[t.e + t.w2 + 1..NumeralEnd(s, t.e + t.w2 + 1)]))
  {
  }

  /**
   * The groups of an item match: a name of at least one character and no
   * line terminator, and a quantity that is a numeral.
   */
  lemma MatchItemGroups(s: string, r: ItemMatch)
    requires MatchItem(s) == Some(r)
    ensures |r.name| >= 1 && forall k :: 0 <= k < |r.name| ==> !IsLineTerminator(r.name[k])
    ensures IsNumeral(r.quantity)
  {
    var i, m, t := MatchItemSpan(s);
    var name, quantity := s[i..i + m], s[i + m + t.w..t.e];
    assert r.name == name && r.quantity == quantity;
    ItemGroups(s, i, m, t.w, t.e, t.w2);
    forall k | 0 <= k < |name| ensures !IsLineTerminator(name[k]) {
      assert name[k] == s[i + k];
    }
  }

  /** Where the item pattern matched, and the name and quantity groups it captured. */
  lemma MatchItemSpan(s: string) returns (i: nat, m: nat, t: TailSpan)
    requires MatchItem(s).Some?
    ensures ItemShape(s, i, m, t.w, t.e, t.w2)
    ensures MatchItem(s).value.name == s[i..i + m]
    ensures MatchItem(s).value.quantity == s[i + m + t.w..t.e]
  {
    var f := First(ItemProbe(s), 0, |s| + 1);
    i, m, t := f.value.0, f.value.1.0, f.value.1.1;
    ItemAtShape(s, i, m, t);
  }

  lemma ItemAtShape(s: string, i: nat, m: nat, t: TailSpan)
    requires ItemAt(s, i) == Some((m, t))
    ensures ItemShape(s, i, m, t.w, t.e, t.w2)
  {
    ItemAtSound(s, i);
  }

  /** The name and quantity groups of the item pattern matched at i. */
  lemma ItemGroups(s: string, i: nat, m: nat, w: nat, e: nat, w2: nat)
    requires ItemShape(s, i, m, w, e, w2)
    ensures i + m + w <= e <= |s| && m >= 1 && IsNumeral(s[i + m + w..e])
    ensures forall k :: i <= k < i + m ==> !IsLineTerminator(s[k])
  {
  }

  lemma NoItemBefore(s: string, hi: nat)
    requires forall j: nat :: j < hi ==> ItemAt(s, j).None?
    ensures forall j: nat, m: nat, w: nat, e: nat, w2: nat :: j < hi ==> !ItemShape(s, j, m, w, e, w2)
  {
    forall j: nat, m: nat, w: nat, e: nat, w2: nat | j < hi && ItemShape(s, j, m, w, e, w2) ensures false {
      ItemAtIsShortest(s, j, m, w, e, w2);
    }
  }

  /** MatchItem finds nothing exactly when the item pattern matches nowhere in s. */
  lemma MatchItemNone(s: string)
    ensures MatchItem(s).None? <==> forall i: nat, m: nat, w: nat, e: nat, w2: nat :: !ItemShape(s, i, m, w, e, w2)
  {
    var f := First(ItemProbe(s), 0, |s| + 1);
    if f.None? {
      forall i: nat, m: nat, w: nat, e: nat, w2: nat | ItemShape(s, i, m, w, e, w2) ensures false {
        ItemAtIsShortest(s, i, m, w, e, w2);
      }
    } else {
      var (m, t) := f.value.1;
      assert ItemAt(s, f.value.0) == Some((m, t));
      ItemAtSound(s, f.value.0);
      assert ItemShape(s, f.value.0, m, t.w, t.e, t.w2);
    }
  }

  /**
   * A match MatchItem finds is the leftmost, with the shortest name the
   * pattern allows at its index.
   */
  lemma MatchItemIsLeftmost(s: string, r: ItemMatch)
    requires MatchItem(s) == Some(r)
    ensures exists w: nat, e: nat, w2: nat :: ItemShape(s, r.index, |r.name|, w, e, w2)
    ensures forall m: nat, w: nat, e: nat, w2: nat :: ItemShape(s, r.index, m, w, e, w2) ==> |r.name| <= m
    ensures forall i: nat, m: nat, w: nat, e: nat, w2: nat :: i < r.index ==> !ItemShape(s, i, m, w, e, w2)
  {
    var f := First(ItemProbe(s), 0, |s| + 1);
    var (m, t) := f.value.1;
    assert r.index == f.value.0;
    assert ItemAt(s, r.index) == Some((m, t));
    ItemAtSound(s, r.index);
    assert |r.name| == m;
    assert ItemShape(s, r.index, m, t.w, t.e, t.w2);
    forall m': nat, w: nat, e: nat, w2: nat | ItemShape(s, r.index, m', w, e, w2) ensures m <= m' {
      ItemAtIsShortest(s, r.index, m', w, e, w2);
    }
    NoItemBefore(s, r.index);
  }
}
