/**
 * The receipt-text parser of client/src/lib/ocr.ts: it turns the text the
 * OCR engine recognised into a vendor name, a date, a time, a total and up
 * to ten line items.
 *
 * Every finder of the source is a method with the source's loop, proved equal
 * to a specification function; the lemmas below state what those functions
 * promise. The clock the source reads for the default date is the `today`
 * parameter.
 */
module Ocr {
  import opened Options
  import opened Scan
  import opened Seqs
  import opened JsString
  import opened JsNumber
  import opened OcrPatterns

  /** One purchased item: all three fields are strings, as in the result type. */
  datatype LineItem = LineItem(name: string, quantity: string, price: string)

  /** The parser's result (OCRResult). */
  datatype OcrResult = OcrResult(vendor: string, date: string, time: string, total: string, items: seq<LineItem>)

  /** What findDateTime returns. */
  datatype DateTime = DateTime(date: string, time: string)

  const UnknownVendor: string := "Unknown Vendor"
  const DefaultTime: string := "12:00"
  const ZeroTotal: string := "0.00"
  const FallbackItemName: string := "Item 1"
  const DefaultQuantity: string := "1"
  /** Only the first lines can name the vendor. */
  const VendorWindow: nat := 5
  const MaxItems: nat := 10

  /** JavaScript's `a || b` on strings: the empty string is falsy. */
  function Or(a: string, b: string): string {
    if a == "" then b else a
  }

  // ---------------------------------------------------------------------
  // Lines: text.split('\n').filter(line => line.trim().length > 0)

  predicate IsBlank(line: string) {
    Trim(line) == []
  }

  predicate IsContent(line: string) {
    !IsBlank(line)
  }

  /** The lines that are not blank, in their order; they are kept untrimmed. */
  function NonBlank(ls: seq<string>): seq<string> {
    Filter(IsContent, ls)
  }

  /** Every line kept is a non-blank line of the input. */
  lemma NonBlankSound(ls: seq<string>)
    ensures |NonBlank(ls)| <= |ls|
    ensures forall k :: 0 <= k < |NonBlank(ls)| ==> !IsBlank(NonBlank(ls)[k]) && NonBlank(ls)[k] in ls
  {
    FilterSound(IsContent, ls);
  }

  /** Filtering distributes over concatenation, so it keeps the order of the lines. */
  lemma NonBlankAppend(a: seq<string>, b: seq<string>)
    ensures NonBlank(a + b) == NonBlank(a) + NonBlank(b)
  {
    FilterAppend(IsContent, a, b);
  }

  /** Only blank lines are dropped: lines that are all non-blank pass unchanged. */
  lemma NonBlankKeepsAll(ls: seq<string>)
    requires forall k :: 0 <= k < |ls| ==> !IsBlank(ls[k])
    ensures NonBlank(ls) == ls
  {
    FilterKeepsAll(IsContent, ls);
  }

  /** The lines the parser works on. */
  function Lines(text: string): seq<string> {
    NonBlank(Split(text, '\n'))
  }

  /** No line is blank or holds a newline. */
  lemma LinesSpec(text: string)
    ensures forall k :: 0 <= k < |Lines(text)| ==> !IsBlank(Lines(text)[k]) && '\n' !in Lines(text)[k]
  {
    NonBlankSound(Split(text, '\n'));
  }

  /** Joining non-blank lines with newlines and parsing the text gives the lines back. */
  lemma LinesOfJoined(parts: seq<string>)
    requires |parts| >= 1
    requires forall k :: 0 <= k < |parts| ==> !IsBlank(parts[k]) && '\n' !in parts[k]
    ensures Lines(Join(parts, '\n')) == parts
  {
    SplitJoin(parts, '\n');
    NonBlankKeepsAll(parts);
  }

  // ---------------------------------------------------------------------
  // findVendor

  /** A trimmed line that can name the vendor: longer than 3, not starting with a digit, no `$`. */
  predicate IsVendorLine(t: string) {
    |t| > 3 && !IsDigit(t[0]) && '$' !in t
  }

  /** The vendor candidate at line k, trimmed. */
  function LineVendor(lines: seq<string>, k: nat): Option<string> {
    if k < |lines| && IsVendorLine(Trim(lines[k])) then Some(Trim(lines[k])) else None
  }

  function LineVendorProbe(lines: seq<string>): (f: nat -> Option<string>)
    ensures forall k: nat :: f(k) == LineVendor(lines, k)
  {
    (k: nat) => LineVendor(lines, k)
  }

  /** The vendor findVendor reports: the first candidate among the first five lines. */
  function VendorOf(lines: seq<string>): string {
    match First(LineVendorProbe(lines), 0, Min(VendorWindow, |lines|))
    case None => UnknownVendor
    case Some((_, v)) => v
  }

  /**
   * The vendor is never empty: it is "Unknown Vendor" or the trimmed text of
   * one of the first five lines that can name the vendor.
   */
  lemma VendorOfIsCandidate(lines: seq<string>)
    ensures VendorOf(lines) != ""
    ensures VendorOf(lines) == UnknownVendor ||
      exists k :: 0 <= k < Min(VendorWindow, |lines|) && VendorOf(lines) == Trim(lines[k]) && IsVendorLine(Trim(lines[k]))
  {
    var f := First(LineVendorProbe(lines), 0, Min(VendorWindow, |lines|));
    if f.Some? {
      var k := f.value.0;
      assert LineVendor(lines, k) == Some(f.value.1);
    } else {
      assert UnknownVendor[0] == 'U';
    }
  }

  /** The first of the first five lines that can name the vendor is the vendor. */
  lemma VendorIsFirstCandidate(lines: seq<string>, k: nat)
    requires k < Min(VendorWindow, |lines|) && IsVendorLine(Trim(lines[k]))
    requires forall j :: 0 <= j < k ==> !IsVendorLine(Trim(lines[j]))
    ensures VendorOf(lines) == Trim(lines[k])
  {
    var f := First(LineVendorProbe(lines), 0, Min(VendorWindow, |lines|));
    assert LineVendorProbe(lines)(k) == Some(Trim(lines[k]));
    assert f.value.0 == k;
  }

  /** When none of the first five lines can name the vendor, the vendor is "Unknown Vendor". */
  lemma VendorFallback(lines: seq<string>)
    requires forall k :: 0 <= k < Min(VendorWindow, |lines|) ==> !IsVendorLine(Trim(lines[k]))
    ensures VendorOf(lines) == UnknownVendor
  {
    var f := First(LineVendorProbe(lines), 0, Min(VendorWindow, |lines|));
    if f.Some? {
      assert false;
    }
  }

  // Steps of findVendor's loop.

  lemma VendorStepNone(lines: seq<string>, i: nat)
    requires i < |lines| && !IsVendorLine(Trim(lines[i])) && NoneIn(LineVendorProbe(lines), 0, i)
    ensures NoneIn(LineVendorProbe(lines), 0, i + 1)
  {
    assert LineVendorProbe(lines)(i).None?;
  }

  lemma VendorStepFound(lines: seq<string>, i: nat)
    requires i < Min(VendorWindow, |lines|) && IsVendorLine(Trim(lines[i]))
    requires NoneIn(LineVendorProbe(lines), 0, i)
    ensures VendorOf(lines) == Trim(lines[i])
  {
    NoneInAll(LineVendorProbe(lines), 0, i);
    FirstAt(LineVendorProbe(lines), 0, Min(VendorWindow, |lines|), i);
  }

  lemma VendorStepEnd(lines: seq<string>)
    requires NoneIn(LineVendorProbe(lines), 0, Min(VendorWindow, |lines|))
    ensures VendorOf(lines) == UnknownVendor
  {
    NoneInAll(LineVendorProbe(lines), 0, Min(VendorWindow, |lines|));
    FirstNone(LineVendorProbe(lines), 0, Min(VendorWindow, |lines|));
    var f := First(LineVendorProbe(lines), 0, Min(VendorWindow, |lines|));
    assert f.None?;
  }

  method FindVendor(lines: seq<string>) returns (vendor: string)
    ensures vendor == VendorOf(lines)
  {
    var n := Min(VendorWindow, |lines|);
    var i := 0;
    while i < n
      invariant i <= n
      invariant NoneIn(LineVendorProbe(lines), 0, i)
    {
      var line := Trim(lines[i]);
      if IsVendorLine(line) {
        VendorStepFound(lines, i);
        return line;
      }
      VendorStepNone(lines, i);
      i := i + 1;
    }
    VendorStepEnd(lines);
    return UnknownVendor;
  }

  // ---------------------------------------------------------------------
  // findDateTime

  /** A two-digit year is read as 20yy; a year of three or four digits is kept as written. */
  function FullYear(year: string): string {
    if |year| == 2 then "20" + year else year
  }

  /** The date findDateTime writes for a match: year, zero-padded month and day, joined by `-`. */
  function NormalizeDate(month: string, day: string, year: string): string {
    FullYear(year) + "-" + PadStart(month, 2) + "-" + PadStart(day, 2)
  }

  lemma CenturyYear(yy: string)
    requires |yy| == 2 && AllDigits(yy)
    ensures AllDigits("20" + yy) && DigitsValue("20" + yy) == 2000 + DigitsValue(yy)
  {
    var y := "20" + yy;
    assert y[..3] == "20" + yy[..1];
    assert ("20" + yy[..1])[..2] == "20";
    assert "20"[..1] == "2";
    assert DigitsValue("2") == 2;
    assert DigitsValue("20") == 20;
    assert DigitsValue(y[..3]) == 200 + DigitValue(yy[0]);
    assert yy[..1][..0] == [];
    assert DigitsValue(yy[..1]) == DigitValue(yy[0]);
  }

  /** The year FullYear writes: 20yy for a two-digit year, any other year as written. */
  lemma FullYearValue(year: string)
    requires AllDigits(year)
    ensures var f := FullYear(year);
      AllDigits(f) && |f| == (if |year| == 2 then 4 else |year|) &&
      DigitsValue(f) == (if |year| == 2 then 2000 + DigitsValue(year) else DigitsValue(year))
  {
    if |year| == 2 {
      CenturyYear(year);
    }
  }

  /**
   * The parts of a normalized date: the full year, a dash, the month padded
   * to two digits, a dash, the day padded to two digits. Padding keeps the
   * value of each group and nothing is range-checked.
   */
  lemma NormalizeDateParts(month: string, day: string, year: string)
    requires |month| <= 2 && |day| <= 2
    ensures var r := NormalizeDate(month, day, year); var y := |FullYear(year)|;
      |r| == y + 6 && r[..y] == FullYear(year) && r[y] == '-' && r[y + 3] == '-' &&
      r[y + 1..y + 3] == PadStart(month, 2) && r[y + 4..] == PadStart(day, 2)
  {
    JoinDashes(FullYear(year), PadStart(month, 2), PadStart(day, 2));
  }

  /** Month and day of a normalized date keep the value of their groups. */
  lemma NormalizeDateValues(month: string, day: string)
    requires AllDigits(month) && AllDigits(day)
    ensures AllDigits(PadStart(month, 2)) && DigitsValue(PadStart(month, 2)) == DigitsValue(month)
    ensures AllDigits(PadStart(day, 2)) && DigitsValue(PadStart(day, 2)) == DigitsValue(day)
  {
    PadStartValue(month, 2);
    PadStartValue(day, 2);
  }

  /**
   * The hour findDateTime writes, as a number: a PM hour other than 12 gains
   * 12, 12 AM becomes 0, any other hour is kept. On a valid 12-hour time
   * this is the 24-hour clock: AM hours fall in 0-11, PM hours in 12-23, and
   * the hour modulo 12 is unchanged.
   */
  function Hour24(h: nat, meridiem: Meridiem): (r: nat)
    ensures meridiem == NoMeridiem ==> r == h
    ensures 1 <= h <= 12 && meridiem == Am ==> r < 12 && r % 12 == h % 12
    ensures 1 <= h <= 12 && meridiem == Pm ==> 12 <= r < 24 && r % 12 == h % 12
  {
    if meridiem == Pm && h != 12 then h + 12
    else if meridiem == Am && h == 12 then 0
    else h
  }

  /** The hour text before padding: converted for PM and 12 AM, otherwise the group as written. */
  function HourText(m: TimeMatch): string
    requires AllDigits(m.hours)
  {
    var h := DigitsValue(m.hours);
    if m.meridiem == Pm && h != 12 then NatToString(h + 12)
    else if m.meridiem == Am && h == 12 then "00"
    else m.hours
  }

  /** The time findDateTime writes for a match: the converted hour, zero-padded, a colon, the minutes. */
  function FormatTime(m: TimeMatch): string
    requires AllDigits(m.hours)
  {
    PadStart(HourText(m), 2) + ":" + m.minutes
  }

  /** The hour text is digits whose value is Hour24 of the hour group. */
  lemma HourTextValue(m: TimeMatch)
    requires AllDigits(m.hours)
    ensures AllDigits(HourText(m)) && DigitsValue(HourText(m)) == Hour24(DigitsValue(m.hours), m.meridiem)
  {
    var h := DigitsValue(m.hours);
    if m.meridiem == Am && h == 12 {
      assert "00"[..1] == "0";
      assert DigitsValue("0") == 0;
    }
  }

  /**
   * A formatted time is at least two digits whose value is Hour24 of the
   * hour group, a colon and the minute group as written.
   */
  lemma FormatTimeMeaning(m: TimeMatch)
    requires AllDigits(m.hours)
    ensures var p := PadStart(HourText(m), 2);
      FormatTime(m) == p + ":" + m.minutes && |p| >= 2 &&
      AllDigits(p) && DigitsValue(p) == Hour24(DigitsValue(m.hours), m.meridiem)
  {
    HourTextValue(m);
    PadStartValue(HourText(m), 2);
  }

  /** The date line k yields, if its text matches the date pattern. */
  function LineDate(lines: seq<string>, k: nat): Option<string> {
    if k < |lines| then
      match MatchDate(lines[k])
      case Some(m) => Some(NormalizeDate(m.month, m.day, m.year))
      case None => None
    else None
  }

  function LineDateProbe(lines: seq<string>): (f: nat -> Option<string>)
    ensures forall k: nat :: f(k) == LineDate(lines, k)
  {
    (k: nat) => LineDate(lines, k)
  }

  /** The date of the first line that holds one, or "" when no line does. */
  function DateOf(lines: seq<string>): string {
    match First(LineDateProbe(lines), 0, |lines|)
    case None => ""
    case Some((_, d)) => d
  }

  /** The time line k yields, if its text matches the time pattern. */
  function LineTime(lines: seq<string>, k: nat): Option<string> {
    if k < |lines| then
      match MatchTime(lines[k])
      case Some(m) => Some(FormatTime(m))
      case None => None
    else None
  }

  function LineTimeProbe(lines: seq<string>): (f: nat -> Option<string>)
    ensures forall k: nat :: f(k) == LineTime(lines, k)
  {
    (k: nat) => LineTime(lines, k)
  }

  /** The time of the first line that holds one, or "" when no line does. */
  function TimeOf(lines: seq<string>): string {
    match First(LineTimeProbe(lines), 0, |lines|)
    case None => ""
    case Some((_, t)) => t
  }

  /** What findDateTime returns: the first date and the first time, or their defaults. */
  function DateTimeOf(lines: seq<string>, today: string): DateTime {
    DateTime(Or(DateOf(lines), today), Or(TimeOf(lines), DefaultTime))
  }

  /** The first line that matches the date pattern gives the date; later matches are ignored. */
  lemma DateIsFirstMatch(lines: seq<string>, k: nat)
    requires k < |lines| && MatchDate(lines[k]).Some?
    requires forall j :: 0 <= j < k ==> MatchDate(lines[j]).None?
    ensures var m := MatchDate(lines[k]).value; DateOf(lines) == NormalizeDate(m.month, m.day, m.year)
  {
    FirstAt(LineDateProbe(lines), 0, |lines|, k);
  }

  /** The date is "" exactly when no line matches the date pattern. */
  lemma DateOfEmpty(lines: seq<string>)
    ensures DateOf(lines) == "" <==> forall j :: 0 <= j < |lines| ==> MatchDate(lines[j]).None?
  {
    var f := First(LineDateProbe(lines), 0, |lines|);
    if f.Some? {
      var k := f.value.0;
      assert LineDate(lines, k).Some?;
      assert MatchDate(lines[k]).Some?;
    } else {
      forall j | 0 <= j < |lines| ensures MatchDate(lines[j]).None? {
        assert LineDate(lines, j).None?;
      }
    }
  }

  /** The first line that matches the time pattern gives the time; later matches are ignored. */
  lemma TimeIsFirstMatch(lines: seq<string>, k: nat)
    requires k < |lines| && MatchTime(lines[k]).Some?
    requires forall j :: 0 <= j < k ==> MatchTime(lines[j]).None?
    ensures TimeOf(lines) == FormatTime(MatchTime(lines[k]).value)
  {
    FirstAt(LineTimeProbe(lines), 0, |lines|, k);
  }

  /** The time is "" exactly when no line matches the time pattern. */
  lemma TimeOfEmpty(lines: seq<string>)
    ensures TimeOf(lines) == "" <==> forall j :: 0 <= j < |lines| ==> MatchTime(lines[j]).None?
  {
    var f := First(LineTimeProbe(lines), 0, |lines|);
    if f.Some? {
      var k := f.value.0;
      assert LineTime(lines, k).Some?;
      assert MatchTime(lines[k]).Some?;
    } else {
      forall j | 0 <= j < |lines| ensures MatchTime(lines[j]).None? {
        assert LineTime(lines, j).None?;
      }
    }
  }

  // Steps of findDateTime's loop, stated line by line.

  lemma DateStepNone(lines: seq<string>, i: nat)
    requires i < |lines| && MatchDate(lines[i]).None? && NoneIn(LineDateProbe(lines), 0, i)
    ensures NoneIn(LineDateProbe(lines), 0, i + 1)
  {
    assert LineDateProbe(lines)(i).None?;
  }

  lemma DateStepFound(lines: seq<string>, i: nat)
    requires i < |lines| && MatchDate(lines[i]).Some? && NoneIn(LineDateProbe(lines), 0, i)
    ensures var m := MatchDate(lines[i]).value; DateOf(lines) == NormalizeDate(m.month, m.day, m.year)
  {
    NoneInAll(LineDateProbe(lines), 0, i);
    FirstAt(LineDateProbe(lines), 0, |lines|, i);
  }

  lemma DateStepEnd(lines: seq<string>)
    requires NoneIn(LineDateProbe(lines), 0, |lines|)
    ensures DateOf(lines) == ""
  {
    NoneInAll(LineDateProbe(lines), 0, |lines|);
    FirstNone(LineDateProbe(lines), 0, |lines|);
    var f := First(LineDateProbe(lines), 0, |lines|);
    assert f.None?;
  }

  lemma TimeStepNone(lines: seq<string>, i: nat)
    requires i < |lines| && MatchTime(lines[i]).None? && NoneIn(LineTimeProbe(lines), 0, i)
    ensures NoneIn(LineTimeProbe(lines), 0, i + 1)
  {
    assert LineTimeProbe(lines)(i).None?;
  }

  lemma TimeStepFound(lines: seq<string>, i: nat)
    requires i < |lines| && MatchTime(lines[i]).Some? && NoneIn(LineTimeProbe(lines), 0, i)
    ensures TimeOf(lines) == FormatTime(MatchTime(lines[i]).value)
  {
    NoneInAll(LineTimeProbe(lines), 0, i);
    FirstAt(LineTimeProbe(lines), 0, |lines|, i);
  }

  lemma TimeStepEnd(lines: seq<string>)
    requires NoneIn(LineTimeProbe(lines), 0, |lines|)
    ensures TimeOf(lines) == ""
  {
    NoneInAll(LineTimeProbe(lines), 0, |lines|);
    FirstNone(LineTimeProbe(lines), 0, |lines|);
    var f := First(LineTimeProbe(lines), 0, |lines|);
    assert f.None?;
  }

  method FindDateTime(lines: seq<string>, today: string) returns (r: DateTime)
    ensures r == DateTimeOf(lines, today)
  {
    var date := "";
    var time := "";
    for i := 0 to |lines|
      invariant date == "" ==> NoneIn(LineDateProbe(lines), 0, i)
      invariant date != "" ==> date == DateOf(lines)
      invariant time == "" ==> NoneIn(LineTimeProbe(lines), 0, i)
      invariant time != "" ==> time == TimeOf(lines)
    {
      var line := lines[i];
      var dateMatch := MatchDate(line);
      if dateMatch.Some? && date == "" {
        var m := dateMatch.value;
        var fullYear := if |m.year| == 2 then "20" + m.year else m.year;
        date := fullYear + "-" + PadStart(m.month, 2) + "-" + PadStart(m.day, 2);
        DateStepFound(lines, i);
      } else if date == "" {
        DateStepNone(lines, i);
      }
      var timeMatch := MatchTime(line);
      if timeMatch.Some? && time == "" {
        var m := timeMatch.value;
        var hours := m.hours;
        var h := DigitsValue(hours);
        if m.meridiem == Pm && h != 12 {
          hours := NatToString(h + 12);
        } else if m.meridiem == Am && h == 12 {
          hours := "00";
        }
        assert hours == HourText(m);
        time := PadStart(hours, 2) + ":" + m.minutes;
        TimeStepFound(lines, i);
      } else if time == "" {
        TimeStepNone(lines, i);
      }
    }
    if date == "" {
      DateStepEnd(lines);
    }
    if time == "" {
      TimeStepEnd(lines);
    }
    return DateTime(if date == "" then today else date, if time == "" then DefaultTime else time);
  }

  // ---------------------------------------------------------------------
  // findTotal

  /** The total line k states, to two decimals, if its text matches the labelled-total pattern. */
  function LineTotal(lines: seq<string>, k: nat): Option<string> {
    if k < |lines| then
      match MatchTotal(lines[k])
      case Some(m) => Some(ToFixed2(ParseFloat(m.number)))
      case None => None
    else None
  }

  function LineTotalProbe(lines: seq<string>): (f: nat -> Option<string>)
    ensures forall k: nat :: f(k) == LineTotal(lines, k)
  {
    (k: nat) => LineTotal(lines, k)
  }

  /** The amount after the first `$` of a line, if it has one. */
  function PriceAmount(line: string): Option<real> {
    match MatchPrice(line)
    case Some(p) => Some(ParseFloat(p.number))
    case None => None
  }

  /** The first `$` amount of each line, in order. */
  function AmountsOf(ls: seq<string>): seq<Option<real>> {
    MapSeq(PriceAmount, ls)
  }

  /** One step of findTotal's second loop: an amount replaces a smaller maximum. */
  function Raise(m: real, a: Option<real>): real {
    match a
    case Some(v) => if v > m then v else m
    case None => m
  }

  /** A running maximum over optional amounts, starting from 0. */
  function MaxOf(xs: seq<Option<real>>): (r: real)
    ensures 0.0 <= r
  {
    if xs == [] then 0.0 else Raise(MaxOf(xs[..|xs| - 1]), xs[|xs| - 1])
  }

  /** The running maximum of findTotal's second loop: the largest `$` amount, starting from 0. */
  function MaxAmount(ls: seq<string>): (r: real)
    ensures 0.0 <= r
  {
    MaxOf(AmountsOf(ls))
  }

  /**
   * What findTotal returns: the amount of the first labelled line, else the
   * largest `$` amount when it is positive, else "0.00".
   */
  function TotalOf(lines: seq<string>): string {
    match First(LineTotalProbe(lines), 0, |lines|)
    case Some((_, t)) => t
    case None =>
      var m := MaxAmount(lines);
      if m > 0.0 then ToFixed2(m) else ZeroTotal
  }

  /**
   * The unlabelled total is the largest `$` amount: no line's first `$`
   * amount exceeds it, and unless it is 0 some line's first `$` amount is it.
   */
  lemma MaxAmountIsMax(ls: seq<string>)
    ensures forall j :: 0 <= j < |ls| && PriceAmount(ls[j]).Some? ==> PriceAmount(ls[j]).value <= MaxAmount(ls)
    ensures MaxAmount(ls) == 0.0 || exists j :: 0 <= j < |ls| && PriceAmount(ls[j]) == Some(MaxAmount(ls))
  {
    var xs := AmountsOf(ls);
    MaxOfIsMax(xs);
    if MaxAmount(ls) != 0.0 {
      var j :| 0 <= j < |xs| && xs[j] == Some(MaxOf(xs));
      assert PriceAmount(ls[j]) == Some(MaxAmount(ls));
    }
  }

  /** MaxOf is no smaller than any amount present and, unless 0, is one of them. */
  lemma {:induction false} MaxOfIsMax(xs: seq<Option<real>>)
    ensures forall j :: 0 <= j < |xs| && xs[j].Some? ==> xs[j].value <= MaxOf(xs)
    ensures MaxOf(xs) == 0.0 || exists j :: 0 <= j < |xs| && xs[j] == Some(MaxOf(xs))
  {
    if xs != [] {
      var n := |xs| - 1;
      var init := xs[..n];
      MaxOfIsMax(init);
      assert forall j :: 0 <= j < n ==> xs[j] == init[j];
      if MaxOf(xs) != 0.0 && MaxOf(xs) == MaxOf(init) {
        var j :| 0 <= j < n && init[j] == Some(MaxOf(init));
        assert xs[j] == init[j];
      }
    }
  }

  /** Whichever way it is found, the total is digits, a point and two digits. */
  lemma TotalIsFixed2(lines: seq<string>)
    ensures IsFixed2(TotalOf(lines))
  {
    var f := First(LineTotalProbe(lines), 0, |lines|);
    if f.Some? {
      assert LineTotal(lines, f.value.0).Some?;
    } else {
      assert "0.00"[..1] == "0" && "0.00"[2..] == "00";
    }
  }

  /**
   * The first line that matches the labelled-total pattern gives the total,
   * whatever larger `$` amounts other lines hold.
   */
  lemma LabelledTotalWins(lines: seq<string>, k: nat)
    requires k < |lines| && MatchTotal(lines[k]).Some?
    requires forall j :: 0 <= j < k ==> MatchTotal(lines[j]).None?
    ensures TotalOf(lines) == ToFixed2(ParseFloat(MatchTotal(lines[k]).value.number))
  {
    FirstAt(LineTotalProbe(lines), 0, |lines|, k);
  }

  /**
   * With no labelled line the total is the largest `$` amount, or "0.00"
   * when there is none or it is 0.
   */
  lemma UnlabelledTotal(lines: seq<string>)
    requires forall j :: 0 <= j < |lines| ==> MatchTotal(lines[j]).None?
    ensures TotalOf(lines) == if MaxAmount(lines) > 0.0 then ToFixed2(MaxAmount(lines)) else ZeroTotal
  {
    forall j: nat | j < |lines| ensures LineTotalProbe(lines)(j).None? {
      assert MatchTotal(lines[j]).None?;
    }
    FirstNone(LineTotalProbe(lines), 0, |lines|);
  }

  // Steps of findTotal's loops.

  lemma TotalStepNone(lines: seq<string>, i: nat)
    requires i < |lines| && MatchTotal(lines[i]).None? && NoneIn(LineTotalProbe(lines), 0, i)
    ensures NoneIn(LineTotalProbe(lines), 0, i + 1)
  {
    assert LineTotalProbe(lines)(i).None?;
  }

  lemma TotalStepFound(lines: seq<string>, i: nat)
    requires i < |lines| && MatchTotal(lines[i]).Some? && NoneIn(LineTotalProbe(lines), 0, i)
    ensures TotalOf(lines) == ToFixed2(ParseFloat(MatchTotal(lines[i]).value.number))
  {
    NoneInAll(LineTotalProbe(lines), 0, i);
    FirstAt(LineTotalProbe(lines), 0, |lines|, i);
  }

  lemma TotalStepEnd(lines: seq<string>)
    requires NoneIn(LineTotalProbe(lines), 0, |lines|)
    ensures TotalOf(lines) == if MaxAmount(lines) > 0.0 then ToFixed2(MaxAmount(lines)) else ZeroTotal
  {
    NoLabelledLine(lines);
    var f := First(LineTotalProbe(lines), 0, |lines|);
    assert f.None?;
  }

  lemma NoLabelledLine(lines: seq<string>)
    requires NoneIn(LineTotalProbe(lines), 0, |lines|)
    ensures First(LineTotalProbe(lines), 0, |lines|).None?
  {
    NoneInAll(LineTotalProbe(lines), 0, |lines|);
    FirstNone(LineTotalProbe(lines), 0, |lines|);
  }

  lemma MaxAmountStep(lines: seq<string>, i: nat)
    requires i < |lines|
    ensures MaxAmount(lines[..i + 1]) == Raise(MaxAmount(lines[..i]), PriceAmount(lines[i]))
  {
    MapStep(PriceAmount, lines, i);
    var xs := AmountsOf(lines[..i + 1]);
    assert xs[..i] == AmountsOf(lines[..i]);
  }

  method FindTotal(lines: seq<string>) returns (r: string)
    ensures r == TotalOf(lines)
  {
    for i := 0 to |lines|
      invariant NoneIn(LineTotalProbe(lines), 0, i)
    {
      var totalMatch := MatchTotal(lines[i]);
      if totalMatch.Some? {
        TotalStepFound(lines, i);
        return ToFixed2(ParseFloat(totalMatch.value.number));
      }
      TotalStepNone(lines, i);
    }
    TotalStepEnd(lines);
    var maxAmount := FindMaxAmount(lines);
    return if maxAmount > 0.0 then ToFixed2(maxAmount) else ZeroTotal;
  }

  /** findTotal's second loop: the largest first `$` amount of any line, starting from 0. */
  method FindMaxAmount(lines: seq<string>) returns (maxAmount: real)
    ensures maxAmount == MaxAmount(lines)
  {
    maxAmount := 0.0;
    for i := 0 to |lines|
      invariant maxAmount == MaxAmount(lines[..i])
    {
      MaxAmountStep(lines, i);
      ghost var before := maxAmount;
      var priceMatch := MatchPrice(lines[i]);
      if priceMatch.Some? {
        var amount := ParseFloat(priceMatch.value.number);
        if amount > maxAmount {
          maxAmount := amount;
        }
      }
      assert maxAmount == Raise(before, PriceAmount(lines[i]));
    }
    assert lines[..|lines|] == lines;
  }

  // ---------------------------------------------------------------------
  // findItems

  /** `line.replace(pricePattern, '')`: the line without its first `$` amount. */
  function RemovePrice(line: string, p: PriceMatch): string
    requires p.index + 1 + |p.number| <= |line|
  {
    line[..p.index] + line[p.index + 1 + |p.number|..]
  }

  /**
   * The item one line yields: from the item pattern when it matches; else,
   * from a `$` amount on a line longer than 10 characters that does not
   * mention "total" in any case, named by the rest of the line when that
   * is longer than 2 characters.
   */
  function LineItemOf(line: string): Option<LineItem> {
    match MatchItem(line)
    case Some(m) => Some(LineItem(Trim(m.name), m.quantity, ToFixed2(ParseFloat(m.price))))
    case None =>
      match MatchPrice(line)
      case None => None
      case Some(p) =>
        if |line| > 10 && !Includes(ToLower(line), "total") then
          var name := Trim(RemovePrice(line, p));
          if |name| > 2 then Some(LineItem(name, DefaultQuantity, ToFixed2(ParseFloat(p.number)))) else None
        else None
  }

  /** What each line contributes to findItems, in order. */
  function ItemOptions(ls: seq<string>): seq<Option<LineItem>> {
    MapSeq(LineItemOf, ls)
  }

  /** Every item findItems' loop collects, in line order, before the cap. */
  function Collect(ls: seq<string>): seq<LineItem> {
    Values(ItemOptions(ls))
  }

  /** What findItems returns: the first ten collected items. */
  function ItemsOf(lines: seq<string>): seq<LineItem> {
    var c := Collect(lines);
    c[..Min(MaxItems, |c|)]
  }

  /** An item-pattern line gives the trimmed name, the quantity as written and the price to two decimals. */
  lemma PatternItem(line: string)
    requires MatchItem(line).Some?
    ensures var m := MatchItem(line).value;
      LineItemOf(line) == Some(LineItem(Trim(m.name), m.quantity, ToFixed2(ParseFloat(m.price)))) &&
      IsNumeral(m.quantity) && IsFixed2(ToFixed2(ParseFloat(m.price)))
  {
    MatchItemGroups(line, MatchItem(line).value);
  }

  /**
   * A line the item pattern misses still gives an item exactly when it has a
   * `$` amount, is longer than 10 characters, has no "total" in any case and
   * leaves a name longer than 2 characters; the quantity is then "1".
   */
  lemma PriceOnlyItem(line: string)
    requires MatchItem(line).None?
    ensures LineItemOf(line).Some? <==>
      MatchPrice(line).Some? && |line| > 10 && !Includes(ToLower(line), "total") &&
      |Trim(RemovePrice(line, MatchPrice(line).value))| > 2
    ensures LineItemOf(line).Some? ==>
      var p := MatchPrice(line).value;
      LineItemOf(line).value == LineItem(Trim(RemovePrice(line, p)), DefaultQuantity, ToFixed2(ParseFloat(p.number)))
  {
  }

  /** A line that mentions "total" in any case yields an item only through the item pattern. */
  lemma TotalLineNotPriceItem(line: string, j: nat)
    requires MatchItem(line).None?
    requires j + 5 <= |line| && forall k :: 0 <= k < 5 ==> AsciiLower(line[j + k]) == "total"[k]
    ensures LineItemOf(line).None?
  {
    var low := ToLower(line);
    assert low[j..j + 5] == "total";
    assert OccursAt(low, "total", j);
  }

  /** Every collected item is what some line yields, and there is at most one per line. */
  lemma CollectSound(ls: seq<string>)
    ensures |Collect(ls)| <= |ls|
    ensures forall it :: it in Collect(ls) ==> exists j :: 0 <= j < |ls| && LineItemOf(ls[j]) == Some(it)
  {
    var xs := ItemOptions(ls);
    ValuesSound(xs);
    forall it | it in Collect(ls)
      ensures exists j :: 0 <= j < |ls| && LineItemOf(ls[j]) == Some(it)
    {
      var j :| 0 <= j < |xs| && xs[j] == Some(it);
      assert LineItemOf(ls[j]) == Some(it);
    }
  }

  /** Items keep line order: the items of a run of lines are those of its first part, then its second. */
  lemma CollectAppend(a: seq<string>, b: seq<string>)
    ensures Collect(a + b) == Collect(a) + Collect(b)
  {
    MapAppend(LineItemOf, a, b);
    ValuesAppend(ItemOptions(a), ItemOptions(b));
  }

  /** At most ten items, the first ten that the lines yield in order. */
  lemma ItemsOfBounded(lines: seq<string>)
    ensures |ItemsOf(lines)| == Min(MaxItems, |Collect(lines)|) <= MaxItems
    ensures ItemsOf(lines) <= Collect(lines)
  {
  }

  /** Every item's price has two decimals and a quantity that is a numeral or "1". */
  lemma CollectWellFormed(ls: seq<string>)
    ensures forall it :: it in Collect(ls) ==> IsFixed2(it.price) && IsNumeral(it.quantity)
  {
    CollectSound(ls);
    forall it | it in Collect(ls) ensures IsFixed2(it.price) && IsNumeral(it.quantity) {
      var j :| 0 <= j < |ls| && LineItemOf(ls[j]) == Some(it);
      LineItemWellFormed(ls[j]);
    }
  }

  /** The item a line gives has a two-decimal price and a quantity that is a numeral. */
  lemma LineItemWellFormed(line: string)
    ensures LineItemOf(line).Some? ==>
      IsFixed2(LineItemOf(line).value.price) && IsNumeral(LineItemOf(line).value.quantity)
  {
    if MatchItem(line).Some? {
      PatternItem(line);
    } else {
      assert "1"[..1] == "1";
    }
  }

  lemma CollectStep(lines: seq<string>, i: nat)
    requires i < |lines|
    ensures Collect(lines[..i + 1]) ==
      Collect(lines[..i]) + match LineItemOf(lines[i]) case Some(it) => [it] case None => []
  {
    MapStep(LineItemOf, lines, i);
    var xs := ItemOptions(lines[..i + 1]);
    assert xs[..i] == ItemOptions(lines[..i]);
  }

  method FindItems(lines: seq<string>) returns (r: seq<LineItem>)
    ensures r == ItemsOf(lines)
  {
    var items: seq<LineItem> := [];
    for i := 0 to |lines|
      invariant items == Collect(lines[..i])
    {
      CollectStep(lines, i);
      var line := lines[i];
      var itemMatch := MatchItem(line);
      if itemMatch.Some? {
        var m := itemMatch.value;
        items := items + [LineItem(Trim(m.name), m.quantity, ToFixed2(ParseFloat(m.price)))];
      } else {
        var priceMatch := MatchPrice(line);
        if priceMatch.Some? && |line| > 10 && !Includes(ToLower(line), "total") {
          var price := ToFixed2(ParseFloat(priceMatch.value.number));
          var name := Trim(RemovePrice(line, priceMatch.value));
          if |name| > 2 {
            items := items + [LineItem(name, DefaultQuantity, price)];
          }
        }
      }
    }
    assert lines[..|lines|] == lines;
    return items[..Min(MaxItems, |items|)];
  }

  // ---------------------------------------------------------------------
  // parseReceiptText

  /**
   * What parseReceiptText returns for the recognized text, given today's
   * date as the clock would format it (YYYY-MM-DD).
   */
  function Receipt(text: string, today: string): OcrResult {
    var lines := Lines(text);
    var vendor := VendorOf(lines);
    var dt := DateTimeOf(lines, today);
    var total := TotalOf(lines);
    var items := ItemsOf(lines);
    OcrResult(
      Or(vendor, UnknownVendor),
      Or(dt.date, today),
      Or(dt.time, DefaultTime),
      Or(total, ZeroTotal),
      if |items| > 0 then items else [LineItem(FallbackItemName, DefaultQuantity, Or(total, ZeroTotal))])
  }

  /**
   * Every field of a parsed receipt is filled: a vendor, the date, the time,
   * a two-decimal total and between one and ten items, each priced with two
   * decimals.
   */
  lemma ReceiptWellFormed(text: string, today: string)
    requires today != ""
    ensures var r := Receipt(text, today);
      r.vendor != "" && r.date != "" && r.time != "" && IsFixed2(r.total) &&
      1 <= |r.items| <= MaxItems && forall it :: it in r.items ==> IsFixed2(it.price)
  {
    var lines := Lines(text);
    VendorOfIsCandidate(lines);
    TotalIsFixed2(lines);
    ItemsOfBounded(lines);
    CollectWellFormed(lines);
    var items := ItemsOf(lines);
    forall it | it in items ensures it in Collect(lines) {
      var k :| 0 <= k < |items| && items[k] == it;
      assert Collect(lines)[k] == it;
    }
  }

  /** When no line yields an item, the one item is "Item 1", quantity 1, at the total. */
  lemma ReceiptFallbackItem(text: string, today: string)
    requires Collect(Lines(text)) == []
    ensures var r := Receipt(text, today); r.items == [LineItem(FallbackItemName, DefaultQuantity, r.total)]
  {
    var lines := Lines(text);
    TotalIsFixed2(lines);
  }

  /** With no date on any line the date is today's; with no time on any line the time is 12:00. */
  lemma ReceiptDefaults(text: string, today: string)
    ensures (forall j :: 0 <= j < |Lines(text)| ==> MatchDate(Lines(text)[j]).None?) ==> Receipt(text, today).date == today
    ensures (forall j :: 0 <= j < |Lines(text)| ==> MatchTime(Lines(text)[j]).None?) ==> Receipt(text, today).time == DefaultTime
  {
    DateOfEmpty(Lines(text));
    TimeOfEmpty(Lines(text));
  }

  method ParseReceiptText(text: string, today: string) returns (r: OcrResult)
    ensures r == Receipt(text, today)
  {
    var lines := Lines(text);
    var vendor := FindVendor(lines);
    var dt := FindDateTime(lines, today);
    var total := FindTotal(lines);
    var items := FindItems(lines);
    return OcrResult(
      Or(vendor, UnknownVendor),
      Or(dt.date, today),
      Or(dt.time, DefaultTime),
      Or(total, ZeroTotal),
      if |items| > 0 then items else [LineItem(FallbackItemName, DefaultQuantity, Or(total, ZeroTotal))]);
  }
}
