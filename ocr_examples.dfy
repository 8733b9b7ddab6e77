/** Receipts worked through by hand. */
module OcrExamples {
  import opened Options
  import opened Scan
  import opened Seqs
  import opened JsString
  import opened JsNumber
  import opened OcrPatterns
  import opened Ocr

  /** "23.45" is a numeral, and parseFloat then toFixed(2) gives it back. */
  lemma Amount2345()
    ensures IsNumeral("23.45") && ToFixed2(ParseFloat("23.45")) == "23.45"
  {
    CanonicalFixed2("23.45");
  }

  lemma TotalLineLabel()
    ensures TotalAt("Total: $23.45", 0) == Some(TotalSpan(5, 2, 1))
  {
    var s := "Total: $23.45";
    assert WordAt(s, 0, "total");
    assert AllIn(s, 5, 7, ColonOrSpace);
    TotalAtIsEngineMatch(s, 0, 5, 2, 1);
  }

  lemma TotalLineNumber()
    ensures var s := "Total: $23.45"; NumeralEnd(s, 8) == 13 && s[8..13] == "23.45"
  {
    var s := "Total: $23.45";
    assert s[8..13] == "23.45";
    Amount2345();
    NumeralEndAt(s, 8, 13);
  }

  lemma TotalLine()
    ensures MatchTotal("Total: $23.45") == Some(TotalMatch(0, "23.45"))
  {
    var s := "Total: $23.45";
    TotalLineLabel();
    TotalLineNumber();
    FirstAt(TotalProbe(s), 0, |s| + 1, 0);
  }

  /** A labelled total wins over a larger unlabelled amount. */
  lemma LabelledBeatsLarger()
    ensures TotalOf(["Total: $23.45", "$99.00"]) == "23.45"
  {
    TotalLine();
    Amount2345();
    LabelledTotalWins(["Total: $23.45", "$99.00"], 0);
  }

  // "3/5/24 12:30 PM": a two-digit year in the 2000s, and 12 PM is noon.

  lemma DateLineMonthRun()
    ensures Run("3/5/24 12:30 PM", 0, Digit) == 1
  {
    RunIs("3/5/24 12:30 PM", 0, 1, Digit);
  }

  lemma DateLineDayRun()
    ensures Run("3/5/24 12:30 PM", 2, Digit) == 1
  {
    RunIs("3/5/24 12:30 PM", 2, 3, Digit);
  }

  lemma DateLineYearRun()
    ensures Run("3/5/24 12:30 PM", 4, Digit) == 2
  {
    RunIs("3/5/24 12:30 PM", 4, 6, Digit);
  }

  lemma DateLineAt()
    ensures DateAt("3/5/24 12:30 PM", 0) == Some(DateSpan(1, 1, 2))
  {
    var s := "3/5/24 12:30 PM";
    DateLineMonthRun();
    DateLineDayRun();
    DateLineYearRun();
    DateAtIs(s, 0, 1, 1, 2);
  }

  lemma DateLineGroups()
    ensures var s := "3/5/24 12:30 PM"; s[0..1] == "3" && s[2..3] == "5" && s[4..6] == "24"
  {
  }

  lemma DateLine()
    ensures MatchDate("3/5/24 12:30 PM") == Some(DateMatch(0, "3", "5", "24"))
  {
    var s := "3/5/24 12:30 PM";
    DateLineAt();
    FirstAt(DateProbe(s), 0, |s| + 1, 0);
    DateLineGroups();
  }

  lemma DateLineNormalized()
    ensures NormalizeDate("3", "5", "24") == "2024-03-05"
  {
    assert PadStart("3", 2) == "03";
    assert PadStart("5", 2) == "05";
  }

  lemma TimeLineAt()
    ensures TimeAt("3/5/24 12:30 PM", 7) == Some(2)
    ensures forall j: nat :: j < 7 ==> TimeAt("3/5/24 12:30 PM", j).None?
  {
    var s := "3/5/24 12:30 PM";
    RunIs(s, 7, 9, Digit);
    assert s[..9] == "3/5/24 12";
    NoTimeBeforeColon(s, 9);
  }

  lemma TimeLine()
    ensures MatchTime("3/5/24 12:30 PM") == Some(TimeMatch(7, "12", "30", Pm))
  {
    var s := "3/5/24 12:30 PM";
    TimeLineAt();
    TimeLineMeridiem();
    assert s[7..9] == "12" && s[10..12] == "30";
    MatchTimeWith(s, 7, 2, "12", "30", Pm);
  }

  /** A time match, given where it starts and its groups. */
  lemma MatchTimeWith(s: string, i: nat, h: nat, hours: string, minutes: string, meridiem: Meridiem)
    requires TimeAt(s, i) == Some(h) && i + h + 3 <= |s|
    requires forall j: nat :: j < i ==> TimeAt(s, j).None?
    requires s[i..i + h] == hours && s[i + h + 1..i + h + 3] == minutes && MeridiemAfter(s, i + h + 3) == meridiem
    ensures MatchTime(s) == Some(TimeMatch(i, hours, minutes, meridiem))
  {
    MatchTimeIs(s, i, h);
  }

  lemma TimeLineMeridiem()
    ensures MeridiemAfter("3/5/24 12:30 PM", 12) == Pm
  {
    var s := "3/5/24 12:30 PM";
    RunIs(s, 12, 13, Space);
    assert "am"[0] == 'a' && AsciiLower(s[13 + 0]) == 'p';
    assert !WordAt(s, 13, "am");
    assert WordAt(s, 13, "pm");
  }

  lemma Twelve()
    ensures AllDigits("12") && DigitsValue("12") == 12
  {
    assert "12"[..1] == "1";
    assert "1"[..0] == [];
    assert DigitsValue("1") == 1;
  }

  lemma NoonFormatted()
    ensures FormatTime(TimeMatch(7, "12", "30", Pm)) == "12:30"
  {
    Twelve();
    assert HourText(TimeMatch(7, "12", "30", Pm)) == "12";
    assert PadStart("12", 2) == "12";
  }

  /** "3/5/24 12:30 PM" is dated 2024-03-05 at 12:30. */
  lemma DateAndTime(today: string)
    ensures DateTimeOf(["3/5/24 12:30 PM"], today) == DateTime("2024-03-05", "12:30")
  {
    DateLine();
    DateLineNormalized();
    DateIsFirstMatch(["3/5/24 12:30 PM"], 0);
    TimeLine();
    NoonFormatted();
    TimeIsFirstMatch(["3/5/24 12:30 PM"], 0);
  }

  // "12:15 AM": 12 AM is midnight, and a line without a date leaves today's date.

  lemma MidnightLine()
    ensures MatchTime("12:15 AM") == Some(TimeMatch(0, "12", "15", Am))
  {
    var s := "12:15 AM";
    RunIs(s, 0, 2, Digit);
    assert TimeAt(s, 0) == Some(2);
    FirstAt(TimeProbe(s), 0, |s| + 1, 0);
    RunIs(s, 5, 6, Space);
    assert WordAt(s, 6, "am");
    assert s[0..2] == "12" && s[3..5] == "15";
  }

  lemma MidnightFormatted()
    ensures FormatTime(TimeMatch(0, "12", "15", Am)) == "00:15"
  {
    Twelve();
    assert HourText(TimeMatch(0, "12", "15", Am)) == "00";
    assert PadStart("00", 2) == "00";
  }

  /** "12:15 AM" is at 00:15, dated today. */
  lemma Midnight(today: string)
    ensures DateTimeOf(["12:15 AM"], today) == DateTime(today, "00:15")
  {
    NoDateWithoutSeparator("12:15 AM");
    DateOfEmpty(["12:15 AM"]);
    MidnightLine();
    MidnightFormatted();
    TimeIsFirstMatch(["12:15 AM"], 0);
  }

  // "$4.50" and "$12.00" with no label: the larger amount is the total.

  lemma PriceLine(s: string, number: string)
    requires |s| == |number| + 1 && s[0] == '$' && s[1..] == number
    requires IsFixed2(number)
    ensures MatchPrice(s) == Some(PriceMatch(0, number))
    ensures PriceAmount(s) == Some(Fixed2Cents(number) as real / 100.0)
  {
    ParseFixed2(number);
    assert IsDigit(s[1]) by {
      assert s[1] == number[0];
      assert number[0] in number[..|number| - 3];
    }
    assert PriceAt(s, 0) == Some(1);
    FirstAt(PriceProbe(s), 0, |s| + 1, 0);
    assert s[1..|s|] == number;
    NumeralEndAt(s, 1, |s|);
    assert MatchPrice(s) == Some(PriceMatch(0, s[1..|s|]));
  }

  lemma Cents450()
    ensures IsFixed2("4.50") && Fixed2Cents("4.50") == 450
  {
    assert "4.50"[..1] == "4" && "4.50"[2..] == "50";
    TwoDigits("50");
    assert DigitsValue("4") == 4 by {
      assert "4"[..0] == [];
    }
  }

  lemma Cents1200()
    ensures IsFixed2("12.00") && Fixed2Cents("12.00") == 1200
  {
    assert "12.00"[..2] == "12" && "12.00"[3..] == "00";
    TwoDigits("00");
    Twelve();
  }

  lemma TwoAmounts()
    ensures PriceAmount("$4.50") == Some(4.5) && PriceAmount("$12.00") == Some(12.0)
  {
    Cents450();
    Cents1200();
    PriceLine("$4.50", "4.50");
    PriceLine("$12.00", "12.00");
  }

  lemma LargestOfTwo()
    ensures MaxAmount(["$4.50", "$12.00"]) == 12.0
  {
    AmountsOfTwo();
    MaxOfTwo(4.5, 12.0);
  }

  lemma AmountsOfTwo()
    ensures AmountsOf(["$4.50", "$12.00"]) == [Some(4.5), Some(12.0)]
  {
    TwoAmounts();
  }

  lemma MaxOfTwo(x: real, y: real)
    requires 0.0 <= x <= y
    ensures MaxOf([Some(x), Some(y)]) == y
  {
    var xs := [Some(x), Some(y)];
    assert xs[..1] == [Some(x)] && xs[..1][..0] == [];
    assert MaxOf(xs[..1]) == x;
    assert xs[1] == Some(y);
  }

  lemma Fixed12()
    ensures ToFixed2(12.0) == "12.00"
  {
    Cents1200();
    CanonicalFixed2("12.00");
    ParseFixed2("12.00");
  }

  lemma NoLabels()
    ensures MatchTotal("$4.50").None? && MatchTotal("$12.00").None?
  {
    NoTotalWithoutLabel("$4.50");
    NoTotalWithoutLabel("$12.00");
  }

  /** "$4.50" then "$12.00", with no labelled line, total 12.00. */
  lemma LargestAmount()
    ensures TotalOf(["$4.50", "$12.00"]) == "12.00"
  {
    NoLabels();
    var lines := ["$4.50", "$12.00"];
    assert forall j :: 0 <= j < |lines| ==> lines[j] == "$4.50" || lines[j] == "$12.00";
    UnlabelledTotal(lines);
    LargestOfTwo();
    Fixed12();
  }

  // "Bananas 2 $3.00": the item pattern takes the shortest name.

  lemma BananasQuantity()
    ensures QuantityEnd("Bananas 2 $3.00", 7) == Some(9)
  {
    var s := "Bananas 2 $3.00";
    RunIs(s, 7, 8, Space);
    assert s[8..9] == "2";
    RunIs("2", 0, 1, Digit);
    NumeralEndAt(s, 8, 9);
    QuantityEndIs(s, 7, 1, 9);
  }

  lemma BananasDollar()
    ensures DollarAfter("Bananas 2 $3.00", 9) == Some(1)
  {
    var s := "Bananas 2 $3.00";
    RunIs(s, 9, 10, Space);
    DollarAfterIs(s, 9, 1);
  }

  lemma BananasPrice()
    ensures var s := "Bananas 2 $3.00"; NumeralEnd(s, 11) == 15 && s[11..15] == "3.00"
  {
    var s := "Bananas 2 $3.00";
    assert s[11..15] == "3.00";
    CanonicalFixed2("3.00");
    NumeralEndAt(s, 11, 15);
  }

  lemma BananasTail()
    ensures TailAt("Bananas 2 $3.00", 7) == Some(TailSpan(1, 9, 1))
  {
    var s := "Bananas 2 $3.00";
    BananasQuantity();
    BananasDollar();
    RunIs(s, 7, 8, Space);
    TailAtIs(s, 7, 1, 9, 1);
  }

  /** No tail starts inside the word "Bananas", so the lazy name stops before the space. */
  lemma BananasNoEarlierTail()
    ensures forall n :: 1 <= n < 7 ==> TailAt("Bananas 2 $3.00", n).None?
  {
    var s := "Bananas 2 $3.00";
    forall n | 1 <= n < 7 ensures TailAt(s, n).None? {
      assert !IsSpace(s[n]) by {
        if n == 1 {} else if n == 2 {} else if n == 3 {} else if n == 4 {} else if n == 5 {} else {}
      }
      NoTailWithoutSpace(s, n);
    }
  }

  lemma {:induction false} BananasLazy(n: nat)
    requires 1 <= n <= 7
    ensures LazyItemAt("Bananas 2 $3.00", 0, n) == Some((7, TailSpan(1, 9, 1)))
    decreases 7 - n
  {
    var s := "Bananas 2 $3.00";
    assert !IsLineTerminator(s[n - 1]) by {
      if n == 1 {} else if n == 2 {} else if n == 3 {} else if n == 4 {} else if n == 5 {} else if n == 6 {} else {}
    }
    if n == 7 {
      BananasTail();
    } else {
      BananasNoEarlierTail();
      BananasLazy(n + 1);
    }
  }

  lemma BananasGroups()
    ensures var s := "Bananas 2 $3.00";
      IsDigit(s[11]) && s[0..7] == "Bananas" && s[8..9] == "2" && s[11..NumeralEnd(s, 11)] == "3.00"
  {
    BananasPrice();
  }

  lemma BananasMatch()
    ensures MatchItem("Bananas 2 $3.00") == Some(ItemMatch(0, "Bananas", "2", "3.00"))
  {
    BananasFirst();
    BananasGroups();
    MatchAtStart("Bananas 2 $3.00", 7, TailSpan(1, 9, 1), "Bananas", "2", "3.00");
  }

  lemma BananasFirst()
    ensures ItemAt("Bananas 2 $3.00", 0) == Some((7, TailSpan(1, 9, 1)))
  {
    BananasLazy(1);
  }

  /** An item match at the start of a line, given its three groups. */
  lemma MatchAtStart(s: string, m: nat, t: TailSpan, name: string, quantity: string, price: string)
    requires ItemAt(s, 0) == Some((m, t))
    requires m + t.w <= t.e && t.e + t.w2 + 1 < |s| && IsDigit(s[t.e + t.w2 + 1])
    requires s[0..m] == name && s[m + t.w..t.e] == quantity && s[t.e + t.w2 + 1..NumeralEnd(s, t.e + t.w2 + 1)] == price
    ensures MatchItem(s) == Some(ItemMatch(0, name, quantity, price))
  {
    MatchItemIs(s, 0, m, t);
  }

  lemma BananasItem()
    ensures LineItemOf("Bananas 2 $3.00") == Some(LineItem("Bananas", "2", "3.00"))
  {
    var s := "Bananas 2 $3.00";
    BananasMatch();
    PatternItem(s);
    BananasName();
    Price300();
  }

  lemma BananasName()
    ensures Trim("Bananas") == "Bananas"
  {
    TrimKeeps("Bananas");
  }

  lemma Price300()
    ensures ToFixed2(ParseFloat("3.00")) == "3.00"
  {
    CanonicalFixed2("3.00");
  }

  /** "Bananas 2 $3.00" is 2 Bananas at 3.00. */
  lemma Bananas()
    ensures ItemsOf(["Bananas 2 $3.00"]) == [LineItem("Bananas", "2", "3.00")]
  {
    BananasItem();
    ItemsOfOne("Bananas 2 $3.00", LineItem("Bananas", "2", "3.00"));
  }

  /** A receipt of one line yields that line's item and nothing else. */
  lemma ItemsOfOne(line: string, it: LineItem)
    requires LineItemOf(line) == Some(it)
    ensures ItemsOf([line]) == [it]
  {
    var lines := [line];
    CollectStep(lines, 0);
    assert lines[..0] == [] && lines[..1] == lines;
  }

  // No vendor among the first lines.

  /** A street number, a price and a two-letter line: the vendor is "Unknown Vendor". */
  lemma NoVendor()
    ensures VendorOf(["123 Main St", "$5.00", "Hi"]) == UnknownVendor
  {
    var lines := ["123 Main St", "$5.00", "Hi"];
    TrimKeeps(lines[0]);
    TrimKeeps(lines[1]);
    TrimKeeps(lines[2]);
    assert '$' in lines[1];
    forall k | 0 <= k < Min(VendorWindow, |lines|) ensures !IsVendorLine(Trim(lines[k])) {
      if k == 0 {
      } else if k == 1 {
      } else {
        assert k == 2;
      }
    }
    VendorFallback(lines);
  }
}
