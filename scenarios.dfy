/** Worked runs on small tables: a formatted row converted at the 2023 rate, a row whose date
    does not parse dropped from the report, and a profit that is not a number ending the run. */
module Scenarios {
  import opened Values
  import opened Strings
  import opened Amounts
  import opened Calendar
  import opened Rates
  import opened Pipeline
  import opened PipelineProperties
  import opened RunProperties

  // ----- Amounts -----

  /** `"$` followed by a whole number cleans to that number. */
  lemma DollarsClean(digits: string, x: real)
    requires |digits| > 0 && AllDigits(digits) && x == DigitsValue(digits) as real
    ensures CleanCurrency(Text("$" + digits)) == Ok(Num(x))
  {
    DollarsResidue(digits);
    WholeLiteral(digits, x);
    CleanCurrencyReadsLiteral("$" + digits, Literal(Unsigned, digits, false, []));
  }

  lemma DollarsResidue(digits: string)
    requires |digits| > 0 && AllDigits(digits)
    ensures Residue("$" + digits) == digits
  {
    assert DropMarks("$" + digits) == DropMarks(digits) by {
      DropMarksIgnoresMark([], '$', digits);
      assert [] + ['$'] + digits == "$" + digits && [] + digits == digits;
    }
    assert forall i :: 0 <= i < |digits| ==> !IsCurrencyMark(digits[i]) && !IsSpace(digits[i]);
    ResidueOfPlainText(digits);
  }

  lemma WholeLiteral(digits: string, x: real)
    requires |digits| > 0 && AllDigits(digits) && x == DigitsValue(digits) as real
    ensures Spells(Literal(Unsigned, digits, false, []), digits)
    ensures Literal(Unsigned, digits, false, []).Value() == x
  {
    WholeSpelling(digits);
    WholeValue(digits);
  }

  lemma WholeSpelling(digits: string)
    ensures Literal(Unsigned, digits, false, []).Spelling() == digits
  {
    assert "" + digits + "" + [] == digits;
  }

  lemma WholeValue(digits: string)
    requires |digits| > 0 && AllDigits(digits)
    ensures Literal(Unsigned, digits, false, []).Valid()
    ensures Literal(Unsigned, digits, false, []).Value() == DigitsValue(digits) as real
  {
    var l := Literal(Unsigned, digits, false, []);
    assert l.whole + l.frac == digits;
    assert Pow10(|l.frac|) == 1;
  }

  lemma HundredDollars()
    ensures CleanCurrency(Text("$100")) == Ok(Num(100.0))
  {
    assert DigitsValue("1") == 1 by { assert "1"[..0] == ""; }
    assert DigitsValue("10") == 10 by { assert "10"[..1] == "1"; }
    assert DigitsValue("100") == 100 by { assert "100"[..2] == "10"; }
    DollarsClean("100", 100.0);
  }

  lemma TwentyDollars()
    ensures CleanCurrency(Text("$20")) == Ok(Num(20.0))
  {
    assert DigitsValue("2") == 2 by { assert "2"[..0] == ""; }
    assert DigitsValue("20") == 20 by { assert "20"[..1] == "2"; }
    DollarsClean("20", 20.0);
  }

  lemma FreeIsInvalid()
    ensures CleanCurrency(Text("free")) == Err(InvalidAmount("free"))
  {
    FreeRefused();
    assert forall i :: 0 <= i < 4 ==> !IsCurrencyMark("free"[i]);
    ResidueOfPlainText("free");
  }

  // ----- The month key -----

  const June15: Date := CalendarDate(2023, 6, 15)

  lemma June15Key()
    ensures YearMonth(June15) == "2023-06"
  {
    YearDigits();
    MonthDigits();
    assert "2023" + "-" + "06" == "2023-06";
  }

  lemma YearDigits()
    ensures PadDigits(2023, 4) == "2023"
  {
    assert PadDigits(2, 1) == PadDigits(0, 0) + [DigitChar(2)] == "2";
    assert PadDigits(20, 2) == PadDigits(2, 1) + [DigitChar(0)] == "20";
    assert PadDigits(202, 3) == PadDigits(20, 2) + [DigitChar(2)] == "202";
    assert PadDigits(2023, 4) == PadDigits(202, 3) + [DigitChar(3)] == "2023";
  }

  lemma MonthDigits()
    ensures PadDigits(6, 2) == "06"
  {
    assert PadDigits(0, 1) == PadDigits(0, 0) + [DigitChar(0)] == "0";
    assert PadDigits(6, 2) == PadDigits(0, 1) + [DigitChar(6)] == "06";
  }

  // ----- Tables -----

  /** Column names with no whitespace around them are left as they are. */
  lemma TrimmedHeader(names: seq<string>)
    requires forall i :: 0 <= i < |names| ==> names[i] != [] && !IsSpace(names[i][0]) && !IsSpace(names[i][|names[i]| - 1])
    ensures TrimNames(names) == names
  {
    forall i | 0 <= i < |names|
      ensures TrimNames(names)[i] == names[i]
    {
      assert names[i] == [] + names[i] + [];
      StripPadding(names[i], [], names[i], []);
    }
  }

  const Header := [OrderDateName, CategoryName, SalesName, ProfitName, SegmentName, StateName,
                   QuantityName, OrderIdName, CustomerIdName]

  lemma HeaderTrimmed()
    ensures TrimNames(Header) == Header && Distinct(Header)
  {
    TrimmedHeader(Header);
  }

  /** Where each column of `Header` sits. */
  lemma HeaderPositions()
    ensures Lookup(Header, OrderDateName) == Ok(0) && Lookup(Header, CategoryName) == Ok(1)
    ensures Lookup(Header, SalesName) == Ok(2) && Lookup(Header, ProfitName) == Ok(3)
    ensures Lookup(Header, SegmentName) == Ok(4) && Lookup(Header, StateName) == Ok(5)
    ensures Lookup(Header, QuantityName) == Ok(6) && Lookup(Header, OrderIdName) == Ok(7)
    ensures Lookup(Header, CustomerIdName) == Ok(8)
  {
    HeaderTrimmed();
    forall k | 0 <= k < |Header|
      ensures Lookup(Header, Header[k]) == Ok(k)
    {
      assert Header[k] in Header;
    }
  }

  /** An order placed on `date` with no category, sales of "$100", profit `profit` and 2 items. */
  function Order(date: string, profit: string): Row {
    [Text(date), Missing, Text("$100"), Text(profit), Text("Consumer"), Text("Gujarat"), Num(2.0), Text("A1"), Text("C1")]
  }

  /** Orders placed on `dates`, each with a profit of "$20". */
  function Orders(dates: seq<string>): (rows: seq<Row>)
    ensures |rows| == |dates| && forall i :: 0 <= i < |dates| ==> rows[i] == Order(dates[i], "$20")
  {
    seq(|dates|, i requires 0 <= i < |dates| => Order(dates[i], "$20"))
  }

  /** What the amounts of an order clean to. */
  predicate CleansOrders(clean: Cleaner) {
    clean(Text("$100")) == Ok(Num(100.0)) && clean(Text("$20")) == Ok(Num(20.0))
  }

  /** `clean_currency`, as the cleaner the run applies. */
  const CurrencyCleaner: Cleaner := CleanCurrency

  lemma CurrencyCleansOrders()
    ensures CleansOrders(CurrencyCleaner)
  {
    HundredDollars();
    TwentyDollars();
  }

  /** A table of such orders gets through steps A to C. */
  lemma OrdersNormalize(dates: seq<string>, clean: Cleaner)
    requires CleansOrders(clean)
    ensures var t := Table(Header, Orders(dates));
      WellFormed(t) && Distinct(TrimNames(t.header)) && HasRunColumns(t) && Normalized(t, clean).Ok?
  {
    var t := Table(Header, Orders(dates));
    OrdersHaveRunColumns(dates);
    HeaderTrimmed();
    HeaderPositions();
    var rows3 := OrdersClean(dates, clean);
    StagesSucceed(t, clean, rows3);
  }

  lemma OrdersClean(dates: seq<string>, clean: Cleaner) returns (rows3: seq<Row>)
    requires CleansOrders(clean)
    ensures HasWidth(Orders(dates), 9)
    ensures Cleaned(Filled(Filled(Orders(dates), 1, Text(Uncategorized)), 2, Num(0.0)), 2, clean) == Ok(rows3)
    ensures HasWidth(rows3, 9) && Cleaned(rows3, 3, clean).Ok?
  {
    FilledOrders(dates);
    rows3 := OrderAmountsClean(Filled(Filled(Orders(dates), 1, Text(Uncategorized)), 2, Num(0.0)), clean);
  }

  lemma FilledOrders(dates: seq<string>)
    ensures var rows2 := Filled(Filled(Orders(dates), 1, Text(Uncategorized)), 2, Num(0.0));
      |rows2| == |dates| && forall i :: 0 <= i < |rows2| ==> |rows2[i]| == 9 && rows2[i][2] == Text("$100") && rows2[i][3] == Text("$20")
  {
    var rows1 := Filled(Orders(dates), 1, Text(Uncategorized));
    var rows2 := Filled(rows1, 2, Num(0.0));
    forall i | 0 <= i < |rows2|
      ensures |rows2[i]| == 9 && rows2[i][2] == Text("$100") && rows2[i][3] == Text("$20")
    {
      assert rows1[i] == FillCell(Orders(dates)[i], 1, Text(Uncategorized));
      assert rows2[i] == FillCell(rows1[i], 2, Num(0.0));
    }
  }

  lemma OrderAmountsClean(rows2: seq<Row>, clean: Cleaner) returns (rows3: seq<Row>)
    requires CleansOrders(clean)
    requires forall i :: 0 <= i < |rows2| ==> |rows2[i]| == 9 && rows2[i][2] == Text("$100") && rows2[i][3] == Text("$20")
    ensures Cleaned(rows2, 2, clean) == Ok(rows3) && HasWidth(rows3, 9) && Cleaned(rows3, 3, clean).Ok?
  {
    rows3 := Cleaned(rows2, 2, clean).value;
    forall i | 0 <= i < |rows2|
      ensures |rows3[i]| == 9 && rows3[i][3] == Text("$20")
    {
      assert rows3[i] == CleanCell(rows2[i], 2, clean);
    }
  }

  lemma StagesSucceed(t: Table, clean: Cleaner, rows3: seq<Row>)
    requires WellFormed(t) && TrimNames(t.header) == Header
    requires Lookup(Header, CategoryName) == Ok(1) && Lookup(Header, SalesName) == Ok(2) && Lookup(Header, ProfitName) == Ok(3)
    requires Cleaned(Filled(Filled(t.rows, 1, Text(Uncategorized)), 2, Num(0.0)), 2, clean) == Ok(rows3)
    requires HasWidth(rows3, |t.header|) && Cleaned(rows3, 3, clean).Ok?
    ensures Normalized(t, clean).Ok?
  {
  }

  // ----- Runs -----

  /** The record app.py exports for an order of 2023-06-15: the category filled in, the
      amounts cleaned, and both converted at the 2023 rate of 82.5. */
  const June15Record := Record("2023-06", Text(Uncategorized), Text("Consumer"), Text("Gujarat"),
                               8250.0, 100.0, Some(1650.0), Some(20.0), Num(2.0), Text("A1"), Text("C1"), 82.5)

  /** A one-order table whose date parses yields one record, converted at the 2023 rate. */
  lemma DatedOrderReported(parse: DateParser)
    requires parse([Text("2023-06-15")]) == [Some(June15)]
    ensures var t := Table(Header, Orders(["2023-06-15"]));
      WellFormed(t) && Distinct(TrimNames(t.header)) && Processed(t, parse, CurrencyCleaner) == Ok(Report(1, [June15Record], 2.0))
  {
    var t := Table(Header, Orders(["2023-06-15"]));
    CurrencyCleansOrders();
    OrdersNormalize(["2023-06-15"], CurrencyCleaner);
    OrdersHaveRunColumns(["2023-06-15"]);
    OneDate(parse);
    FirstOrderRun(t, parse, CurrencyCleaner);
  }

  /** An order whose date does not parse is dropped: it gets no record and its quantity is not
      part of the items sold. */
  lemma UndatedOrderDropped(parse: DateParser)
    requires parse([Text("2023-06-15"), Text("not-a-date")]) == [Some(June15), None]
    ensures var t := Table(Header, Orders(["2023-06-15", "not-a-date"]));
      WellFormed(t) && Distinct(TrimNames(t.header)) && Processed(t, parse, CurrencyCleaner) == Ok(Report(1, [June15Record], 2.0))
  {
    var t := Table(Header, Orders(["2023-06-15", "not-a-date"]));
    CurrencyCleansOrders();
    OrdersNormalize(["2023-06-15", "not-a-date"], CurrencyCleaner);
    OrdersHaveRunColumns(["2023-06-15", "not-a-date"]);
    TwoDates(parse);
    FirstOrderRun(t, parse, CurrencyCleaner);
  }

  /** A table whose only order has no readable date keeps no row, and the run ends with the
      TypeError of the empty rate column instead of a report of 0 records. */
  lemma LoneUndatedOrderFails(parse: DateParser)
    requires parse([Text("not-a-date")]) == [None]
    ensures var t := Table(Header, Orders(["not-a-date"]));
      WellFormed(t) && Distinct(TrimNames(t.header)) && Processed(t, parse, CurrencyCleaner) == Err(NoDatedRows)
  {
    var t := Table(Header, Orders(["not-a-date"]));
    CurrencyCleansOrders();
    OrdersNormalize(["not-a-date"], CurrencyCleaner);
    NoDate(parse);
    UndatedRunFails(t, parse, CurrencyCleaner);
  }

  lemma NoDate(parse: DateParser)
    requires parse([Text("not-a-date")]) == [None]
    ensures var t := Table(Header, Orders(["not-a-date"]));
      WellFormed(t) && OrderDateName in TrimNames(t.header) && KeptPositions(t, parse) == []
  {
    var t := Table(Header, Orders(["not-a-date"]));
    OrdersHaveRunColumns(["not-a-date"]);
    assert ColumnOf(t.rows, 0) == [Text("not-a-date")];
    var none: seq<Option<Date>> := [None];
    assert none[..0] == [];
  }

  lemma OneDate(parse: DateParser)
    requires parse([Text("2023-06-15")]) == [Some(June15)]
    ensures var t := Table(Header, Orders(["2023-06-15"]));
      && WellFormed(t) && HasRunColumns(t) && RawDates(t, parse) == [Some(June15)]
      && KeptPositions(t, parse) == [0] && multiset(RawDates(t, parse))[None] == 0
  {
    var t := Table(Header, Orders(["2023-06-15"]));
    OrdersHaveRunColumns(["2023-06-15"]);
    assert ColumnOf(t.rows, 0) == [Text("2023-06-15")];
    ParsedOne();
  }

  lemma TwoDates(parse: DateParser)
    requires parse([Text("2023-06-15"), Text("not-a-date")]) == [Some(June15), None]
    ensures var t := Table(Header, Orders(["2023-06-15", "not-a-date"]));
      && WellFormed(t) && HasRunColumns(t) && RawDates(t, parse) == [Some(June15), None]
      && KeptPositions(t, parse) == [0] && multiset(RawDates(t, parse))[None] == 1
  {
    var t := Table(Header, Orders(["2023-06-15", "not-a-date"]));
    OrdersHaveRunColumns(["2023-06-15", "not-a-date"]);
    TwoDatesColumn(t.rows);
    ParsedFirstOfTwo();
  }

  lemma TwoDatesColumn(rows: seq<Row>)
    requires rows == Orders(["2023-06-15", "not-a-date"])
    ensures HasWidth(rows, 9) && ColumnOf(rows, 0) == [Text("2023-06-15"), Text("not-a-date")]
  {
  }

  lemma ParsedOne()
    ensures ParsedIndices([Some(June15)]) == [0]
  {
    assert [Some(June15)][..0] == [];
  }

  lemma ParsedFirstOfTwo()
    ensures ParsedIndices([Some(June15), None]) == [0]
    ensures multiset([Some(June15), None])[None] == 1
  {
    assert [Some(June15), None][..1] == [Some(June15)];
    ParsedOne();
  }

  lemma OrdersHaveRunColumns(dates: seq<string>)
    ensures var t := Table(Header, Orders(dates));
      && WellFormed(t) && Distinct(TrimNames(t.header)) && HasRunColumns(t)
      && Col(t, OrderDateName) == 0 && Col(t, QuantityName) == 6
      && RunProjection(t) == Projection(1, 2, 3, 4, 5, 6, 7, 8)
  {
    HeaderTrimmed();
    HeaderPositions();
  }

  /** A run of a table whose first order is the only one kept, with the date 2023-06-15. */
  lemma FirstOrderRun(t: Table, parse: DateParser, clean: Cleaner)
    requires CleansOrders(clean) && |t.rows| >= 1 && t.rows[0] == Order("2023-06-15", "$20")
    requires WellFormed(t) && Distinct(TrimNames(t.header)) && HasRunColumns(t) && Normalized(t, clean).Ok?
    requires Col(t, QuantityName) == 6 && RunProjection(t) == Projection(1, 2, 3, 4, 5, 6, 7, 8)
    requires RawDates(t, parse)[0] == Some(June15) && KeptPositions(t, parse) == [0]
    requires multiset(RawDates(t, parse))[None] == |t.rows| - 1
    ensures Processed(t, parse, clean) == Ok(Report(1, [June15Record], 2.0))
  {
    FirstOrderSold(t, parse, clean);
    var rep := Processed(t, parse, clean).value;
    RunCount(t, parse, clean);
    FirstOrderRecord(t, parse, clean, rep);
    assert rep.records == [June15Record];
  }

  lemma FirstOrderSold(t: Table, parse: DateParser, clean: Cleaner)
    requires |t.rows| >= 1 && t.rows[0] == Order("2023-06-15", "$20")
    requires WellFormed(t) && Distinct(TrimNames(t.header)) && HasRunColumns(t) && Normalized(t, clean).Ok?
    requires Col(t, QuantityName) == 6 && KeptPositions(t, parse) == [0]
    ensures Processed(t, parse, clean).Ok? && Processed(t, parse, clean).value.itemsSold == 2.0
  {
    FirstQuantity(t, parse);
    TwoItems();
    RunItemsSold(t, parse, clean);
  }

  lemma FirstQuantity(t: Table, parse: DateParser)
    requires WellFormed(t) && HasRunColumns(t) && Col(t, QuantityName) == 6 && KeptPositions(t, parse) == [0]
    requires t.rows[0][6] == Num(2.0)
    ensures KeptQuantities(t, parse) == [Num(2.0)]
  {
    var q := KeptQuantities(t, parse);
    assert q[0] == t.rows[0][6];
  }

  lemma FirstOrderRecord(t: Table, parse: DateParser, clean: Cleaner, rep: Report)
    requires CleansOrders(clean) && |t.rows| >= 1 && t.rows[0] == Order("2023-06-15", "$20")
    requires WellFormed(t) && Distinct(TrimNames(t.header)) && HasRunColumns(t)
    requires Processed(t, parse, clean) == Ok(rep) && |rep.records| == 1
    requires RawDates(t, parse)[0] == Some(June15) && KeptPositions(t, parse) == [0]
    requires RunProjection(t) == Projection(1, 2, 3, 4, 5, 6, 7, 8)
    ensures rep.records[0] == June15Record
  {
    RunRecord(t, parse, clean, 0);
    June15Key();
    OrderRecord(rep.records[0], t.rows[0], clean);
  }

  /** A profit that is not a number ends the run with the error naming it, whatever the dates
      parse to: the order's date is no date at all, yet its amounts are cleaned first. */
  lemma FreeProfitAborts(parse: DateParser)
    ensures var t := Table(Header, [Order("not-a-date", "free")]);
      WellFormed(t) && Distinct(TrimNames(t.header)) && Processed(t, parse, CurrencyCleaner) == Err(InvalidAmount("free"))
  {
    var t := Table(Header, [Order("not-a-date", "free")]);
    FreeTable(t);
    FreeCleaned();
    OnlyProfitFails(t, parse, CurrencyCleaner);
  }

  lemma FreeTable(t: Table)
    requires t == Table(Header, [Order("not-a-date", "free")])
    ensures WellFormed(t) && Distinct(TrimNames(t.header)) && |t.rows| == 1
    ensures Lookup(TrimNames(t.header), CategoryName) == Ok(1) && Lookup(TrimNames(t.header), SalesName) == Ok(2)
    ensures Lookup(TrimNames(t.header), ProfitName) == Ok(3)
    ensures t.rows[0][2] == Text("$100") && t.rows[0][3] == Text("free")
  {
    HeaderTrimmed();
    HeaderPositions();
  }

  lemma FreeCleaned()
    ensures CurrencyCleaner(Text("$100")).Ok? && CurrencyCleaner(Text("free")) == Err(InvalidAmount("free"))
  {
    HundredDollars();
    FreeIsInvalid();
  }

  lemma OnlyProfitFails(t: Table, parse: DateParser, clean: Cleaner)
    requires WellFormed(t) && Distinct(TrimNames(t.header)) && |t.rows| == 1
    requires Lookup(TrimNames(t.header), CategoryName) == Ok(1) && Lookup(TrimNames(t.header), SalesName) == Ok(2)
    requires Lookup(TrimNames(t.header), ProfitName) == Ok(3)
    requires clean(t.rows[0][2]).Ok? && clean(t.rows[0][3]).Err?
    ensures Processed(t, parse, clean) == Err(clean(t.rows[0][3]).error)
  {
    SoleRow(t.rows, clean);
    ProfitRunFails(t, parse, clean, 1, 2, 3, 0);
  }

  lemma SoleRow(rows: seq<Row>, clean: Cleaner)
    requires |rows| == 1 && |rows[0]| > 3 && clean(rows[0][2]).Ok? && clean(rows[0][3]).Err?
    ensures forall r :: 0 <= r < |rows| ==> clean(rows[r][2]).Ok?
    ensures HasWidth(rows, |rows[0]|) && FirstFailure(rows, 3, clean, 0)
  {
  }

  lemma TwoItems()
    ensures QuantityTotal([Num(2.0)]) == Ok(2.0)
  {
    assert [Num(2.0)][..0] == [];
    assert QuantityTotal([]) == Ok(0.0);
  }

  lemma OrderRecord(r: Record, raw: Row, clean: Cleaner)
    requires CleansOrders(clean) && raw == Order("2023-06-15", "$20")
    requires FromRow(r, raw, June15, Projection(1, 2, 3, 4, 5, 6, 7, 8), clean)
    requires YearMonth(June15) == "2023-06"
    ensures r == June15Record
  {
    assert r.salesUSD == 100.0 && r.profitUSD == Some(20.0);
    assert r.ibrRate == 82.5;
    assert r.salesINR == 100.0 * 82.5 && r.profitINR.value == 20.0 * 82.5;
  }
}
