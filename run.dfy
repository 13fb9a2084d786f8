/** What a run that succeeds reports (app.py:52-72 and 109), stated over the raw table: the
    processed count, one record per row whose date parsed, what each record holds, and the
    items-sold figure. */
module RunProperties {
  import opened Values
  import opened Calendar
  import opened Rates
  import opened Pipeline

  /** The position of column `name` after the names are trimmed. */
  function Col(t: Table, name: string): (k: nat)
    requires name in TrimNames(t.header)
    ensures k < |t.header| && TrimNames(t.header)[k] == name
  {
    IndexOf(TrimNames(t.header), name)
  }

  /** What `pd.to_datetime` makes of the raw `Order Date` column. */
  function RawDates(t: Table, parse: DateParser): (dates: seq<Option<Date>>)
    requires WellFormed(t) && OrderDateName in TrimNames(t.header)
    ensures |dates| == |t.rows|
  {
    parse(ColumnOf(t.rows, Col(t, OrderDateName)))
  }

  /** Every column the run reads is there once a run succeeds. */
  predicate HasRunColumns(t: Table) {
    var names := TrimNames(t.header);
    && CategoryName in names && SalesName in names && ProfitName in names && OrderDateName in names
    && forall x :: x in ExportedInputs ==> x in names
  }

  // ----- Unfolding a run that succeeds -----

  /** A column the cleaning does not touch is, row for row, the raw column. */
  lemma UntouchedColumn(t: Table, n: Normal, clean: Cleaner, k: nat)
    requires WellFormed(t) && Located(t, n) && NormalRows(t, n, clean)
    requires k < |n.names| && n.names[k] != CategoryName && n.names[k] != SalesName && n.names[k] != ProfitName
    ensures forall i :: 0 <= i < |t.rows| ==> n.rows[i][k] == t.rows[i][k]
    ensures ColumnOf(n.rows, k) == ColumnOf(t.rows, k)
  {
    forall i | 0 <= i < |t.rows|
      ensures n.rows[i][k] == t.rows[i][k]
    {
      assert NormalRow(t.rows[i], n.rows[i], n, clean);
    }
  }

  /** The parts of a successful run after steps A to C: the kept rows, their records and the
      Quantity total over them. */
  lemma FinishedParts(t: Table, n: Normal, parse: DateParser, clean: Cleaner, od: nat, p: Projection,
                      kept: seq<Dated>, rep: Report)
    requires WellFormed(t) && Located(t, n) && NormalRows(t, n, clean)
    requires Lookup(n.names, OrderDateName) == Ok(od)
    requires kept == KeptRows(n.rows, parse(ColumnOf(n.rows, od)))
    requires SelectColumns(n.names, n.category, n.sales, n.profit) == Ok(p)
    requires Finished(t, n, parse, clean) == Ok(rep)
    ensures kept != [] && forall j :: 0 <= j < |kept| ==> Converted(kept[j].row, p)
    ensures rep.processed == |kept| && rep.records == Enriched(kept, p)
    ensures QuantityTotal(QuantityColumn(kept, p.quantity)) == Ok(rep.itemsSold)
  {
    var dates := parse(ColumnOf(n.rows, od));
    assert kept != [];
    assert Exported(t, n, dates, clean) == Ok(rep);
    KeptAreConverted(t, n, p, dates, clean);
  }

  /** A run that succeeds found every column it reads. */
  lemma RunHasColumns(t: Table, parse: DateParser, clean: Cleaner)
    requires WellFormed(t) && Distinct(TrimNames(t.header)) && Processed(t, parse, clean).Ok?
    ensures HasRunColumns(t)
  {
    var n := Normalized(t, clean).value;
    assert Lookup(n.names, OrderDateName).Ok?;
    assert SelectColumns(n.names, n.category, n.sales, n.profit).Ok?;
  }

  /** Where the export reads each of its fields, once the run has found every column. */
  function RunProjection(t: Table): (p: Projection)
    requires HasRunColumns(t)
    ensures p.category < |t.header| && p.sales < |t.header| && p.profit < |t.header|
    ensures p.segment < |t.header| && p.state < |t.header| && p.quantity < |t.header|
    ensures p.orderId < |t.header| && p.customerId < |t.header|
  {
    assert SegmentName in ExportedInputs && StateName in ExportedInputs && QuantityName in ExportedInputs;
    assert OrderIdName in ExportedInputs && CustomerIdName in ExportedInputs;
    Projection(Col(t, CategoryName), Col(t, SalesName), Col(t, ProfitName), Col(t, SegmentName),
               Col(t, StateName), Col(t, QuantityName), Col(t, OrderIdName), Col(t, CustomerIdName))
  }

  /** With distinct names, the column the export finds under a name is the only one with it. */
  lemma SelectedIsRunProjection(t: Table, n: Normal, p: Projection)
    requires Distinct(TrimNames(t.header)) && HasRunColumns(t) && n.names == TrimNames(t.header)
    requires n.category == Col(t, CategoryName) && n.sales == Col(t, SalesName) && n.profit == Col(t, ProfitName)
    requires SelectColumns(n.names, n.category, n.sales, n.profit) == Ok(p)
    ensures p == RunProjection(t)
  {
  }

  /** A successful run, unfolded: the cleaned rows `n`, the rows `kept` whose raw date parsed,
      and the report built from them. */
  lemma RunUnfolds(t: Table, parse: DateParser, clean: Cleaner) returns (n: Normal, kept: seq<Dated>)
    requires WellFormed(t) && Distinct(TrimNames(t.header)) && Processed(t, parse, clean).Ok?
    ensures HasRunColumns(t)
    ensures Normalized(t, clean) == Ok(n) && Located(t, n) && NormalRows(t, n, clean)
    ensures kept == KeptRows(n.rows, RawDates(t, parse)) && kept != []
    ensures forall j :: 0 <= j < |kept| ==> Converted(kept[j].row, RunProjection(t))
    ensures var rep := Processed(t, parse, clean).value;
      && rep.processed == |kept| && rep.records == Enriched(kept, RunProjection(t))
      && QuantityTotal(QuantityColumn(kept, RunProjection(t).quantity)) == Ok(rep.itemsSold)
  {
    RunHasColumns(t, parse, clean);
    n := Normalized(t, clean).value;
    var od := IndexOf(n.names, OrderDateName);
    UntouchedColumn(t, n, clean, od);
    kept := KeptRows(n.rows, parse(ColumnOf(n.rows, od)));
    var p := SelectColumns(n.names, n.category, n.sales, n.profit).value;
    SelectedIsRunProjection(t, n, p);
    FinishedParts(t, n, parse, clean, od, p, kept, Processed(t, parse, clean).value);
  }

  // ----- What a successful run reports -----

  /** The rows the run keeps: the positions whose raw `Order Date` parsed, in order. */
  function KeptPositions(t: Table, parse: DateParser): (idx: seq<nat>)
    requires WellFormed(t) && OrderDateName in TrimNames(t.header)
    ensures forall j :: 0 <= j < |idx| ==> idx[j] < |t.rows|
  {
    ParsedIndices(RawDates(t, parse))
  }

  /** `len(df)` after the date filter is the number of rows less those whose date did not
      parse, and the export has one record per kept row. */
  lemma RunCount(t: Table, parse: DateParser, clean: Cleaner)
    requires WellFormed(t) && Distinct(TrimNames(t.header)) && Processed(t, parse, clean).Ok?
    ensures HasRunColumns(t)
    ensures Processed(t, parse, clean).value.processed == |t.rows| - multiset(RawDates(t, parse))[None]
    ensures |Processed(t, parse, clean).value.records| == Processed(t, parse, clean).value.processed
    ensures |KeptPositions(t, parse)| == Processed(t, parse, clean).value.processed
    ensures Processed(t, parse, clean).value.processed > 0
  {
    var n, kept := RunUnfolds(t, parse, clean);
    KeptRowsFollowIndices(n.rows, RawDates(t, parse));
  }

  /** The cleaned `Profit` cell that carries the amount `a`: a number, or NaN when missing. */
  function ProfitCell(a: Option<real>): Cell {
    if a.Some? then Num(a.value) else Missing
  }

  /** Record `r` comes from the raw row `raw`, dated `date`: its month and rate are those of the
      date, its amounts agree with the rate, its category is the raw one or "Uncategorized",
      its USD amounts are the cleaned raw amounts (a missing sales amount counting as 0), and
      its other fields are the raw cells. */
  predicate FromRow(r: Record, raw: Row, date: Date, p: Projection, clean: Cleaner)
    requires Fits(raw, p)
  {
    && r.yearMonth == YearMonth(date) && r.ibrRate == IbrRate(date) && Consistent(r)
    && r.category == (if raw[p.category].Missing? then Text(Uncategorized) else raw[p.category])
    && clean(if raw[p.sales].Missing? then Num(0.0) else raw[p.sales]) == Ok(Num(r.salesUSD))
    && clean(raw[p.profit]) == Ok(ProfitCell(r.profitUSD))
    && r.segment == raw[p.segment] && r.state == raw[p.state] && r.quantity == raw[p.quantity]
    && r.orderId == raw[p.orderId] && r.customerId == raw[p.customerId]
  }

  /** Record `j` comes from the `j`th row whose raw date parsed, with that date. */
  lemma RunRecord(t: Table, parse: DateParser, clean: Cleaner, j: nat)
    requires WellFormed(t) && Distinct(TrimNames(t.header)) && Processed(t, parse, clean).Ok?
    requires j < |Processed(t, parse, clean).value.records|
    ensures HasRunColumns(t) && j < |KeptPositions(t, parse)|
    ensures var i := KeptPositions(t, parse)[j];
      && RawDates(t, parse)[i].Some?
      && FromRow(Processed(t, parse, clean).value.records[j], t.rows[i], RawDates(t, parse)[i].value, RunProjection(t), clean)
  {
    var n, kept := RunUnfolds(t, parse, clean);
    RunCount(t, parse, clean);
    KeptRowsFollowIndices(n.rows, RawDates(t, parse));
    var i := KeptPositions(t, parse)[j];
    var p := RunProjection(t);
    var r := Processed(t, parse, clean).value.records[j];
    assert r == EnrichRow(kept[j], p);
    assert kept[j] == Dated(n.rows[i], RawDates(t, parse)[i].value);
    assert NormalRow(t.rows[i], n.rows[i], n, clean);
    ProjectionApart(t);
    RecordOfNormalRow(t.rows[i], n, kept[j], p, clean, r);
  }

  /** The exported pass-through columns are none of the three the cleaning touches. */
  lemma ProjectionApart(t: Table)
    requires HasRunColumns(t)
    ensures var p := RunProjection(t);
      && p.segment !in {p.category, p.sales, p.profit} && p.state !in {p.category, p.sales, p.profit}
      && p.quantity !in {p.category, p.sales, p.profit} && p.orderId !in {p.category, p.sales, p.profit}
      && p.customerId !in {p.category, p.sales, p.profit}
  {
  }

  lemma RecordOfNormalRow(raw: Row, n: Normal, d: Dated, p: Projection, clean: Cleaner, r: Record)
    requires |d.row| == |raw| && Converted(d.row, p)
    requires n.category == p.category && n.sales == p.sales && n.profit == p.profit
    requires NormalRow(raw, d.row, n, clean)
    requires p.segment !in {p.category, p.sales, p.profit} && p.state !in {p.category, p.sales, p.profit}
    requires p.quantity !in {p.category, p.sales, p.profit} && p.orderId !in {p.category, p.sales, p.profit}
    requires p.customerId !in {p.category, p.sales, p.profit}
    requires r == EnrichRow(d, p)
    ensures FromRow(r, raw, d.date, p, clean)
  {
  }

  // ----- Items sold -----

  /** The raw `Quantity` cells of the kept rows, in order. */
  function KeptQuantities(t: Table, parse: DateParser): (cells: seq<Cell>)
    requires WellFormed(t) && HasRunColumns(t)
    ensures |cells| == |KeptPositions(t, parse)|
  {
    var idx := KeptPositions(t, parse);
    seq(|idx|, j requires 0 <= j < |idx| => t.rows[idx[j]][Col(t, QuantityName)])
  }

  /** Once steps A to C succeed and every column is there, the run succeeds exactly when no
      kept row has text for its quantity, and then the items-sold figure is the sum of the
      kept rows' quantities: rows whose date did not parse do not count. */
  lemma RunItemsSold(t: Table, parse: DateParser, clean: Cleaner)
    requires WellFormed(t) && Distinct(TrimNames(t.header)) && HasRunColumns(t)
    requires Normalized(t, clean).Ok? && KeptPositions(t, parse) != []
    ensures Processed(t, parse, clean).Ok? <==> QuantityTotal(KeptQuantities(t, parse)).Ok?
    ensures Processed(t, parse, clean).Ok? ==> Processed(t, parse, clean).value.itemsSold == QuantityTotal(KeptQuantities(t, parse)).value
    ensures Processed(t, parse, clean).Err? ==> Processed(t, parse, clean).error == NonNumericQuantity
  {
    var n, kept := RunSteps(t, parse, clean);
    KeptRowsFollowIndices(n.rows, RawDates(t, parse));
    var p := RunProjection(t);
    KeptQuantitiesOfRun(t, parse, clean, n, kept, p.quantity);
    if QuantityTotal(KeptQuantities(t, parse)).Ok? {
      FinishedQuantityAdds(t, n, parse, clean, Col(t, OrderDateName), p, kept);
    } else {
      FinishedQuantityFails(t, n, parse, clean, Col(t, OrderDateName), p, kept);
    }
  }

  /** Once steps A to C succeed and every column is there, the rest of the run reads the raw
      dates and exports through `RunProjection`. */
  lemma RunSteps(t: Table, parse: DateParser, clean: Cleaner) returns (n: Normal, kept: seq<Dated>)
    requires WellFormed(t) && Distinct(TrimNames(t.header)) && HasRunColumns(t)
    requires Normalized(t, clean).Ok?
    ensures Normalized(t, clean) == Ok(n) && Located(t, n) && NormalRows(t, n, clean)
    ensures Lookup(n.names, OrderDateName) == Ok(Col(t, OrderDateName))
    ensures SelectColumns(n.names, n.category, n.sales, n.profit) == Ok(RunProjection(t))
    ensures RawDates(t, parse) == parse(ColumnOf(n.rows, Col(t, OrderDateName)))
    ensures kept == KeptRows(n.rows, RawDates(t, parse))
    ensures forall j :: 0 <= j < |kept| ==> Converted(kept[j].row, RunProjection(t)) && RunProjection(t).quantity < |kept[j].row|
    ensures Processed(t, parse, clean) == Finished(t, n, parse, clean)
  {
    n := Normalized(t, clean).value;
    var od := IndexOf(n.names, OrderDateName);
    UntouchedColumn(t, n, clean, od);
    kept := KeptRows(n.rows, parse(ColumnOf(n.rows, od)));
    assert SelectColumns(n.names, n.category, n.sales, n.profit).Ok?;
    var p := SelectColumns(n.names, n.category, n.sales, n.profit).value;
    SelectedIsRunProjection(t, n, p);
    KeptAreConverted(t, n, p, parse(ColumnOf(n.rows, od)), clean);
  }

  /** A run that gets past steps A to C but keeps no row, because no raw `Order Date` parses or
      there are no rows, ends with the TypeError of app.py:62, whatever export columns exist. */
  lemma UndatedRunFails(t: Table, parse: DateParser, clean: Cleaner)
    requires WellFormed(t) && Distinct(TrimNames(t.header)) && Normalized(t, clean).Ok?
    requires OrderDateName in TrimNames(t.header) && KeptPositions(t, parse) == []
    ensures Processed(t, parse, clean) == Err(NoDatedRows)
  {
    var n := Normalized(t, clean).value;
    var od := Col(t, OrderDateName);
    UntouchedColumn(t, n, clean, od);
    KeptRowsFollowIndices(n.rows, RawDates(t, parse));
    assert KeptRows(n.rows, parse(ColumnOf(n.rows, od))) == [];
  }

  /** The converse: a run that succeeds kept at least one row. */
  lemma RunKeptSomeRow(t: Table, parse: DateParser, clean: Cleaner)
    requires WellFormed(t) && Distinct(TrimNames(t.header)) && Processed(t, parse, clean).Ok?
    ensures OrderDateName in TrimNames(t.header) && KeptPositions(t, parse) != []
  {
    RunCount(t, parse, clean);
  }

  lemma KeptQuantitiesOfRun(t: Table, parse: DateParser, clean: Cleaner, n: Normal, kept: seq<Dated>, q: nat)
    requires WellFormed(t) && HasRunColumns(t) && Located(t, n) && NormalRows(t, n, clean)
    requires kept == KeptRows(n.rows, RawDates(t, parse)) && q == Col(t, QuantityName)
    ensures forall j :: 0 <= j < |kept| ==> q < |kept[j].row|
    ensures QuantityColumn(kept, q) == KeptQuantities(t, parse)
  {
    UntouchedColumn(t, n, clean, q);
    SameQuantities(t, parse, n.rows, kept, q);
  }

  lemma SameQuantities(t: Table, parse: DateParser, rows: seq<Row>, kept: seq<Dated>, q: nat)
    requires WellFormed(t) && HasRunColumns(t) && q == Col(t, QuantityName)
    requires |rows| == |t.rows| && forall i :: 0 <= i < |t.rows| ==> q < |rows[i]| && rows[i][q] == t.rows[i][q]
    requires kept == KeptRows(rows, RawDates(t, parse))
    ensures forall j :: 0 <= j < |kept| ==> q < |kept[j].row|
    ensures QuantityColumn(kept, q) == KeptQuantities(t, parse)
  {
    var dates := RawDates(t, parse);
    KeptRowsFollowIndices(rows, dates);
    var idx := KeptPositions(t, parse);
    assert |kept| == |idx|;
    forall j | 0 <= j < |kept|
      ensures q < |kept[j].row| && kept[j].row[q] == t.rows[idx[j]][q]
    {
      assert kept[j] == Dated(rows[idx[j]], dates[idx[j]].value);
    }
    var col, cells := QuantityColumn(kept, q), KeptQuantities(t, parse);
    assert |col| == |cells|;
    forall j | 0 <= j < |col| ensures col[j] == cells[j] {
      assert col[j] == kept[j].row[q];
    }
  }

  lemma FinishedQuantityFails(t: Table, n: Normal, parse: DateParser, clean: Cleaner, od: nat, p: Projection, kept: seq<Dated>)
    requires WellFormed(t) && Located(t, n) && NormalRows(t, n, clean)
    requires Lookup(n.names, OrderDateName) == Ok(od)
    requires kept == KeptRows(n.rows, parse(ColumnOf(n.rows, od)))
    requires SelectColumns(n.names, n.category, n.sales, n.profit) == Ok(p)
    requires forall j :: 0 <= j < |kept| ==> Converted(kept[j].row, p) && p.quantity < |kept[j].row|
    requires QuantityTotal(QuantityColumn(kept, p.quantity)).Err?
    ensures Finished(t, n, parse, clean) == Err(NonNumericQuantity)
  {
    assert |QuantityColumn(kept, p.quantity)| == |kept|;
  }

  lemma FinishedQuantityAdds(t: Table, n: Normal, parse: DateParser, clean: Cleaner, od: nat, p: Projection, kept: seq<Dated>)
    requires WellFormed(t) && Located(t, n) && NormalRows(t, n, clean)
    requires Lookup(n.names, OrderDateName) == Ok(od)
    requires kept == KeptRows(n.rows, parse(ColumnOf(n.rows, od)))
    requires SelectColumns(n.names, n.category, n.sales, n.profit) == Ok(p)
    requires forall j :: 0 <= j < |kept| ==> Converted(kept[j].row, p) && p.quantity < |kept[j].row|
    requires kept != [] && QuantityTotal(QuantityColumn(kept, p.quantity)).Ok?
    ensures Finished(t, n, parse, clean).Ok?
    ensures Finished(t, n, parse, clean).value.itemsSold == QuantityTotal(QuantityColumn(kept, p.quantity)).value
  {
  }
}
