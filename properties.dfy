/** Properties of the run as a whole (app.py:41-72 and 109), stated over the raw table: which rows
    the report keeps, what each exported record holds, what the cleaning fills in, and which
    error ends a run. */
module PipelineProperties {
  import opened Values
  import opened Strings
  import opened Amounts
  import opened Calendar
  import opened Rates
  import opened Pipeline
  import opened RunProperties

  // ----- Column names -----

  /** Trimming the column names a second time changes nothing. */
  lemma TrimNamesIdempotent(names: seq<string>)
    ensures TrimNames(TrimNames(names)) == TrimNames(names)
  {
    forall i | 0 <= i < |names|
      ensures Strip(Strip(names[i])) == Strip(names[i])
    {
      StripIdempotent(names[i]);
    }
  }

  /** A column whose name is padded with whitespace in the file is found under the bare name,
      and with distinct trimmed names it is the column found. */
  lemma PaddedNameFound(header: seq<string>, i: nat, a: string, name: string, b: string)
    requires i < |header| && PaddedBy(header[i], a, name, b)
    requires name != [] && !IsSpace(name[0]) && !IsSpace(name[|name| - 1])
    ensures Lookup(TrimNames(header), name).Ok?
    ensures Distinct(TrimNames(header)) ==> Lookup(TrimNames(header), name) == Ok(i)
  {
    StripPadding(header[i], a, name, b);
    var names := TrimNames(header);
    assert names[i] == name;
    var k := Lookup(names, name).value;
    assert names[k] == name;
    if Distinct(names) {
      assert !(k < i) && !(i < k);
    }
  }

  // ----- Steps A to C -----

  lemma FilledNoMissing(rows: seq<Row>, k: nat, v: Cell)
    requires forall i :: 0 <= i < |rows| ==> k < |rows[i]| && !rows[i][k].Missing?
    ensures Filled(rows, k, v) == rows
  {
    var r := Filled(rows, k, v);
    forall i | 0 <= i < |rows|
      ensures r[i] == rows[i]
    {
      assert r[i] == FillCell(rows[i], k, v) == rows[i][k := rows[i][k]];
    }
    assert r == rows;
  }

  lemma CleanerKeeps(clean: Cleaner, v: Cell)
    requires !v.Text?
    ensures clean(v) == Ok(v)
  {
  }

  lemma CleanedNoText(rows: seq<Row>, k: nat, clean: Cleaner)
    requires forall i :: 0 <= i < |rows| ==> k < |rows[i]| && !rows[i][k].Text?
    ensures Cleaned(rows, k, clean) == Ok(rows)
  {
    forall i | 0 <= i < |rows|
      ensures clean(rows[i][k]) == Ok(rows[i][k])
    {
      CleanerKeeps(clean, rows[i][k]);
    }
    var r := Cleaned(rows, k, clean);
    forall i | 0 <= i < |rows|
      ensures r.value[i] == rows[i]
    {
      assert r.value[i] == CleanCell(rows[i], k, clean) == rows[i][k := rows[i][k]];
    }
    assert r.value == rows;
  }

  /** Steps A to C leave nothing for a second pass to do: the cleaned table has trimmed names,
      no missing category, numeric sales and no text profit. */
  lemma NormalizeIdempotent(t: Table, clean: Cleaner)
    requires WellFormed(t) && Normalized(t, clean).Ok?
    ensures WellFormed(Table(Normalized(t, clean).value.names, Normalized(t, clean).value.rows))
    ensures Normalized(Table(Normalized(t, clean).value.names, Normalized(t, clean).value.rows), clean) == Normalized(t, clean)
  {
    var n := Normalized(t, clean).value;
    NormalCellsSettled(t, n, clean);
    FilledNoMissing(n.rows, n.category, Text(Uncategorized));
    FilledNoMissing(n.rows, n.sales, Num(0.0));
    CleanedNoText(n.rows, n.sales, clean);
    CleanedNoText(n.rows, n.profit, clean);
    NormalizedOfSettled(Table(n.names, n.rows), n, clean);
  }

  /** In a cleaned table the category is never missing, the sales are numbers and the profit
      is never text. */
  lemma NormalCellsSettled(t: Table, n: Normal, clean: Cleaner)
    requires WellFormed(t) && Located(t, n) && NormalRows(t, n, clean)
    ensures TrimNames(n.names) == n.names && HasWidth(n.rows, |n.names|)
    ensures forall i :: 0 <= i < |n.rows| ==> !n.rows[i][n.category].Missing?
    ensures forall i :: 0 <= i < |n.rows| ==> n.rows[i][n.sales].Num?
    ensures forall i :: 0 <= i < |n.rows| ==> !n.rows[i][n.profit].Text?
  {
    TrimNamesIdempotent(t.header);
    forall i | 0 <= i < |n.rows|
      ensures !n.rows[i][n.category].Missing? && n.rows[i][n.sales].Num? && !n.rows[i][n.profit].Text?
    {
      assert NormalRow(t.rows[i], n.rows[i], n, clean);
    }
  }

  lemma NormalizedOfSettled(u: Table, n: Normal, clean: Cleaner)
    requires u.header == n.names && u.rows == n.rows && TrimNames(n.names) == n.names
    requires HasWidth(n.rows, |n.names|)
    requires Lookup(n.names, CategoryName) == Ok(n.category)
    requires Lookup(n.names, SalesName) == Ok(n.sales)
    requires Lookup(n.names, ProfitName) == Ok(n.profit)
    requires Filled(n.rows, n.category, Text(Uncategorized)) == n.rows
    requires Filled(n.rows, n.sales, Num(0.0)) == n.rows
    requires Cleaned(n.rows, n.sales, clean) == Ok(n.rows) && Cleaned(n.rows, n.profit, clean) == Ok(n.rows)
    ensures WellFormed(u) && Normalized(u, clean) == Ok(n)
  {
  }

  /** The run ends with the error of row `j`, the first row whose cell at column `k` does not clean. */
  predicate RunFailsAt(t: Table, parse: DateParser, clean: Cleaner, k: nat, j: nat)
    requires WellFormed(t) && Distinct(TrimNames(t.header)) && k < |t.header|
  {
    FirstFailure(t.rows, k, clean, j) && Processed(t, parse, clean) == Err(clean(t.rows[j][k]).error)
  }

  /** A `Sales Per` cell that does not clean ends the run, whatever the dates: the error is that
      of the first such row, since every amount is cleaned before the date filter runs. */
  lemma BadSalesAborts(t: Table, parse: DateParser, clean: Cleaner, i: nat)
    requires WellFormed(t) && Distinct(TrimNames(t.header))
    requires CategoryName in TrimNames(t.header) && SalesName in TrimNames(t.header)
    requires i < |t.rows| && clean(t.rows[i][IndexOf(TrimNames(t.header), SalesName)]).Err?
    ensures exists j: nat :: j <= i && RunFailsAt(t, parse, clean, IndexOf(TrimNames(t.header), SalesName), j)
  {
    var names := TrimNames(t.header);
    var category, sales := IndexOf(names, CategoryName), IndexOf(names, SalesName);
    FirstFailureExists(t.rows, sales, clean, i);
    var j: nat :| j <= i && FirstFailure(t.rows, sales, clean, j);
    var rows2 := Filled(Filled(t.rows, category, Text(Uncategorized)), sales, Num(0.0));
    FailureSurvivesFill(t.rows, category, sales, clean, j);
    CleanedFailsAt(rows2, sales, clean, j);
    SalesStageFails(t, parse, clean, category, sales, clean(t.rows[j][sales]).error);
    assert RunFailsAt(t, parse, clean, sales, j);
  }

  /** Filling the category and then the sales keeps the first sales cell that fails to clean
      where it was, and as it was. */
  lemma FailureSurvivesFill(rows: seq<Row>, category: nat, sales: nat, clean: Cleaner, j: nat)
    requires forall i :: 0 <= i < |rows| ==> category < |rows[i]| && sales < |rows[i]|
    requires category != sales && FirstFailure(rows, sales, clean, j)
    ensures var rows2 := Filled(Filled(rows, category, Text(Uncategorized)), sales, Num(0.0));
      FirstFailure(rows2, sales, clean, j) && rows2[j][sales] == rows[j][sales]
  {
    var rows2 := Filled(Filled(rows, category, Text(Uncategorized)), sales, Num(0.0));
    forall i | 0 <= i < |rows|
      ensures clean(rows2[i][sales]).Ok? <==> clean(rows[i][sales]).Ok?
      ensures rows2[i][sales] == rows[i][sales] || (rows2[i][sales] == Num(0.0) && clean(rows[i][sales]).Ok?)
    {
      assert rows2[i][sales] == if rows[i][sales].Missing? then Num(0.0) else rows[i][sales];
      if rows[i][sales].Missing? {
        CleanerKeeps(clean, Num(0.0));
        CleanerKeeps(clean, rows[i][sales]);
      }
    }
  }

  /** When the sales column fails to clean, so does the whole run, with that column's error. */
  lemma SalesStageFails(t: Table, parse: DateParser, clean: Cleaner, category: nat, sales: nat, e: Error)
    requires WellFormed(t) && Distinct(TrimNames(t.header))
    requires Lookup(TrimNames(t.header), CategoryName) == Ok(category)
    requires Lookup(TrimNames(t.header), SalesName) == Ok(sales)
    requires Cleaned(Filled(Filled(t.rows, category, Text(Uncategorized)), sales, Num(0.0)), sales, clean) == Err(e)
    ensures Processed(t, parse, clean) == Err(e)
  {
  }

  /** Once every `Sales Per` cell cleans, a `Profit` cell that does not clean ends the run the
      same way, with the error of the first such row, whatever the dates. */
  lemma BadProfitAborts(t: Table, parse: DateParser, clean: Cleaner, i: nat)
    requires WellFormed(t) && Distinct(TrimNames(t.header))
    requires CategoryName in TrimNames(t.header) && SalesName in TrimNames(t.header) && ProfitName in TrimNames(t.header)
    requires forall j :: 0 <= j < |t.rows| ==> clean(t.rows[j][IndexOf(TrimNames(t.header), SalesName)]).Ok?
    requires i < |t.rows| && clean(t.rows[i][IndexOf(TrimNames(t.header), ProfitName)]).Err?
    ensures exists j: nat :: j <= i && RunFailsAt(t, parse, clean, IndexOf(TrimNames(t.header), ProfitName), j)
  {
    var names := TrimNames(t.header);
    var category, sales, profit := IndexOf(names, CategoryName), IndexOf(names, SalesName), IndexOf(names, ProfitName);
    FirstFailureExists(t.rows, profit, clean, i);
    var j: nat :| j <= i && FirstFailure(t.rows, profit, clean, j);
    ProfitRunFails(t, parse, clean, category, sales, profit, j);
  }

  lemma ProfitRunFails(t: Table, parse: DateParser, clean: Cleaner, category: nat, sales: nat, profit: nat, j: nat)
    requires WellFormed(t) && Distinct(TrimNames(t.header))
    requires Lookup(TrimNames(t.header), CategoryName) == Ok(category)
    requires Lookup(TrimNames(t.header), SalesName) == Ok(sales)
    requires Lookup(TrimNames(t.header), ProfitName) == Ok(profit)
    requires forall r :: 0 <= r < |t.rows| ==> clean(t.rows[r][sales]).Ok?
    requires FirstFailure(t.rows, profit, clean, j)
    ensures RunFailsAt(t, parse, clean, profit, j)
  {
    var rows3 := SalesStageCleans(t.rows, category, sales, profit, clean);
    FirstFailureOfSameColumn(t.rows, rows3, profit, clean, j);
    CleanedFailsAt(rows3, profit, clean, j);
    ProfitStageFails(t, parse, clean, category, sales, profit, rows3, clean(t.rows[j][profit]).error);
  }

  /** When every sales cell cleans, steps A to C up to the profit column succeed and leave every
      profit cell as it was. */
  lemma SalesStageCleans(rows: seq<Row>, category: nat, sales: nat, profit: nat, clean: Cleaner) returns (rows3: seq<Row>)
    requires forall i :: 0 <= i < |rows| ==> category < |rows[i]| && sales < |rows[i]| && profit < |rows[i]|
    requires category != sales && category != profit && sales != profit
    requires forall i :: 0 <= i < |rows| ==> clean(rows[i][sales]).Ok?
    ensures Cleaned(Filled(Filled(rows, category, Text(Uncategorized)), sales, Num(0.0)), sales, clean) == Ok(rows3)
    ensures |rows3| == |rows|
    ensures forall i :: 0 <= i < |rows| ==> profit < |rows3[i]| && rows3[i][profit] == rows[i][profit]
  {
    var rows2 := Filled(Filled(rows, category, Text(Uncategorized)), sales, Num(0.0));
    SalesCellsClean(rows, category, sales, clean);
    rows3 := Cleaned(rows2, sales, clean).value;
    forall i | 0 <= i < |rows|
      ensures profit < |rows3[i]| && rows3[i][profit] == rows[i][profit]
    {
      assert rows3[i] == CleanCell(rows2[i], sales, clean);
    }
  }

  /** The raw table passes steps A to C: the three columns they read are there, and every raw
      `Sales Per` and `Profit` cell cleans (a missing one does: it is NaN, or filled with 0). */
  predicate AmountsClean(t: Table, clean: Cleaner)
    requires WellFormed(t)
  {
    var names := TrimNames(t.header);
    && CategoryName in names && SalesName in names && ProfitName in names
    && (forall i :: 0 <= i < |t.rows| ==> clean(t.rows[i][IndexOf(names, SalesName)]).Ok?)
    && (forall i :: 0 <= i < |t.rows| ==> clean(t.rows[i][IndexOf(names, ProfitName)]).Ok?)
  }

  /** Steps A to C succeed exactly when the raw table has the columns they read and every amount
      cleans: the missing columns and the bad amounts above are the only ways they fail. */
  lemma NormalizedExactly(t: Table, clean: Cleaner)
    requires WellFormed(t)
    ensures Normalized(t, clean).Ok? <==> AmountsClean(t, clean)
  {
    var names := TrimNames(t.header);
    if CategoryName in names && SalesName in names && ProfitName in names {
      var category, sales, profit := IndexOf(names, CategoryName), IndexOf(names, SalesName), IndexOf(names, ProfitName);
      FilledSalesClean(t.rows, category, sales, clean);
      var rows2 := Filled(Filled(t.rows, category, Text(Uncategorized)), sales, Num(0.0));
      if forall i :: 0 <= i < |t.rows| ==> clean(t.rows[i][sales]).Ok? {
        var rows3 := SalesStageCleans(t.rows, category, sales, profit, clean);
        assert forall i :: 0 <= i < |t.rows| ==> rows3[i][profit] == t.rows[i][profit];
        NormalizedByProfit(t, clean, category, sales, profit, rows3);
      } else {
        NormalizedBySales(t, clean, category, sales);
      }
    } else {
      NormalizedNeedsColumns(t, clean);
    }
  }

  lemma NormalizedNeedsColumns(t: Table, clean: Cleaner)
    requires WellFormed(t)
    requires !(CategoryName in TrimNames(t.header) && SalesName in TrimNames(t.header) && ProfitName in TrimNames(t.header))
    ensures Normalized(t, clean).Err?
  {
  }

  lemma NormalizedBySales(t: Table, clean: Cleaner, category: nat, sales: nat)
    requires WellFormed(t)
    requires Lookup(TrimNames(t.header), CategoryName) == Ok(category)
    requires Lookup(TrimNames(t.header), SalesName) == Ok(sales)
    requires Cleaned(Filled(Filled(t.rows, category, Text(Uncategorized)), sales, Num(0.0)), sales, clean).Err?
    ensures Normalized(t, clean).Err?
  {
  }

  lemma NormalizedByProfit(t: Table, clean: Cleaner, category: nat, sales: nat, profit: nat, rows3: seq<Row>)
    requires WellFormed(t)
    requires Lookup(TrimNames(t.header), CategoryName) == Ok(category)
    requires Lookup(TrimNames(t.header), SalesName) == Ok(sales)
    requires Lookup(TrimNames(t.header), ProfitName) == Ok(profit)
    requires Cleaned(Filled(Filled(t.rows, category, Text(Uncategorized)), sales, Num(0.0)), sales, clean) == Ok(rows3)
    requires HasWidth(rows3, |t.header|)
    ensures Normalized(t, clean).Ok? <==> Cleaned(rows3, profit, clean).Ok?
  {
  }

  /** After the fills, a sales cell cleans exactly when its raw cell does. */
  lemma FilledSalesClean(rows: seq<Row>, category: nat, sales: nat, clean: Cleaner)
    requires forall i :: 0 <= i < |rows| ==> category < |rows[i]| && sales < |rows[i]|
    requires category != sales
    ensures var rows2 := Filled(Filled(rows, category, Text(Uncategorized)), sales, Num(0.0));
      forall i :: 0 <= i < |rows| ==> (clean(rows2[i][sales]).Ok? <==> clean(rows[i][sales]).Ok?)
  {
    var rows2 := Filled(Filled(rows, category, Text(Uncategorized)), sales, Num(0.0));
    forall i | 0 <= i < |rows|
      ensures clean(rows2[i][sales]).Ok? <==> clean(rows[i][sales]).Ok?
    {
      assert rows2[i][sales] == if rows[i][sales].Missing? then Num(0.0) else rows[i][sales];
      CleanerKeeps(clean, Num(0.0));
      CleanerKeeps(clean, Missing);
    }
  }

  /** When every raw sales cell cleans, so does every sales cell after the fills. */
  lemma SalesCellsClean(rows: seq<Row>, category: nat, sales: nat, clean: Cleaner)
    requires forall i :: 0 <= i < |rows| ==> category < |rows[i]| && sales < |rows[i]|
    requires category != sales
    requires forall i :: 0 <= i < |rows| ==> clean(rows[i][sales]).Ok?
    ensures Cleaned(Filled(Filled(rows, category, Text(Uncategorized)), sales, Num(0.0)), sales, clean).Ok?
  {
    var rows2 := Filled(Filled(rows, category, Text(Uncategorized)), sales, Num(0.0));
    forall i | 0 <= i < |rows|
      ensures clean(rows2[i][sales]).Ok?
    {
      assert rows2[i][sales] == if rows[i][sales].Missing? then Num(0.0) else rows[i][sales];
      CleanerKeeps(clean, Num(0.0));
    }
  }

  /** Rows that agree on column `k` fail to clean there first at the same row. */
  lemma FirstFailureOfSameColumn(rows: seq<Row>, rows': seq<Row>, k: nat, clean: Cleaner, j: nat)
    requires forall i :: 0 <= i < |rows| ==> k < |rows[i]|
    requires |rows'| == |rows| && forall i :: 0 <= i < |rows| ==> k < |rows'[i]| && rows'[i][k] == rows[i][k]
    requires FirstFailure(rows, k, clean, j)
    ensures FirstFailure(rows', k, clean, j) && rows'[j][k] == rows[j][k]
  {
  }

  /** When the profit column fails to clean, so does the whole run, with that column's error. */
  lemma ProfitStageFails(t: Table, parse: DateParser, clean: Cleaner, category: nat, sales: nat, profit: nat, rows3: seq<Row>, e: Error)
    requires WellFormed(t) && Distinct(TrimNames(t.header))
    requires Lookup(TrimNames(t.header), CategoryName) == Ok(category)
    requires Lookup(TrimNames(t.header), SalesName) == Ok(sales)
    requires Lookup(TrimNames(t.header), ProfitName) == Ok(profit)
    requires Cleaned(Filled(Filled(t.rows, category, Text(Uncategorized)), sales, Num(0.0)), sales, clean) == Ok(rows3)
    requires HasWidth(rows3, |t.header|) && Cleaned(rows3, profit, clean) == Err(e)
    ensures Processed(t, parse, clean) == Err(e)
  {
  }

  /** A row that does not clean has a first failing row at or before it. */
  lemma {:induction false} FirstFailureExists(rows: seq<Row>, k: nat, clean: Cleaner, i: nat)
    requires forall j :: 0 <= j < |rows| ==> k < |rows[j]|
    requires i < |rows| && clean(rows[i][k]).Err?
    ensures exists j: nat :: j <= i && FirstFailure(rows, k, clean, j)
    decreases i
  {
    if forall j :: 0 <= j < i ==> clean(rows[j][k]).Ok? {
      assert FirstFailure(rows, k, clean, i);
    } else {
      var j :| 0 <= j < i && !clean(rows[j][k]).Ok?;
      FirstFailureExists(rows, k, clean, j);
    }
  }

  /** A missing column that steps A to C need ends the run with a KeyError naming it. */
  lemma MissingCategoryFails(t: Table, parse: DateParser, clean: Cleaner)
    requires WellFormed(t) && Distinct(TrimNames(t.header)) && CategoryName !in TrimNames(t.header)
    ensures Processed(t, parse, clean) == Err(MissingColumns([CategoryName]))
  {
  }

  lemma MissingSalesFails(t: Table, parse: DateParser, clean: Cleaner)
    requires WellFormed(t) && Distinct(TrimNames(t.header))
    requires CategoryName in TrimNames(t.header) && SalesName !in TrimNames(t.header)
    ensures Processed(t, parse, clean) == Err(MissingColumns([SalesName]))
  {
  }

  lemma MissingProfitFails(t: Table, parse: DateParser, clean: Cleaner)
    requires WellFormed(t) && Distinct(TrimNames(t.header))
    requires CategoryName in TrimNames(t.header) && SalesName in TrimNames(t.header) && ProfitName !in TrimNames(t.header)
    requires forall j :: 0 <= j < |t.rows| ==> clean(t.rows[j][IndexOf(TrimNames(t.header), SalesName)]).Ok?
    ensures Processed(t, parse, clean) == Err(MissingColumns([ProfitName]))
  {
    var names := TrimNames(t.header);
    SalesCellsClean(t.rows, IndexOf(names, CategoryName), IndexOf(names, SalesName), clean);
  }

  /** Once steps A to C succeed, a missing `Order Date` column ends the run with a KeyError
      naming it, and a missing export column with one naming every absent export column. */
  lemma MissingOrderDateFails(t: Table, parse: DateParser, clean: Cleaner)
    requires WellFormed(t) && Distinct(TrimNames(t.header)) && Normalized(t, clean).Ok?
    requires OrderDateName !in TrimNames(t.header)
    ensures Processed(t, parse, clean) == Err(MissingColumns([OrderDateName]))
  {
  }

  lemma MissingExportFails(t: Table, parse: DateParser, clean: Cleaner, x: string)
    requires WellFormed(t) && Distinct(TrimNames(t.header)) && Normalized(t, clean).Ok?
    requires OrderDateName in TrimNames(t.header) && KeptPositions(t, parse) != []
    requires x in ExportedInputs && x !in TrimNames(t.header)
    ensures Processed(t, parse, clean) == Err(MissingColumns(Absent(TrimNames(t.header), ExportedInputs)))
    ensures x in Absent(TrimNames(t.header), ExportedInputs)
  {
    var n := Normalized(t, clean).value;
    var od := Col(t, OrderDateName);
    UntouchedColumn(t, n, clean, od);
    var dates := parse(ColumnOf(n.rows, od));
    KeptRowsFollowIndices(n.rows, dates);
    assert KeptRows(n.rows, dates) != [];
    assert Processed(t, parse, clean) == Exported(t, n, dates, clean);
  }

  /** The items-sold sum splits over a split of the cells: it fails on the whole exactly when it
      fails on a part, and otherwise adds up the parts. */
  lemma {:induction false} QuantityTotalConcat(a: seq<Cell>, b: seq<Cell>)
    ensures QuantityTotal(a + b).Ok? <==> QuantityTotal(a).Ok? && QuantityTotal(b).Ok?
    ensures QuantityTotal(a + b).Ok? ==> QuantityTotal(a + b).value == QuantityTotal(a).value + QuantityTotal(b).value
    decreases |b|
  {
    if b == [] {
      assert a + b == a;
    } else {
      var n := |b| - 1;
      assert (a + b)[..|a| + n] == a + b[..n];
      QuantityTotalConcat(a, b[..n]);
    }
  }
}
