/** The cleaning-and-conversion pipeline (app.py:41-72) and the items-sold figure (app.py:109).
    Each stage is specified by a function over the rows; the pipeline itself is a method that
    rebinds its row sequence stage by stage, as the source reassigns the columns of its frame. */
module Pipeline {
  import opened Values
  import opened Strings
  import opened Amounts
  import opened Calendar
  import opened Rates

  type Row = seq<Cell>

  /** A loaded table: the column names as they appear in the file, and the rows in file order. */
  datatype Table = Table(header: seq<string>, rows: seq<Row>)

  /** Every row holds one cell per column. */
  predicate HasWidth(rows: seq<Row>, width: nat) {
    forall i :: 0 <= i < |rows| ==> |rows[i]| == width
  }

  predicate WellFormed(t: Table) {
    HasWidth(t.rows, |t.header|)
  }

  predicate Distinct(names: seq<string>) {
    forall i, j :: 0 <= i < j < |names| ==> names[i] != names[j]
  }

  /** `pd.to_datetime(column, errors='coerce')` on a whole column: one date, or NaT (None), per
      cell; a missing cell always becomes NaT. How text is read as a date is left open. */
  ghost predicate IsDateParser(f: seq<Cell> -> seq<Option<Date>>) {
    forall col: seq<Cell> :: |f(col)| == |col| && forall i :: 0 <= i < |col| && col[i].Missing? ==> f(col)[i] == None
  }

  function NoDates(col: seq<Cell>): seq<Option<Date>> {
    seq(|col|, i => None)
  }

  type DateParser = f: seq<Cell> -> seq<Option<Date>> | IsDateParser(f) witness NoDates

  const CategoryName := "Category"
  const SalesName := "Sales Per"
  const ProfitName := "Profit"
  const OrderDateName := "Order Date"
  const SegmentName := "Segment"
  const StateName := "State"
  const QuantityName := "Quantity"
  const OrderIdName := "Order ID"
  const CustomerIdName := "Customer ID"

  /** The text a missing `Category` becomes. */
  const Uncategorized := "Uncategorized"

  // ----- A. Column names -----

  /** `df.columns.str.strip()`. */
  function TrimNames(names: seq<string>): (r: seq<string>)
    ensures |r| == |names|
    ensures forall i :: 0 <= i < |r| ==> r[i] == Strip(names[i])
  {
    seq(|names|, i requires 0 <= i < |names| => Strip(names[i]))
  }

  function IndexOf(names: seq<string>, name: string): (k: nat)
    requires name in names
    ensures k < |names| && names[k] == name
    ensures forall j :: 0 <= j < k ==> names[j] != name
  {
    if names[0] == name then 0 else 1 + IndexOf(names[1..], name)
  }

  /** `df[name]`: the position of the column, or a KeyError naming it. */
  function Lookup(names: seq<string>, name: string): (r: Result<nat>)
    ensures r.Ok? <==> name in names
    ensures r.Ok? ==> r.value < |names| && names[r.value] == name
    ensures r.Err? ==> r.error == MissingColumns([name])
  {
    if name in names then Ok(IndexOf(names, name)) else Err(MissingColumns([name]))
  }

  // ----- B. Missing values -----

  /** Cell `k` of `row` after `fillna(v)`: `v` if it was missing, unchanged otherwise. */
  function FillCell(row: Row, k: nat, v: Cell): (r: Row)
    requires k < |row|
    ensures |r| == |row|
    ensures r[k] == if row[k].Missing? then v else row[k]
    ensures forall j :: 0 <= j < |row| && j != k ==> r[j] == row[j]
  {
    row[k := if row[k].Missing? then v else row[k]]
  }

  /** The rows after `df[c] = df[c].fillna(v)` for the column `c` at position `k`. */
  function Filled(rows: seq<Row>, k: nat, v: Cell): (r: seq<Row>)
    requires forall i :: 0 <= i < |rows| ==> k < |rows[i]|
    ensures |r| == |rows|
    ensures forall i :: 0 <= i < |rows| ==> r[i] == FillCell(rows[i], k, v)
  {
    seq(|rows|, i requires 0 <= i < |rows| => FillCell(rows[i], k, v))
  }

  method FillMissing(rows: seq<Row>, k: nat, v: Cell) returns (out: seq<Row>)
    requires forall i :: 0 <= i < |rows| ==> k < |rows[i]|
    ensures out == Filled(rows, k, v)
  {
    out := rows;
    for i := 0 to |rows|
      invariant |out| == |rows|
      invariant forall j :: 0 <= j < i ==> out[j] == FillCell(rows[j], k, v)
      invariant forall j :: i <= j < |rows| ==> out[j] == rows[j]
    {
      if out[i][k].Missing? {
        out := out[i := out[i][k := v]];
      }
    }
  }

  // ----- C. Currency cleaning -----

  /** A function `df[c].apply` may be given for an amount column: it leaves a cell that is not
      text as it is, and turns text either into a number or into an error. `clean_currency` is
      one (`Amounts.CleanCurrency`, whose contract is exactly this); the stages below hold for
      every such function. */
  ghost predicate IsCleaner(clean: Cell -> Result<Cell>) {
    forall v: Cell :: (!v.Text? ==> clean(v) == Ok(v)) && (v.Text? && clean(v).Ok? ==> clean(v).value.Num?)
  }

  type Cleaner = f: Cell -> Result<Cell> | IsCleaner(f) witness KeepCell

  function KeepCell(v: Cell): Result<Cell> {
    if v.Text? then Err(InvalidAmount(v.s)) else Ok(v)
  }

  /** Cell `k` of `row` after `clean`, when that succeeds. */
  function CleanCell(row: Row, k: nat, clean: Cleaner): (r: Row)
    requires k < |row| && clean(row[k]).Ok?
    ensures |r| == |row| && r[k] == clean(row[k]).value
    ensures forall j :: 0 <= j < |row| && j != k ==> r[j] == row[j]
  {
    row[k := clean(row[k]).value]
  }

  /** Row `i` is the first whose cell in column `k` does not clean. */
  predicate FirstFailure(rows: seq<Row>, k: nat, clean: Cleaner, i: nat)
    requires forall j :: 0 <= j < |rows| ==> k < |rows[j]|
  {
    i < |rows| && clean(rows[i][k]).Err? && forall j :: 0 <= j < i ==> clean(rows[j][k]).Ok?
  }

  /** The rows after `df[c] = df[c].apply(clean)` for the column at position `k`:
      every cell of the column cleaned, or the error of the first cell that does not clean. */
  function Cleaned(rows: seq<Row>, k: nat, clean: Cleaner): (r: Result<seq<Row>>)
    requires forall i :: 0 <= i < |rows| ==> k < |rows[i]|
    ensures r.Ok? <==> forall i :: 0 <= i < |rows| ==> clean(rows[i][k]).Ok?
    ensures r.Ok? ==> |r.value| == |rows| && forall i :: 0 <= i < |rows| ==> r.value[i] == CleanCell(rows[i], k, clean)
  {
    if rows == [] then Ok([])
    else
      var head :- clean(rows[0][k]);
      var tail :- Cleaned(rows[1..], k, clean);
      Ok([rows[0][k := head]] + tail)
  }

  /** `apply` visits the rows in order: the error that ends the stage is the first row's. */
  lemma {:induction false} CleanedFailsAt(rows: seq<Row>, k: nat, clean: Cleaner, i: nat)
    requires forall j :: 0 <= j < |rows| ==> k < |rows[j]|
    requires FirstFailure(rows, k, clean, i)
    ensures Cleaned(rows, k, clean) == Err(clean(rows[i][k]).error)
    decreases i
  {
    if i > 0 {
      assert forall j :: 0 <= j < |rows| - 1 ==> rows[1..][j] == rows[j + 1];
      assert clean(rows[0][k]).Ok?;
      CleanedFailsAt(rows[1..], k, clean, i - 1);
    }
  }

  method CleanAmounts(rows: seq<Row>, k: nat, clean: Cleaner) returns (r: Result<seq<Row>>)
    requires forall i :: 0 <= i < |rows| ==> k < |rows[i]|
    ensures r == Cleaned(rows, k, clean)
  {
    var out := rows;
    for i := 0 to |rows|
      invariant |out| == |rows|
      invariant forall j :: 0 <= j < i ==> clean(rows[j][k]).Ok? && out[j] == CleanCell(rows[j], k, clean)
      invariant forall j :: i <= j < |rows| ==> out[j] == rows[j]
    {
      var c := clean(out[i][k]);
      if c.Err? {
        CleanedFailsAt(rows, k, clean, i);
        return Err(c.error);
      }
      out := out[i := out[i][k := c.value]];
    }
    assert Cleaned(rows, k, clean).value == out;
    return Ok(out);
  }

  // ----- D. Order dates -----

  /** The cells of the column at position `k`. */
  function ColumnOf(rows: seq<Row>, k: nat): (col: seq<Cell>)
    requires forall i :: 0 <= i < |rows| ==> k < |rows[i]|
    ensures |col| == |rows|
    ensures forall i :: 0 <= i < |rows| ==> col[i] == rows[i][k]
  {
    seq(|rows|, i requires 0 <= i < |rows| => rows[i][k])
  }

  /** A row that survived the date filter, with its parsed `Order Date`. */
  datatype Dated = Dated(row: Row, date: Date)

  /** The positions whose date parsed, in increasing order: all of them, and only them. Their
      number is the number of positions less those that hold NaT. */
  function ParsedIndices(dates: seq<Option<Date>>): (idx: seq<nat>)
    ensures forall j :: 0 <= j < |idx| ==> idx[j] < |dates| && dates[idx[j]].Some?
    ensures forall j, j' :: 0 <= j < j' < |idx| ==> idx[j] < idx[j']
    ensures forall i :: 0 <= i < |dates| && dates[i].Some? ==> i in idx
    ensures |idx| == |dates| - multiset(dates)[None]
    decreases |dates|
  {
    if dates == [] then []
    else
      var n := |dates| - 1;
      assert dates == dates[..n] + [dates[n]];
      ParsedIndices(dates[..n]) + if dates[n].Some? then [n] else []
  }

  /** The rows after `df = df.dropna(subset=['Order Date'])`: the rows whose date parsed, in their
      original order, each with its date. */
  function KeptRows(rows: seq<Row>, dates: seq<Option<Date>>): (kept: seq<Dated>)
    requires |rows| == |dates|
    decreases |rows|
  {
    if rows == [] then []
    else
      var n := |rows| - 1;
      KeptRows(rows[..n], dates[..n]) + if dates[n].Some? then [Dated(rows[n], dates[n].value)] else []
  }

  /** The kept rows are the rows at the parsed positions, in order, with their dates. */
  lemma {:induction false} KeptRowsFollowIndices(rows: seq<Row>, dates: seq<Option<Date>>)
    requires |rows| == |dates|
    ensures |KeptRows(rows, dates)| == |ParsedIndices(dates)|
    ensures forall j :: 0 <= j < |KeptRows(rows, dates)| ==>
      KeptRows(rows, dates)[j] == Dated(rows[ParsedIndices(dates)[j]], dates[ParsedIndices(dates)[j]].value)
    decreases |rows|
  {
    if rows != [] {
      var n := |rows| - 1;
      KeptRowsFollowIndices(rows[..n], dates[..n]);
      var kept, idx := KeptRows(rows, dates), ParsedIndices(dates);
      var kept', idx' := KeptRows(rows[..n], dates[..n]), ParsedIndices(dates[..n]);
      assert kept == kept' + if dates[n].Some? then [Dated(rows[n], dates[n].value)] else [];
      assert idx == idx' + if dates[n].Some? then [n] else [];
      forall j | 0 <= j < |kept|
        ensures kept[j] == Dated(rows[idx[j]], dates[idx[j]].value)
      {
        if j < |kept'| {
          assert kept[j] == kept'[j] && idx[j] == idx'[j] && idx'[j] < n;
          assert rows[..n][idx'[j]] == rows[idx'[j]] && dates[..n][idx'[j]] == dates[idx'[j]];
        } else {
          assert kept[j] == Dated(rows[n], dates[n].value) && idx[j] == n;
        }
      }
    }
  }

  method DropUndated(rows: seq<Row>, dates: seq<Option<Date>>) returns (kept: seq<Dated>)
    requires |rows| == |dates|
    ensures kept == KeptRows(rows, dates)
  {
    kept := [];
    for i := 0 to |rows|
      invariant kept == KeptRows(rows[..i], dates[..i])
    {
      assert rows[..i + 1][..i] == rows[..i] && dates[..i + 1][..i] == dates[..i];
      assert KeptRows(rows[..i + 1], dates[..i + 1])
        == KeptRows(rows[..i], dates[..i]) + if dates[i].Some? then [Dated(rows[i], dates[i].value)] else [];
      if dates[i].Some? {
        kept := kept + [Dated(rows[i], dates[i].value)];
      }
    }
    assert rows[..|rows|] == rows && dates[..|dates|] == dates;
  }

  // ----- E. Rates, conversion and the exported records -----

  /** Where the exported fields sit in a cleaned row. */
  datatype Projection = Projection(category: nat, sales: nat, profit: nat, segment: nat, state: nat,
                                   quantity: nat, orderId: nat, customerId: nat)

  /** The input columns the export selects besides the ones the pipeline has already used. */
  const ExportedInputs := [SegmentName, StateName, QuantityName, OrderIdName, CustomerIdName]

  /** The names in `wanted` that are not in `names`, in the order of `wanted`. */
  function Absent(names: seq<string>, wanted: seq<string>): (r: seq<string>)
    ensures forall x :: x in r <==> x in wanted && x !in names
  {
    if wanted == [] then []
    else (if wanted[0] in names then [] else [wanted[0]]) + Absent(names, wanted[1..])
  }

  /** The column selection of app.py:71-72: a KeyError listing every selected input column
      that is absent, or the positions of all of them. */
  function SelectColumns(names: seq<string>, category: nat, sales: nat, profit: nat): (r: Result<Projection>)
    ensures r.Ok? <==> forall x :: x in ExportedInputs ==> x in names
    ensures r.Err? ==> r.error == MissingColumns(Absent(names, ExportedInputs))
    ensures r.Ok? ==> r.value.category == category && r.value.sales == sales && r.value.profit == profit
    ensures r.Ok? ==> && r.value.segment < |names| && names[r.value.segment] == SegmentName
                      && r.value.state < |names| && names[r.value.state] == StateName
                      && r.value.quantity < |names| && names[r.value.quantity] == QuantityName
                      && r.value.orderId < |names| && names[r.value.orderId] == OrderIdName
                      && r.value.customerId < |names| && names[r.value.customerId] == CustomerIdName
  {
    var absent := Absent(names, ExportedInputs);
    if absent != [] then
      assert absent[0] in absent;
      Err(MissingColumns(absent))
    else
      assert forall x :: x in ExportedInputs ==> x in names;
      assert SegmentName in ExportedInputs && StateName in ExportedInputs && QuantityName in ExportedInputs;
      assert OrderIdName in ExportedInputs && CustomerIdName in ExportedInputs;
      Ok(Projection(category, sales, profit, IndexOf(names, SegmentName), IndexOf(names, StateName),
                    IndexOf(names, QuantityName), IndexOf(names, OrderIdName), IndexOf(names, CustomerIdName)))
  }

  /** One exported record: the twelve fields of app.py:71-72. */
  datatype Record = Record(
    yearMonth: string, category: Cell, segment: Cell, state: Cell,
    salesINR: real, salesUSD: real, profitINR: Option<real>, profitUSD: Option<real>,
    quantity: Cell, orderId: Cell, customerId: Cell, ibrRate: real)

  predicate Fits(row: Row, p: Projection) {
    && p.category < |row| && p.sales < |row| && p.profit < |row| && p.segment < |row|
    && p.state < |row| && p.quantity < |row| && p.orderId < |row| && p.customerId < |row|
  }

  /** A cleaned row: `Sales Per` is a number, `Profit` a number or missing. */
  predicate Converted(row: Row, p: Projection) {
    Fits(row, p) && row[p.sales].Num? && !row[p.profit].Text?
  }

  /** A record agrees with itself: its month key is well formed, its rate is the table's rate
      for the key's year, its INR amounts are its USD amounts at that rate, converting back at
      that rate gives the USD amounts exactly, and a conversion keeps the sign of the amount. */
  predicate Consistent(r: Record) {
    && IsMonthKey(r.yearMonth)
    && r.ibrRate == RateForYear(KeyYear(r.yearMonth))
    && Converts(r.salesUSD, r.salesINR, r.ibrRate)
    && r.profitINR.Some? == r.profitUSD.Some?
    && (r.profitUSD.Some? ==> Converts(r.profitUSD.value, r.profitINR.value, r.ibrRate))
  }

  /** `inr` is `usd` at `rate`: their product, convertible back exactly, and of the same sign. */
  predicate Converts(usd: real, inr: real, rate: real)
    requires rate > 0.0
  {
    inr == usd * rate && inr / rate == usd && (inr < 0.0 <==> usd < 0.0)
  }

  lemma ConvertAtRate(usd: real, inr: real, rate: real)
    requires rate > 0.0 && inr == usd * rate
    ensures Converts(usd, inr, rate)
  {
    if usd < 0.0 {
      assert usd * rate < 0.0 * rate;
    } else {
      assert usd * rate >= 0.0 * rate;
    }
  }

  /** The amount of a cleaned `Profit` cell: NaN stays NaN (None). */
  function AmountOf(c: Cell): Option<real>
    requires !c.Text?
  {
    if c.Num? then Some(c.x) else None
  }

  /** A missing amount stays missing; a present one is multiplied by `rate`. */
  function Scaled(amount: Option<real>, rate: real): Option<real> {
    if amount.Some? then Some(amount.value * rate) else None
  }

  /** Lines 56-65 for one kept row, then its projection. */
  function EnrichRow(d: Dated, p: Projection): (r: Record)
    requires Converted(d.row, p)
    ensures Consistent(r)
    ensures r.yearMonth == YearMonth(d.date) && r.ibrRate == IbrRate(d.date)
    ensures r.salesUSD == d.row[p.sales].x && r.profitUSD == AmountOf(d.row[p.profit])
    ensures && r.category == d.row[p.category] && r.segment == d.row[p.segment] && r.state == d.row[p.state]
            && r.quantity == d.row[p.quantity] && r.orderId == d.row[p.orderId] && r.customerId == d.row[p.customerId]
  {
    RecordAtConsistent(YearMonth(d.date), IbrRate(d.date), d.row, p, d.date);
    RecordAt(YearMonth(d.date), IbrRate(d.date), d.row, p)
  }

  /** The record of `row` with the month key `key`, converted at `rate`. */
  function RecordAt(key: string, rate: real, row: Row, p: Projection): (r: Record)
    requires Converted(row, p)
    ensures r.yearMonth == key && r.ibrRate == rate
    ensures r.salesUSD == row[p.sales].x && r.salesINR == r.salesUSD * rate
    ensures r.profitUSD == AmountOf(row[p.profit]) && r.profitINR == Scaled(r.profitUSD, rate)
    ensures && r.category == row[p.category] && r.segment == row[p.segment] && r.state == row[p.state]
            && r.quantity == row[p.quantity] && r.orderId == row[p.orderId] && r.customerId == row[p.customerId]
  {
    var salesUSD := row[p.sales].x;
    var profitUSD := AmountOf(row[p.profit]);
    Record(key, row[p.category], row[p.segment], row[p.state],
           salesUSD * rate, salesUSD, Scaled(profitUSD, rate), profitUSD,
           row[p.quantity], row[p.orderId], row[p.customerId], rate)
  }

  lemma RecordAtConsistent(key: string, rate: real, row: Row, p: Projection, date: Date)
    requires Converted(row, p) && key == YearMonth(date) && rate == IbrRate(date)
    ensures Consistent(RecordAt(key, rate, row, p))
  {
    RecordConsistent(RecordAt(key, rate, row, p), date);
  }

  lemma RecordConsistent(r: Record, date: Date)
    requires r.yearMonth == YearMonth(date) && r.ibrRate == IbrRate(date)
    requires r.salesINR == r.salesUSD * r.ibrRate
    requires r.profitINR == Scaled(r.profitUSD, r.ibrRate)
    ensures Consistent(r)
  {
    RecordRate(r, date);
    RecordAmounts(r);
  }

  lemma RecordRate(r: Record, date: Date)
    requires r.yearMonth == YearMonth(date) && r.ibrRate == IbrRate(date)
    ensures IsMonthKey(r.yearMonth) && r.ibrRate == RateForYear(KeyYear(r.yearMonth))
  {
  }

  lemma RecordAmounts(r: Record)
    requires r.ibrRate > 0.0
    requires r.salesINR == r.salesUSD * r.ibrRate
    requires r.profitINR == Scaled(r.profitUSD, r.ibrRate)
    ensures Converts(r.salesUSD, r.salesINR, r.ibrRate)
    ensures r.profitINR.Some? == r.profitUSD.Some?
    ensures r.profitUSD.Some? ==> Converts(r.profitUSD.value, r.profitINR.value, r.ibrRate)
  {
    ConvertAtRate(r.salesUSD, r.salesINR, r.ibrRate);
    if r.profitUSD.Some? {
      ConvertAtRate(r.profitUSD.value, r.profitINR.value, r.ibrRate);
    }
  }

  /** One record per kept row, in the same order. */
  function Enriched(kept: seq<Dated>, p: Projection): (records: seq<Record>)
    requires forall j :: 0 <= j < |kept| ==> Converted(kept[j].row, p)
    ensures |records| == |kept|
    ensures forall j :: 0 <= j < |kept| ==> records[j] == EnrichRow(kept[j], p)
  {
    seq(|kept|, j requires 0 <= j < |kept| => EnrichRow(kept[j], p))
  }

  method Enrich(kept: seq<Dated>, p: Projection) returns (records: seq<Record>)
    requires forall j :: 0 <= j < |kept| ==> Converted(kept[j].row, p)
    ensures records == Enriched(kept, p)
  {
    records := [];
    for j := 0 to |kept|
      invariant |records| == j
      invariant forall i :: 0 <= i < j ==> records[i] == EnrichRow(kept[i], p)
    {
      records := records + [EnrichRow(kept[j], p)];
    }
  }

  // ----- Items sold (app.py:109) -----

  /** `df['Quantity'].sum()` formatted with `:,`: missing cells are skipped, numbers added, and
      any text makes the sum or its formatting fail. */
  function QuantityTotal(cells: seq<Cell>): (r: Result<real>)
    ensures r.Ok? <==> forall i :: 0 <= i < |cells| ==> !cells[i].Text?
    ensures r.Err? ==> r.error == NonNumericQuantity
    decreases |cells|
  {
    if cells == [] then Ok(0.0)
    else
      var n := |cells| - 1;
      assert forall i :: 0 <= i < n ==> cells[..n][i] == cells[i];
      var front :- QuantityTotal(cells[..n]);
      match cells[n]
      case Missing => Ok(front)
      case Num(x) => Ok(front + x)
      case Text(_) => Err(NonNumericQuantity)
  }

  /** The `Quantity` cells of the kept rows. */
  function QuantityColumn(kept: seq<Dated>, k: nat): (col: seq<Cell>)
    requires forall j :: 0 <= j < |kept| ==> k < |kept[j].row|
    ensures |col| == |kept| && forall j :: 0 <= j < |kept| ==> col[j] == kept[j].row[k]
  {
    seq(|kept|, j requires 0 <= j < |kept| => kept[j].row[k])
  }

  method TotalQuantity(kept: seq<Dated>, k: nat) returns (r: Result<real>)
    requires forall j :: 0 <= j < |kept| ==> k < |kept[j].row|
    ensures r == QuantityTotal(QuantityColumn(kept, k))
  {
    ghost var col := QuantityColumn(kept, k);
    var total := 0.0;
    for j := 0 to |kept|
      invariant QuantityTotal(col[..j]) == Ok(total)
    {
      assert col[..j + 1][..j] == col[..j];
      match kept[j].row[k]
      case Missing =>
      case Num(x) => total := total + x;
      case Text(_) =>
        QuantityPrefixFails(col, j + 1);
        return Err(NonNumericQuantity);
    }
    assert col[..|kept|] == col;
    return Ok(total);
  }

  lemma QuantityPrefixFails(cells: seq<Cell>, n: nat)
    requires n <= |cells| && QuantityTotal(cells[..n]).Err?
    ensures QuantityTotal(cells) == Err(NonNumericQuantity)
  {
  }

  // ----- The whole run -----

  /** What steps A to C leave: the trimmed names, the cleaned rows, and the positions of the
      three columns they touched. */
  datatype Normal = Normal(names: seq<string>, rows: seq<Row>, category: nat, sales: nat, profit: nat)

  /** Where `n` puts the trimmed names, and that its three columns are the named ones. */
  predicate Located(t: Table, n: Normal) {
    && n.names == TrimNames(t.header)
    && CategoryName in n.names && n.category == IndexOf(n.names, CategoryName)
    && SalesName in n.names && n.sales == IndexOf(n.names, SalesName)
    && ProfitName in n.names && n.profit == IndexOf(n.names, ProfitName)
    && |n.rows| == |t.rows| && HasWidth(n.rows, |t.header|)
  }

  /** `row` is the raw row `raw` after steps B and C: a missing category becomes
      "Uncategorized", a missing sales amount becomes 0 and is then cleaned to a number, the
      profit is cleaned to a number or stays missing, and every other cell is unchanged. */
  predicate NormalRow(raw: Row, row: Row, n: Normal, clean: Cleaner)
    requires |row| == |raw| && n.category < |raw| && n.sales < |raw| && n.profit < |raw|
  {
    var sales := if raw[n.sales].Missing? then Num(0.0) else raw[n.sales];
    && row[n.category] == (if raw[n.category].Missing? then Text(Uncategorized) else raw[n.category])
    && clean(sales).Ok? && row[n.sales] == clean(sales).value && row[n.sales].Num?
    && clean(raw[n.profit]).Ok? && row[n.profit] == clean(raw[n.profit]).value
    && !row[n.profit].Text?
    && forall j :: 0 <= j < |raw| && j != n.category && j != n.sales && j != n.profit ==> row[j] == raw[j]
  }

  /** Every row of `n` is the corresponding raw row after steps B and C. */
  predicate NormalRows(t: Table, n: Normal, clean: Cleaner)
    requires WellFormed(t) && Located(t, n)
  {
    forall i {:trigger NormalRow(t.rows[i], n.rows[i], n, clean)} :: 0 <= i < |t.rows| ==> NormalRow(t.rows[i], n.rows[i], n, clean)
  }

  /** Steps A to C, app.py:41-49, in the source's order: the column lookups raise their KeyErrors
      and the amount parser its ValueError at the point where the source reaches them. */
  function Normalized(t: Table, clean: Cleaner): (r: Result<Normal>)
    requires WellFormed(t)
    ensures r.Ok? ==> Located(t, r.value) && NormalRows(t, r.value, clean)
  {
    var names := TrimNames(t.header);
    var category :- Lookup(names, CategoryName);
    var rows1 := Filled(t.rows, category, Text(Uncategorized));
    var sales :- Lookup(names, SalesName);
    var rows2 := Filled(rows1, sales, Num(0.0));
    var rows3 :- Cleaned(rows2, sales, clean);
    var profit :- Lookup(names, ProfitName);
    var rows4 :- Cleaned(rows3, profit, clean);
    var n := Normal(names, rows4, category, sales, profit);
    assert Located(t, n);
    assert NormalRows(t, n, clean) by {
      forall i | 0 <= i < |t.rows|
        ensures NormalRow(t.rows[i], n.rows[i], n, clean)
      {
        StagesOfRow(t.rows[i], rows1[i], rows2[i], rows3[i], rows4[i], n, clean);
      }
    }
    Ok(n)
  }

  lemma StagesOfRow(raw: Row, row1: Row, row2: Row, row3: Row, row4: Row, n: Normal, clean: Cleaner)
    requires n.category < |raw| && n.sales < |raw| && n.profit < |raw|
    requires n.category != n.sales && n.sales != n.profit && n.category != n.profit
    requires row1 == FillCell(raw, n.category, Text(Uncategorized))
    requires row2 == FillCell(row1, n.sales, Num(0.0))
    requires clean(row2[n.sales]).Ok? && row3 == CleanCell(row2, n.sales, clean)
    requires clean(row3[n.profit]).Ok? && row4 == CleanCell(row3, n.profit, clean)
    ensures |row4| == |raw| && NormalRow(raw, row4, n, clean)
  {
  }

  /** The summary and the records a run hands to the report: the number of rows processed
      (`len(df)` after the date filter), the exported records, and the items-sold figure. */
  datatype Report = Report(processed: nat, records: seq<Record>, itemsSold: real)

  /** The whole run of app.py:41-72 and 109 with `clean` applied to the amount columns, or the
      one error that ends it; the source applies `clean_currency`. */
  function Processed(t: Table, parse: DateParser, clean: Cleaner): (r: Result<Report>)
    requires WellFormed(t) && Distinct(TrimNames(t.header))
  {
    var n :- Normalized(t, clean);
    Finished(t, n, parse, clean)
  }

  /** Steps D and E and the items-sold figure, after steps A to C have produced `n`. When no row
      keeps its date, the rate column of app.py:56 is empty and keeps the date type, so the
      product at app.py:62 raises a TypeError before any export column is looked up. */
  function Finished(t: Table, n: Normal, parse: DateParser, clean: Cleaner): (r: Result<Report>)
    requires WellFormed(t) && Located(t, n) && NormalRows(t, n, clean)
  {
    var orderDate :- Lookup(n.names, OrderDateName);
    var dates := parse(ColumnOf(n.rows, orderDate));
    var kept := KeptRows(n.rows, dates);
    if kept == [] then Err(NoDatedRows) else Exported(t, n, dates, clean)
  }

  /** Step E and the items-sold figure over the rows that keep their dates. */
  function Exported(t: Table, n: Normal, dates: seq<Option<Date>>, clean: Cleaner): (r: Result<Report>)
    requires WellFormed(t) && Located(t, n) && NormalRows(t, n, clean) && |dates| == |n.rows|
  {
    var kept := KeptRows(n.rows, dates);
    var p :- SelectColumns(n.names, n.category, n.sales, n.profit);
    KeptAreConverted(t, n, p, dates, clean);
    var records := Enriched(kept, p);
    var items :- QuantityTotal(QuantityColumn(kept, p.quantity));
    Ok(Report(|kept|, records, items))
  }

  lemma KeptAreConverted(t: Table, n: Normal, p: Projection, dates: seq<Option<Date>>, clean: Cleaner)
    requires WellFormed(t) && Located(t, n) && NormalRows(t, n, clean) && |dates| == |n.rows|
    requires p.category == n.category && p.sales == n.sales && p.profit == n.profit
    requires p.segment < |n.names| && p.state < |n.names| && p.quantity < |n.names|
    requires p.orderId < |n.names| && p.customerId < |n.names|
    ensures forall j :: 0 <= j < |KeptRows(n.rows, dates)| ==> Converted(KeptRows(n.rows, dates)[j].row, p)
  {
    KeptRowsFollowIndices(n.rows, dates);
    var idx := ParsedIndices(dates);
    forall j | 0 <= j < |KeptRows(n.rows, dates)|
      ensures Converted(KeptRows(n.rows, dates)[j].row, p)
    {
      var i := idx[j];
      assert NormalRow(t.rows[i], n.rows[i], n, clean);
    }
  }

  /** Steps A to C: each rebinds the rows, as app.py rebinds the columns of `df`. */
  method Normalize(t: Table, clean: Cleaner) returns (r: Result<Normal>)
    requires WellFormed(t)
    ensures r == Normalized(t, clean)
  {
    var names := TrimNames(t.header);
    var category :- Lookup(names, CategoryName);
    var rows := FillMissing(t.rows, category, Text(Uncategorized));
    var sales :- Lookup(names, SalesName);
    rows := FillMissing(rows, sales, Num(0.0));
    rows :- CleanAmounts(rows, sales, clean);
    var profit :- Lookup(names, ProfitName);
    rows :- CleanAmounts(rows, profit, clean);
    return Ok(Normal(names, rows, category, sales, profit));
  }

  /** Steps D and E and the items-sold figure. */
  method Finish(t: Table, n: Normal, parse: DateParser, clean: Cleaner) returns (r: Result<Report>)
    requires WellFormed(t) && Located(t, n) && NormalRows(t, n, clean)
    ensures r == Finished(t, n, parse, clean)
  {
    var orderDate :- Lookup(n.names, OrderDateName);
    var dates := parse(ColumnOf(n.rows, orderDate));
    var kept := DropUndated(n.rows, dates);
    if kept == [] {
      return Err(NoDatedRows);
    }
    var p :- SelectColumns(n.names, n.category, n.sales, n.profit);
    KeptAreConverted(t, n, p, dates, clean);
    var records := Enrich(kept, p);
    var items :- TotalQuantity(kept, p.quantity);
    return Ok(Report(|kept|, records, items));
  }

  /** The run itself, cleaning the amounts with `clean_currency`; the first error ends it. */
  method Process(t: Table, parse: DateParser) returns (r: Result<Report>)
    requires WellFormed(t) && Distinct(TrimNames(t.header))
    ensures r == Processed(t, parse, CleanCurrency)
  {
    var n :- Normalize(t, CleanCurrency);
    r := Finish(t, n, parse, CleanCurrency);
  }
}
