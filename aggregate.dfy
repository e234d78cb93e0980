/**
 * Per-stock aggregation (portfolio/views.py:117-128): the combined rows are
 * grouped by stock, quantity and the three currency totals are summed per
 * stock, and each stock is labelled by the sign of its net quantity.
 */
module Aggregate {
  import opened Records
  import opened Conversion

  /** The numeric columns that are summed. */
  datatype Column = Quantity | TotalInr | TotalEur | TotalGbp | Cashflow

  function Field(e: EnrichedRow, c: Column): real
  {
    match c
    case Quantity => e.tx.quantity
    case TotalInr => e.totalInr
    case TotalEur => e.totalEur
    case TotalGbp => e.totalGbp
    case Cashflow => e.cashflow
  }

  /** The sum of one column over some rows. */
  function Sum(rows: seq<EnrichedRow>, c: Column): real
  {
    if rows == [] then 0.0 else Sum(rows[..|rows| - 1], c) + Field(rows[|rows| - 1], c)
  }

  /** The stocks that occur in the rows. */
  function Stocks(rows: seq<EnrichedRow>): set<string>
  {
    set i | 0 <= i < |rows| :: rows[i].tx.stock
  }

  /** The distinct stocks in order of first occurrence (`unique()`). */
  function Unique(rows: seq<EnrichedRow>): (u: seq<string>)
    ensures forall j, k :: 0 <= j < k < |u| ==> u[j] != u[k]
    ensures forall s :: s in u <==> s in Stocks(rows)
  {
    if rows == [] then []
    else
      var init, s := rows[..|rows| - 1], rows[|rows| - 1].tx.stock;
      var u := Unique(init);
      assert forall i :: 0 <= i < |init| ==> init[i] == rows[i];
      assert Stocks(rows) == Stocks(init) + {s};
      if s in u then u else u + [s]
  }

  /** The rows of one stock, in their original order (`df[df["Stock"] == stock]`). */
  function RowsOf(rows: seq<EnrichedRow>, stock: string): (r: seq<EnrichedRow>)
    ensures |r| <= |rows|
    ensures forall k :: 0 <= k < |r| ==> r[k].tx.stock == stock
    ensures forall i :: 0 <= i < |rows| && rows[i].tx.stock == stock ==> rows[i] in r
    ensures forall x :: x in r ==> x in rows
  {
    if rows == [] then []
    else
      var init, x := rows[..|rows| - 1], rows[|rows| - 1];
      assert forall i :: 0 <= i < |init| ==> init[i] == rows[i];
      RowsOf(init, stock) + if x.tx.stock == stock then [x] else []
  }

  /** A stock's rows hold each row of that stock exactly as often as the input does, and no other row. */
  lemma {:induction false} RowsOfCounts(rows: seq<EnrichedRow>, stock: string)
    ensures forall x :: multiset(RowsOf(rows, stock))[x] == if x.tx.stock == stock then multiset(rows)[x] else 0
  {
    if rows != [] {
      var init, y := rows[..|rows| - 1], rows[|rows| - 1];
      RowsOfCounts(init, stock);
      assert multiset(rows) == multiset(init) + multiset{y} by { assert rows == init + [y]; }
      var tail := if y.tx.stock == stock then [y] else [];
      assert multiset(RowsOf(rows, stock)) == multiset(RowsOf(init, stock)) + multiset(tail);
    }
  }

  lemma RowsOfNonEmpty(rows: seq<EnrichedRow>, stock: string)
    ensures |RowsOf(rows, stock)| > 0 <==> stock in Stocks(rows)
  {
    if stock in Stocks(rows) {
      var i :| 0 <= i < |rows| && rows[i].tx.stock == stock;
      assert rows[i] in RowsOf(rows, stock);
    }
  }

  /** The latest date among some rows (`["Date"].max()`). */
  function MaxDate(rows: seq<EnrichedRow>): (d: Day)
    requires rows != []
    ensures forall i :: 0 <= i < |rows| ==> rows[i].tx.date <= d
    ensures exists i :: 0 <= i < |rows| && rows[i].tx.date == d
  {
    if |rows| == 1 then rows[0].tx.date
    else
      var init, x := rows[..|rows| - 1], rows[|rows| - 1].tx.date;
      var m := MaxDate(init);
      assert forall i :: 0 <= i < |init| ==> init[i] == rows[i];
      if x > m then x else m
  }

  /** The earliest date among some rows (`["Date"].min()`). */
  function MinDate(rows: seq<EnrichedRow>): (d: Day)
    requires rows != []
    ensures forall i :: 0 <= i < |rows| ==> d <= rows[i].tx.date
    ensures exists i :: 0 <= i < |rows| && rows[i].tx.date == d
  {
    if |rows| == 1 then rows[0].tx.date
    else
      var init, x := rows[..|rows| - 1], rows[|rows| - 1].tx.date;
      var m := MinDate(init);
      assert forall i :: 0 <= i < |init| ==> init[i] == rows[i];
      if x < m then x else m
  }

  /** The Buy/Sell/Neutral label of a net quantity. */
  function Label(q: real): (l: string)
    ensures l == "Buy" <==> q > 0.0
    ensures l == "Sell" <==> q < 0.0
    ensures l == "Neutral" <==> q == 0.0
  {
    if q > 0.0 then "Buy" else if q < 0.0 then "Sell" else "Neutral"
  }

  /** One row of the grouped summary. */
  datatype StockSummary = StockSummary(quantity: real, totalInr: real, totalEur: real, totalGbp: real, side: string)

  function SummaryOf(rows: seq<EnrichedRow>, stock: string): StockSummary
  {
    var rs := RowsOf(rows, stock);
    var q := Sum(rs, Quantity);
    StockSummary(q, Sum(rs, TotalInr), Sum(rs, TotalEur), Sum(rs, TotalGbp), Label(q))
  }

  /**
   * The grouped summary: one entry per distinct stock, holding the sums of
   * that stock's quantities and totals and the label of its net quantity.
   */
  function Summarize(rows: seq<EnrichedRow>): (m: map<string, StockSummary>)
    ensures m.Keys == Stocks(rows)
    ensures forall s :: s in m ==> m[s].quantity == Sum(RowsOf(rows, s), Quantity)
    ensures forall s :: s in m ==> m[s].totalInr == Sum(RowsOf(rows, s), TotalInr)
    ensures forall s :: s in m ==> m[s].totalEur == Sum(RowsOf(rows, s), TotalEur)
    ensures forall s :: s in m ==> m[s].totalGbp == Sum(RowsOf(rows, s), TotalGbp)
    ensures forall s :: s in m ==> m[s].side == Label(m[s].quantity)
  {
    map s | s in Stocks(rows) :: SummaryOf(rows, s)
  }

  /** Summing over a concatenation. */
  lemma {:induction false} SumAppend(a: seq<EnrichedRow>, b: seq<EnrichedRow>, c: Column)
    ensures Sum(a + b, c) == Sum(a, c) + Sum(b, c)
  {
    if b == [] {
      assert a + b == a;
    } else {
      var b0 := b[..|b| - 1];
      SumAppend(a, b0, c);
      assert (a + b)[..|a + b| - 1] == a + b0;
    }
  }

  /** One more row extends its own stock's rows and no other's. */
  lemma RowsOfSnoc(rows: seq<EnrichedRow>, x: EnrichedRow, stock: string)
    ensures RowsOf(rows + [x], stock) == RowsOf(rows, stock) + if x.tx.stock == stock then [x] else []
  {
    var rows' := rows + [x];
    assert rows'[..|rows'| - 1] == rows;
  }

  lemma SumSnoc(rows: seq<EnrichedRow>, x: EnrichedRow, c: Column)
    ensures Sum(rows + [x], c) == Sum(rows, c) + Field(x, c)
  {
    var rows' := rows + [x];
    assert rows'[..|rows'| - 1] == rows;
  }

  /** The sum, over a list of stocks, of each stock's column total. */
  function SumByStock(rows: seq<EnrichedRow>, stocks: seq<string>, c: Column): real
  {
    if stocks == [] then 0.0
    else SumByStock(rows, stocks[..|stocks| - 1], c) + Sum(RowsOf(rows, stocks[|stocks| - 1]), c)
  }

  /** Adding one row adds its value to exactly one stock's total, if that stock is listed once. */
  lemma {:induction false} SumByStockSnoc(rows: seq<EnrichedRow>, x: EnrichedRow, stocks: seq<string>, c: Column)
    requires forall j, k :: 0 <= j < k < |stocks| ==> stocks[j] != stocks[k]
    ensures SumByStock(rows + [x], stocks, c) ==
      SumByStock(rows, stocks, c) + if x.tx.stock in stocks then Field(x, c) else 0.0
  {
    if stocks != [] {
      var init, s := stocks[..|stocks| - 1], stocks[|stocks| - 1];
      SumByStockSnoc(rows, x, init, c);
      var rows' := rows + [x];
      assert rows'[..|rows'| - 1] == rows;
      assert RowsOf(rows', s) == RowsOf(rows, s) + if x.tx.stock == s then [x] else [];
      SumAppend(RowsOf(rows, s), if x.tx.stock == s then [x] else [], c);
      assert x.tx.stock in stocks <==> x.tx.stock in init || x.tx.stock == s;
      assert x.tx.stock == s ==> x.tx.stock !in init;
    }
  }

  /** A row of a stock not seen before opens a new group holding just that row. */
  lemma NewStockGroup(init: seq<EnrichedRow>, x: EnrichedRow, c: Column)
    requires x.tx.stock !in Stocks(init)
    ensures var u := Unique(init);
      SumByStock(init + [x], u + [x.tx.stock], c) == SumByStock(init, u, c) + Field(x, c)
  {
    var rows, s, u := init + [x], x.tx.stock, Unique(init);
    var u' := u + [s];
    assert u'[..|u'| - 1] == u;
    SumByStockSnoc(init, x, u, c);
    RowsOfNonEmpty(init, s);
    assert rows[..|rows| - 1] == init;
    assert RowsOf(rows, s) == [x];
    assert Sum([x], c) == Field(x, c) by {
      assert [x][..0] == [];
    }
  }

  /** Peeling the last row off: how `Unique` and `Sum` extend by one row. */
  lemma PeelLast(rows: seq<EnrichedRow>, c: Column)
    requires rows != []
    ensures var init, x := rows[..|rows| - 1], rows[|rows| - 1];
      && rows == init + [x]
      && Sum(rows, c) == Sum(init, c) + Field(x, c)
      && Unique(rows) == if x.tx.stock in Unique(init) then Unique(init) else Unique(init) + [x.tx.stock]
  {
  }

  /**
   * Grouping loses and duplicates nothing: for every column, the per-stock
   * sums over the distinct stocks add up to the sum over all rows.
   */
  lemma {:induction false} GroupingPreservesSums(rows: seq<EnrichedRow>, c: Column)
    ensures SumByStock(rows, Unique(rows), c) == Sum(rows, c)
  {
    if rows != [] {
      var init, x := rows[..|rows| - 1], rows[|rows| - 1];
      GroupingPreservesSums(init, c);
      PeelLast(rows, c);
      if x.tx.stock in Unique(init) {
        SumByStockSnoc(init, x, Unique(init), c);
      } else {
        NewStockGroup(init, x, c);
      }
    }
  }

  /** In converted rows the cash flows sum to minus the INR totals. */
  lemma {:induction false} CashflowsCancelTotals(rows: seq<EnrichedRow>)
    requires forall i :: 0 <= i < |rows| ==> rows[i].cashflow == -1.0 * rows[i].totalInr
    ensures Sum(rows, Cashflow) == -Sum(rows, TotalInr)
  {
    if rows != [] {
      CashflowsCancelTotals(rows[..|rows| - 1]);
    }
  }

  /** A stock's summary INR total is minus the sum of its cash flows. */
  lemma SummaryInrIsMinusCashflows(rows: seq<EnrichedRow>, cfg: Config, stock: string)
    requires forall i :: 0 <= i < |rows| ==> Converted(rows[i], cfg)
    requires stock in Stocks(rows)
    ensures Summarize(rows)[stock].totalInr == -Sum(RowsOf(rows, stock), Cashflow)
  {
    var rs := RowsOf(rows, stock);
    forall k | 0 <= k < |rs| ensures rs[k].cashflow == -1.0 * rs[k].totalInr {
      assert rs[k] in rows;
    }
    CashflowsCancelTotals(rs);
  }
}
