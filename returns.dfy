/**
 * The per-stock return calculation (portfolio/views.py:34-40, 130-138): a
 * stock's cash flows are its rows' cash flows followed by one terminal flow,
 * dated at the stock's latest date and worth the sum of its INR totals. The
 * rate solver the source calls (`np.irr`) is outside the model and is passed
 * in as `irr`, which may fail.
 */
module Returns {
  import opened Wrappers
  import opened Records
  import opened Conversion
  import opened Aggregate

  /** One dated cash flow. */
  datatype Flow = Flow(date: Day, amount: real)

  /** The rows' own cash flows, in row order (`zip(Date, Cashflow)`). */
  function Flows(rows: seq<EnrichedRow>): (fs: seq<Flow>)
    ensures |fs| == |rows|
    ensures forall k :: 0 <= k < |rows| ==> fs[k] == Flow(rows[k].tx.date, rows[k].cashflow)
  {
    if rows == [] then []
    else
      var x := rows[|rows| - 1];
      Flows(rows[..|rows| - 1]) + [Flow(x.tx.date, x.cashflow)]
  }

  /** The sum of the amounts of some flows. */
  function Total(fs: seq<Flow>): real
  {
    if fs == [] then 0.0 else Total(fs[..|fs| - 1]) + fs[|fs| - 1].amount
  }

  /** The amounts alone: the solver sees no dates. */
  function Amounts(fs: seq<Flow>): (a: seq<real>)
    ensures |a| == |fs|
    ensures forall k :: 0 <= k < |fs| ==> a[k] == fs[k].amount
  {
    seq(|fs|, k requires 0 <= k < |fs| => fs[k].amount)
  }

  /** The cash-flow list of one stock: its rows' flows, then the terminal flow. */
  function CashFlows(rows: seq<EnrichedRow>, stock: string): (fs: seq<Flow>)
    requires stock in Stocks(rows)
    ensures RowsOf(rows, stock) != []
    ensures |fs| == |RowsOf(rows, stock)| + 1
  {
    var rs := RowsOf(rows, stock);
    RowsOfNonEmpty(rows, stock);
    Flows(rs) + [Flow(MaxDate(rs), Sum(rs, TotalInr))]
  }

  /** The flows' total is the sum of the rows' cash flows. */
  lemma {:induction false} FlowsTotal(rows: seq<EnrichedRow>)
    ensures Total(Flows(rows)) == Sum(rows, Cashflow)
  {
    if rows != [] {
      var init := rows[..|rows| - 1];
      FlowsTotal(init);
      var fs := Flows(rows);
      assert fs[..|fs| - 1] == Flows(init);
    }
  }

  /**
   * The list has one flow per row of the stock, in row order, then the
   * terminal flow: dated no earlier than any of them, on one of their dates,
   * and worth the stock's INR total.
   */
  lemma CashFlowsShape(rows: seq<EnrichedRow>, stock: string)
    requires stock in Stocks(rows)
    ensures var rs, fs := RowsOf(rows, stock), CashFlows(rows, stock);
      && (forall k :: 0 <= k < |rs| ==> fs[k] == Flow(rs[k].tx.date, rs[k].cashflow))
      && fs[|rs|].amount == Sum(rs, TotalInr)
      && (forall k :: 0 <= k < |rs| ==> fs[k].date <= fs[|rs|].date)
      && (exists k :: 0 <= k < |rs| && fs[k].date == fs[|rs|].date)
  {
    var rs, fs := RowsOf(rows, stock), CashFlows(rows, stock);
    assert forall k :: 0 <= k < |rs| ==> fs[k] == Flows(rs)[k];
    var k :| 0 <= k < |rs| && rs[k].tx.date == MaxDate(rs);
    assert fs[k].date == fs[|rs|].date;
  }

  /**
   * For converted rows a stock's cash flows sum to zero: each row pays out its
   * INR total, and the terminal flow pays all of them back.
   */
  lemma CashFlowsSumToZero(rows: seq<EnrichedRow>, cfg: Config, stock: string)
    requires forall i :: 0 <= i < |rows| ==> Converted(rows[i], cfg)
    requires stock in Stocks(rows)
    ensures Total(CashFlows(rows, stock)) == 0.0
  {
    var rs := RowsOf(rows, stock);
    var fs := CashFlows(rows, stock);
    assert fs[..|fs| - 1] == Flows(rs);
    FlowsTotal(rs);
    forall k | 0 <= k < |rs| ensures rs[k].cashflow == -1.0 * rs[k].totalInr {
      assert rs[k] in rows;
    }
    CashflowsCancelTotals(rs);
  }

  /** `b` to the power `k`. */
  function Pow(b: real, k: nat): (p: real)
    ensures b > 0.0 ==> p > 0.0
  {
    if k == 0 then 1.0 else Pow(b, k - 1) * b
  }

  /** The net present value of evenly spaced amounts at a periodic rate. */
  function Npv(amounts: seq<real>, rate: real): real
    requires rate > -1.0
  {
    if amounts == [] then 0.0
    else
      var n := |amounts| - 1;
      Npv(amounts[..n], rate) + amounts[n] / Pow(1.0 + rate, n)
  }

  lemma {:induction false} PowOfOne(k: nat)
    ensures Pow(1.0, k) == 1.0
  {
    if k > 0 {
      PowOfOne(k - 1);
    }
  }

  /** At rate zero the net present value is the plain total. */
  lemma {:induction false} NpvAtZero(fs: seq<Flow>)
    ensures Npv(Amounts(fs), 0.0) == Total(fs)
  {
    if fs != [] {
      var n := |fs| - 1;
      NpvAtZero(fs[..n]);
      assert Amounts(fs)[..n] == Amounts(fs[..n]);
      PowOfOne(n);
    }
  }

  /**
   * Rate zero solves the return equation of every stock's cash-flow list,
   * because the terminal flow exactly cancels the others.
   */
  lemma ZeroRateSolvesCashFlows(rows: seq<EnrichedRow>, cfg: Config, stock: string)
    requires forall i :: 0 <= i < |rows| ==> Converted(rows[i], cfg)
    requires stock in Stocks(rows)
    ensures Npv(Amounts(CashFlows(rows, stock)), 0.0) == 0.0
  {
    NpvAtZero(CashFlows(rows, stock));
    CashFlowsSumToZero(rows, cfg, stock);
  }

  function Percent(r: real): real
  {
    r * 100.0
  }

  /**
   * The return of some flows, in percent: the solver's periodic rate for
   * their amounts, or nothing when the solver fails.
   */
  function Xirr(fs: seq<Flow>, irr: seq<real> -> Option<real>): (x: Option<real>)
    ensures x.None? <==> irr(Amounts(fs)).None?
    ensures x.Some? ==> x.value == Percent(irr(Amounts(fs)).value)
  {
    match irr(Amounts(fs))
    case None => None
    case Some(r) => Some(Percent(r))
  }

  /** The solver sees amounts only, so flows that differ in dates alone have the same return. */
  lemma XirrIgnoresDates(fs: seq<Flow>, gs: seq<Flow>, irr: seq<real> -> Option<real>)
    requires |fs| == |gs|
    requires forall k :: 0 <= k < |fs| ==> fs[k].amount == gs[k].amount
    ensures Xirr(fs, irr) == Xirr(gs, irr)
  {
    assert Amounts(fs) == Amounts(gs);
  }

  /**
   * The per-stock returns, one per distinct stock in order of first
   * occurrence, each computed from that stock's cash-flow list.
   */
  method XirrResults(rows: seq<EnrichedRow>, irr: seq<real> -> Option<real>) returns (results: seq<(string, Option<real>)>)
    ensures |results| == |Unique(rows)|
    ensures forall k :: 0 <= k < |results| ==>
      results[k].0 == Unique(rows)[k] && results[k].1 == Xirr(CashFlows(rows, results[k].0), irr)
  {
    var stocks := Unique(rows);
    results := [];
    var k := 0;
    while k < |stocks|
      invariant 0 <= k <= |stocks|
      invariant |results| == k
      invariant forall j :: 0 <= j < k ==>
        results[j].0 == stocks[j] && results[j].1 == Xirr(CashFlows(rows, stocks[j]), irr)
    {
      var stock := stocks[k];
      var stockRows := RowsOf(rows, stock);
      RowsOfNonEmpty(rows, stock);
      var flows := Flows(stockRows);
      var latest := MaxDate(stockRows);
      var lastValue := Sum(stockRows, TotalInr);
      flows := flows + [Flow(latest, lastValue)];
      results := results + [(stock, Xirr(flows, irr))];
      k := k + 1;
    }
  }
}
