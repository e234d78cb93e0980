/**
 * Holding values and the daily valuation series (portfolio/views.py:143-150,
 * 160-179). A stock's holding is its net quantity times the price of its
 * latest row; a day's portfolio value is the sum of the holdings computed from
 * the rows dated on or before that day, converted to the other currencies
 * with that day's rate and the fixed factors.
 */
module Valuation {
  import opened Records
  import opened Conversion
  import opened Aggregate

  /** The rows dated on or before a day (`df[df["Date"] <= date]`), in order. */
  function OnOrBefore(rows: seq<EnrichedRow>, day: Day): (r: seq<EnrichedRow>)
    ensures forall k :: 0 <= k < |r| ==> r[k].tx.date <= day
    ensures forall x :: x in r ==> x in rows
    ensures forall i :: 0 <= i < |rows| && rows[i].tx.date <= day ==> rows[i] in r
  {
    if rows == [] then []
    else
      var init, x := rows[..|rows| - 1], rows[|rows| - 1];
      assert forall i :: 0 <= i < |init| ==> init[i] == rows[i];
      OnOrBefore(init, day) + if x.tx.date <= day then [x] else []
  }

  /** The rows up to a day hold each row dated on or before it exactly as often as the input does. */
  lemma {:induction false} OnOrBeforeCounts(rows: seq<EnrichedRow>, day: Day)
    ensures forall x :: multiset(OnOrBefore(rows, day))[x] == if x.tx.date <= day then multiset(rows)[x] else 0
  {
    if rows != [] {
      var init, y := rows[..|rows| - 1], rows[|rows| - 1];
      OnOrBeforeCounts(init, day);
      assert multiset(rows) == multiset(init) + multiset{y} by { assert rows == init + [y]; }
      var tail := if y.tx.date <= day then [y] else [];
      assert multiset(OnOrBefore(rows, day)) == multiset(OnOrBefore(init, day)) + multiset(tail);
    }
  }

  /**
   * The position of the latest row (`sort_values("Date")...last()`): no row is
   * dated later, and every row after it is dated strictly earlier, so among
   * rows sharing the latest date the last one is chosen.
   */
  function LatestIndex(rs: seq<EnrichedRow>): (i: nat)
    requires rs != []
    ensures i < |rs|
    ensures forall j :: 0 <= j < |rs| ==> rs[j].tx.date <= rs[i].tx.date
    ensures forall j :: i < j < |rs| ==> rs[j].tx.date < rs[i].tx.date
  {
    if |rs| == 1 then 0
    else
      var n := |rs| - 1;
      var i := LatestIndex(rs[..n]);
      assert rs[..n][i] == rs[i];
      if rs[n].tx.date >= rs[i].tx.date then n else i
  }

  /** Row `i` is a row of `stock` and no row of `stock` is dated later. */
  predicate IsLatestRowOf(rows: seq<EnrichedRow>, stock: string, i: int)
  {
    && 0 <= i < |rows| && rows[i].tx.stock == stock
    && forall j :: 0 <= j < |rows| && rows[j].tx.stock == stock ==> rows[j].tx.date <= rows[i].tx.date
  }

  /** The price of a stock's latest row. */
  function LatestPrice(rows: seq<EnrichedRow>, stock: string): real
    requires stock in Stocks(rows)
  {
    var rs := RowsOf(rows, stock);
    RowsOfNonEmpty(rows, stock);
    rs[LatestIndex(rs)].tx.price
  }

  /** A stock's latest price is the price of one of its rows that no row of the stock postdates. */
  lemma LatestPriceIsLatestRow(rows: seq<EnrichedRow>, stock: string)
    requires stock in Stocks(rows)
    ensures exists i :: IsLatestRowOf(rows, stock, i) && rows[i].tx.price == LatestPrice(rows, stock)
  {
    var rs := RowsOf(rows, stock);
    RowsOfNonEmpty(rows, stock);
    var latest := rs[LatestIndex(rs)];
    assert latest in rows;
    var i :| 0 <= i < |rows| && rows[i] == latest;
    assert IsLatestRowOf(rows, stock, i);
  }

  /**
   * When one row of a stock is dated later than all its others, the stock's
   * latest price is that row's price.
   */
  lemma LatestPriceOfUniqueLatest(rows: seq<EnrichedRow>, stock: string, i: int)
    requires 0 <= i < |rows| && rows[i].tx.stock == stock
    requires forall j :: 0 <= j < |rows| && j != i && rows[j].tx.stock == stock ==> rows[j].tx.date < rows[i].tx.date
    ensures stock in Stocks(rows)
    ensures LatestPrice(rows, stock) == rows[i].tx.price
  {
    assert rows[i].tx.stock in Stocks(rows);
    var rs := RowsOf(rows, stock);
    RowsOfNonEmpty(rows, stock);
    var latest := rs[LatestIndex(rs)];
    assert rows[i] in rs;
    assert latest in rows;
    var j :| 0 <= j < |rows| && rows[j] == latest;
    assert latest.tx.stock == stock;
    assert j == i;
  }

  /** The USD worth of a quantity at a price. */
  function Worth(quantity: real, price: real): real
  {
    quantity * price
  }

  /** An amount converted by a factor. */
  function Convert(amount: real, factor: real): real
  {
    amount * factor
  }

  /** A stock's holding in USD: its net quantity times its latest price. */
  function HoldingUsd(rows: seq<EnrichedRow>, stock: string): (h: real)
    requires stock in Stocks(rows)
    ensures Sum(RowsOf(rows, stock), Quantity) == 0.0 ==> h == 0.0
    ensures h == Sum(RowsOf(rows, stock), Quantity) * LatestPrice(rows, stock)
  {
    Worth(Sum(RowsOf(rows, stock), Quantity), LatestPrice(rows, stock))
  }

  /** The sum of the holdings of some stocks. */
  function TotalHoldings(rows: seq<EnrichedRow>, stocks: seq<string>): real
    requires forall s :: s in stocks ==> s in Stocks(rows)
  {
    if stocks == [] then 0.0
    else TotalHoldings(rows, stocks[..|stocks| - 1]) + HoldingUsd(rows, stocks[|stocks| - 1])
  }

  lemma TotalHoldingsStep(rows: seq<EnrichedRow>, stocks: seq<string>, k: int)
    requires 0 <= k < |stocks|
    requires forall s :: s in stocks ==> s in Stocks(rows)
    ensures TotalHoldings(rows, stocks[..k + 1]) == TotalHoldings(rows, stocks[..k]) + HoldingUsd(rows, stocks[k])
  {
    assert stocks[..k + 1][..k] == stocks[..k];
  }

  /** A day's portfolio value in USD: the holdings of the rows up to that day. */
  function DayValue(rows: seq<EnrichedRow>, day: Day): real
  {
    var upTo := OnOrBefore(rows, day);
    TotalHoldings(upTo, Unique(upTo))
  }

  /** A USD amount and its INR, EUR and GBP equivalents. */
  datatype Values = Values(usd: real, inr: real, eur: real, gbp: real)

  /**
   * A USD amount in all four currencies: INR at the given rate, EUR and GBP at
   * the configured factors.
   */
  function InCurrencies(usd: real, inrRate: real, cfg: Config): (v: Values)
    ensures v.usd == usd
    ensures v.inr == Convert(usd, inrRate)
    ensures v.eur == Convert(usd, cfg.usdToEur) && v.gbp == Convert(usd, cfg.usdToGbp)
  {
    Values(usd, Convert(usd, inrRate), Convert(usd, cfg.usdToEur), Convert(usd, cfg.usdToGbp))
  }

  /**
   * The holding values of every stock, with INR at the rate of `today`, the
   * day the report is made.
   */
  function Holdings(rows: seq<EnrichedRow>, cfg: Config, today: Day): (m: map<string, Values>)
    ensures m.Keys == Stocks(rows)
    ensures forall s :: s in m ==> m[s] == InCurrencies(HoldingUsd(rows, s), ExchangeRate(cfg.rates, today), cfg)
  {
    map s | s in Stocks(rows) :: InCurrencies(HoldingUsd(rows, s), ExchangeRate(cfg.rates, today), cfg)
  }

  /** One day's entry of the valuation series: its value, INR at that day's rate. */
  function DaySnapshot(rows: seq<EnrichedRow>, cfg: Config, day: Day): (v: Values)
    ensures v.usd == DayValue(rows, day)
    ensures v.inr == Convert(v.usd, ExchangeRate(cfg.rates, day))
    ensures v.eur == Convert(v.usd, cfg.usdToEur) && v.gbp == Convert(v.usd, cfg.usdToGbp)
  {
    InCurrencies(DayValue(rows, day), ExchangeRate(cfg.rates, day), cfg)
  }

  /** The series entries for the days from `lo` up to but excluding `hi`. */
  function Series(rows: seq<EnrichedRow>, cfg: Config, lo: Day, hi: Day): map<Day, Values>
    decreases hi - lo
  {
    if hi <= lo then map[] else Series(rows, cfg, lo, hi - 1)[hi - 1 := DaySnapshot(rows, cfg, hi - 1)]
  }

  /** The series has exactly the days from `lo` to `hi - 1`, each holding that day's snapshot. */
  lemma {:induction false} SeriesDays(rows: seq<EnrichedRow>, cfg: Config, lo: Day, hi: Day)
    ensures forall d :: d in Series(rows, cfg, lo, hi) <==> lo <= d < hi
    ensures forall d :: d in Series(rows, cfg, lo, hi) ==> Series(rows, cfg, lo, hi)[d] == DaySnapshot(rows, cfg, d)
    decreases hi - lo
  {
    if lo < hi {
      SeriesDays(rows, cfg, lo, hi - 1);
    }
  }

  /**
   * The series the report shows: one entry per day from the earliest to the
   * latest transaction date, each that day's value in the four currencies.
   */
  function ReportSeries(rows: seq<EnrichedRow>, cfg: Config): (ts: map<Day, Values>)
    requires rows != []
    ensures forall d :: d in ts <==> MinDate(rows) <= d <= MaxDate(rows)
    ensures forall d :: d in ts ==> ts[d] == DaySnapshot(rows, cfg, d)
  {
    var lo, hi := MinDate(rows), MaxDate(rows) + 1;
    SeriesDays(rows, cfg, lo, hi);
    Series(rows, cfg, lo, hi)
  }

  /** The earliest and the latest transaction date (`Date.min()`, `Date.max()`). */
  method DateRange(rows: seq<EnrichedRow>) returns (start: Day, end: Day)
    requires rows != []
    ensures forall i :: 0 <= i < |rows| ==> start <= rows[i].tx.date <= end
    ensures exists i :: 0 <= i < |rows| && rows[i].tx.date == start
    ensures exists j :: 0 <= j < |rows| && rows[j].tx.date == end
  {
    start, end := rows[0].tx.date, rows[0].tx.date;
    ghost var first, last := 0, 0;
    var k := 1;
    while k < |rows|
      invariant 1 <= k <= |rows|
      invariant forall i :: 0 <= i < k ==> start <= rows[i].tx.date <= end
      invariant 0 <= first < k && rows[first].tx.date == start
      invariant 0 <= last < k && rows[last].tx.date == end
    {
      var date := rows[k].tx.date;
      if date < start {
        start, first := date, k;
      }
      if date > end {
        end, last := date, k;
      }
      k := k + 1;
    }
  }

  /**
   * The valuation series: one entry per calendar day from the earliest to the
   * latest transaction date (a day some row is dated on or before and some
   * row on or after), each the day's value in the four currencies, INR at
   * that day's rate.
   */
  method BuildTimeSeries(rows: seq<EnrichedRow>, cfg: Config) returns (start: Day, end: Day, ts: map<Day, Values>)
    requires rows != []
    ensures forall i :: 0 <= i < |rows| ==> start <= rows[i].tx.date <= end
    ensures exists i :: 0 <= i < |rows| && rows[i].tx.date == start
    ensures exists j :: 0 <= j < |rows| && rows[j].tx.date == end
    ensures ts == Series(rows, cfg, start, end + 1)
  {
    start, end := DateRange(rows);
    ts := FillSeries(rows, cfg, start, end);
  }

  /** The series loop (`pd.date_range(start, end)`): one snapshot per day from `start` to `end`. */
  method FillSeries(rows: seq<EnrichedRow>, cfg: Config, start: Day, end: Day) returns (ts: map<Day, Values>)
    ensures ts == Series(rows, cfg, start, end + 1)
  {
    ts := map[];
    var date := start;
    while date <= end
      invariant start <= date <= if start <= end then end + 1 else start
      invariant ts == Series(rows, cfg, start, date)
      decreases end - date
    {
      var totalUsd := DayTotal(rows, date);
      var snapshot := InCurrencies(totalUsd, ExchangeRate(cfg.rates, date), cfg);
      ts := ts[date := snapshot];
      date := date + 1;
    }
  }

  /**
   * Over the range `BuildTimeSeries` computes, the series holds exactly the
   * days some row is dated on or before and some row on or after, each with
   * its snapshot.
   */
  lemma SeriesCoversRange(rows: seq<EnrichedRow>, cfg: Config, start: Day, end: Day)
    requires forall i :: 0 <= i < |rows| ==> start <= rows[i].tx.date <= end
    requires exists i :: 0 <= i < |rows| && rows[i].tx.date == start
    requires exists j :: 0 <= j < |rows| && rows[j].tx.date == end
    ensures var ts := Series(rows, cfg, start, end + 1);
      && (forall d :: d in ts <==>
            (exists i :: 0 <= i < |rows| && rows[i].tx.date <= d) && (exists j :: 0 <= j < |rows| && d <= rows[j].tx.date))
      && (forall d :: d in ts ==> ts[d] == DaySnapshot(rows, cfg, d))
  {
    SeriesDays(rows, cfg, start, end + 1);
  }

  /** That range runs from the earliest to the latest transaction date. */
  lemma RangeIsMinMax(rows: seq<EnrichedRow>, start: Day, end: Day)
    requires rows != []
    requires forall i :: 0 <= i < |rows| ==> start <= rows[i].tx.date <= end
    requires exists i :: 0 <= i < |rows| && rows[i].tx.date == start
    requires exists j :: 0 <= j < |rows| && rows[j].tx.date == end
    ensures start == MinDate(rows) && end == MaxDate(rows)
  {
  }

  /**
   * One day of the series loop: the holdings up to the day, summed stock by
   * stock.
   */
  method DayTotal(rows: seq<EnrichedRow>, date: Day) returns (totalUsd: real)
    ensures totalUsd == DayValue(rows, date)
  {
    var daily := OnOrBefore(rows, date);
    var stocks := Unique(daily);
    totalUsd := 0.0;
    var k := 0;
    while k < |stocks|
      invariant 0 <= k <= |stocks|
      invariant totalUsd == TotalHoldings(daily, stocks[..k])
    {
      TotalHoldingsStep(daily, stocks, k);
      totalUsd := totalUsd + HoldingUsd(daily, stocks[k]);
      k := k + 1;
    }
    assert stocks[..k] == stocks;
  }

  /** The holdings summed row by row: each row's quantity at its stock's latest price in `upTo`. */
  function RowWorths(rs: seq<EnrichedRow>, upTo: seq<EnrichedRow>): real
    requires forall k :: 0 <= k < |rs| ==> rs[k].tx.stock in Stocks(upTo)
  {
    if rs == [] then 0.0
    else
      var x := rs[|rs| - 1];
      RowWorths(rs[..|rs| - 1], upTo) + Worth(x.tx.quantity, LatestPrice(upTo, x.tx.stock))
  }

  /** The holdings of some stocks, counting the quantities in `rs` and the prices in `upTo`. */
  function StockWorths(rs: seq<EnrichedRow>, stocks: seq<string>, upTo: seq<EnrichedRow>): real
    requires forall s :: s in stocks ==> s in Stocks(upTo)
  {
    if stocks == [] then 0.0
    else
      var s := stocks[|stocks| - 1];
      StockWorths(rs, stocks[..|stocks| - 1], upTo) + Worth(Sum(RowsOf(rs, s), Quantity), LatestPrice(upTo, s))
  }

  /** Worth distributes over a quantity that may or may not grow by `q`. */
  lemma WorthDistributes(a: real, q: real, p: real, grows: bool)
    ensures Worth(a + if grows then q else 0.0, p) == Worth(a, p) + if grows then Worth(q, p) else 0.0
  {
  }

  lemma {:induction false} TotalHoldingsAreStockWorths(rows: seq<EnrichedRow>, stocks: seq<string>)
    requires forall s :: s in stocks ==> s in Stocks(rows)
    ensures TotalHoldings(rows, stocks) == StockWorths(rows, stocks, rows)
  {
    if stocks != [] {
      TotalHoldingsAreStockWorths(rows, stocks[..|stocks| - 1]);
    }
  }

  /** One more row changes the net quantity of its own stock by its quantity, and no other. */
  lemma QuantityStep(rs: seq<EnrichedRow>, x: EnrichedRow, s: string)
    ensures Sum(RowsOf(rs + [x], s), Quantity) == Sum(RowsOf(rs, s), Quantity) + if x.tx.stock == s then x.tx.quantity else 0.0
  {
    RowsOfSnoc(rs, x, s);
    if x.tx.stock == s {
      SumSnoc(RowsOf(rs, s), x, Quantity);
    } else {
      assert RowsOf(rs + [x], s) == RowsOf(rs, s) + [] == RowsOf(rs, s);
    }
  }

  /** One more row changes the holding of its own stock by its worth, and no other holding. */
  lemma StockWorthStep(rs: seq<EnrichedRow>, x: EnrichedRow, s: string, upTo: seq<EnrichedRow>)
    requires s in Stocks(upTo)
    ensures Worth(Sum(RowsOf(rs + [x], s), Quantity), LatestPrice(upTo, s)) ==
      Worth(Sum(RowsOf(rs, s), Quantity), LatestPrice(upTo, s)) + if x.tx.stock == s then Worth(x.tx.quantity, LatestPrice(upTo, s)) else 0.0
  {
    QuantityStep(rs, x, s);
    WorthDistributes(Sum(RowsOf(rs, s), Quantity), x.tx.quantity, LatestPrice(upTo, s), x.tx.stock == s);
  }

  /** One more row adds its worth to its own stock's holding, if that stock is listed once. */
  lemma {:induction false} StockWorthsSnoc(rs: seq<EnrichedRow>, x: EnrichedRow, stocks: seq<string>, upTo: seq<EnrichedRow>)
    requires forall s :: s in stocks ==> s in Stocks(upTo)
    requires x.tx.stock in Stocks(upTo)
    requires forall j, k :: 0 <= j < k < |stocks| ==> stocks[j] != stocks[k]
    ensures StockWorths(rs + [x], stocks, upTo) ==
      StockWorths(rs, stocks, upTo) + if x.tx.stock in stocks then Worth(x.tx.quantity, LatestPrice(upTo, x.tx.stock)) else 0.0
  {
    if stocks != [] {
      var init, s := stocks[..|stocks| - 1], stocks[|stocks| - 1];
      StockWorthsSnoc(rs, x, init, upTo);
      StockWorthStep(rs, x, s, upTo);
      assert x.tx.stock in stocks <==> x.tx.stock in init || x.tx.stock == s;
      assert x.tx.stock == s ==> x.tx.stock !in init;
    }
  }

  /** A row of a stock not seen before opens a new holding worth just that row. */
  lemma NewStockWorth(rs: seq<EnrichedRow>, x: EnrichedRow, upTo: seq<EnrichedRow>)
    requires forall k :: 0 <= k < |rs| ==> rs[k].tx.stock in Stocks(upTo)
    requires x.tx.stock in Stocks(upTo)
    requires x.tx.stock !in Stocks(rs)
    ensures var u := Unique(rs);
      StockWorths(rs + [x], u + [x.tx.stock], upTo) ==
      StockWorths(rs, u, upTo) + Worth(x.tx.quantity, LatestPrice(upTo, x.tx.stock))
  {
    var rs', s, u := rs + [x], x.tx.stock, Unique(rs);
    var u' := u + [s];
    assert u'[..|u'| - 1] == u;
    forall t | t in u ensures t in Stocks(upTo) {
      var i :| 0 <= i < |rs| && rs[i].tx.stock == t;
    }
    StockWorthsSnoc(rs, x, u, upTo);
    RowsOfNonEmpty(rs, s);
    assert rs'[..|rs'| - 1] == rs;
    assert RowsOf(rs', s) == [x];
    assert Sum([x], Quantity) == x.tx.quantity by {
      assert [x][..0] == [];
    }
  }

  /**
   * Grouping by stock does not change the total: the per-stock holdings add
   * up to the sum, over the rows, of each row's quantity at its stock's price.
   */
  lemma {:induction false} GroupedWorths(rs: seq<EnrichedRow>, upTo: seq<EnrichedRow>)
    requires forall k :: 0 <= k < |rs| ==> rs[k].tx.stock in Stocks(upTo)
    ensures forall s :: s in Unique(rs) ==> s in Stocks(upTo)
    ensures StockWorths(rs, Unique(rs), upTo) == RowWorths(rs, upTo)
  {
    UniqueWithin(rs, upTo);
    if rs != [] {
      var init, x := rs[..|rs| - 1], rs[|rs| - 1];
      GroupedWorths(init, upTo);
      GroupedWorthsStep(rs, upTo);
    }
  }

  /** The last row adds its own worth to the grouped holdings of the rows before it. */
  lemma GroupedWorthsStep(rs: seq<EnrichedRow>, upTo: seq<EnrichedRow>)
    requires rs != []
    requires forall k :: 0 <= k < |rs| ==> rs[k].tx.stock in Stocks(upTo)
    ensures forall s :: s in Unique(rs) ==> s in Stocks(upTo)
    ensures var init, x := rs[..|rs| - 1], rs[|rs| - 1];
      && (forall s :: s in Unique(init) ==> s in Stocks(upTo))
      && StockWorths(rs, Unique(rs), upTo) ==
         StockWorths(init, Unique(init), upTo) + Worth(x.tx.quantity, LatestPrice(upTo, x.tx.stock))
  {
    var init, x := rs[..|rs| - 1], rs[|rs| - 1];
    UniqueWithin(rs, upTo);
    UniqueWithin(init, upTo);
    PeelLast(rs, Quantity);
    if x.tx.stock in Unique(init) {
      StockWorthsSnoc(init, x, Unique(init), upTo);
    } else {
      NewStockWorth(init, x, upTo);
    }
  }

  lemma UniqueWithin(rs: seq<EnrichedRow>, upTo: seq<EnrichedRow>)
    requires forall k :: 0 <= k < |rs| ==> rs[k].tx.stock in Stocks(upTo)
    ensures forall s :: s in Unique(rs) ==> s in Stocks(upTo)
  {
    forall s | s in Unique(rs) ensures s in Stocks(upTo) {
      var i :| 0 <= i < |rs| && rs[i].tx.stock == s;
    }
  }

  /**
   * A day's value is the sum, over the rows dated on or before it, of each
   * row's quantity times the price of its stock's latest such row.
   */
  lemma DayValueByRows(rows: seq<EnrichedRow>, day: Day)
    ensures var upTo := OnOrBefore(rows, day);
      (forall k :: 0 <= k < |upTo| ==> upTo[k].tx.stock in Stocks(upTo))
      && DayValue(rows, day) == RowWorths(upTo, upTo)
  {
    var upTo := OnOrBefore(rows, day);
    GroupedWorths(upTo, upTo);
    TotalHoldingsAreStockWorths(upTo, Unique(upTo));
  }

  /** Up to a day no earlier than every row, all rows count. */
  lemma {:induction false} OnOrBeforeAll(rows: seq<EnrichedRow>, day: Day)
    requires forall i :: 0 <= i < |rows| ==> rows[i].tx.date <= day
    ensures OnOrBefore(rows, day) == rows
  {
    if rows != [] {
      var init := rows[..|rows| - 1];
      OnOrBeforeAll(init, day);
      assert rows == init + [rows[|rows| - 1]];
    }
  }

  /** A day on which nothing was traded has the value of the day before it. */
  lemma {:induction false} OnOrBeforeQuietDay(rows: seq<EnrichedRow>, day: Day)
    requires forall i :: 0 <= i < |rows| ==> rows[i].tx.date != day + 1
    ensures OnOrBefore(rows, day + 1) == OnOrBefore(rows, day)
  {
    if rows != [] {
      OnOrBeforeQuietDay(rows[..|rows| - 1], day);
    }
  }

  lemma QuietDayKeepsValue(rows: seq<EnrichedRow>, day: Day)
    requires forall i :: 0 <= i < |rows| ==> rows[i].tx.date != day + 1
    ensures DayValue(rows, day + 1) == DayValue(rows, day)
  {
    OnOrBeforeQuietDay(rows, day);
  }

  /**
   * On the latest transaction date the series' USD value is the sum of the
   * per-stock USD holding values, each stock counted once.
   */
  lemma LastDayIsTotalHolding(rows: seq<EnrichedRow>)
    requires rows != []
    ensures DayValue(rows, MaxDate(rows)) == TotalHoldings(rows, Unique(rows))
  {
    OnOrBeforeAll(rows, MaxDate(rows));
  }

  /**
   * Before the earliest transaction date nothing is held; on it, and on every
   * later day, some stock is.
   */
  lemma {:induction false} NothingBeforeFirstDay(rows: seq<EnrichedRow>, day: Day)
    requires forall i :: 0 <= i < |rows| ==> day < rows[i].tx.date
    ensures OnOrBefore(rows, day) == [] && DayValue(rows, day) == 0.0
  {
    if rows != [] {
      NothingBeforeFirstDay(rows[..|rows| - 1], day);
    }
  }
}
