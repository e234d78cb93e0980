/**
 * Per-row currency conversion (portfolio/views.py:95-107): the INR price uses
 * the day's exchange rate, EUR and GBP use fixed factors, every total is the
 * converted price times the quantity, and the cash flow is minus the INR total.
 * The adjusted close comes from an external quote service, passed in as `quote`.
 */
module Conversion {
  import opened Wrappers
  import opened Records
  import Splits

  /** A transaction with its derived columns. */
  datatype EnrichedRow = EnrichedRow(
    tx: Transaction,
    adjustedClose: Option<real>,
    inrPrice: real, eurPrice: real, gbpPrice: real,
    totalInr: real, totalEur: real, totalGbp: real,
    cashflow: real)

  /** The derived columns of one row, as the source's column expressions define them. */
  predicate Converted(e: EnrichedRow, cfg: Config)
  {
    && e.inrPrice == e.tx.price * ExchangeRate(cfg.rates, e.tx.date)
    && e.eurPrice == e.tx.price * cfg.usdToEur
    && e.gbpPrice == e.tx.price * cfg.usdToGbp
    && e.totalInr == e.inrPrice * e.tx.quantity
    && e.totalEur == e.eurPrice * e.tx.quantity
    && e.totalGbp == e.gbpPrice * e.tx.quantity
    && e.cashflow == -1.0 * e.totalInr
  }

  /**
   * Converts one row. Each total is the currency's factor times the row's
   * value (quantity times USD price), and the cash flow cancels the INR total.
   */
  function Enrich(t: Transaction, cfg: Config, adjustedClose: Option<real>): (e: EnrichedRow)
    ensures e.tx == t && e.adjustedClose == adjustedClose && Converted(e, cfg)
    ensures e.totalInr == ExchangeRate(cfg.rates, t.date) * Notional(t)
    ensures e.totalEur == cfg.usdToEur * Notional(t)
    ensures e.totalGbp == cfg.usdToGbp * Notional(t)
    ensures e.cashflow + e.totalInr == 0.0
  {
    var inr := t.price * ExchangeRate(cfg.rates, t.date);
    var eur := t.price * cfg.usdToEur;
    var gbp := t.price * cfg.usdToGbp;
    EnrichedRow(t, adjustedClose, inr, eur, gbp, inr * t.quantity, eur * t.quantity, gbp * t.quantity, -1.0 * (inr * t.quantity))
  }

  /** Every row converted, in order; `quote` supplies the adjusted close of each. */
  function EnrichAll(rows: seq<Transaction>, cfg: Config, quote: (string, Day) -> Option<real>): (es: seq<EnrichedRow>)
    ensures |es| == |rows|
    ensures forall i :: 0 <= i < |rows| ==> es[i] == Enrich(rows[i], cfg, quote(rows[i].stock, rows[i].date))
  {
    if rows == [] then []
    else
      var t := rows[|rows| - 1];
      EnrichAll(rows[..|rows| - 1], cfg, quote) + [Enrich(t, cfg, quote(t.stock, t.date))]
  }

  /** Rows with the same date and the same value convert to the same totals and cash flow. */
  lemma SameValueSameTotals(t: Transaction, u: Transaction, cfg: Config, a: Option<real>, b: Option<real>)
    requires t.date == u.date && Notional(t) == Notional(u)
    ensures var x, y := Enrich(t, cfg, a), Enrich(u, cfg, b);
      x.totalInr == y.totalInr && x.totalEur == y.totalEur && x.totalGbp == y.totalGbp && x.cashflow == y.cashflow
  {
  }

  /**
   * Split adjustment, which runs before conversion, changes no row's totals or
   * cash flow: it keeps the date and quantity times price of every row.
   */
  lemma SplitsKeepTotals(rows: seq<Transaction>, splits: seq<Split>, cfg: Config, quote: (string, Day) -> Option<real>, i: int)
    requires 0 <= i < |rows|
    ensures var x, y := EnrichAll(Splits.ApplySplits(rows, splits), cfg, quote)[i], EnrichAll(rows, cfg, quote)[i];
      x.totalInr == y.totalInr && x.totalEur == y.totalEur && x.totalGbp == y.totalGbp && x.cashflow == y.cashflow
  {
    var adjusted := Splits.ApplySplits(rows, splits);
    Splits.ApplySplitsAt(rows, splits, i);
    Splits.SplitsPreserveNotional(rows, splits, i);
    SameValueSameTotals(adjusted[i], rows[i], cfg,
      quote(adjusted[i].stock, adjusted[i].date), quote(rows[i].stock, rows[i].date));
  }
}
