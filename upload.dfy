/**
 * The upload pipeline (portfolio/views.py:60-179): up to three files are
 * processed in order, each normalised, split-adjusted and converted; the
 * first file that fails ends the upload with its error; no file at all is an
 * error too. The combined rows then give the per-stock summary (with each
 * stock's return and holding values merged in) and the daily valuation
 * series.
 */
module Upload {
  import opened Wrappers
  import opened Records
  import opened Normalize
  import opened Splits
  import opened Conversion
  import opened Aggregate
  import opened Returns
  import opened Valuation

  /**
   * One file of the upload: normalised, split-adjusted and converted. A file
   * whose rows were all dropped cannot be converted and fails as a whole.
   */
  function ProcessFile(f: RawFile, cfg: Config, quote: (string, Day) -> Option<real>): (r: Result<seq<EnrichedRow>, UploadError>)
    ensures r.Ok? ==> r.value != []
  {
    match NormalizeFile(f)
    case Err(e) => Err(e)
    case Ok(txs) =>
      var adjusted := ApplySplits(txs, cfg.splits);
      if adjusted == [] then Err(EmptyFile(f.name))
      else Ok(EnrichAll(adjusted, cfg, quote))
  }

  /** A file fails exactly when it lacks a required column or keeps no valid row. */
  lemma ProcessFileErrors(f: RawFile, cfg: Config, quote: (string, Day) -> Option<real>)
    ensures ProcessFile(f, cfg, quote) == Err(MissingColumns(f.name)) <==> !HasRequiredColumns(f.header)
    ensures ProcessFile(f, cfg, quote) == Err(EmptyFile(f.name)) <==> HasRequiredColumns(f.header) && DropInvalid(f.rows) == []
    ensures ProcessFile(f, cfg, quote).Err? ==> ProcessFile(f, cfg, quote).error in {MissingColumns(f.name), EmptyFile(f.name)}
  {
  }

  /** A processed file holds one converted row per valid row of the file, in file order. */
  lemma ProcessFileRows(f: RawFile, cfg: Config, quote: (string, Day) -> Option<real>)
    requires ProcessFile(f, cfg, quote).Ok?
    ensures var rows, txs := ProcessFile(f, cfg, quote).value, DropInvalid(f.rows);
      && |rows| == |txs|
      && forall i :: 0 <= i < |rows| ==>
        rows[i].tx == AdjustRowAll(txs[i], cfg.splits) && Converted(rows[i], cfg)
  {
    var txs := DropInvalid(f.rows);
    forall i | 0 <= i < |txs| ensures ApplySplits(txs, cfg.splits)[i] == AdjustRowAll(txs[i], cfg.splits) {
      ApplySplitsRow(txs, cfg.splits, i);
    }
  }

  /**
   * The files in order, stopping at the first that fails: the converted rows
   * of each file present, or the first error.
   */
  function Collect(files: seq<Option<RawFile>>, cfg: Config, quote: (string, Day) -> Option<real>): (r: Result<seq<seq<EnrichedRow>>, UploadError>)
    ensures r.Ok? ==> forall k :: 0 <= k < |r.value| ==> r.value[k] != []
  {
    if files == [] then Ok([])
    else
      match Collect(files[..|files| - 1], cfg, quote)
      case Err(e) => Err(e)
      case Ok(dfs) =>
        match files[|files| - 1]
        case None => Ok(dfs)
        case Some(f) =>
          match ProcessFile(f, cfg, quote)
          case Err(e) => Err(e)
          case Ok(rows) => Ok(dfs + [rows])
  }

  /** The rows of all files, one after another (`pd.concat`). */
  function Concat(dfs: seq<seq<EnrichedRow>>): (r: seq<EnrichedRow>)
    ensures forall k, i :: 0 <= k < |dfs| && 0 <= i < |dfs[k]| ==> dfs[k][i] in r
  {
    if dfs == [] then []
    else
      var init := dfs[..|dfs| - 1];
      assert forall k :: 0 <= k < |init| ==> init[k] == dfs[k];
      Concat(init) + dfs[|dfs| - 1]
  }

  /** One row of the final summary: the stock's sums and label, its return and its holding. */
  datatype SummaryRow = SummaryRow(
    quantity: real, totalInr: real, totalEur: real, totalGbp: real, side: string,
    xirr: Option<real>,
    holding: Values)

  /** What a successful upload shows: the combined rows, the summary and the valuation series. */
  datatype Report = Report(raw: seq<EnrichedRow>, summary: map<string, SummaryRow>, timeseries: map<Day, Values>)

  /** The return of a stock as the left merge finds it in the per-stock results: none if absent. */
  function LookupXirr(results: seq<(string, Option<real>)>, stock: string): (x: Option<real>)
    ensures x.Some? ==> exists k :: 0 <= k < |results| && results[k] == (stock, x)
  {
    if results == [] then None
    else if results[|results| - 1].0 == stock then results[|results| - 1].1
    else LookupXirr(results[..|results| - 1], stock)
  }

  /** The summary row of one stock, with the return and the holding merged in. */
  function Row(s: StockSummary, xirr: Option<real>, holding: Values): SummaryRow
  {
    SummaryRow(s.quantity, s.totalInr, s.totalEur, s.totalGbp, s.side, xirr, holding)
  }

  /** The final summary: the grouped sums, left-merged with the returns and the holding values. */
  function FinalSummary(rows: seq<EnrichedRow>, results: seq<(string, Option<real>)>, holdings: map<string, Values>): (m: map<string, SummaryRow>)
    requires holdings.Keys == Stocks(rows)
    ensures m.Keys == Stocks(rows)
  {
    var summary := Summarize(rows);
    map s | s in Stocks(rows) :: Row(summary[s], LookupXirr(results, s), holdings[s])
  }

  /**
   * The summary of the report: per stock, the grouped sums and label, the
   * stock's return and its holding values with INR at the rate of `today`,
   * the day the report is made.
   */
  function ReportSummary(rows: seq<EnrichedRow>, cfg: Config, irr: seq<real> -> Option<real>, today: Day): (m: map<string, SummaryRow>)
    ensures m.Keys == Stocks(rows)
  {
    FinalSummary(rows, XirrTable(rows, irr), Holdings(rows, cfg, today))
  }

  /** The per-stock returns, one per distinct stock in order of first occurrence. */
  function XirrTable(rows: seq<EnrichedRow>, irr: seq<real> -> Option<real>): (t: seq<(string, Option<real>)>)
    ensures |t| == |Unique(rows)|
    ensures forall k :: 0 <= k < |t| ==> t[k].0 == Unique(rows)[k] && t[k].1 == Xirr(CashFlows(rows, t[k].0), irr)
  {
    var u := Unique(rows);
    seq(|u|, k requires 0 <= k < |u| => (u[k], Xirr(CashFlows(rows, u[k]), irr)))
  }

  /** The report of some combined rows: the rows, the summary and the series over their date range. */
  function MakeReport(rows: seq<EnrichedRow>, cfg: Config, irr: seq<real> -> Option<real>, today: Day): Report
    requires rows != []
  {
    Report(rows, ReportSummary(rows, cfg, irr, today), ReportSeries(rows, cfg))
  }

  /** The whole upload: the first failing file's error, no file at all, or the report. */
  function Upload(files: seq<Option<RawFile>>, cfg: Config, quote: (string, Day) -> Option<real>,
                  irr: seq<real> -> Option<real>, today: Day): (r: Result<Report, UploadError>)
    ensures r.Ok? ==> r.value.raw != [] && r.value.summary.Keys == Stocks(r.value.raw)
    ensures r.Ok? ==> forall d :: d in r.value.timeseries <==> MinDate(r.value.raw) <= d <= MaxDate(r.value.raw)
  {
    match Collect(files, cfg, quote)
    case Err(e) => Err(e)
    case Ok(dfs) =>
      if dfs == [] then Err(NoValidFiles)
      else
        ConcatNonEmpty(dfs);
        Ok(MakeReport(Concat(dfs), cfg, irr, today))
  }

  lemma ConcatNonEmpty(dfs: seq<seq<EnrichedRow>>)
    requires dfs != [] && dfs[|dfs| - 1] != []
    ensures Concat(dfs) != []
  {
  }

  /**
   * In the returns computed stock by stock, the left merge finds each stock's
   * own return.
   */
  lemma MergeFindsXirr(rows: seq<EnrichedRow>, results: seq<(string, Option<real>)>, irr: seq<real> -> Option<real>, stock: string)
    requires stock in Stocks(rows)
    requires |results| == |Unique(rows)|
    requires forall k :: 0 <= k < |results| ==>
      results[k].0 == Unique(rows)[k] && results[k].1 == Xirr(CashFlows(rows, results[k].0), irr)
    ensures LookupXirr(results, stock) == Xirr(CashFlows(rows, stock), irr)
  {
    var u := Unique(rows);
    var k :| 0 <= k < |u| && u[k] == stock;
    LookupFindsLast(results, stock, k);
  }

  lemma {:induction false} LookupFindsLast(results: seq<(string, Option<real>)>, stock: string, k: int)
    requires 0 <= k < |results| && results[k].0 == stock
    requires forall j :: k < j < |results| ==> results[j].0 != stock
    ensures LookupXirr(results, stock) == results[k].1
  {
    if k < |results| - 1 {
      var init := results[..|results| - 1];
      LookupFindsLast(init, stock, k);
    }
  }

  /**
   * The upload as the source performs it: files are read in turn into a
   * list, each file's rows are split-adjusted in place, and the report is
   * built from the combined rows.
   */
  method UploadFiles(files: seq<Option<RawFile>>, cfg: Config, quote: (string, Day) -> Option<real>,
                     irr: seq<real> -> Option<real>, today: Day) returns (r: Result<Report, UploadError>)
    ensures r == Upload(files, cfg, quote, irr, today)
  {
    var read := ReadFiles(files, cfg, quote);
    if read.Err? {
      return Err(read.error);
    }
    var dfs := read.value;
    if dfs == [] {
      return Err(NoValidFiles);
    }
    ConcatNonEmpty(dfs);
    var report := BuildReport(Concat(dfs), cfg, irr, today);
    r := Ok(report);
  }

  /** The loop over the files: each present file is read in turn; the first failure ends it. */
  method ReadFiles(files: seq<Option<RawFile>>, cfg: Config, quote: (string, Day) -> Option<real>)
    returns (r: Result<seq<seq<EnrichedRow>>, UploadError>)
    ensures r == Collect(files, cfg, quote)
  {
    var dfs: seq<seq<EnrichedRow>> := [];
    var k := 0;
    while k < |files|
      invariant 0 <= k <= |files|
      invariant Collect(files[..k], cfg, quote) == Ok(dfs)
    {
      assert files[..k + 1][..k] == files[..k];
      if files[k].Some? {
        var processed := ReadFile(files[k].value, cfg, quote);
        if processed.Err? {
          CollectStops(files, cfg, quote, k + 1);
          return Err(processed.error);
        }
        dfs := dfs + [processed.value];
      }
      k := k + 1;
    }
    assert files[..k] == files;
    r := Ok(dfs);
  }

  /** Once a file has failed, the upload fails with that file's error. */
  lemma {:induction false} CollectStops(files: seq<Option<RawFile>>, cfg: Config, quote: (string, Day) -> Option<real>, n: int)
    requires 0 <= n <= |files|
    requires Collect(files[..n], cfg, quote).Err?
    ensures Collect(files, cfg, quote) == Collect(files[..n], cfg, quote)
    decreases |files| - n
  {
    if n < |files| {
      assert files[..n + 1][..n] == files[..n];
      CollectStops(files, cfg, quote, n + 1);
    } else {
      assert files[..n] == files;
    }
  }

  /** One file of the loop: its rows copied into an array, split-adjusted in place, then converted. */
  method ReadFile(f: RawFile, cfg: Config, quote: (string, Day) -> Option<real>) returns (r: Result<seq<EnrichedRow>, UploadError>)
    ensures r == ProcessFile(f, cfg, quote)
  {
    var normalized := NormalizeFile(f);
    if normalized.Err? {
      return Err(normalized.error);
    }
    var txs := normalized.value;
    var table := new Transaction[|txs|](i requires 0 <= i < |txs| => txs[i]);
    assert table[..] == txs;
    ApplyStockSplits(table, cfg.splits);
    if table.Length == 0 {
      return Err(EmptyFile(f.name));
    }
    r := Ok(EnrichAll(table[..], cfg, quote));
  }

  /** The report of the combined rows, from the per-stock returns and the series loop. */
  method BuildReport(rows: seq<EnrichedRow>, cfg: Config, irr: seq<real> -> Option<real>, today: Day) returns (rep: Report)
    requires rows != []
    ensures rep == MakeReport(rows, cfg, irr, today)
  {
    var results := XirrResults(rows, irr);
    var holdings := Holdings(rows, cfg, today);
    var summary := FinalSummary(rows, results, holdings);
    var start, end, ts := BuildTimeSeries(rows, cfg);
    RangeIsMinMax(rows, start, end);
    ResultsAreTable(rows, results, irr);
    rep := Report(rows, summary, ts);
  }

  /** Returns computed stock by stock are the table of returns. */
  lemma ResultsAreTable(rows: seq<EnrichedRow>, results: seq<(string, Option<real>)>, irr: seq<real> -> Option<real>)
    requires |results| == |Unique(rows)|
    requires forall k :: 0 <= k < |results| ==>
      results[k].0 == Unique(rows)[k] && results[k].1 == Xirr(CashFlows(rows, results[k].0), irr)
    ensures results == XirrTable(rows, irr)
  {
  }

  /**
   * Each stock's summary row holds the sums of its rows' quantities and
   * totals, the label of its net quantity, its own return, and its holding
   * values.
   */
  lemma SummaryRowContents(rows: seq<EnrichedRow>, cfg: Config, irr: seq<real> -> Option<real>, today: Day, stock: string)
    requires stock in Stocks(rows)
    ensures var row, rs := ReportSummary(rows, cfg, irr, today)[stock], RowsOf(rows, stock);
      && row.quantity == Sum(rs, Quantity)
      && row.totalInr == Sum(rs, TotalInr) && row.totalEur == Sum(rs, TotalEur) && row.totalGbp == Sum(rs, TotalGbp)
      && row.side == Label(row.quantity)
      && row.xirr == Xirr(CashFlows(rows, stock), irr)
      && row.holding == InCurrencies(HoldingUsd(rows, stock), ExchangeRate(cfg.rates, today), cfg)
  {
    MergeFindsXirr(rows, XirrTable(rows, irr), irr, stock);
  }

  /** Whether a file would pass: it has the required columns and keeps a valid row. */
  predicate WellFormed(f: RawFile)
  {
    HasRequiredColumns(f.header) && DropInvalid(f.rows) != []
  }

  /** A processed file fails exactly when the file is not well formed. */
  lemma ProcessFileOk(f: RawFile, cfg: Config, quote: (string, Day) -> Option<real>)
    ensures ProcessFile(f, cfg, quote).Ok? <==> WellFormed(f)
  {
    assert ApplySplits(DropInvalid(f.rows), cfg.splits) == [] <==> DropInvalid(f.rows) == [];
  }

  /** Collecting succeeds exactly when every file present is well formed. */
  lemma {:induction false} CollectOk(files: seq<Option<RawFile>>, cfg: Config, quote: (string, Day) -> Option<real>)
    ensures Collect(files, cfg, quote).Ok? <==> forall k :: 0 <= k < |files| && files[k].Some? ==> WellFormed(files[k].value)
  {
    if files != [] {
      var n := |files| - 1;
      var init := files[..n];
      CollectOk(init, cfg, quote);
      CollectStep(files, cfg, quote);
      if Collect(files, cfg, quote).Ok? {
        forall k | 0 <= k < |files| && files[k].Some? ensures WellFormed(files[k].value) {
          if k < n {
            assert init[k] == files[k];
          } else {
            assert k == n;
          }
        }
      } else if Collect(init, cfg, quote).Err? {
        var k :| 0 <= k < |init| && init[k].Some? && !WellFormed(init[k].value);
        assert files[k] == init[k];
      }
    }
  }

  /** Collecting one more file succeeds when the earlier files and that file do. */
  lemma CollectStep(files: seq<Option<RawFile>>, cfg: Config, quote: (string, Day) -> Option<real>)
    requires files != []
    ensures var n := |files| - 1;
      Collect(files, cfg, quote).Ok? <==> Collect(files[..n], cfg, quote).Ok? && (files[n].Some? ==> WellFormed(files[n].value))
  {
    var n := |files| - 1;
    if files[n].Some? {
      ProcessFileOk(files[n].value, cfg, quote);
    }
  }

  /** A successful collection is empty exactly when no file is present. */
  lemma {:induction false} CollectEmpty(files: seq<Option<RawFile>>, cfg: Config, quote: (string, Day) -> Option<real>)
    requires Collect(files, cfg, quote).Ok?
    ensures Collect(files, cfg, quote).value == [] <==> forall k :: 0 <= k < |files| ==> files[k].None?
  {
    if files != [] {
      var init := files[..|files| - 1];
      CollectEmpty(init, cfg, quote);
      assert forall k :: 0 <= k < |init| ==> init[k] == files[k];
    }
  }

  /** Every row of a successful collection is converted. */
  lemma {:induction false} CollectConverted(files: seq<Option<RawFile>>, cfg: Config, quote: (string, Day) -> Option<real>)
    requires Collect(files, cfg, quote).Ok?
    ensures var dfs := Collect(files, cfg, quote).value;
      forall k, i :: 0 <= k < |dfs| && 0 <= i < |dfs[k]| ==> Converted(dfs[k][i], cfg)
  {
    if files != [] {
      var init, last := files[..|files| - 1], files[|files| - 1];
      CollectConverted(init, cfg, quote);
      if last.Some? {
        var rows := ProcessFile(last.value, cfg, quote).value;
        ProcessFileRows(last.value, cfg, quote);
      }
    }
  }

  /**
   * A failed collection names the first file present that is not well
   * formed: every file present before it is well formed, and its error is
   * that file's.
   */
  lemma {:induction false} CollectFirstError(files: seq<Option<RawFile>>, cfg: Config, quote: (string, Day) -> Option<real>)
    requires Collect(files, cfg, quote).Err?
    ensures exists k :: (0 <= k < |files| && files[k].Some? && !WellFormed(files[k].value)
      && ProcessFile(files[k].value, cfg, quote).Err?
      && Collect(files, cfg, quote).error == ProcessFile(files[k].value, cfg, quote).error
      && (forall j :: 0 <= j < k && files[j].Some? ==> WellFormed(files[j].value)))
  {
    var init, last := files[..|files| - 1], files[|files| - 1];
    assert forall k :: 0 <= k < |init| ==> init[k] == files[k];
    if Collect(init, cfg, quote).Err? {
      CollectFirstError(init, cfg, quote);
      var k :| 0 <= k < |init| && init[k].Some? && !WellFormed(init[k].value)
        && ProcessFile(init[k].value, cfg, quote).Err?
        && Collect(init, cfg, quote).error == ProcessFile(init[k].value, cfg, quote).error
        && (forall j :: 0 <= j < k && init[j].Some? ==> WellFormed(init[j].value));
      assert files[k] == init[k];
    } else {
      CollectOk(init, cfg, quote);
      var k := |files| - 1;
      ProcessFileOk(last.value, cfg, quote);
      assert files[k].Some? && !WellFormed(files[k].value);
    }
  }

  /** The upload reports that no file was given exactly when no file is present. */
  lemma NoValidFilesIff(files: seq<Option<RawFile>>, cfg: Config, quote: (string, Day) -> Option<real>,
                        irr: seq<real> -> Option<real>, today: Day)
    ensures Upload(files, cfg, quote, irr, today) == Err(NoValidFiles) <==> forall k :: 0 <= k < |files| ==> files[k].None?
  {
    if Collect(files, cfg, quote).Ok? {
      CollectEmpty(files, cfg, quote);
    } else {
      CollectFirstError(files, cfg, quote);
      var k :| 0 <= k < |files| && files[k].Some? && ProcessFile(files[k].value, cfg, quote).Err?
        && Collect(files, cfg, quote).error == ProcessFile(files[k].value, cfg, quote).error;
      ProcessFileErrors(files[k].value, cfg, quote);
    }
  }

  /**
   * Any other failure is the error of the first file present that lacks a
   * required column (`MissingColumns`) or keeps no valid row (`EmptyFile`),
   * every file present before it being well formed.
   */
  lemma UploadErrorNamesFile(files: seq<Option<RawFile>>, cfg: Config, quote: (string, Day) -> Option<real>,
                             irr: seq<real> -> Option<real>, today: Day)
    requires Upload(files, cfg, quote, irr, today).Err?
    requires Upload(files, cfg, quote, irr, today) != Err(NoValidFiles)
    ensures exists k :: (0 <= k < |files| && files[k].Some?
      && (forall j :: 0 <= j < k && files[j].Some? ==> WellFormed(files[j].value))
      && ((!HasRequiredColumns(files[k].value.header)
           && Upload(files, cfg, quote, irr, today) == Err(MissingColumns(files[k].value.name)))
        || (HasRequiredColumns(files[k].value.header) && DropInvalid(files[k].value.rows) == []
           && Upload(files, cfg, quote, irr, today) == Err(EmptyFile(files[k].value.name)))))
  {
    CollectFirstError(files, cfg, quote);
    var k :| 0 <= k < |files| && files[k].Some? && !WellFormed(files[k].value)
      && ProcessFile(files[k].value, cfg, quote).Err?
      && Collect(files, cfg, quote).error == ProcessFile(files[k].value, cfg, quote).error
      && (forall j :: 0 <= j < k && files[j].Some? ==> WellFormed(files[j].value));
    ProcessFileErrors(files[k].value, cfg, quote);
    ProcessFileOk(files[k].value, cfg, quote);
  }

  /** Every row of the combined rows comes from one of the files. */
  lemma {:induction false} ConcatRows(dfs: seq<seq<EnrichedRow>>, x: EnrichedRow)
    requires x in Concat(dfs)
    ensures exists k, i :: 0 <= k < |dfs| && 0 <= i < |dfs[k]| && dfs[k][i] == x
  {
    var init := dfs[..|dfs| - 1];
    if x in Concat(init) {
      ConcatRows(init, x);
      var k, i :| 0 <= k < |init| && 0 <= i < |init[k]| && init[k][i] == x;
      assert dfs[k] == init[k];
    } else {
      var i :| 0 <= i < |dfs[|dfs| - 1]| && dfs[|dfs| - 1][i] == x;
    }
  }

  /**
   * When some file is present and every file present is well formed, the
   * upload succeeds; its combined rows are nonempty and all converted, and
   * its summary has one row per stock.
   */
  lemma UploadSucceeds(files: seq<Option<RawFile>>, cfg: Config, quote: (string, Day) -> Option<real>,
                       irr: seq<real> -> Option<real>, today: Day)
    requires exists k :: 0 <= k < |files| && files[k].Some?
    requires forall k :: 0 <= k < |files| && files[k].Some? ==> WellFormed(files[k].value)
    ensures Upload(files, cfg, quote, irr, today).Ok?
    ensures var rep := Upload(files, cfg, quote, irr, today).value;
      && rep.raw != []
      && (forall i :: 0 <= i < |rep.raw| ==> Converted(rep.raw[i], cfg))
      && rep.summary.Keys == Stocks(rep.raw)
  {
    CollectOk(files, cfg, quote);
    CollectEmpty(files, cfg, quote);
    CollectConverted(files, cfg, quote);
    var dfs := Collect(files, cfg, quote).value;
    var rows := Concat(dfs);
    forall i | 0 <= i < |rows| ensures Converted(rows[i], cfg) {
      ConcatRows(dfs, rows[i]);
    }
  }
}
