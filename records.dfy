/**
 * Transaction records and the run configuration of the portfolio pipeline:
 * the split table, the exchange-rate table with its default, and the fixed
 * USD conversion factors (portfolio/views.py:7-19), passed in as values.
 */
module Records {

  /** A calendar day, counted in days since 1970-01-01. */
  type Day = int

  /** One parsed brokerage transaction; quantity is signed (positive = buy), price is in USD. */
  datatype Transaction = Transaction(stock: string, quantity: real, price: real, date: Day)

  /** What a transaction is worth at its own price: quantity times price. */
  function Notional(t: Transaction): real
  {
    t.quantity * t.price
  }

  /** A split ratio: the source's ratios are whole numbers of at least one. */
  type Ratio = r: real | r >= 1.0 witness 1.0

  /** A split of `stock` effective on `date`: earlier transactions are rescaled by `ratio`. */
  datatype Split = Split(stock: string, date: Day, ratio: Ratio)

  /** A day-indexed USD-to-INR rate table with the rate used for every other day. */
  datatype RateTable = RateTable(entries: map<Day, real>, default: real)

  /** Everything the pipeline reads from module-level tables in the source. */
  datatype Config = Config(splits: seq<Split>, rates: RateTable, usdToEur: real, usdToGbp: real)

  /**
   * The USD-to-INR rate for a day: the table's entry when the day has one,
   * the default rate otherwise. The lookup never fails.
   */
  function ExchangeRate(table: RateTable, day: Day): (r: real)
    ensures day in table.entries ==> r == table.entries[day]
    ensures day !in table.entries ==> r == table.default
  {
    if day in table.entries then table.entries[day] else table.default
  }

  /** 2020-08-31 and 2022-08-25 as day numbers. */
  const Aug31st2020: Day := 18505
  const Aug25th2022: Day := 19229

  /** The split table of the source, flattened in its dictionary order. */
  const SourceSplits: seq<Split> := [
    Split("AAPL", Aug31st2020, 4.0),
    Split("TSLA", Aug31st2020, 5.0),
    Split("TSLA", Aug25th2022, 3.0)
  ]

  /** The source's rate table: two dated entries and a default of 75.0. */
  const SourceRates: RateTable := RateTable(map[Aug31st2020 := 74.0, Aug25th2022 := 79.0], 75.0)

  /** The configuration the source runs with. */
  const SourceConfig: Config := Config(SourceSplits, SourceRates, 0.85, 0.75)

  /** The source's rate lookup gives 74.0 and 79.0 on its two dated entries and 75.0 on every other day. */
  lemma SourceRateLookup(day: Day)
    ensures ExchangeRate(SourceRates, day) ==
      if day == Aug31st2020 then 74.0 else if day == Aug25th2022 then 79.0 else 75.0
  {
  }
}
