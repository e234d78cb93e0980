/**
 * Split adjustment (portfolio/views.py:21-28): for every split of a stock,
 * the rows of that stock dated strictly before the split's effective day get
 * their quantity multiplied by the ratio and their price divided by it.
 * The source rewrites the frame in place; `ApplyStockSplits` does the same to
 * an array of transactions and is proved against `ApplySplits`.
 */
module Splits {
  import opened Records

  /** Whether `s` rescales `t`: same stock, and `t` is dated strictly before the split. */
  predicate Applies(s: Split, t: Transaction)
  {
    t.stock == s.stock && t.date < s.date
  }

  /** A quantity after a split of ratio `r`. */
  function ScaleQuantity(q: real, r: Ratio): real
  {
    q * r
  }

  /** A price after a split of ratio `r`. */
  function ScalePrice(p: real, r: Ratio): real
  {
    p / r
  }

  /** The combined ratio of two splits. */
  function Product(a: Ratio, b: Ratio): Ratio
  {
    a * b
  }

  /** One split applied to one row. */
  function AdjustRow(t: Transaction, s: Split): Transaction
  {
    if Applies(s, t) then t.(quantity := ScaleQuantity(t.quantity, s.ratio), price := ScalePrice(t.price, s.ratio))
    else t
  }

  /** One split applied to every row (the effect of one masked update). */
  function ApplySplit(rows: seq<Transaction>, s: Split): (r: seq<Transaction>)
    ensures |r| == |rows|
    ensures forall i :: 0 <= i < |rows| ==> r[i] == AdjustRow(rows[i], s)
  {
    if rows == [] then []
    else ApplySplit(rows[..|rows| - 1], s) + [AdjustRow(rows[|rows| - 1], s)]
  }

  /** The splits applied one after another, in list order. */
  function ApplySplits(rows: seq<Transaction>, splits: seq<Split>): (r: seq<Transaction>)
    ensures |r| == |rows|
  {
    if splits == [] then rows
    else ApplySplit(ApplySplits(rows, splits[..|splits| - 1]), splits[|splits| - 1])
  }

  /** The splits applied one after another to a single row. */
  function AdjustRowAll(t: Transaction, splits: seq<Split>): Transaction
  {
    if splits == [] then t
    else AdjustRow(AdjustRowAll(t, splits[..|splits| - 1]), splits[|splits| - 1])
  }

  /** What one split multiplies a row's quantity by. */
  function Contribution(t: Transaction, s: Split): Ratio
  {
    if Applies(s, t) then s.ratio else 1.0
  }

  /** The product of the ratios of all the splits that apply to `t`. */
  function Factor(t: Transaction, splits: seq<Split>): Ratio
  {
    if splits == [] then 1.0
    else Product(Factor(t, splits[..|splits| - 1]), Contribution(t, splits[|splits| - 1]))
  }

  /**
   * One split changes exactly the rows whose stock matches and whose date is
   * strictly before the split day, and in those only quantity and price.
   */
  lemma ApplySplitChangesOnlyMatchingRows(rows: seq<Transaction>, s: Split, i: int)
    requires 0 <= i < |rows|
    ensures var u, t := ApplySplit(rows, s)[i], rows[i];
      && u.stock == t.stock && u.date == t.date
      && (Applies(s, t) ==> u.quantity == ScaleQuantity(t.quantity, s.ratio) && u.price == ScalePrice(t.price, s.ratio))
      && (!Applies(s, t) ==> u == t)
  {
  }

  /** Row i of the adjusted rows is row i adjusted on its own. */
  lemma {:induction false} ApplySplitsRow(rows: seq<Transaction>, splits: seq<Split>, i: int)
    requires 0 <= i < |rows|
    ensures ApplySplits(rows, splits)[i] == AdjustRowAll(rows[i], splits)
  {
    if splits != [] {
      ApplySplitsRow(rows, splits[..|splits| - 1], i);
    }
  }

  /** A ratio of one leaves quantity and price as they are. */
  lemma ScaleByOne(q: real, p: real)
    ensures ScaleQuantity(q, 1.0) == q && ScalePrice(p, 1.0) == p
  {
  }

  /** Two successive splits rescale like one split by the product of their ratios. */
  lemma ScaleCompose(q: real, p: real, a: Ratio, b: Ratio)
    ensures ScaleQuantity(ScaleQuantity(q, a), b) == ScaleQuantity(q, Product(a, b))
    ensures ScalePrice(ScalePrice(p, a), b) == ScalePrice(p, Product(a, b))
  {
    assert p == (p / a / b) * (a * b);
  }

  /** One row after all splits, as one rescaling by its factor. */
  lemma {:induction false} AdjustRowAllFactor(t: Transaction, splits: seq<Split>)
    ensures AdjustRowAll(t, splits) ==
      t.(quantity := ScaleQuantity(t.quantity, Factor(t, splits)), price := ScalePrice(t.price, Factor(t, splits)))
  {
    if splits == [] {
      ScaleByOne(t.quantity, t.price);
    } else {
      var init, s := splits[..|splits| - 1], splits[|splits| - 1];
      AdjustRowAllFactor(t, init);
      var f := Factor(t, init);
      ScaleCompose(t.quantity, t.price, f, Contribution(t, s));
      if !Applies(s, t) {
        ScaleByOne(ScaleQuantity(t.quantity, f), ScalePrice(t.price, f));
      }
    }
  }

  /**
   * After all splits, each row's quantity is multiplied by the product of the
   * ratios of the splits that apply to it and its price is divided by that
   * product; stock and date are unchanged.
   */
  lemma ApplySplitsAt(rows: seq<Transaction>, splits: seq<Split>, i: int)
    requires 0 <= i < |rows|
    ensures ApplySplits(rows, splits)[i] ==
      rows[i].(quantity := ScaleQuantity(rows[i].quantity, Factor(rows[i], splits)),
               price := ScalePrice(rows[i].price, Factor(rows[i], splits)))
  {
    ApplySplitsRow(rows, splits, i);
    AdjustRowAllFactor(rows[i], splits);
  }

  /** Rescaling a row by any ratio keeps its value, quantity times price. */
  lemma RescaleKeepsNotional(t: Transaction, f: Ratio)
    ensures Notional(t.(quantity := ScaleQuantity(t.quantity, f), price := ScalePrice(t.price, f))) == Notional(t)
  {
    var q, p := t.quantity, t.price;
    assert f * (p / f) == p;
    assert (q * f) * (p / f) == q * (f * (p / f));
  }

  /** Split adjustment preserves every row's value, quantity times price. */
  lemma SplitsPreserveNotional(rows: seq<Transaction>, splits: seq<Split>, i: int)
    requires 0 <= i < |rows|
    ensures Notional(ApplySplits(rows, splits)[i]) == Notional(rows[i])
  {
    ApplySplitsAt(rows, splits, i);
    RescaleKeepsNotional(rows[i], Factor(rows[i], splits));
  }

  /** Splits whose ratios are all 1 change nothing. */
  lemma {:induction false} UnitSplitsChangeNothing(rows: seq<Transaction>, splits: seq<Split>)
    requires forall k :: 0 <= k < |splits| ==> splits[k].ratio == 1.0
    ensures ApplySplits(rows, splits) == rows
  {
    if splits != [] {
      var init := splits[..|splits| - 1];
      UnitSplitsChangeNothing(rows, init);
      var s := splits[|splits| - 1];
      forall i | 0 <= i < |rows| ensures ApplySplit(rows, s)[i] == rows[i] {
        ScaleByOne(rows[i].quantity, rows[i].price);
      }
    }
  }

  lemma ProductRotate(a: Ratio, b: Ratio, c: Ratio)
    ensures Product(Product(b, a), c) == Product(b, Product(a, c))
  {
  }

  /** Removing the split at position k divides the factor by that split's contribution. */
  lemma {:induction false} FactorWithout(t: Transaction, splits: seq<Split>, k: int)
    requires 0 <= k < |splits|
    ensures Factor(t, splits) == Product(Contribution(t, splits[k]), Factor(t, splits[..k] + splits[k + 1..]))
  {
    var n := |splits|;
    var rest := splits[..k] + splits[k + 1..];
    var init := splits[..n - 1];
    if k == n - 1 {
      assert rest == init;
    } else {
      var initRest := init[..k] + init[k + 1..];
      FactorWithout(t, init, k);
      assert rest == initRest + [splits[n - 1]];
      assert rest[..|rest| - 1] == initRest;
      ProductRotate(Factor(t, initRest), Contribution(t, splits[k]), Contribution(t, splits[n - 1]));
    }
  }

  /** The factor of a row does not depend on the order of the splits. */
  lemma {:induction false} FactorPermutation(t: Transaction, a: seq<Split>, b: seq<Split>)
    requires multiset(a) == multiset(b)
    ensures Factor(t, a) == Factor(t, b)
  {
    if a == [] {
      assert |b| == |multiset(b)| == 0;
    } else {
      var n := |a|;
      var last := a[n - 1];
      assert a == a[..n - 1] + [last];
      assert last in multiset(b);
      var k :| 0 <= k < |b| && b[k] == last;
      var rest := b[..k] + b[k + 1..];
      assert b == b[..k] + [b[k]] + b[k + 1..];
      assert multiset(rest) == multiset(b) - multiset{last};
      assert multiset(a[..n - 1]) == multiset(a) - multiset{last};
      FactorPermutation(t, a[..n - 1], rest);
      FactorWithout(t, b, k);
      assert Product(Factor(t, a[..n - 1]), Contribution(t, last)) == Product(Contribution(t, last), Factor(t, rest));
    }
  }

  /** Applying the same splits in any order gives the same rows. */
  lemma SplitOrderIrrelevant(rows: seq<Transaction>, a: seq<Split>, b: seq<Split>)
    requires multiset(a) == multiset(b)
    ensures ApplySplits(rows, a) == ApplySplits(rows, b)
  {
    forall i | 0 <= i < |rows| ensures ApplySplits(rows, a)[i] == ApplySplits(rows, b)[i] {
      ApplySplitsAt(rows, a, i);
      ApplySplitsAt(rows, b, i);
      FactorPermutation(rows[i], a, b);
    }
  }

  /**
   * The in-place rewrite: for each split in turn, every row is visited and
   * the matching ones get quantity multiplied and price divided by the ratio.
   */
  method ApplyStockSplits(a: array<Transaction>, splits: seq<Split>)
    modifies a
    ensures a[..] == ApplySplits(old(a[..]), splits)
  {
    var j := 0;
    while j < |splits|
      invariant 0 <= j <= |splits|
      invariant a[..] == ApplySplits(old(a[..]), splits[..j])
    {
      var s := splits[j];
      ghost var before := a[..];
      var i := 0;
      while i < a.Length
        invariant 0 <= i <= a.Length
        invariant forall k :: 0 <= k < i ==> a[k] == AdjustRow(before[k], s)
        invariant forall k :: i <= k < a.Length ==> a[k] == before[k]
      {
        if a[i].stock == s.stock && a[i].date < s.date {
          a[i] := a[i].(quantity := ScaleQuantity(a[i].quantity, s.ratio), price := ScalePrice(a[i].price, s.ratio));
        }
        i := i + 1;
      }
      assert splits[..j + 1][..j] == splits[..j];
      assert a[..] == ApplySplit(before, s);
      j := j + 1;
    }
    assert splits[..j] == splits;
  }

  /**
   * With the source's split table, AAPL rows before 2020-08-31 are scaled by
   * 4, TSLA rows before 2020-08-31 by 5 times 3, TSLA rows before 2022-08-25
   * by 3, and every other row by 1.
   */
  lemma SourceSplitFactor(t: Transaction)
    ensures Factor(t, SourceSplits) ==
      if t.stock == "AAPL" && t.date < Aug31st2020 then 4.0
      else if t.stock == "TSLA" && t.date < Aug31st2020 then 15.0
      else if t.stock == "TSLA" && t.date < Aug25th2022 then 3.0
      else 1.0
  {
    assert SourceSplits[..2][..1] == SourceSplits[..1];
    assert SourceSplits[..1][..0] == [];
    assert Factor(t, SourceSplits[..1]) == Contribution(t, SourceSplits[0]);
    assert Factor(t, SourceSplits[..2]) == Contribution(t, SourceSplits[0]) * Contribution(t, SourceSplits[1]);
  }
}
