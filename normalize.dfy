/**
 * Row normalisation of one uploaded file (portfolio/views.py:70-90): column
 * names are stripped of surrounding whitespace, the four required columns
 * must all be present, and rows whose quantity, price or date did not parse
 * are dropped. Parsing itself happens before this model: a cell that did not
 * parse is `None`.
 */
module Normalize {
  import opened Wrappers
  import opened Records

  /** A row as read from the file, each numeric or date cell parsed or absent. */
  datatype RawRow = RawRow(symbol: string, quantity: Option<real>, price: Option<real>, date: Option<Day>)

  /** An uploaded file: its name, its header line and its rows. */
  datatype RawFile = RawFile(name: string, header: seq<string>, rows: seq<RawRow>)

  /** What the upload boundary reports instead of a result. */
  datatype UploadError =
    | MissingColumns(file: string)
    | EmptyFile(file: string)
    | NoValidFiles

  const RequiredColumns: set<string> := {"Symbol", "Quantity", "T. Price", "Date/Time"}

  /** The text shown to the uploader for each error. */
  function Message(e: UploadError): (m: string)
    ensures e.MissingColumns? ==> m == "File " + e.file + " must contain columns: Symbol, Quantity, T. Price, Date/Time"
    ensures e.EmptyFile? ==> m == "Error processing " + e.file
    ensures e.NoValidFiles? ==> m == "Please upload at least one valid file."
  {
    match e
    case MissingColumns(f) => "File " + f + " must contain columns: Symbol, Quantity, T. Price, Date/Time"
    case EmptyFile(f) => "Error processing " + f
    case NoValidFiles => "Please upload at least one valid file."
  }

  /**
   * The characters `str.strip` removes: Python's `str.isspace` set, the ASCII
   * controls tab to carriage return and the file to unit separators, the
   * space, and the Unicode spaces and line and paragraph separators.
   */
  predicate IsSpace(c: char)
  {
    || c == ' '
    || ('\t' <= c <= '\r')
    || ('\U{001C}' <= c <= '\U{001F}')
    || c == '\U{0085}' || c == '\U{00A0}' || c == '\U{1680}'
    || ('\U{2000}' <= c <= '\U{200A}')
    || c == '\U{2028}' || c == '\U{2029}' || c == '\U{202F}' || c == '\U{205F}' || c == '\U{3000}'
  }

  /** The first position at or after `i` that does not hold whitespace, or the end of `s`. */
  function StartOfText(s: string, i: nat): (a: nat)
    requires i <= |s|
    ensures i <= a <= |s|
    ensures forall k :: i <= k < a ==> IsSpace(s[k])
    ensures a < |s| ==> !IsSpace(s[a])
    decreases |s| - i
  {
    if i < |s| && IsSpace(s[i]) then StartOfText(s, i + 1) else i
  }

  /** The position just after the last non-whitespace character before `j`, but not before `lo`. */
  function EndOfText(s: string, lo: nat, j: nat): (b: nat)
    requires lo <= j <= |s|
    ensures lo <= b <= j
    ensures forall k :: b <= k < j ==> IsSpace(s[k])
    ensures lo < b ==> !IsSpace(s[b - 1])
  {
    if lo < j && IsSpace(s[j - 1]) then EndOfText(s, lo, j - 1) else j
  }

  /** A column name with surrounding whitespace removed (`str.strip`). */
  function Strip(s: string): (r: string)
    ensures r == [] || (!IsSpace(r[0]) && !IsSpace(r[|r| - 1]))
    ensures var a := StartOfText(s, 0);
      && r == s[a..EndOfText(s, a, |s|)]
      && forall k :: 0 <= k < |s| && (k < a || EndOfText(s, a, |s|) <= k) ==> IsSpace(s[k])
  {
    var a := StartOfText(s, 0);
    s[a..EndOfText(s, a, |s|)]
  }

  /** Stripping is idempotent. */
  lemma StripIdempotent(s: string)
    ensures Strip(Strip(s)) == Strip(s)
  {
    var r := Strip(s);
    assert StartOfText(r, 0) == 0;
    assert EndOfText(r, 0, |r|) == |r|;
  }

  /** A non-breaking space or a unit separator around a name is stripped like a blank. */
  lemma StripUnicodeSpace()
    ensures Strip("Symbol\U{00A0}") == "Symbol"
    ensures Strip("\U{001F}Quantity\U{3000}") == "Quantity"
  {
    assert StartOfText("Symbol\U{00A0}", 0) == 0;
    assert EndOfText("Symbol\U{00A0}", 0, 6) == 6;
    assert StartOfText("\U{001F}Quantity\U{3000}", 1) == 1;
    assert EndOfText("\U{001F}Quantity\U{3000}", 1, 9) == 9;
  }

  /** The header, once stripped, contains every required column. */
  predicate HasRequiredColumns(header: seq<string>)
  {
    RequiredColumns <= set c | c in header :: Strip(c)
  }

  /** The header passes exactly when each required name is some header entry once stripped. */
  lemma HasRequiredColumnsIff(header: seq<string>)
    ensures HasRequiredColumns(header) <==> forall c :: c in RequiredColumns ==> exists h :: h in header && Strip(h) == c
  {
  }

  predicate ValidRow(r: RawRow)
  {
    r.quantity.Some? && r.price.Some? && r.date.Some?
  }

  /** The transaction a valid row becomes (the `Symbol` column is renamed `Stock`). */
  function ToTransaction(r: RawRow): (t: Transaction)
    requires ValidRow(r)
    ensures t.stock == r.symbol && t.quantity == r.quantity.value
    ensures t.price == r.price.value && t.date == r.date.value
  {
    Transaction(r.symbol, r.quantity.value, r.price.value, r.date.value)
  }

  /** The rows that survive `dropna` on quantity, price and date, in input order. */
  function DropInvalid(rows: seq<RawRow>): (ts: seq<Transaction>)
    ensures |ts| <= |rows|
  {
    if rows == [] then []
    else
      var last := rows[|rows| - 1];
      DropInvalid(rows[..|rows| - 1]) + if ValidRow(last) then [ToTransaction(last)] else []
  }

  /** The input positions of the rows `DropInvalid` keeps. */
  function KeptIndices(rows: seq<RawRow>): seq<nat>
  {
    if rows == [] then []
    else
      KeptIndices(rows[..|rows| - 1]) + if ValidRow(rows[|rows| - 1]) then [|rows| - 1] else []
  }

  /**
   * The surviving rows are an order-preserving subsequence of the input:
   * the k-th survivor is the transaction of the row at position KeptIndices[k],
   * those positions increase strictly, and they are exactly the valid rows.
   */
  lemma {:induction false} DropInvalidIsValidSubsequence(rows: seq<RawRow>)
    ensures var ts, idx := DropInvalid(rows), KeptIndices(rows);
      && |ts| == |idx|
      && (forall k :: 0 <= k < |idx| ==> idx[k] < |rows| && ValidRow(rows[idx[k]]) && ts[k] == ToTransaction(rows[idx[k]]))
      && (forall k, l :: 0 <= k < l < |idx| ==> idx[k] < idx[l])
      && (forall i :: 0 <= i < |rows| ==> (ValidRow(rows[i]) <==> i in idx))
  {
    if rows != [] {
      var n := |rows|;
      var init := rows[..n - 1];
      DropInvalidIsValidSubsequence(init);
      var ts0, idx0 := DropInvalid(init), KeptIndices(init);
      var ts, idx := DropInvalid(rows), KeptIndices(rows);
      assert ts == ts0 + (if ValidRow(rows[n - 1]) then [ToTransaction(rows[n - 1])] else []);
      assert idx == idx0 + (if ValidRow(rows[n - 1]) then [n - 1] else []);
      forall k | 0 <= k < |idx|
        ensures idx[k] < n && ValidRow(rows[idx[k]]) && ts[k] == ToTransaction(rows[idx[k]])
      {
        if k < |idx0| {
          assert rows[idx0[k]] == init[idx0[k]];
        }
      }
      forall i | 0 <= i < n
        ensures ValidRow(rows[i]) <==> i in idx
      {
        if i < n - 1 {
          assert rows[i] == init[i];
          assert i in idx0 <==> i in idx;
        }
      }
    }
  }

  /** Normalising a file: a missing required column fails the whole file; otherwise the valid rows. */
  function NormalizeFile(f: RawFile): (r: Result<seq<Transaction>, UploadError>)
    ensures r.Err? <==> !HasRequiredColumns(f.header)
    ensures r.Err? ==> r.error == MissingColumns(f.name)
    ensures r.Ok? ==> |r.value| <= |f.rows| && r.value == DropInvalid(f.rows)
  {
    if !HasRequiredColumns(f.header) then Err(MissingColumns(f.name))
    else Ok(DropInvalid(f.rows))
  }
}
