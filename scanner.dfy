/**
 * Asset level: the scan of one category sheet for the assets that sit below
 * their target weight once the category's allocation is counted. The script
 * has six copies of this scan that differ only in their sheet columns and in
 * whether current values are quoted in dollars; here one scan takes an
 * exchange-rate factor, 1 for the categories held in reais.
 */
module Scanner {

  /** Number of rows read from every category sheet, header rows included. */
  const NumRows: nat := 50

  /** Index, in the rows read, of the first asset row; the two before it are headers. */
  const FirstRow: nat := 2

  /** One asset row of a category sheet. Fixed income leaves quote and quantity unused. */
  datatype Row = Row(ticker: string, quote: real, quantity: real, currentValue: real, targetWeight: real)

  /**
   * An asset below its target: its deficit in reais, its current value in
   * reais and its 1-based sheet line.
   */
  datatype Candidate = Candidate(
    ticker: string, quote: real, quantity: real, currentValue: real, deficit: real, line: nat)

  /** The category total after the contribution, in reais: current total converted, plus the allocation. */
  function FutureTotal(currentTotal: real, allocation: real, rate: real): real
  {
    currentTotal * rate + allocation
  }

  /** Ideal value of the row under the future total, minus its current value converted to reais. */
  function Deficit(row: Row, futureTotal: real, rate: real): real
  {
    futureTotal * row.targetWeight - row.currentValue * rate
  }

  predicate Qualifies(row: Row, futureTotal: real, rate: real)
  {
    row.targetWeight > 0.0 && Deficit(row, futureTotal, rate) > 0.0
  }

  function ToCandidate(row: Row, i: nat, futureTotal: real, rate: real): Candidate
  {
    Candidate(row.ticker, row.quote, row.quantity, row.currentValue * rate, Deficit(row, futureTotal, rate), i + 1)
  }

  /** The candidates among the asset rows before index `n`, in row order. */
  function ScanUpTo(rows: seq<Row>, n: nat, futureTotal: real, rate: real): seq<Candidate>
    requires n <= |rows|
  {
    if n <= FirstRow then []
    else
      ScanUpTo(rows, n - 1, futureTotal, rate)
      + (if Qualifies(rows[n - 1], futureTotal, rate) then [ToCandidate(rows[n - 1], n - 1, futureTotal, rate)] else [])
  }

  /** The whole scan of a category sheet. */
  function Scan(rows: seq<Row>, currentTotal: real, allocation: real, rate: real): (assets: seq<Candidate>)
    requires |rows| == NumRows
    ensures forall k :: 0 <= k < |assets| ==>
      assets[k].deficit > 0.0 && FirstRow < assets[k].line <= NumRows
      && Qualifies(rows[assets[k].line - 1], FutureTotal(currentTotal, allocation, rate), rate)
      && assets[k].quote == rows[assets[k].line - 1].quote
  {
    ScanUpToSound(rows, NumRows, FutureTotal(currentTotal, allocation, rate), rate);
    ScanUpTo(rows, NumRows, FutureTotal(currentTotal, allocation, rate), rate)
  }

  /**
   * Every candidate comes from a qualifying asset row: it carries that row's
   * data, its line is the row index plus one, and that line lies past the
   * header rows.
   */
  lemma {:induction false} ScanUpToSound(rows: seq<Row>, n: nat, futureTotal: real, rate: real)
    requires n <= |rows|
    ensures forall k :: 0 <= k < |ScanUpTo(rows, n, futureTotal, rate)| ==>
      var c := ScanUpTo(rows, n, futureTotal, rate)[k];
      FirstRow + 1 <= c.line <= n
      && Qualifies(rows[c.line - 1], futureTotal, rate)
      && c == ToCandidate(rows[c.line - 1], c.line - 1, futureTotal, rate)
  {
    if n > FirstRow {
      ScanUpToSound(rows, n - 1, futureTotal, rate);
    }
  }

  /** Some candidate of `s` sits on sheet line `line`. */
  predicate Listed(s: seq<Candidate>, line: int)
  {
    exists k :: 0 <= k < |s| && s[k].line == line
  }

  /** No qualifying asset row is missed. */
  lemma {:induction false} ScanUpToComplete(rows: seq<Row>, n: nat, futureTotal: real, rate: real)
    requires n <= |rows|
    ensures forall i :: FirstRow <= i < n && Qualifies(rows[i], futureTotal, rate) ==>
      Listed(ScanUpTo(rows, n, futureTotal, rate), i + 1)
  {
    if n > FirstRow {
      var prev := ScanUpTo(rows, n - 1, futureTotal, rate);
      var s := ScanUpTo(rows, n, futureTotal, rate);
      ScanUpToComplete(rows, n - 1, futureTotal, rate);
      forall i | FirstRow <= i < n && Qualifies(rows[i], futureTotal, rate)
        ensures Listed(s, i + 1)
      {
        if i < n - 1 {
          var k :| 0 <= k < |prev| && prev[k].line == i + 1;
          assert s[k] == prev[k];
        } else {
          assert s[|prev|].line == i + 1;
        }
      }
    }
  }

  /** Candidates come out in increasing line order. */
  lemma {:induction false} ScanUpToOrdered(rows: seq<Row>, n: nat, futureTotal: real, rate: real)
    requires n <= |rows|
    ensures forall j, k :: 0 <= j < k < |ScanUpTo(rows, n, futureTotal, rate)| ==>
      ScanUpTo(rows, n, futureTotal, rate)[j].line < ScanUpTo(rows, n, futureTotal, rate)[k].line
  {
    if n > FirstRow {
      ScanUpToOrdered(rows, n - 1, futureTotal, rate);
      ScanUpToSound(rows, n - 1, futureTotal, rate);
    }
  }

  /**
   * The per-category scan: the loop over the asset rows that keeps the rows
   * with a positive target weight and a positive deficit.
   */
  method ScanAssets(rows: seq<Row>, currentTotal: real, allocation: real, rate: real)
    returns (assets: seq<Candidate>)
    requires |rows| == NumRows
    ensures assets == Scan(rows, currentTotal, allocation, rate)
  {
    var futureTotal := currentTotal * rate + allocation;
    assets := [];
    var i := FirstRow;
    while i < NumRows
      invariant FirstRow <= i <= NumRows
      invariant assets == ScanUpTo(rows, i, futureTotal, rate)
    {
      var row := rows[i];
      if row.targetWeight > 0.0 {
        var currentValue := row.currentValue * rate;
        var idealValue := futureTotal * row.targetWeight;
        var deficit := idealValue - currentValue;
        if deficit > 0.0 {
          assert Candidate(row.ticker, row.quote, row.quantity, currentValue, deficit, i + 1)
              == ToCandidate(row, i, futureTotal, rate);
          assets := assets + [Candidate(row.ticker, row.quote, row.quantity, currentValue, deficit, i + 1)];
        } else {
          assert !Qualifies(row, futureTotal, rate);
        }
      }
      i := i + 1;
    }
  }

  /**
   * Exactly the qualifying asset rows are listed: sheet line `i + 1` carries a
   * candidate if and only if row `i` lies past the headers and is below its
   * target.
   */
  lemma {:induction false} ScanListsExactlyQualifying(rows: seq<Row>, currentTotal: real, allocation: real, rate: real, i: int)
    requires |rows| == NumRows
    ensures Listed(Scan(rows, currentTotal, allocation, rate), i + 1)
        <==> FirstRow <= i < NumRows && Qualifies(rows[i], FutureTotal(currentTotal, allocation, rate), rate)
  {
    var futureTotal := FutureTotal(currentTotal, allocation, rate);
    var s := Scan(rows, currentTotal, allocation, rate);
    ScanUpToSound(rows, NumRows, futureTotal, rate);
    ScanUpToComplete(rows, NumRows, futureTotal, rate);
    if Listed(s, i + 1) {
      var k :| 0 <= k < |s| && s[k].line == i + 1;
      assert Qualifies(rows[s[k].line - 1], futureTotal, rate);
    }
  }

  /**
   * The quotes the scan carries are all non-zero exactly when every asset
   * row below target has a non-zero quote: rows the scan skips may hold any
   * quote.
   */
  lemma ScanQuotesNonZero(rows: seq<Row>, currentTotal: real, allocation: real, rate: real)
    requires |rows| == NumRows
    ensures (forall k :: 0 <= k < |Scan(rows, currentTotal, allocation, rate)| ==>
               Scan(rows, currentTotal, allocation, rate)[k].quote != 0.0)
        <==> (forall i :: FirstRow <= i < NumRows && Qualifies(rows[i], FutureTotal(currentTotal, allocation, rate), rate) ==>
               rows[i].quote != 0.0)
  {
    var futureTotal := FutureTotal(currentTotal, allocation, rate);
    var s := Scan(rows, currentTotal, allocation, rate);
    ScanUpToComplete(rows, NumRows, futureTotal, rate);
    if forall k :: 0 <= k < |s| ==> s[k].quote != 0.0 {
      forall i | FirstRow <= i < NumRows && Qualifies(rows[i], futureTotal, rate)
        ensures rows[i].quote != 0.0
      {
        assert Listed(s, i + 1);
        var k :| 0 <= k < |s| && s[k].line == i + 1;
        assert s[k].quote == rows[i].quote;
      }
    }
  }

  /** The scan comes back empty exactly when no asset row is below its target. */
  lemma ScanEmpty(rows: seq<Row>, currentTotal: real, allocation: real, rate: real)
    requires |rows| == NumRows
    ensures Scan(rows, currentTotal, allocation, rate) == []
        <==> !exists i :: FirstRow <= i < NumRows && Qualifies(rows[i], FutureTotal(currentTotal, allocation, rate), rate)
  {
    var futureTotal := FutureTotal(currentTotal, allocation, rate);
    var s := Scan(rows, currentTotal, allocation, rate);
    ScanUpToComplete(rows, NumRows, futureTotal, rate);
    if s != [] {
      assert Qualifies(rows[s[0].line - 1], futureTotal, rate);
    }
    if exists i :: FirstRow <= i < NumRows && Qualifies(rows[i], futureTotal, rate) {
      var i :| FirstRow <= i < NumRows && Qualifies(rows[i], futureTotal, rate);
      assert Listed(s, i + 1);
    }
  }
}
