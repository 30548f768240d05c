/**
  The table-building part of LR3.py's main: the concatenated RSI, CCI and MACD
  series lose every row with a missing value and are renumbered, the MACD and
  signal-line columns are shifted down by one row into two lag columns, and the
  interpreter is applied to every row to fill a prediction column. The result
  is the selection of columns written to the report.
 */
module Report {
  import opened Wrappers
  import opened Signals

  /** One row of the concatenated indicator series; None stands for NaN. */
  datatype RawIndicators = RawIndicators(
    rsi: Option<real>,
    cci: Option<real>,
    macd: Option<real>,
    macdHist: Option<real>,
    macdSignal: Option<real>)

  /** One row after incomplete rows are dropped: every value is present. */
  datatype Indicators = Indicators(rsi: real, cci: real, macd: real, macdHist: real, macdSignal: real)

  /** One line of the report: the columns RSI, CCI, MACD, MACDs and Prediction. */
  datatype Record = Record(rsi: real, cci: real, macd: real, macdSignal: real, prediction: Forecast)

  /** A complete row seen as a raw row, with every value present. */
  function Widen(t: Indicators): RawIndicators {
    RawIndicators(Some(t.rsi), Some(t.cci), Some(t.macd), Some(t.macdHist), Some(t.macdSignal))
  }

  /** The row's values when none of them is missing. */
  function Complete(raw: RawIndicators): (c: Option<Indicators>)
    ensures c.Some? <==>
      raw.rsi.Some? && raw.cci.Some? && raw.macd.Some? && raw.macdHist.Some? && raw.macdSignal.Some?
    ensures c.Some? ==> Widen(c.value) == raw
  {
    if raw.rsi.Some? && raw.cci.Some? && raw.macd.Some? && raw.macdHist.Some? && raw.macdSignal.Some? then
      Some(Indicators(raw.rsi.value, raw.cci.value, raw.macd.value, raw.macdHist.value, raw.macdSignal.value))
    else
      None
  }

  /**
    Dropping the rows with a missing value and renumbering the rest: keep the
    complete rows, in order, numbered from zero.
   */
  function DropIncomplete(raws: seq<RawIndicators>): (table: seq<Indicators>)
    ensures |table| <= |raws|
    ensures forall t :: t in table <==> Widen(t) in raws
  {
    if raws == [] then []
    else
      var rest := DropIncomplete(raws[1..]);
      assert forall x :: x in raws <==> x == raws[0] || x in raws[1..];
      match Complete(raws[0])
      case Some(t) => [t] + rest
      case None => rest
  }

  /** Dropping rows keeps the order: it can be done piece by piece. */
  lemma {:induction false} DropIncompleteAppend(a: seq<RawIndicators>, b: seq<RawIndicators>)
    ensures DropIncomplete(a + b) == DropIncomplete(a) + DropIncomplete(b)
  {
    if a != [] {
      assert (a + b)[1..] == a[1..] + b;
      DropIncompleteAppend(a[1..], b);
    } else {
      assert a + b == b;
    }
  }

  /** Row i of the table with its lag fields: those of row i-1, absent on row 0. */
  function Lagged(table: seq<Indicators>, i: nat): Row
    requires i < |table|
  {
    var t := table[i];
    Row(t.rsi, t.cci, t.macd, t.macdHist, t.macdSignal,
        if i == 0 then None else Some(table[i - 1].macd),
        if i == 0 then None else Some(table[i - 1].macdSignal))
  }

  /** The table after the two lag columns are added. */
  function LaggedRows(table: seq<Indicators>): (rows: seq<Row>)
    ensures |rows| == |table|
    ensures forall i :: 0 <= i < |table| ==> Base(rows[i]) == table[i]
    ensures LagConsistent(rows)
  {
    seq(|table|, i requires 0 <= i < |table| => Lagged(table, i))
  }

  /** The prediction column: the interpreter applied to each lagged row. */
  function Predictions(table: seq<Indicators>): (predictions: seq<Forecast>)
    ensures |predictions| == |table|
    ensures forall i :: 0 <= i < |table| ==> predictions[i] == InterpretSignals(LaggedRows(table)[i])
  {
    seq(|table|, i requires 0 <= i < |table| => InterpretSignals(Lagged(table, i)))
  }

  /** The indicator columns of a row, without its lag fields. */
  function Base(row: Row): Indicators {
    Indicators(row.rsi, row.cci, row.macd, row.macdHist, row.macdSignal)
  }

  /** The invariant of the lag columns: row 0 has none, row i has row i-1's MACD pair. */
  predicate LagConsistent(rows: seq<Row>) {
    && (|rows| > 0 ==> rows[0].macdPrev == None && rows[0].macdSignalPrev == None)
    && forall i :: 0 < i < |rows| ==>
         rows[i].macdPrev == Some(rows[i - 1].macd) && rows[i].macdSignalPrev == Some(rows[i - 1].macdSignal)
  }

  /** The lag invariant determines the lag columns: no other rows over the same table satisfy it. */
  lemma LagConsistentIsLaggedRows(rows: seq<Row>, table: seq<Indicators>)
    requires |rows| == |table|
    requires forall i :: 0 <= i < |rows| ==> Base(rows[i]) == table[i]
    requires LagConsistent(rows)
    ensures rows == LaggedRows(table)
  {
  }

  /** A prediction depends only on its own row and the MACD pair of the row before. */
  lemma PredictionIsLocal(t1: seq<Indicators>, t2: seq<Indicators>, i: nat, j: nat)
    requires i < |t1| && j < |t2| && t1[i] == t2[j]
    requires i == 0 <==> j == 0
    requires 0 < i ==> t1[i - 1].macd == t2[j - 1].macd && t1[i - 1].macdSignal == t2[j - 1].macdSignal
    ensures Predictions(t1)[i] == Predictions(t2)[j]
  {
  }

  /** Rows appended later never change the earlier predictions. */
  lemma PredictionsOfPrefix(table: seq<Indicators>, n: nat)
    requires n <= |table|
    ensures Predictions(table[..n]) == Predictions(table)[..n]
  {
  }

  /** The first row has no lag fields, so only the CCI and RSI rules can decide it. */
  lemma FirstPredictionIgnoresMacd(table: seq<Indicators>)
    requires |table| > 0
    ensures Predictions(table)[0] == FirstDecisive([CciSignal(table[0].cci), RsiSignal(table[0].rsi)])
  {
  }

  /** Shifting a float column down one row: every value moves to the next row, the first row gets NaN. */
  method Shift(column: seq<real>) returns (lag: seq<Option<real>>)
    ensures |lag| == |column|
    ensures |column| > 0 ==> lag[0] == None
    ensures forall i :: 0 < i < |column| ==> lag[i] == Some(column[i - 1])
  {
    lag := [];
    var i := 0;
    while i < |column|
      invariant 0 <= i <= |column|
      invariant |lag| == i
      invariant i > 0 ==> lag[0] == None
      invariant forall k :: 0 < k < i ==> lag[k] == Some(column[k - 1])
    {
      lag := lag + [if i == 0 then None else Some(column[i - 1])];
      i := i + 1;
    }
  }

  /** Applying the interpreter row by row: one prediction per row, in row order. */
  method ApplyRowwise(rows: seq<Row>) returns (predictions: seq<Forecast>)
    ensures |predictions| == |rows|
    ensures forall i :: 0 <= i < |rows| ==> predictions[i] == InterpretSignals(rows[i])
  {
    predictions := [];
    var i := 0;
    while i < |rows|
      invariant 0 <= i <= |rows|
      invariant |predictions| == i
      invariant forall k :: 0 <= k < i ==> predictions[k] == InterpretSignals(rows[k])
    {
      predictions := predictions + [InterpretSignals(rows[i])];
      i := i + 1;
    }
  }

  /**
    The results DataFrame, column by column. The lag and prediction columns
    are empty until the methods that add them have run.
   */
  class Results {
    var rsi: seq<real>
    var cci: seq<real>
    var macd: seq<real>
    var macdHist: seq<real>
    var macdSignal: seq<real>
    var macdPrev: seq<Option<real>>
    var macdSignalPrev: seq<Option<real>>
    var prediction: seq<Forecast>

    /** The five indicator columns have one value per row. */
    ghost predicate Valid()
      reads this
    {
      |cci| == |rsi| && |macd| == |rsi| && |macdHist| == |rsi| && |macdSignal| == |rsi|
    }

    /** The two lag columns are present, one value per row. */
    ghost predicate HasLagColumns()
      reads this
    {
      Valid() && |macdPrev| == |rsi| && |macdSignalPrev| == |rsi|
    }

    /** The indicator columns read back as rows. */
    function Table(): (table: seq<Indicators>)
      reads this
      requires Valid()
    {
      var r, c, m, h, g := rsi, cci, macd, macdHist, macdSignal;
      seq(|r|, i requires 0 <= i < |r| => Indicators(r[i], c[i], m[i], h[i], g[i]))
    }

    /** Each row as the interpreter receives it. */
    function Rows(): (rows: seq<Row>)
      reads this
      requires HasLagColumns()
    {
      var r, c, m, h, g, mp, gp := rsi, cci, macd, macdHist, macdSignal, macdPrev, macdSignalPrev;
      seq(|r|, i requires 0 <= i < |r| => Row(r[i], c[i], m[i], h[i], g[i], mp[i], gp[i]))
    }

    /** Keeps the RSI, CCI, MACD, signal-line and prediction columns, row by row. */
    function Selection(): (report: seq<Record>)
      reads this
      requires Valid() && |prediction| == |rsi|
      ensures |report| == |Table()|
      ensures forall i :: 0 <= i < |report| ==>
        var t := Table()[i];
        report[i] == Record(t.rsi, t.cci, t.macd, t.macdSignal, prediction[i])
    {
      var r, c, m, g, p := rsi, cci, macd, macdSignal, prediction;
      seq(|r|, i requires 0 <= i < |r| => Record(r[i], c[i], m[i], g[i], p[i]))
    }

    /** A frame holding the given rows, with no lag or prediction column yet. */
    constructor (table: seq<Indicators>)
      ensures Valid() && Table() == table
      ensures macdPrev == [] && macdSignalPrev == [] && prediction == []
    {
      rsi := seq(|table|, i requires 0 <= i < |table| => table[i].rsi);
      cci := seq(|table|, i requires 0 <= i < |table| => table[i].cci);
      macd := seq(|table|, i requires 0 <= i < |table| => table[i].macd);
      macdHist := seq(|table|, i requires 0 <= i < |table| => table[i].macdHist);
      macdSignal := seq(|table|, i requires 0 <= i < |table| => table[i].macdSignal);
      macdPrev := [];
      macdSignalPrev := [];
      prediction := [];
    }

    /** Shifts the MACD and signal-line columns down one row into the two lag columns; row 0 gets none. */
    method AddLagColumns()
      requires Valid()
      modifies this
      ensures HasLagColumns()
      ensures rsi == old(rsi) && cci == old(cci) && macd == old(macd)
      ensures macdHist == old(macdHist) && macdSignal == old(macdSignal)
      ensures prediction == old(prediction)
      ensures Rows() == LaggedRows(Table())
      ensures LagConsistent(Rows())
    {
      macdPrev := Shift(macd);
      macdSignalPrev := Shift(macdSignal);
      LagConsistentIsLaggedRows(Rows(), Table());
    }

    /** Fills the prediction column with the interpreter applied to each row. */
    method AddPredictionColumn()
      requires HasLagColumns()
      modifies this
      ensures HasLagColumns()
      ensures rsi == old(rsi) && cci == old(cci) && macd == old(macd)
      ensures macdHist == old(macdHist) && macdSignal == old(macdSignal)
      ensures macdPrev == old(macdPrev) && macdSignalPrev == old(macdSignalPrev)
      ensures |prediction| == |rsi|
      ensures forall i :: 0 <= i < |rsi| ==> prediction[i] == InterpretSignals(Rows()[i])
    {
      prediction := ApplyRowwise(Rows());
    }
  }

  /**
    Lines 55 to 60 of main: drop incomplete rows, add the lag columns, apply
    the interpreter and select the report columns.
   */
  method BuildReport(raws: seq<RawIndicators>) returns (report: seq<Record>)
    ensures var table := DropIncomplete(raws);
      && |report| == |table|
      && forall i :: 0 <= i < |table| ==>
           report[i] == Record(table[i].rsi, table[i].cci, table[i].macd, table[i].macdSignal,
                               Predictions(table)[i])
  {
    var table := DropIncomplete(raws);
    var results := new Results(table);
    results.AddLagColumns();
    results.AddPredictionColumn();
    report := results.Selection();
  }
}
