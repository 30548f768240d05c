/**
  The signal interpreter of LR3.py: one row of indicator values (RSI, CCI,
  MACD, its histogram and signal line, and the MACD pair of the previous row)
  is turned into one of three forecast labels. Three independent rules each
  give a label; the CCI rule is consulted first, then the RSI rule, then the
  MACD crossover rule, and the first label that is not "Unknown" wins.
 */
module Signals {
  import opened Wrappers

  /** The three labels the interpreter returns. */
  datatype Forecast = Rise | Fall | Unknown {

    /** The text the source uses for the label (and writes to the report). */
    function Label(): (s: string)
      ensures s == "Price will rise" <==> this == Rise
      ensures s == "Price will fall" <==> this == Fall
      ensures s == "Unknown" <==> this == Unknown
    {
      match this
      case Rise => "Price will rise"
      case Fall => "Price will fall"
      case Unknown => "Unknown"
    }
  }

  /**
    One row as the interpreter sees it: the five indicator columns (never
    missing, the caller drops incomplete rows) and the one-step-lag columns,
    which are missing (NaN) on the first row of a series.
   */
  datatype Row = Row(
    rsi: real,
    cci: real,
    macd: real,
    macdHist: real,
    macdSignal: real,
    macdPrev: Option<real>,
    macdSignalPrev: Option<real>)

  /** The RSI values for which the RSI rule gives "Unknown": above 30, at most 70. */
  predicate RsiUndecided(rsi: real) {
    30.0 < rsi <= 70.0
  }

  /** The CCI values for which the CCI rule gives "Unknown": at least -100, below 100. */
  predicate CciUndecided(cci: real) {
    -100.0 <= cci < 100.0
  }

  /** Both lag fields are present, i.e. the row is not the first of its series. */
  predicate HasLag(row: Row) {
    row.macdPrev.Some? && row.macdSignalPrev.Some?
  }

  /** MACD crossed above its signal line between the previous row and this one. */
  predicate BullishCrossover(row: Row) {
    HasLag(row) && row.macdPrev.value < row.macdSignalPrev.value && row.macd > row.macdSignal
  }

  /** MACD crossed below its signal line between the previous row and this one. */
  predicate BearishCrossover(row: Row) {
    HasLag(row) && row.macdPrev.value > row.macdSignalPrev.value && row.macd < row.macdSignal
  }

  /** RSI rule: overbought momentum reads as a rise, oversold as a fall. */
  function RsiSignal(rsi: real): (f: Forecast)
    ensures f == Rise <==> rsi > 70.0
    ensures f == Fall <==> rsi <= 30.0
    ensures f == Unknown <==> RsiUndecided(rsi)
  {
    if rsi > 70.0 then Rise
    else if rsi > 30.0 then Unknown
    else Fall
  }

  /** CCI rule: far below average reads as a rise, far above as a fall. */
  function CciSignal(cci: real): (f: Forecast)
    ensures f == Rise <==> cci < -100.0
    ensures f == Fall <==> cci >= 100.0
    ensures f == Unknown <==> CciUndecided(cci)
  {
    if cci < -100.0 then Rise
    else if cci < 100.0 then Unknown
    else Fall
  }

  /** MACD crossover rule, guarded by the presence of both lag fields. */
  function MacdSignal(row: Row): (f: Forecast)
    ensures f == Rise <==> BullishCrossover(row)
    ensures f == Fall <==> BearishCrossover(row)
    ensures !HasLag(row) ==> f == Unknown
  {
    if HasLag(row) then
      if row.macd > row.macdSignal && row.macdPrev.value < row.macdSignalPrev.value then Rise
      else if row.macd < row.macdSignal && row.macdPrev.value > row.macdSignalPrev.value then Fall
      else Unknown
    else
      Unknown
  }

  /**
    The priority chain as an explicit ordered rule list: the first label that
    is not Unknown, or Unknown when every rule abstains.
   */
  function FirstDecisive(signals: seq<Forecast>): (r: Forecast)
    ensures r == Unknown <==> forall k :: 0 <= k < |signals| ==> signals[k] == Unknown
    ensures r != Unknown ==>
      exists k :: 0 <= k < |signals| && signals[k] == r &&
        forall j :: 0 <= j < k ==> signals[j] == Unknown
  {
    if signals == [] then Unknown
    else if signals[0] != Unknown then signals[0]
    else
      var r := FirstDecisive(signals[1..]);
      assert forall k :: 1 <= k < |signals| ==> signals[k] == signals[1..][k - 1];
      if r != Unknown then
        var k :| 0 <= k < |signals[1..]| && signals[1..][k] == r &&
          forall j :: 0 <= j < k ==> signals[1..][j] == Unknown;
        assert signals[k + 1] == r;
        r
      else
        r
  }

  /** interpret_signals: CCI first, then RSI, then the MACD crossover. */
  function InterpretSignals(row: Row): (r: Forecast)
    ensures r == Rise <==>
      row.cci < -100.0 ||
      (CciUndecided(row.cci) && (row.rsi > 70.0 || (RsiUndecided(row.rsi) && BullishCrossover(row))))
    ensures r == Fall <==>
      row.cci >= 100.0 ||
      (CciUndecided(row.cci) && (row.rsi <= 30.0 || (RsiUndecided(row.rsi) && BearishCrossover(row))))
  {
    var rsiSignal := RsiSignal(row.rsi);
    var cciSignal := CciSignal(row.cci);
    var macdSignal := MacdSignal(row);
    if cciSignal != Unknown then cciSignal
    else if rsiSignal != Unknown then rsiSignal
    else if macdSignal != Unknown then macdSignal
    else Unknown
  }

  /** The if/elif chain of the source is the ordered rule list CCI, RSI, MACD. */
  lemma {:induction false} InterpretIsFirstDecisive(row: Row)
    ensures InterpretSignals(row) == FirstDecisive([CciSignal(row.cci), RsiSignal(row.rsi), MacdSignal(row)])
  {
    var signals := [CciSignal(row.cci), RsiSignal(row.rsi), MacdSignal(row)];
    assert signals[1..] == [RsiSignal(row.rsi), MacdSignal(row)];
    assert signals[1..][1..] == [MacdSignal(row)];
    assert signals[1..][1..][1..] == [];
    assert FirstDecisive(signals[1..][1..]) == MacdSignal(row) by {
      assert FirstDecisive(signals[1..][1..][1..]) == Unknown;
    }
    assert FirstDecisive(signals[1..]) ==
      if RsiSignal(row.rsi) != Unknown then RsiSignal(row.rsi) else MacdSignal(row);
  }

  /** Outside its undecided band the CCI alone decides, whatever RSI and MACD are. */
  lemma CciDecidesAlone(a: Row, b: Row)
    requires a.cci == b.cci && !CciUndecided(a.cci)
    ensures InterpretSignals(a) == InterpretSignals(b) == CciSignal(a.cci)
    ensures a.cci < -100.0 ==> InterpretSignals(a) == Rise
    ensures a.cci >= 100.0 ==> InterpretSignals(a) == Fall
  {
  }

  /** In the undecided CCI band, RSI outside its own band decides, whatever MACD is. */
  lemma RsiDecidesNext(a: Row, b: Row)
    requires CciUndecided(a.cci) && CciUndecided(b.cci)
    requires a.rsi == b.rsi && !RsiUndecided(a.rsi)
    ensures InterpretSignals(a) == InterpretSignals(b) == RsiSignal(a.rsi)
    ensures a.rsi > 70.0 ==> InterpretSignals(a) == Rise
    ensures a.rsi <= 30.0 ==> InterpretSignals(a) == Fall
  {
  }

  /** With both oscillators undecided, the MACD crossover rule decides. */
  lemma MacdDecidesLast(row: Row)
    requires CciUndecided(row.cci) && RsiUndecided(row.rsi)
    ensures InterpretSignals(row) == MacdSignal(row)
    ensures !HasLag(row) ==> InterpretSignals(row) == Unknown
    ensures row.macd == row.macdSignal ==> InterpretSignals(row) == Unknown
    ensures HasLag(row) && row.macdPrev.value == row.macdSignalPrev.value ==> InterpretSignals(row) == Unknown
  {
  }

  /** The thresholds are strict where the source compares strictly. */
  lemma BandBoundaries()
    ensures CciSignal(-100.0) == Unknown && CciSignal(100.0) == Fall
    ensures RsiSignal(70.0) == Unknown && RsiSignal(30.0) == Fall
  {
  }

  /** The three crossover situations with both oscillators in their undecided bands. */
  lemma CrossoverScenarios()
    ensures InterpretSignals(Row(50.0, 0.0, 1.0, 0.5, 0.5, Some(0.2), Some(0.3))) == Rise
    ensures InterpretSignals(Row(50.0, 0.0, 0.2, -0.3, 0.5, Some(0.6), Some(0.3))) == Fall
    ensures InterpretSignals(Row(50.0, 0.0, 0.3, 0.0, 0.3, Some(0.3), Some(0.3))) == Unknown
  {
  }

  /** Distinct labels have distinct texts, so comparing texts is comparing labels. */
  lemma LabelInjective(f: Forecast, g: Forecast)
    ensures f.Label() == g.Label() <==> f == g
  {
  }
}
