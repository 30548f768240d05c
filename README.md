# Signal interpreter of LR3.py, in Dafny

This project models the one decision procedure in the repository. It is the
price-direction heuristic of `LR3.py`, with the table-building steps of its
`main` that feed it.

- `interpret_signals` turns one row of indicator values into one of three
  labels: "Price will rise", "Price will fall" or "Unknown". Three independent
  rules each give a label:
  - the RSI bands: above 70 rises, above 30 is unknown, otherwise falls;
  - the CCI bands: below -100 rises, below 100 is unknown, otherwise falls;
  - the MACD crossover, which needs both one-step-lag fields to be present.

  A priority chain then picks the first label that is not "Unknown": CCI
  first, then RSI, then MACD.
- `main` concatenates the RSI, CCI and MACD series (MACD, histogram, signal
  line) and drops every row with a missing value, renumbering from zero. It
  then adds the columns `MACD_prev` and `MACDs_prev` by shifting `MACD` and
  `MACDs` down one row, so the first row gets NaN. Finally it applies the
  interpreter row by row into a `Prediction` column and selects the columns
  RSI, CCI, MACD, MACDs and Prediction for the report.

Files:

- `wrappers.dfy` (module `Wrappers`): `Option`. `None` stands for a NaN cell.
- `signals.dfy` (module `Signals`): the labels (`Forecast`), the row
  (`Row`), the three rules, the priority chain and the properties of the
  interpreter. Indicator values are `real`; the lag fields are
  `Option<real>`.
- `report.dfy` (module `Report`):
  - dropping incomplete rows;
  - the specification functions `LaggedRows` and `Predictions`, and the lag
    invariant `LagConsistent`;
  - `Shift` (`Series.shift(1)`) and `ApplyRowwise` (`DataFrame.apply`), as
    loops;
  - the class `Results`, which is the DataFrame stored column by column. Its
    methods add the lag and prediction columns in place;
  - `BuildReport`, which chains these steps.

The ordered rule list `FirstDecisive` is an independent definition of the
priority chain, and `InterpretIsFirstDecisive` proves that the if/elif chain
matches it. `LagConsistent` is the invariant of the lag columns:
`LaggedRows` satisfies it, and it is the only sequence over the same table
that does (`LagConsistentIsLaggedRows`).

The RSI comparisons are strict, so RSI = 30 gives "Price will fall", not
"Unknown" (`LR3.py:7-11`; `BandBoundaries`, `FirstPredictionIgnoresMacd`).

## Model

| member | source | states |
|---|---|---|
| `Signals.Forecast.Label` | LR3.py:26-34 | Rise is written "Price will rise", Fall "Price will fall" and Unknown "Unknown", each text for exactly its own label |
| `Signals.LabelInjective` | LR3.py:26-34 | two labels have the same text only when they are the same label, so the source's string comparisons are label comparisons |
| `Signals.RsiSignal` | LR3.py:7-11 | RSI rule: rise iff RSI > 70, fall iff RSI <= 30, unknown iff 30 < RSI <= 70 |
| `Signals.CciSignal` | LR3.py:13-17 | CCI rule: rise iff CCI < -100, fall iff CCI >= 100, unknown iff -100 <= CCI < 100 |
| `Signals.MacdSignal` | LR3.py:19-24 | MACD rule: rise iff both lags are present, the previous MACD is below the previous signal and MACD is now above the signal; fall iff the mirror crossover; unknown whenever a lag is missing |
| `Signals.FirstDecisive` | LR3.py:26-32 | ordered rule list: the result is Unknown iff every rule abstains; otherwise it is the label of some rule with every earlier rule abstaining |
| `Signals.InterpretSignals` | LR3.py:6-34 | the full decision table in both directions: rise iff CCI < -100, or CCI is undecided and (RSI > 70, or RSI is undecided and there is a bullish crossover); fall iff the mirror condition |
| `Signals.InterpretIsFirstDecisive` | LR3.py:26-34 | the if/elif chain equals the ordered rule list CCI, RSI, MACD |
| `Signals.CciDecidesAlone` | LR3.py:13-28 | outside -100 <= CCI < 100, two rows with the same CCI get the same forecast whatever their RSI and MACD: rise below -100, fall from 100 |
| `Signals.RsiDecidesNext` | LR3.py:7-30 | with CCI undecided, RSI outside 30 < RSI <= 70 decides whatever MACD is: rise above 70, fall at or below 30 |
| `Signals.MacdDecidesLast` | LR3.py:19-32 | with both oscillators undecided the MACD rule decides. The forecast is Unknown when a lag is missing, when MACD equals its signal, or when the previous pair is equal |
| `Signals.BandBoundaries` | LR3.py:8-17 | CCI = -100 is undecided, CCI = 100 falls, RSI = 70 is undecided, RSI = 30 falls |
| `Signals.CrossoverScenarios` | LR3.py:19-32 | in the undecided bands, a bullish crossover row rises, a bearish one falls, and a row with all MACD values equal is Unknown |
| `Report.Complete` | LR3.py:55 | a raw row yields values iff none of its five cells is missing, and those values are the row's own |
| `Report.DropIncomplete` | LR3.py:55 | no more rows than the input; a row is in the table iff the input holds it with every cell present |
| `Report.DropIncompleteAppend` | LR3.py:55 | dropping is done piece by piece (`drop(a + b) == drop(a) + drop(b)`), so the kept rows stay in input order |
| `Report.LaggedRows` | LR3.py:57-58 | the specification of the lag columns: after they are added the length, the order and the indicator columns are unchanged; row 0's lags are absent and row i's are row i-1's MACD and MACDs |
| `Report.Predictions` | LR3.py:59 | the specification of the prediction column: one prediction per row, each the interpreter applied to that lagged row |
| `Report.LagConsistentIsLaggedRows` | LR3.py:57-58 | any rows over the same table that satisfy the lag invariant are exactly the lagged rows |
| `Report.PredictionIsLocal` | LR3.py:57-59 | a row's prediction depends only on that row and the MACD pair of the row before it |
| `Report.PredictionsOfPrefix` | LR3.py:57-59 | the predictions of a prefix of the table are the prefix of its predictions |
| `Report.FirstPredictionIgnoresMacd` | LR3.py:57-59 | the first row has no lags, so its prediction is the ordered rule list of the CCI and RSI rules alone |
| `Report.Shift` | LR3.py:57-58 | same length; the first entry is missing, entry i is value i-1 |
| `Report.ApplyRowwise` | LR3.py:59 | one prediction per row, in row order, each the interpreter applied to that row alone |
| `Report.Results.constructor` | LR3.py:55 | the frame's indicator columns read back as the given table; no lag or prediction column yet |
| `Report.Results.AddLagColumns` | LR3.py:57-58 | adds both lag columns in place; the rows become the lagged rows of the table and satisfy the lag invariant; every other column is unchanged |
| `Report.Results.Selection` | LR3.py:60 | one record per row of the frame, carrying that row's RSI, CCI, MACD, MACDs and prediction |
| `Report.Results.AddPredictionColumn` | LR3.py:59 | fills the prediction column in place with one forecast per row, each the interpreter applied to that row; every other column is unchanged |
| `Report.BuildReport` | LR3.py:55-60 | one record per complete input row, in order, carrying that row's RSI, CCI, MACD and MACDs and its prediction over the lagged table |

## Left out

- Downloading the klines from the exchange, the date strings from the wall clock, and the frame built from them (LR3.py:37-51). These are network I/O and the clock. The model starts from the concatenated indicator series.
- The indicator arithmetic of the RSI, CCI and MACD library calls (LR3.py:52-54). These are foreign calls over floating-point series, so the values are `real` inputs. IEEE rounding is not modelled.
- NaN is modelled only as a missing cell: in the raw series before `dropna` and in the two lag columns. After `dropna` no indicator cell can be NaN, so the source's behaviour on a NaN RSI or CCI is not modelled.
- Renaming the columns (LR3.py:56) is modelled by the field names. Writing `prediction.csv`, printing, and the catch-all exception handler (LR3.py:60-63) are output and I/O. Only the column selection of line 60 is modelled (`Results.Selection`).
- On an empty table the row-wise application yields an empty prediction column and the report holds no rows; pandas' probing call of the interpreter on an all-NaN row, which it makes to choose the result type, is not modelled.
- LR4.py (network fetch, library RSI, plotting) and LR1.py (appending a timestamp row to a CSV file) have no decision logic of their own.
