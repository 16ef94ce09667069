# Trade signal evaluator: signal and recommendation engine

A Dafny model of the deterministic part of `TradeSignalEvaluator` (main.py).
The rest of that file is brokerage I/O.

- **Indicator engine** (`calculate_indicators`, module `Signals`). It takes a bar
  series and returns a map of six named boolean signals:
  - `ema_13`: last close above the 13-period EMA.
  - `vwap`: last close above the VWAP. This signal is only computed when the
    high, low, close and volume columns are all present.
  - `rsi`: RSI(14) above 50.
  - `macd`: MACD(12, 26, 9) histogram above 0.
  - `volume`: the last volume is above the mean of all earlier volumes. This
    needs a volume column and more than ten bars.
  - `break_of_structure`: the last close is above the highest of the four
    closes before it. This needs more than five bars.

  An empty series gives an empty map. The series is modelled column by column,
  like the DataFrame it comes from. `close` is a mandatory column. `high`, `low`
  and `volume` are optional columns (`Option<seq<real>>`). The last values of
  the four library indicators are inputs (`IndicatorValues`). The method
  `CalculateIndicators` fills the map one signal at a time, in the source's
  order. The report renames the signals to their dictionary keys.
- **Recommendation engine** (`make_recommendation`, module `Decision`). It
  counts the true signals and grades the count on the ladder "Strong Buy" (5 or
  more), "Cautious Buy" (3–4), "Do Not Enter" (0) and "Hold / Wait" (1–2). An
  empty map has its own answer: "Hold / Wait" with no `total_indicators` entry.
  The engine is generic in the key type, so it works for any signal map.
- **Result assembly** (`evaluate_symbol` after retrieval, module `Evaluator`).
  An empty series gives the "Could not retrieve data." report. Any other series
  gives the signal map, its counts and the recommendation label.

Two behaviours of main.py worth noting:
- For an empty series the code returns an empty map (main.py:62-63), not a map of six false signals.
- The ladder is tested in the code's order (≥5, ≥3, ==0). Testing ==0 first gives the same result, because a count of 0 meets neither of the other two tests.

## Model

| member | source | states |
|---|---|---|
| Decision.MakeRecommendation | main.py:118-138 | An empty map gives Hold / Wait with 0 positives and no total. A non-empty map gives total = map size and positives = number of true entries, and positives ≤ size. Each label holds exactly for its count range: Do Not Enter iff the map is non-empty and all signals are false. |
| Decision.Grade | main.py:126-132 | The ladder is exact in both directions: ≥5 iff Strong Buy, 3–4 iff Cautious Buy, 1–2 iff Hold / Wait, 0 iff Do Not Enter. |
| Decision.Label | main.py:127-132 | The text of each recommendation: "Strong Buy", "Cautious Buy", "Do Not Enter", "Hold / Wait" (a definition; its distinctness is `Decision.LabelInjective`). |
| Decision.PositiveSignals | main.py:123-124 | The positive count never exceeds the number of signals. |
| Decision.PositiveSignalsExtremes | main.py:123 | The count is 0 iff every signal is false. It equals the map size iff every signal is true. |
| Decision.PositiveAndNegativeCover | main.py:123-124 | The true count plus the false count is the total number of indicators. |
| Decision.RaiseOneSignal | main.py:123 | Turning one false signal true raises the count by exactly one. |
| Decision.PositiveSignalsMonotone | main.py:123 | Over the same keys, making signals true never lowers the count. |
| Decision.GradeMonotone | main.py:126-132 | A larger count never gives a lower rank in the order Do Not Enter < Hold / Wait < Cautious Buy < Strong Buy. |
| Decision.RecommendationMonotone | main.py:120-132 | Over the same non-empty set of keys, making signals true never lowers the recommendation's rank. |
| Decision.LabelInjective | main.py:126-132 | The four recommendation texts are pairwise different. |
| Signals.Signal.Key | main.py:83-114 | The dictionary key of each signal: `ema_13`, `vwap`, `rsi`, `macd`, `volume`, `break_of_structure` (a definition; its distinctness is `Signals.KeyInjective`). |
| Signals.KeyInjective | main.py:83-114 | The six signals are reported under six different dictionary keys. |
| Signals.SignalMapSize | main.py:124 | A map over the six signals has six entries, so `total_indicators` is 6 for any non-empty series. |
| Signals.Max | main.py:112 | The `max` of the close window is one of its elements and no element exceeds it. |
| Signals.Mean | main.py:104 | The `mean` of the earlier volumes, taken once per element, gives their sum. |
| Signals.IsBreakOfStructure | main.py:111-114 | Break of structure holds iff there are more than five bars and the last close is strictly above every close at positions len-5 to len-2. The last bar is not in its own window. |
| Signals.BreakOfStructureLocal | main.py:112 | Two series longer than five bars whose last five closes agree give the same break-of-structure signal. |
| Signals.VolumeSurge | main.py:103-108 | Volume surge (last volume above the mean of the earlier ones) holds iff there is a volume column, more than ten bars, and last volume × (len-1) > the sum of the earlier volumes. |
| Signals.SurgeWhenLastVolumeIsHighest | main.py:103-108 | A series longer than ten bars whose last volume is above every earlier volume shows a surge. |
| Signals.NoSurgeWhenLastVolumeIsLowest | main.py:103-108 | A series whose last volume is at most every earlier volume never shows a surge. |
| Signals.ShortSeriesSignals | main.py:73-114 | With at most five bars there is no break of structure. With at most ten bars there is no volume surge. Without a volume column there is neither a volume surge nor a VWAP signal. |
| Signals.CalculateIndicators | main.py:60-116 | An empty series gives an empty map. Otherwise the keys are exactly the six signals, and each value is: last close > EMA-13; VWAP columns present and last close > VWAP; RSI > 50; MACD histogram > 0; volume surge; break of structure. |
| Evaluator.Named | main.py:155-162 | The signal map under its string keys: the keys are the six names and each name carries its signal's value. |
| Evaluator.NamedCounts | main.py:155-162 | Renaming the keys keeps the number of entries and the number of true signals. |
| Evaluator.EvaluateSeries | main.py:146-165 | An empty series gives the "Could not retrieve data." report with zero counts and no indicators. Otherwise the report's indicators are the six signals of the series under their names, each with the value `CalculateIndicators` gives it. The total is 6, the positives are the number of true signals, and the label is the ladder's label for that count, never the no-data text. The `total_indicators` lookup on the recommendation always succeeds. |

## Left out

- `connect`, `disconnect`, `get_historical_data`: network calls to the brokerage gateway, `async` code and process exit. The fetched bar series is a parameter of `Evaluator.EvaluateSeries`, and the retrieval steps at the start of `evaluate_symbol` are not modelled.
- `main`: interactive input, upper-casing the symbol, and JSON printing.
- The numeric internals of EMA-13, RSI-14, MACD(12, 26, 9) and VWAP. These are computed by a foreign library on floating-point data. Their last values are inputs, and only the comparisons the code makes on them are modelled.
- Floating point: prices and volumes are exact reals. NaN results (short series, pandas' NaN-skipping `mean` and `max`) are not modelled. Neither is the library omitting a column.
- Lower-casing the column names of the caller's DataFrame in place, and appending indicator columns to it. Column presence is modelled by the `Option` fields instead, so nothing of the caller's frame is changed.
- A frame without a `close` column: the code fails on it with a key error. In the model `close` is a mandatory field.
- Python dictionaries keep insertion order, and the JSON output shows it. The model's signal map is an unordered `map`. The insertion order appears only in the order of the statements in `Signals.CalculateIndicators`.
