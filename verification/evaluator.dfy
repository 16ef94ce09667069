/**
 * The result assembly of TradeSignalEvaluator.evaluate_symbol, once the bar
 * series has been fetched: the "no data" report for an empty series,
 * otherwise the signal dictionary, its counts and the recommendation label.
 */
module Evaluator {
  import opened Decision
  import opened Signals

  /** The recommendation text reported when no bars could be retrieved. */
  const NoDataMessage: string := "Could not retrieve data."

  /** The dictionary evaluate_symbol returns; its indicators are keyed by their names. */
  datatype EvaluationResult = EvaluationResult(
    symbol: string,
    positiveSignals: nat,
    totalIndicators: nat,
    indicators: map<string, bool>,
    recommendation: string)

  /** The signal dictionary under its string keys: each entry keeps its value under its signal's key. */
  function Named(signals: map<Signal, bool>): (named: map<string, bool>)
    ensures named.Keys == KeysOf(signals.Keys)
    ensures forall s :: s in signals ==> named[s.Key()] == signals[s]
  {
    map s | s in signals :: s.Key() := signals[s]
  }

  /** Renaming the keys keeps the number of entries and the number of true signals. */
  lemma NamedCounts(signals: map<Signal, bool>)
    ensures |Named(signals)| == |signals|
    ensures PositiveSignals(Named(signals)) == PositiveSignals(signals)
  {
    var named := Named(signals);
    KeysOfSize(signals.Keys);
    assert |named| == |named.Keys|;
    assert TrueSignals(named) == KeysOf(TrueSignals(signals)) by {
      forall k | k in TrueSignals(named) ensures k in KeysOf(TrueSignals(signals)) {
        var s :| s in signals && s.Key() == k;
      }
    }
    KeysOfSize(TrueSignals(signals));
  }

  /**
   * evaluate_symbol after retrieval. An empty series short-circuits to the
   * "no data" report; otherwise the report carries the six signals of the
   * series under their names, their counts and the graded recommendation,
   * and the `total_indicators` entry read from the recommendation is always
   * present.
   */
  method EvaluateSeries(symbol: string, series: BarSeries, values: IndicatorValues) returns (result: EvaluationResult)
    requires series.WellFormed()
    ensures series.Length() == 0 ==> result == EvaluationResult(symbol, 0, 0, map[], NoDataMessage)
    ensures series.Length() > 0 ==>
              && result.symbol == symbol
              && result.indicators.Keys == KeysOf(AllSignals)
              && result.totalIndicators == |result.indicators| == 6
              && result.positiveSignals == |TrueSignals(result.indicators)|
              && result.recommendation == Label(Grade(result.positiveSignals))
              && result.recommendation != NoDataMessage
    ensures series.Length() > 0 ==>
              var lastClose := series.close[series.Length() - 1];
              && result.indicators[Ema13.Key()] == (lastClose > values.ema13)
              && result.indicators[Vwap.Key()] == (series.HasVwapColumns() && lastClose > values.vwap)
              && result.indicators[Rsi.Key()] == (values.rsi14 > 50.0)
              && result.indicators[Macd.Key()] == (values.macdHistogram > 0.0)
              && result.indicators[Volume.Key()] == VolumeSurge(series)
              && result.indicators[BreakOfStructure.Key()] == IsBreakOfStructure(series.close)
  {
    if series.Length() == 0 {
      return EvaluationResult(symbol, 0, 0, map[], NoDataMessage);
    }
    var signals := CalculateIndicators(series, values);
    SignalMapSize(signals);
    var indicators := Named(signals);
    NamedCounts(signals);
    var report := MakeRecommendation(indicators);
    result := EvaluationResult(symbol, report.positiveSignals, report.totalIndicators.value, indicators, Label(report.recommendation));
  }
}
