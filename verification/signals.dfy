/**
 * The indicator engine of TradeSignalEvaluator (calculate_indicators): from a
 * bar series and the last values of the library-computed indicators, the map
 * of six named boolean signals.
 */
module Signals {
  import opened Wrappers

  /**
   * The bar series as the evaluator sees it: a table of columns over the same
   * rows, oldest bar first. `close` is always present; `high`, `low` and
   * `volume` may be missing from the table.
   */
  datatype BarSeries = BarSeries(
    close: seq<real>,
    high: Option<seq<real>>,
    low: Option<seq<real>>,
    volume: Option<seq<real>>)
  {
    /** Every present column has one value per row. */
    predicate WellFormed()
    {
      && (high.Some? ==> |high.value| == |close|)
      && (low.Some? ==> |low.value| == |close|)
      && (volume.Some? ==> |volume.value| == |close|)
    }

    /** The number of rows. */
    function Length(): nat
    {
      |close|
    }

    /** The volume-weighted average price is only computed when all of high, low, close and volume are present. */
    predicate HasVwapColumns()
    {
      high.Some? && low.Some? && volume.Some?
    }
  }

  /**
   * The last row of the indicator columns that the external technical-analysis
   * library appends: EMA of length 13, RSI of length 14, the MACD(12, 26, 9)
   * histogram and the daily VWAP (read only when its column exists).
   */
  datatype IndicatorValues = IndicatorValues(ema13: real, rsi14: real, macdHistogram: real, vwap: real)

  /** The six signals of a non-empty series. */
  datatype Signal = Ema13 | Vwap | Rsi | Macd | Volume | BreakOfStructure
  {
    /** The dictionary key the evaluator reports this signal under. */
    function Key(): string
    {
      match this
      case Ema13 => "ema_13"
      case Vwap => "vwap"
      case Rsi => "rsi"
      case Macd => "macd"
      case Volume => "volume"
      case BreakOfStructure => "break_of_structure"
    }
  }

  /** Different signals are reported under different keys. */
  lemma KeyInjective(a: Signal, b: Signal)
    requires a.Key() == b.Key()
    ensures a == b
  {
  }

  /** The keys of a set of signals. */
  function KeysOf(signals: set<Signal>): set<string>
  {
    set s | s in signals :: s.Key()
  }

  /** A set of signals has as many keys as signals. */
  lemma {:induction false} KeysOfSize(signals: set<Signal>)
    ensures |KeysOf(signals)| == |signals|
    decreases signals
  {
    if signals != {} {
      var x :| x in signals;
      var rest := signals - {x};
      KeysOfSize(rest);
      assert KeysOf(signals) == KeysOf(rest) + {x.Key()};
      if x.Key() in KeysOf(rest) {
        var y :| y in rest && y.Key() == x.Key();
        KeyInjective(x, y);
      }
    }
  }

  /** All six signals. */
  const AllSignals: set<Signal> := {Ema13, Vwap, Rsi, Macd, Volume, BreakOfStructure}

  /** A map over exactly the six signals has six entries. */
  lemma SignalMapSize(indicators: map<Signal, bool>)
    requires indicators.Keys == AllSignals
    ensures |indicators| == 6
  {
  }

  /** The largest element of a non-empty sequence (the `max` of the close window). */
  function Max(s: seq<real>): (m: real)
    requires s != []
    ensures m in s
    ensures forall i :: 0 <= i < |s| ==> s[i] <= m
  {
    if |s| == 1 then s[0]
    else
      var rest := Max(s[1..]);
      assert forall i :: 1 <= i < |s| ==> s[i] == s[1..][i - 1];
      if s[0] > rest then s[0] else rest
  }

  /** The sum of a sequence. */
  function Sum(s: seq<real>): real
  {
    if s == [] then 0.0 else Sum(s[..|s| - 1]) + s[|s| - 1]
  }

  /** The arithmetic mean of a non-empty sequence: taken once per element, it gives the sum. */
  function Mean(s: seq<real>): (m: real)
    requires s != []
    ensures m * |s| as real == Sum(s)
  {
    Sum(s) / |s| as real
  }

  /**
   * Break of structure: with more than five bars, the last close is above the
   * highest of the four closes immediately before it. Equivalently, it is
   * strictly above each close at positions len-5 to len-2; the last bar is not
   * part of the window it is compared with.
   */
  predicate IsBreakOfStructure(close: seq<real>)
    ensures IsBreakOfStructure(close) <==>
              |close| > 5 && forall i :: |close| - 5 <= i < |close| - 1 ==> close[i] < close[|close| - 1]
  {
    if |close| <= 5 then false
    else
      var n := |close|;
      var window := close[n - 5..n - 1];
      assert forall i :: n - 5 <= i < n - 1 ==> close[i] == window[i - (n - 5)];
      close[n - 1] > Max(window)
  }

  /**
   * Volume surge: with a volume column and more than ten bars, the last
   * volume is above the mean volume of all earlier bars. Equivalently, the
   * last volume times the number of earlier bars exceeds their total.
   */
  predicate VolumeSurge(series: BarSeries)
    requires series.WellFormed()
    ensures VolumeSurge(series) <==>
              && series.volume.Some?
              && series.Length() > 10
              && var v := series.volume.value;
                 v[|v| - 1] * (|v| - 1) as real > Sum(v[..|v| - 1])
  {
    && series.volume.Some?
    && series.Length() > 10
    && var v := series.volume.value;
       v[|v| - 1] > Mean(v[..|v| - 1])
  }

  /**
   * calculate_indicators: an empty series gives no signals at all; otherwise
   * each of the six signals is set once, in the source's order.
   */
  method CalculateIndicators(series: BarSeries, values: IndicatorValues) returns (indicators: map<Signal, bool>)
    requires series.WellFormed()
    ensures series.Length() == 0 ==> indicators == map[]
    ensures series.Length() > 0 ==> indicators.Keys == AllSignals
    ensures series.Length() > 0 ==>
              var lastClose := series.close[series.Length() - 1];
              && indicators[Ema13] == (lastClose > values.ema13)
              && indicators[Vwap] == (series.HasVwapColumns() && lastClose > values.vwap)
              && indicators[Rsi] == (values.rsi14 > 50.0)
              && indicators[Macd] == (values.macdHistogram > 0.0)
              && indicators[Volume] == VolumeSurge(series)
              && indicators[BreakOfStructure] == IsBreakOfStructure(series.close)
  {
    if series.Length() == 0 {
      return map[];
    }
    var n := series.Length();
    indicators := map[];
    var lastClose := series.close[n - 1];

    indicators := indicators[Ema13 := lastClose > values.ema13];

    var vwapSignal := false;
    if series.HasVwapColumns() {
      vwapSignal := lastClose > values.vwap;
    }
    indicators := indicators[Vwap := vwapSignal];

    indicators := indicators[Rsi := values.rsi14 > 50.0];

    indicators := indicators[Macd := values.macdHistogram > 0.0];

    var volumeSignal := false;
    if series.volume.Some? && n > 10 {
      var volume := series.volume.value;
      var averageVolume := Mean(volume[..n - 1]);
      var lastVolume := volume[n - 1];
      volumeSignal := lastVolume > averageVolume;
    }
    indicators := indicators[Volume := volumeSignal];

    var structureSignal := false;
    if n > 5 {
      structureSignal := IsBreakOfStructure(series.close);
    }
    indicators := indicators[BreakOfStructure := structureSignal];
  }

  /** Only the last five closes matter: two long series that end alike agree on break of structure. */
  lemma BreakOfStructureLocal(a: seq<real>, b: seq<real>)
    requires |a| > 5 && |b| > 5
    requires a[|a| - 5..] == b[|b| - 5..]
    ensures IsBreakOfStructure(a) == IsBreakOfStructure(b)
  {
  }

  /** Every element below x: the sum is below |s| times x. */
  lemma {:induction false} SumBelow(s: seq<real>, x: real)
    requires s != []
    requires forall i :: 0 <= i < |s| ==> s[i] < x
    ensures Sum(s) < |s| as real * x
  {
    if |s| > 1 {
      SumBelow(s[..|s| - 1], x);
    }
  }

  /** Every element at least x: the sum is at least |s| times x. */
  lemma {:induction false} SumAtLeast(s: seq<real>, x: real)
    requires forall i :: 0 <= i < |s| ==> s[i] >= x
    ensures Sum(s) >= |s| as real * x
  {
    if s != [] {
      SumAtLeast(s[..|s| - 1], x);
    }
  }

  /** A long series whose last volume is the strict maximum of the column shows a volume surge. */
  lemma SurgeWhenLastVolumeIsHighest(series: BarSeries)
    requires series.WellFormed() && series.volume.Some? && series.Length() > 10
    requires var v := series.volume.value;
             forall i :: 0 <= i < |v| - 1 ==> v[i] < v[|v| - 1]
    ensures VolumeSurge(series)
  {
    var v := series.volume.value;
    SumBelow(v[..|v| - 1], v[|v| - 1]);
  }

  /** A series whose last volume is no higher than any earlier volume shows no volume surge. */
  lemma NoSurgeWhenLastVolumeIsLowest(series: BarSeries)
    requires series.WellFormed() && series.volume.Some?
    requires var v := series.volume.value;
             forall i :: 0 <= i < |v| - 1 ==> v[i] >= v[|v| - 1]
    ensures !VolumeSurge(series)
  {
    var v := series.volume.value;
    if series.Length() > 10 {
      SumAtLeast(v[..|v| - 1], v[|v| - 1]);
    }
  }

  /** Too little history switches the two history-based signals off. */
  lemma ShortSeriesSignals(series: BarSeries)
    requires series.WellFormed()
    ensures series.Length() <= 5 ==> !IsBreakOfStructure(series.close)
    ensures series.Length() <= 10 ==> !VolumeSurge(series)
    ensures series.volume.None? ==> !VolumeSurge(series) && !series.HasVwapColumns()
  {
  }
}
