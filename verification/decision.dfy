/**
 * The recommendation engine of TradeSignalEvaluator (make_recommendation):
 * the number of true signals is mapped to one of four recommendations by a
 * fixed threshold ladder.
 */
module Decision {
  import opened Wrappers

  /** The four recommendations, in increasing order of conviction. */
  datatype Recommendation = DoNotEnter | HoldWait | CautiousBuy | StrongBuy

  /** The text the evaluator reports for each recommendation. */
  function Label(r: Recommendation): string
  {
    match r
    case DoNotEnter => "Do Not Enter"
    case HoldWait => "Hold / Wait"
    case CautiousBuy => "Cautious Buy"
    case StrongBuy => "Strong Buy"
  }

  /** Position of a recommendation in the order DoNotEnter < HoldWait < CautiousBuy < StrongBuy. */
  function Rank(r: Recommendation): nat
  {
    match r
    case DoNotEnter => 0
    case HoldWait => 1
    case CautiousBuy => 2
    case StrongBuy => 3
  }

  /** The names whose signal is true. */
  function TrueSignals<K>(indicators: map<K, bool>): set<K>
  {
    set k | k in indicators && indicators[k]
  }

  /** The names whose signal is false. */
  function FalseSignals<K>(indicators: map<K, bool>): set<K>
  {
    set k | k in indicators && !indicators[k]
  }

  /** The number of true entries of the signal map (the `positive_signals` count). */
  function PositiveSignals<K>(indicators: map<K, bool>): (n: nat)
    ensures n <= |indicators|
  {
    CardinalityOfSubset(TrueSignals(indicators), indicators.Keys);
    |TrueSignals(indicators)|
  }

  /** No positives exactly when every signal is false; all positives exactly when every signal is true. */
  lemma PositiveSignalsExtremes<K>(indicators: map<K, bool>)
    ensures PositiveSignals(indicators) == 0 <==> forall k :: k in indicators ==> !indicators[k]
    ensures PositiveSignals(indicators) == |indicators| <==> forall k :: k in indicators ==> indicators[k]
  {
    var trues := TrueSignals(indicators);
    if forall k :: k in indicators ==> indicators[k] {
      assert trues == indicators.Keys;
    } else {
      var k :| k in indicators && !indicators[k];
      CardinalityOfSubset(trues, indicators.Keys - {k});
    }
    if exists k :: k in indicators && indicators[k] {
      var k :| k in indicators && indicators[k];
      assert k in trues;
    }
  }

  /** A subset is no larger than its superset, and strictly smaller when proper. */
  lemma {:induction false} CardinalityOfSubset<T>(a: set<T>, b: set<T>)
    requires a <= b
    ensures |a| <= |b|
    ensures a < b ==> |a| < |b|
    decreases b
  {
    if a != {} {
      var x :| x in a;
      CardinalityOfSubset(a - {x}, b - {x});
      if a < b {
        assert b - a != {};
        var y :| y in b - a;
        assert y in (b - {x}) - (a - {x});
      }
    }
  }

  /**
   * The threshold ladder: five or more true signals give StrongBuy, three or
   * four CautiousBuy, none DoNotEnter, one or two HoldWait.
   */
  function Grade(positive: nat): (r: Recommendation)
    ensures r == StrongBuy <==> positive >= 5
    ensures r == CautiousBuy <==> 3 <= positive <= 4
    ensures r == HoldWait <==> 1 <= positive <= 2
    ensures r == DoNotEnter <==> positive == 0
  {
    if positive >= 5 then StrongBuy
    else if positive >= 3 then CautiousBuy
    else if positive == 0 then DoNotEnter
    else HoldWait
  }

  /**
   * The dictionary make_recommendation returns. `totalIndicators` is None on
   * the empty-map path, where the source's dictionary has no
   * `total_indicators` entry at all.
   */
  datatype Report = Report(recommendation: Recommendation, positiveSignals: nat, totalIndicators: Option<nat>)

  /** make_recommendation: count the true signals and grade the count. */
  function MakeRecommendation<K>(indicators: map<K, bool>): (r: Report)
    ensures indicators == map[] ==> r == Report(HoldWait, 0, None)
    ensures indicators != map[] ==> r.totalIndicators == Some(|indicators|)
    ensures indicators != map[] ==> r.positiveSignals == |TrueSignals(indicators)|
    ensures r.positiveSignals <= |indicators|
    ensures r.recommendation == DoNotEnter <==>
              indicators != map[] && forall k :: k in indicators ==> !indicators[k]
    ensures r.recommendation == StrongBuy <==> |TrueSignals(indicators)| >= 5
    ensures r.recommendation == CautiousBuy <==> 3 <= |TrueSignals(indicators)| <= 4
    ensures r.recommendation == HoldWait <==>
              indicators == map[] || 1 <= |TrueSignals(indicators)| <= 2
  {
    if indicators == map[] then
      Report(HoldWait, 0, None)
    else
      var positive := PositiveSignals(indicators);
      PositiveSignalsExtremes(indicators);
      Report(Grade(positive), positive, Some(|indicators|))
  }

  /** Every entry is either a true or a false signal: the two counts add up to the map size. */
  lemma PositiveAndNegativeCover<K>(indicators: map<K, bool>)
    ensures PositiveSignals(indicators) + |FalseSignals(indicators)| == |indicators|
  {
    var trues, falses := TrueSignals(indicators), FalseSignals(indicators);
    assert trues + falses == indicators.Keys;
    assert trues * falses == {};
  }

  /** Turning one false signal true raises the count by exactly one. */
  lemma RaiseOneSignal<K>(indicators: map<K, bool>, k: K)
    requires k in indicators && !indicators[k]
    ensures PositiveSignals(indicators[k := true]) == PositiveSignals(indicators) + 1
  {
    assert TrueSignals(indicators[k := true]) == TrueSignals(indicators) + {k};
  }

  /** More true signals never give fewer positives. */
  lemma PositiveSignalsMonotone<K>(weaker: map<K, bool>, stronger: map<K, bool>)
    requires weaker.Keys == stronger.Keys
    requires forall k :: k in weaker && weaker[k] ==> stronger[k]
    ensures PositiveSignals(weaker) <= PositiveSignals(stronger)
  {
    CardinalityOfSubset(TrueSignals(weaker), TrueSignals(stronger));
  }

  /** The ladder is monotone: a larger count never gives a lower recommendation. */
  lemma GradeMonotone(a: nat, b: nat)
    requires a <= b
    ensures Rank(Grade(a)) <= Rank(Grade(b))
  {
  }

  /**
   * Over the same non-empty set of signal names, making signals true never
   * lowers the recommendation.
   */
  lemma RecommendationMonotone<K>(weaker: map<K, bool>, stronger: map<K, bool>)
    requires weaker != map[]
    requires weaker.Keys == stronger.Keys
    requires forall k :: k in weaker && weaker[k] ==> stronger[k]
    ensures Rank(MakeRecommendation(weaker).recommendation) <= Rank(MakeRecommendation(stronger).recommendation)
  {
    PositiveSignalsMonotone(weaker, stronger);
    assert stronger != map[] by {
      var k :| k in weaker;
      assert k in stronger;
    }
    GradeMonotone(PositiveSignals(weaker), PositiveSignals(stronger));
  }

  /** The four labels are pairwise distinct, so the reported text determines the recommendation. */
  lemma LabelInjective(a: Recommendation, b: Recommendation)
    requires Label(a) == Label(b)
    ensures a == b
  {
  }
}
