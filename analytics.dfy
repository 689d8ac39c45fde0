/** The session helpers: normalising an emotion map, the unweighted negative score, and the
    analytics, feedback messages and quality score computed over a session's records. A
    pandas frame is a sequence of rows in insertion order, indexed from 0. */
module SessionAnalytics {
  import opened Common
  import opened Emotions

  // ---------------------------------------------------------------------------------------
  // Emotion maps

  /** `normalize_emotion_scores`: each value divided by the total, or the uniform `1 / n`
      when the values add up to exactly zero. The keys and their order are kept. */
  function NormalizeScores(d: Dict): (r: Dict)
    ensures |r| == |d| && Keys(r) == Keys(d)
  {
    var total := Total(d);
    if total == 0.0 then EqualShares(d) else DivideAll(d, total)
  }

  /** `{k: 1/len(d) for k in d}`. */
  function EqualShares(d: Dict): (r: Dict)
    ensures |r| == |d| && Keys(r) == Keys(d)
    ensures forall i :: 0 <= i < |r| ==> r[i].p == 1.0 / (|d| as real)
  {
    seq(|d|, i requires 0 <= i < |d| => Entry(d[i].emotion, 1.0 / (|d| as real)))
  }

  lemma UnitShares(n: real)
    requires n != 0.0
    ensures n * (1.0 / n) == 1.0 && n / n == 1.0
  {
  }

  lemma QuotientNonNegative(a: real, t: real)
    requires a >= 0.0 && t > 0.0
    ensures a / t >= 0.0
  {
  }

  /** A non-empty map whose values add up to zero normalises to the uniform distribution. */
  lemma NormalizeScoresUniform(d: Dict)
    requires |d| > 0 && Total(d) == 0.0
    ensures forall i :: 0 <= i < |d| ==> NormalizeScores(d)[i].p == 1.0 / (|d| as real)
    ensures Total(NormalizeScores(d)) == 1.0
  {
    assert NormalizeScores(d) == EqualShares(d);
    EqualSharesTotal(d);
  }

  lemma EqualSharesTotal(d: Dict)
    requires |d| > 0
    ensures Total(EqualShares(d)) == 1.0
  {
    var n := |d| as real;
    TotalConstant(EqualShares(d), 1.0 / n);
    UnitShares(n);
  }

  /** Otherwise every value is divided by the total: the results sum to one, and they are
      non-negative when the input's values are. */
  lemma NormalizeScoresProportional(d: Dict)
    requires Total(d) != 0.0
    ensures forall i :: 0 <= i < |d| ==> NormalizeScores(d)[i].p == d[i].p / Total(d)
    ensures Total(NormalizeScores(d)) == 1.0
    ensures NonNegative(d) ==> NonNegative(NormalizeScores(d))
  {
    var t := Total(d);
    TotalDivided(d, t);
    UnitShares(t);
    if NonNegative(d) {
      TotalNonNegative(d);
      var r := NormalizeScores(d);
      forall i | 0 <= i < |r| ensures r[i].p >= 0.0 {
        QuotientNonNegative(d[i].p, t);
      }
    }
  }

  /** `calculate_negative_score`: the plain sum of the four negative labels, a missing label
      counting as zero. */
  function NegativeSum(d: Dict): real {
    Get(d, Angry) + Get(d, Disgust) + Get(d, Fear) + Get(d, Sad)
  }

  /** On a map with distinct labels and non-negative values the unweighted score lies
      between zero and the map's total, and bounds from above the detector's weighted score
      `0.4 sad + 0.3 angry + 0.2 fear + 0.1 disgust` scaled by 1 / 0.4. */
  lemma NegativeSumBounds(d: Dict)
    requires DistinctLabels(d) && NonNegative(d)
    ensures 0.0 <= NegativeSum(d) <= Total(d)
    ensures 0.4 * Get(d, Sad) + 0.3 * Get(d, Angry) + 0.2 * Get(d, Fear) + 0.1 * Get(d, Disgust)
         <= 0.4 * NegativeSum(d)
  {
    NegativeMassAtMostTotal(d);
    GetNonNegative(d, Angry);
    GetNonNegative(d, Disgust);
    GetNonNegative(d, Fear);
  }

  // ---------------------------------------------------------------------------------------
  // Session records

  /** One row of the session frame: the columns the analytics read. */
  datatype Row = Row(timestamp: real, stress: real, engagement: real)

  function Stresses(df: seq<Row>): (s: seq<real>)
    ensures |s| == |df| && forall i :: 0 <= i < |df| ==> s[i] == df[i].stress
  {
    seq(|df|, i requires 0 <= i < |df| => df[i].stress)
  }

  function Engagements(df: seq<Row>): (s: seq<real>)
    ensures |s| == |df| && forall i :: 0 <= i < |df| ==> s[i] == df[i].engagement
  {
    seq(|df|, i requires 0 <= i < |df| => df[i].engagement)
  }

  /** `sum((x - m) ** 2 for x in s)`. */
  function SquaredDeviations(s: seq<real>, m: real): real {
    if s == [] then 0.0 else (s[0] - m) * (s[0] - m) + SquaredDeviations(s[1..], m)
  }

  lemma {:induction false} SquaredDeviationsNonNegative(s: seq<real>, m: real)
    ensures SquaredDeviations(s, m) >= 0.0
  {
    if s != [] {
      SquaredDeviationsNonNegative(s[1..], m);
      var x := s[0] - m;
      assert x * x >= 0.0 by {
        if x < 0.0 { assert x * x == (-x) * (-x); }
      }
    }
  }

  lemma {:induction false} SquaredDeviationsAtMean(s: seq<real>, m: real)
    requires forall i :: 0 <= i < |s| ==> s[i] == m
    ensures SquaredDeviations(s, m) == 0.0
  {
    if s != [] {
      SquaredDeviationsAtMean(s[1..], m);
    }
  }

  /** pandas' `Series.var()`: the sample variance, with `n - 1` in the denominator. */
  function SampleVariance(s: seq<real>): real
    requires |s| >= 2
  {
    SquaredDeviations(s, Mean(s)) / ((|s| - 1) as real)
  }

  /** `max(0, 1 - df['stress'].var())`. A one-row frame has a NaN variance, and Python's
      `max(0, nan)` returns its first argument, so that case gives 0. */
  function Stability(stress: seq<real>): real {
    if |stress| < 2 then 0.0 else Max(0.0, 1.0 - SampleVariance(stress))
  }

  /** The stability score always lies in [0, 1]. */
  lemma StabilityBounds(stress: seq<real>)
    ensures 0.0 <= Stability(stress) <= 1.0
  {
    if |stress| >= 2 {
      SquaredDeviationsNonNegative(stress, Mean(stress));
    }
  }

  /** A session of at least two rows whose stress never changes is perfectly stable. */
  lemma StabilityOfConstant(stress: seq<real>, v: real)
    requires |stress| >= 2
    requires forall i :: 0 <= i < |stress| ==> stress[i] == v
    ensures Stability(stress) == 1.0
  {
    MeanBounds(stress, v, v);
    SquaredDeviationsAtMean(stress, v);
  }

  /** A time-stamped score, as reported for the most stressed and most engaged moments. */
  datatype Moment = Moment(timestamp: real, score: real)

  datatype Analytics = Analytics(mostStressed: Moment, mostEngaged: Moment, stabilityScore: real,
                                 longestStressDuration: int, criticalMoments: seq<Moment>)

  /** `calculate_session_analytics`: `None` stands for the empty dict returned on an empty
      frame. `idxmax` picks the first row holding the maximum. */
  function CalculateAnalytics(df: seq<Row>): (r: Option<Analytics>)
    ensures r.None? <==> df == []
    ensures r.Some? ==> r.value.longestStressDuration == 5 && r.value.criticalMoments == []
    ensures r.Some? ==> 0.0 <= r.value.stabilityScore <= 1.0
  {
    if df == [] then None
    else
      var s := FirstMaxIndex(Stresses(df));
      var e := FirstMaxIndex(Engagements(df));
      StabilityBounds(Stresses(df));
      Some(Analytics(Moment(df[s].timestamp, df[s].stress), Moment(df[e].timestamp, df[e].engagement),
                     Stability(Stresses(df)), 5, []))
  }

  /** The reported moments are rows of the session: the first row of greatest stress and the
      first row of greatest engagement. */
  lemma AnalyticsMoments(df: seq<Row>)
    requires df != []
    ensures var a := CalculateAnalytics(df).value;
      && (exists k :: 0 <= k < |df| && a.mostStressed == Moment(df[k].timestamp, df[k].stress)
            && (forall j :: 0 <= j < |df| ==> df[j].stress <= df[k].stress)
            && (forall j :: 0 <= j < k ==> df[j].stress < df[k].stress))
      && (exists k :: 0 <= k < |df| && a.mostEngaged == Moment(df[k].timestamp, df[k].engagement)
            && (forall j :: 0 <= j < |df| ==> df[j].engagement <= df[k].engagement)
            && (forall j :: 0 <= j < k ==> df[j].engagement < df[k].engagement))
  {
    var s := FirstMaxIndex(Stresses(df));
    var e := FirstMaxIndex(Engagements(df));
    assert forall j :: 0 <= j < |df| ==> Stresses(df)[j] <= Stresses(df)[s];
    assert forall j :: 0 <= j < |df| ==> Engagements(df)[j] <= Engagements(df)[e];
  }

  // ---------------------------------------------------------------------------------------
  // Feedback and quality

  const NoDataMessage: string := "No session data available for feedback."
  const HighStressMessage: string := "High stress levels detected throughout the session."
  const LowStressMessage: string := "Overall stress levels remained low and manageable."
  const ModerateStressMessage: string := "Moderate stress levels observed during the session."
  const LowEngagementMessage: string := "Engagement levels were consistently low - consider taking breaks."
  const HighEngagementMessage: string := "Excellent engagement levels maintained throughout the session."

  /** The one stress message chosen by the mean stress. */
  function StressMessage(avgStress: real): (m: string)
    ensures m == HighStressMessage <==> avgStress > 0.7
    ensures m == LowStressMessage <==> avgStress < 0.3
    ensures m == ModerateStressMessage <==> 0.3 <= avgStress <= 0.7
  {
    if avgStress > 0.7 then HighStressMessage
    else if avgStress < 0.3 then LowStressMessage
    else ModerateStressMessage
  }

  /** The engagement message, present only for a mean below 0.4 or above 0.7. */
  function EngagementMessages(avgEngagement: real): (ms: seq<string>)
    ensures |ms| <= 1
    ensures ms == [] <==> 0.4 <= avgEngagement <= 0.7
    ensures ms == [LowEngagementMessage] <==> avgEngagement < 0.4
    ensures ms == [HighEngagementMessage] <==> avgEngagement > 0.7
  {
    if avgEngagement < 0.4 then [LowEngagementMessage]
    else if avgEngagement > 0.7 then [HighEngagementMessage]
    else []
  }

  /** `generate_session_feedback`: the no-data message for an empty session; otherwise the
      stress message followed by the engagement message when there is one. The analytics
      argument of the source is not read and is not a parameter here. */
  function SessionFeedback(df: seq<Row>): (r: seq<string>)
    ensures 1 <= |r| <= 2
    ensures df == [] ==> r == [NoDataMessage]
    ensures df != [] ==> r[0] == StressMessage(Mean(Stresses(df)))
    ensures df != [] ==> (|r| == 2 <==> Mean(Engagements(df)) < 0.4 || Mean(Engagements(df)) > 0.7)
  {
    if df == [] then [NoDataMessage]
    else [StressMessage(Mean(Stresses(df)))] + EngagementMessages(Mean(Engagements(df)))
  }

  /** `calculate_session_quality_score`. */
  function QualityScore(df: seq<Row>): (q: real)
    ensures 0.0 <= q <= 100.0
    ensures df == [] ==> q == 0.0
  {
    if df == [] then 0.0
    else
      var stressScore := Max(0.0, 100.0 - Mean(Stresses(df)) * 100.0);
      var engagementScore := Mean(Engagements(df)) * 100.0;
      Min(100.0, Max(0.0, stressScore * 0.6 + engagementScore * 0.4))
  }

  /** When every stress and engagement value lies in [0, 1] no clamp is active: the score is
      the 0.6 / 0.4 blend of the inverted mean stress and the mean engagement, on 0..100. */
  lemma QualityScoreBlend(df: seq<Row>)
    requires df != []
    requires forall i :: 0 <= i < |df| ==> 0.0 <= df[i].stress <= 1.0 && 0.0 <= df[i].engagement <= 1.0
    ensures QualityScore(df) == 60.0 * (1.0 - Mean(Stresses(df))) + 40.0 * Mean(Engagements(df))
  {
    MeanBounds(Stresses(df), 0.0, 1.0);
    MeanBounds(Engagements(df), 0.0, 1.0);
  }
}
