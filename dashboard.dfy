/** The decision logic of the dashboard widgets: the sustained-stress alert, the stress heat
    band, the session-quality grade and the early/late windows of the session comparison.
    The rendering around these decisions is not modelled. */
module Dashboard {
  import opened Common

  /** `STRESS_THRESHOLD` and `ALERT_DURATION` of the configuration, the arguments the live
      dashboard passes to the alert. */
  const StressThreshold: real := 0.7
  const AlertDuration: int := 5

  // ---------------------------------------------------------------------------------------
  // Sustained-stress alert

  /** `display_stress_alert(stress_history, threshold, duration)`: the last `duration`
      samples (Python's `stress_history[-duration:]`) must all be strictly above `threshold`. */
  function StressAlert(history: seq<real>, threshold: real, duration: int): bool {
    if |history| < duration then false
    else
      var recent := PyTail(history, duration);
      forall i :: 0 <= i < |recent| ==> recent[i] > threshold
  }

  /** For a positive duration: no alert on a short history, and otherwise an alert exactly
      when each of the last `duration` samples exceeds the threshold. */
  lemma StressAlertMeaning(history: seq<real>, threshold: real, duration: int)
    requires duration >= 1
    ensures |history| < duration ==> !StressAlert(history, threshold, duration)
    ensures |history| >= duration ==>
      (StressAlert(history, threshold, duration) <==>
        (forall i :: |history| - duration <= i < |history| ==> history[i] > threshold))
  {
    if |history| >= duration {
      var recent := PyTail(history, duration);
      assert recent == history[|history| - duration..];
      if StressAlert(history, threshold, duration) {
        forall i | |history| - duration <= i < |history| ensures history[i] > threshold {
          assert recent[i - (|history| - duration)] == history[i];
        }
      }
      if forall i :: |history| - duration <= i < |history| ==> history[i] > threshold {
        forall j | 0 <= j < |recent| ensures recent[j] > threshold {
          assert recent[j] == history[j + |history| - duration];
        }
      }
    }
  }

  /** A sample equal to the threshold does not count as above it: one such sample among the
      last `duration` suppresses the alert. */
  lemma StressAlertStrict(history: seq<real>, threshold: real, duration: int, k: int)
    requires duration >= 1 && |history| >= duration
    requires |history| - duration <= k < |history| && history[k] == threshold
    ensures !StressAlert(history, threshold, duration)
  {
    StressAlertMeaning(history, threshold, duration);
  }

  /** The live dashboard's call with `STRESS_THRESHOLD` and `ALERT_DURATION`: an alert exactly
      when at least five samples exist and the last five all exceed 0.7. */
  lemma DashboardAlert(history: seq<real>)
    ensures StressAlert(history, StressThreshold, AlertDuration) <==>
      |history| >= 5 && forall i :: |history| - 5 <= i < |history| ==> history[i] > 0.7
  {
    StressAlertMeaning(history, StressThreshold, AlertDuration);
  }

  /** Only the last `duration` samples matter: anything before them changes nothing. */
  lemma StressAlertIgnoresPrefix(prefix: seq<real>, history: seq<real>, threshold: real, duration: int)
    requires duration >= 1 && |history| >= duration
    ensures StressAlert(prefix + history, threshold, duration) == StressAlert(history, threshold, duration)
  {
    var whole := prefix + history;
    StressAlertMeaning(whole, threshold, duration);
    StressAlertMeaning(history, threshold, duration);
    assert forall i :: |history| - duration <= i < |history| ==> whole[|prefix| + i] == history[i];
    if StressAlert(history, threshold, duration) {
      forall j | |whole| - duration <= j < |whole| ensures whole[j] > threshold {
        assert whole[j] == history[j - |prefix|];
      }
    }
  }

  // ---------------------------------------------------------------------------------------
  // Bands and grades

  datatype HeatBand = Low | Moderate | High

  /** `display_stress_heat_indicator`: the band shown for a stress level. */
  function Heat(stress: real): (b: HeatBand)
    ensures b == Low <==> stress < 0.3
    ensures b == Moderate <==> 0.3 <= stress < 0.7
    ensures b == High <==> stress >= 0.7
  {
    if stress < 0.3 then Low else if stress < 0.7 then Moderate else High
  }

  function HeatRank(b: HeatBand): nat {
    match b
    case Low => 0
    case Moderate => 1
    case High => 2
  }

  /** A higher stress level never shows a cooler band. */
  lemma HeatMonotone(s: real, t: real)
    requires s <= t
    ensures HeatRank(Heat(s)) <= HeatRank(Heat(t))
  {
  }

  datatype Grade = Excellent | Good | NeedsImprovement

  /** The grade `display_session_feedback` attaches to a quality score. */
  function QualityGrade(quality: real): (g: Grade)
    ensures g == Excellent <==> quality >= 80.0
    ensures g == Good <==> 60.0 <= quality < 80.0
    ensures g == NeedsImprovement <==> quality < 60.0
  {
    if quality >= 80.0 then Excellent else if quality >= 60.0 then Good else NeedsImprovement
  }

  function GradeRank(g: Grade): nat {
    match g
    case NeedsImprovement => 0
    case Good => 1
    case Excellent => 2
  }

  /** A higher quality score never earns a lower grade. */
  lemma GradeMonotone(p: real, q: real)
    requires p <= q
    ensures GradeRank(QualityGrade(p)) <= GradeRank(QualityGrade(q))
  {
  }

  // ---------------------------------------------------------------------------------------
  // Early/late session comparison

  /** The rows shown in the two columns of `display_session_comparison`. */
  datatype Windows<T> = Windows(early: seq<T>, late: seq<T>)

  /** `max(1, n // 4)`. */
  function QuarterSize(n: nat): nat {
    if n / 4 > 1 then n / 4 else 1
  }

  /** `df.head(q)` and `df.tail(q)` for `q = max(1, len(df) // 4)`, or nothing when the
      session has fewer than ten rows. */
  function SessionWindows<T>(rows: seq<T>): (r: Option<Windows<T>>)
    ensures r.None? <==> |rows| < 10
    ensures r.Some? ==>
      var q := QuarterSize(|rows|);
      && 2 <= q && 2 * q <= |rows|
      && |r.value.early| == q == |r.value.late|
      && r.value.early == rows[..q]
      && r.value.late == rows[|rows| - q..]
  {
    if |rows| < 10 then None
    else
      var q := QuarterSize(|rows|);
      Some(Windows(rows[..q], rows[|rows| - q..]))
  }
}
