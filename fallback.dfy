/** The synthetic signal generator used when the camera, the classifier or the microphone
    is missing, or in simulation mode. A tick counter drives sine and cosine waves around a
    per-scenario baseline; a scenario timer re-draws the scenario every 21st face sample.
    `np.sin` and `np.cos` are parameters (no bound on them is needed by any property proved
    here), and every `random` draw and clock reading is an input. */
module FallbackGenerator {
  import opened Common
  import opened Emotions

  datatype Scenario = NormalScenario | HappyScenario | StressedScenario

  /** Weights are floored here before normalisation. */
  const Floor: real := 0.01
  /** The scenario timer counts up to this value; the next sample re-draws the scenario. */
  const ScenarioPeriod: nat := 20

  // ---------------------------------------------------------------------------------------
  // Face emotions

  /** `max(0.01, base + amp * wave)`. */
  function Floored(base: real, amp: real, wave: real): (w: real)
    ensures w >= Floor
    ensures base + amp * wave > Floor ==> w == base + amp * wave
  {
    Max(Floor, base + amp * wave)
  }

  /** The insertion order of the labels in each scenario's branch. */
  function Order(s: Scenario): seq<Label> {
    match s
    case HappyScenario => [Happy, Neutral, Surprise, Sad, Angry, Fear, Disgust]
    case StressedScenario => [Angry, Fear, Sad, Neutral, Happy, Surprise, Disgust]
    case NormalScenario => [Neutral, Happy, Sad, Surprise, Angry, Fear, Disgust]
  }

  /** Each scenario names the seven labels once each. */
  lemma OrderIsPermutation(s: Scenario)
    ensures |Order(s)| == 7
    ensures forall l: Label :: l in Order(s)
    ensures forall i, j :: 0 <= i < j < |Order(s)| ==> Order(s)[i] != Order(s)[j]
  {
    forall l: Label ensures l in Order(s) {
      LabelInOrder(l, s);
    }
  }

  lemma LabelInOrder(l: Label, s: Scenario)
    ensures l in Order(s)
  {
  }

  /** The floored weight of the `i`-th label of each scenario's branch, in its label order,
      at `timeMod = time_factor * 0.1`. */
  function Wave(s: Scenario, i: nat, timeMod: real, sin: real -> real, cos: real -> real): (w: real)
    requires i < 7
    ensures w >= Floor
  {
    match s
    case HappyScenario =>
      if i == 0 then Floored(0.4, 0.3, sin(timeMod))
      else if i == 1 then Floored(0.3, 0.1, cos(timeMod * 0.7))
      else if i == 2 then Floored(0.1, 0.1, sin(timeMod * 1.3))
      else if i == 3 then Floored(0.05, 0.05, sin(timeMod * 0.5))
      else if i == 4 then Floored(0.05, 0.05, cos(timeMod * 0.3))
      else if i == 5 then Floored(0.03, 0.02, sin(timeMod * 2.0))
      else Floored(0.02, 0.03, cos(timeMod * 1.7))
    case StressedScenario =>
      if i == 0 then Floored(0.3, 0.2, sin(timeMod * 1.2))
      else if i == 1 then Floored(0.2, 0.15, cos(timeMod * 0.8))
      else if i == 2 then Floored(0.15, 0.1, sin(timeMod * 0.6))
      else if i == 3 then Floored(0.2, 0.1, cos(timeMod))
      else if i == 4 then Floored(0.05, 0.05, sin(timeMod * 0.3))
      else if i == 5 then Floored(0.05, 0.05, cos(timeMod * 1.5))
      else Floored(0.05, 0.05, sin(timeMod * 2.1))
    case NormalScenario =>
      if i == 0 then Floored(0.4, 0.2, sin(timeMod * 0.5))
      else if i == 1 then Floored(0.25, 0.15, cos(timeMod * 0.7))
      else if i == 2 then Floored(0.1, 0.08, sin(timeMod * 0.3))
      else if i == 3 then Floored(0.08, 0.07, cos(timeMod * 1.1))
      else if i == 4 then Floored(0.07, 0.06, sin(timeMod * 0.9))
      else if i == 5 then Floored(0.05, 0.04, cos(timeMod * 1.3))
      else Floored(0.05, 0.04, sin(timeMod * 1.7))
  }

  /** The unnormalised `emotions` dict of `generate_face_emotions`: label `Order(s)[i]`
      gets weight `Wave(s, i, ...)`. */
  function RawWeights(s: Scenario, timeMod: real, sin: real -> real, cos: real -> real): (w: Dict)
    ensures |w| == 7 && Keys(w) == Order(s)
    ensures forall i :: 0 <= i < |w| ==> w[i].p >= Floor
  {
    var ks := Order(s);
    seq(7, i requires 0 <= i < 7 => Entry(ks[i], Wave(s, i, timeMod, sin, cos)))
  }

  /** The fixed map used when the weights add up to zero or less. */
  const ZeroTotalFallback: Dict :=
    [Entry(Neutral, 0.7), Entry(Happy, 0.1), Entry(Sad, 0.05), Entry(Angry, 0.05),
     Entry(Fear, 0.05), Entry(Surprise, 0.03), Entry(Disgust, 0.02)]

  /** Lines 53-61: divide by the total when it is positive, else the fixed map. */
  function Normalised(w: Dict): Dict {
    var total := Total(w);
    if total > 0.0 then DivideAll(w, total) else ZeroTotalFallback
  }

  /** The map `generate_face_emotions` returns after the tick counter reached `timeFactor`. */
  function FaceEmotions(s: Scenario, timeFactor: nat, sin: real -> real, cos: real -> real): Dict {
    Normalised(RawWeights(s, (timeFactor as real) * 0.1, sin, cos))
  }

  /** The floor makes the total at least 0.07, so the zero-total branch is never taken. */
  lemma RawWeightsTotal(s: Scenario, timeMod: real, sin: real -> real, cos: real -> real)
    ensures Total(RawWeights(s, timeMod, sin, cos)) >= 0.07
    ensures Normalised(RawWeights(s, timeMod, sin, cos))
         == DivideAll(RawWeights(s, timeMod, sin, cos), Total(RawWeights(s, timeMod, sin, cos)))
  {
    TotalAtLeast(RawWeights(s, timeMod, sin, cos), Floor);
  }

  /** Every face map of the generator holds the seven labels once each, all strictly
      positive, summing to one. */
  lemma FaceEmotionsDistribution(s: Scenario, timeFactor: nat, sin: real -> real, cos: real -> real)
    ensures var d := FaceEmotions(s, timeFactor, sin, cos);
      && |d| == 7 && Keys(d) == Order(s)
      && (forall i :: 0 <= i < |d| ==> d[i].p > 0.0)
      && IsDistribution(d)
  {
    var w := RawWeights(s, (timeFactor as real) * 0.1, sin, cos);
    RawWeightsTotal(s, (timeFactor as real) * 0.1, sin, cos);
    ShareOfTotal(w);
  }

  /** Dividing strictly positive weights by their total gives strictly positive shares
      that sum to one. */
  lemma ShareOfTotal(w: Dict)
    requires forall i :: 0 <= i < |w| ==> w[i].p > 0.0
    requires Total(w) > 0.0
    ensures var d := DivideAll(w, Total(w));
      && (forall i :: 0 <= i < |d| ==> d[i].p > 0.0)
      && IsDistribution(d)
  {
    var t := Total(w);
    var d := DivideAll(w, t);
    forall i | 0 <= i < |d| ensures d[i].p > 0.0 {
      PositiveQuotient(w[i].p, t);
    }
    TotalDivided(w, t);
    SelfQuotient(t);
  }

  lemma PositiveQuotient(a: real, t: real)
    requires a > 0.0 && t > 0.0
    ensures a / t > 0.0
  {
  }

  lemma SelfQuotient(t: real)
    requires t != 0.0
    ensures t / t == 1.0
  {
  }

  /** `{emotion: 1/len(EMOTIONS) for emotion in EMOTIONS}`, the initial face map. */
  function UniformEmotions(): (d: Dict)
    ensures Keys(d) == Labels && IsDistribution(d)
    ensures forall i :: 0 <= i < |d| ==> d[i].p == 1.0 / 7.0
  {
    var d := seq(|Labels|, i requires 0 <= i < |Labels| => Entry(Labels[i], 1.0 / 7.0));
    TotalConstant(d, 1.0 / 7.0);
    d
  }

  // ---------------------------------------------------------------------------------------
  // Audio stress

  /** The scenario's sinusoidal baseline at `timeMod = time_factor * 0.08`. */
  function BaseStress(s: Scenario, timeFactor: nat, sin: real -> real): real {
    var timeMod := (timeFactor as real) * 0.08;
    match s
    case StressedScenario => 0.7 + 0.2 * sin(timeMod * 1.5)
    case HappyScenario => 0.2 + 0.15 * sin(timeMod * 0.8)
    case NormalScenario => 0.4 + 0.2 * sin(timeMod)
  }

  /** `generate_audio_stress` for a given noise draw: the baseline plus the noise, clamped
      to [0, 1]; the noise shows through unchanged when the sum already lies in [0, 1]. */
  function AudioStress(s: Scenario, timeFactor: nat, sin: real -> real, noise: real): (r: real)
    ensures 0.0 <= r <= 1.0
    ensures 0.0 <= BaseStress(s, timeFactor, sin) + noise <= 1.0 ==> r == BaseStress(s, timeFactor, sin) + noise
  {
    Clamp(BaseStress(s, timeFactor, sin) + noise, 0.0, 1.0)
  }

  // ---------------------------------------------------------------------------------------
  // Scenario timer

  /** Lines 64-68 on the timer: count up, and go back to 0 once past 20. */
  function TimerStep(t: nat): (r: nat)
    ensures r <= ScenarioPeriod
    ensures r == 0 <==> t + 1 > ScenarioPeriod
  {
    if t + 1 > ScenarioPeriod then 0 else t + 1
  }

  /** The timer after `k` face samples from a fresh generator. */
  function TimerAfter(k: nat): nat {
    if k == 0 then 0 else TimerStep(TimerAfter(k - 1))
  }

  /** The timer counts face samples modulo 21, so the scenario is re-drawn on exactly the
      samples whose number (from 1) is a multiple of 21. */
  lemma {:induction false} TimerCycle(k: nat)
    ensures TimerAfter(k) == k % (ScenarioPeriod + 1)
    ensures k > 0 ==> (TimerAfter(k) == 0 <==> k % (ScenarioPeriod + 1) == 0)
  {
    if k > 0 {
      TimerCycle(k - 1);
      ModSuccessor(k);
    }
  }

  /** Counting modulo 21: the residue of `k` follows from that of `k - 1`. */
  lemma ModSuccessor(k: nat)
    requires k > 0
    ensures k % 21 == if (k - 1) % 21 == 20 then 0 else (k - 1) % 21 + 1
  {
    var q, r := (k - 1) / 21, (k - 1) % 21;
    assert k == 21 * q + r + 1;
    if r == 20 {
      assert k == 21 * (q + 1) + 0;
    } else {
      assert 0 <= r + 1 < 21;
    }
  }

  // ---------------------------------------------------------------------------------------
  // The generator object

  /** One element of `generate_realistic_session_data`'s list. */
  datatype DataPoint = DataPoint(timestamp: real, faceEmotions: Dict, audioStress: real)

  /** The face map of one sample, with the fact that it is a distribution. */
  method SampleFace(s: Scenario, timeFactor: nat, sin: real -> real, cos: real -> real) returns (d: Dict)
    ensures d == FaceEmotions(s, timeFactor, sin, cos) && IsDistribution(d)
  {
    d := FaceEmotions(s, timeFactor, sin, cos);
    FaceEmotionsDistribution(s, timeFactor, sin, cos);
  }

  /** The phase check at the top of each iteration: once `progress` reaches the current
      phase's share of `totalPoints` (truncated), move to the next phase cyclically and
      restart the progress count. */
  method PhaseSwitch(totalPoints: int, phase: nat, progress: int) returns (nextPhase: nat, nextProgress: int)
    requires phase < PhaseCount
    ensures nextPhase < PhaseCount && Advances(phase, nextPhase)
    ensures nextPhase != phase <==> progress >= Trunc((totalPoints as real) * Phases[phase].1)
    ensures nextProgress == (if nextPhase == phase then progress else 0)
  {
    nextPhase, nextProgress := phase, progress;
    var phaseDuration := Trunc((totalPoints as real) * Phases[phase].1);
    if progress >= phaseDuration {
      nextPhase := (phase + 1) % PhaseCount;
      nextProgress := 0;
    }
  }

  /** A sample as the generator promises it: a face distribution and an audio level in [0, 1]. */
  ghost predicate WellFormed(p: DataPoint) {
    IsDistribution(p.faceEmotions) && 0.0 <= p.audioStress <= 1.0
  }

  /** The phase table of `generate_realistic_session_data`: a scenario name and its share. */
  const Phases: seq<(string, real)> := [("normal", 0.3), ("stressed", 0.2), ("happy", 0.3), ("confused", 0.2)]
  const PhaseCount: nat := 4

  /** One sample to the next, the phase index stays or moves on cyclically. */
  predicate Advances(a: nat, b: nat) {
    b == a || b == (a + 1) % PhaseCount
  }

  /** A sequence of phase indices as the session loop produces them: each is a valid index,
      the first sample is in the first or second phase, and from one sample to the next the
      phase stays or moves on cyclically. */
  ghost predicate PhaseTrace(trace: seq<nat>) {
    && (forall k :: 0 <= k < |trace| ==> trace[k] < PhaseCount)
    && (|trace| > 0 ==> trace[0] <= 1)
    && (forall k :: 0 < k < |trace| ==> Advances(trace[k - 1], trace[k]))
  }

  /** Appending a step that advances from the last phase keeps a phase trace. */
  lemma PhaseTraceExtend(trace: seq<nat>, last: nat, next: nat)
    requires PhaseTrace(trace) && last < PhaseCount && next < PhaseCount && Advances(last, next)
    requires |trace| == 0 ==> last == 0
    requires |trace| > 0 ==> trace[|trace| - 1] == last
    ensures PhaseTrace(trace + [next])
  {
    var t := trace + [next];
    if |trace| == 0 {
      assert next == 0 || next == 1;
    }
    forall k | 0 < k < |t| ensures Advances(t[k - 1], t[k]) {
      if k == |trace| {
        assert t[k - 1] == last;
      } else {
        assert t[k - 1] == trace[k - 1] && t[k] == trace[k];
      }
    }
  }

  /** The two trends `simulate_scenario` sets for a scenario name; `draw` stands for the two
      `random.uniform(-0.3, 0.3)` draws of its default branch. */
  function ScenarioTrends(scenarioType: string, draw: (real, real)): (real, real) {
    if scenarioType == "stressed" then (-0.8, 0.8)
    else if scenarioType == "happy" then (0.8, -0.5)
    else if scenarioType == "confused" then (0.0, 0.3)
    else draw
  }

  /** Entering a phase of the demo session: the "normal" phase falls through to the random
      default branch, the other three get their fixed trends. */
  lemma PhaseTrends(draw: (real, real))
    ensures ScenarioTrends(Phases[0].0, draw) == draw
    ensures ScenarioTrends(Phases[1].0, draw) == (-0.8, 0.8)
    ensures ScenarioTrends(Phases[2].0, draw) == (0.8, -0.5)
    ensures ScenarioTrends(Phases[3].0, draw) == (0.0, 0.3)
  {
  }

  /** A session of at least one minute gives the first phase at least 18 samples, so the
      first sample stays in the first phase. */
  lemma FirstPhaseLong(durationMinutes: int, totalPoints: int, phase: nat, progress: int)
    requires totalPoints == durationMinutes * 60 > 0
    requires phase == 0 && progress == 0
    ensures Trunc((totalPoints as real) * Phases[phase].1) >= 18 > progress
  {
    assert durationMinutes >= 1;
    assert (totalPoints as real) * 0.3 >= 18.0;
  }

  class FallbackEmotionGenerator {
    var lastFaceEmotions: Dict
    var lastAudioStress: real
    var emotionTrend: real
    var stressTrend: real
    var timeFactor: nat
    var scenarioTimer: nat
    var currentScenario: Scenario

    /** The timer counts the face samples modulo 21 (so it stays in [0, 20]), the last face
        map is a distribution and the last audio stress lies in [0, 1]. */
    ghost predicate Valid()
      reads this
    {
      && scenarioTimer == timeFactor % (ScenarioPeriod + 1)
      && scenarioTimer <= ScenarioPeriod
      && IsDistribution(lastFaceEmotions)
      && 0.0 <= lastAudioStress <= 1.0
    }

    constructor ()
      ensures Valid()
      ensures lastFaceEmotions == UniformEmotions() && lastAudioStress == 0.5
      ensures emotionTrend == 0.0 && stressTrend == 0.0
      ensures timeFactor == 0 && scenarioTimer == 0 && currentScenario == NormalScenario
    {
      lastFaceEmotions := UniformEmotions();
      lastAudioStress := 0.5;
      emotionTrend := 0.0;
      stressTrend := 0.0;
      timeFactor := 0;
      scenarioTimer := 0;
      currentScenario := NormalScenario;
    }

    /** `generate_face_emotions`; `draw` is the value `random.choice` would return. The map
        is computed with the scenario in force BEFORE the timer may re-draw it. */
    method GenerateFaceEmotions(sin: real -> real, cos: real -> real, draw: Scenario) returns (emotions: Dict)
      requires Valid()
      modifies this`timeFactor, this`scenarioTimer, this`currentScenario, this`lastFaceEmotions
      ensures Valid()
      ensures timeFactor == old(timeFactor) + 1
      ensures emotions == FaceEmotions(old(currentScenario), timeFactor, sin, cos)
      ensures scenarioTimer == TimerStep(old(scenarioTimer))
      ensures currentScenario == if old(scenarioTimer) + 1 > ScenarioPeriod then draw else old(currentScenario)
      ensures lastFaceEmotions == emotions
    {
      timeFactor := timeFactor + 1;
      emotions := SampleFace(currentScenario, timeFactor, sin, cos);
      AdvanceTimer(draw);
      lastFaceEmotions := emotions;
    }

    /** The scenario timer of `generate_face_emotions`: count the sample, and once past 20
        switch to the drawn scenario and restart the count. Called once the tick counter has
        moved on, it brings the timer back to the tick count modulo 21. */
    method AdvanceTimer(draw: Scenario)
      requires timeFactor > 0 && scenarioTimer == (timeFactor - 1) % (ScenarioPeriod + 1)
      modifies this`scenarioTimer, this`currentScenario
      ensures scenarioTimer == TimerStep(old(scenarioTimer)) == timeFactor % (ScenarioPeriod + 1)
      ensures currentScenario == if old(scenarioTimer) + 1 > ScenarioPeriod then draw else old(currentScenario)
    {
      ModSuccessor(timeFactor);
      scenarioTimer := scenarioTimer + 1;
      if scenarioTimer > ScenarioPeriod {
        currentScenario := draw;
        scenarioTimer := 0;
      }
    }

    /** `generate_audio_stress`; `noise` is the value `random.uniform(-0.1, 0.1)` would
        return. Neither the tick counter nor the scenario changes. */
    method GenerateAudioStress(sin: real -> real, noise: real) returns (stress: real)
      requires Valid()
      modifies this`lastAudioStress
      ensures Valid()
      ensures stress == AudioStress(currentScenario, timeFactor, sin, noise)
      ensures lastAudioStress == stress
    {
      var timeMod := (timeFactor as real) * 0.08;
      var baseStress: real;
      if currentScenario == StressedScenario {
        baseStress := 0.7 + 0.2 * sin(timeMod * 1.5);
      } else if currentScenario == HappyScenario {
        baseStress := 0.2 + 0.15 * sin(timeMod * 0.8);
      } else {
        baseStress := 0.4 + 0.2 * sin(timeMod);
      }
      stress := baseStress + noise;
      stress := Max(0.0, Min(1.0, stress));
      lastAudioStress := stress;
    }

    /** `simulate_scenario`: only the two trend fields change; `u1` and `u2` are the two
        `random.uniform(-0.3, 0.3)` draws of the default branch. */
    method SimulateScenario(scenarioType: string, u1: real, u2: real)
      requires Valid()
      modifies this`emotionTrend, this`stressTrend
      ensures Valid()
      ensures (emotionTrend, stressTrend) == ScenarioTrends(scenarioType, (u1, u2))
      ensures scenarioType == "stressed" ==> emotionTrend == -0.8 && stressTrend == 0.8
      ensures scenarioType == "happy" ==> emotionTrend == 0.8 && stressTrend == -0.5
      ensures scenarioType == "confused" ==> emotionTrend == 0.0 && stressTrend == 0.3
      ensures scenarioType !in {"stressed", "happy", "confused"} ==> emotionTrend == u1 && stressTrend == u2
    {
      if scenarioType == "stressed" {
        emotionTrend, stressTrend := -0.8, 0.8;
      } else if scenarioType == "happy" {
        emotionTrend, stressTrend := 0.8, -0.5;
      } else if scenarioType == "confused" {
        emotionTrend, stressTrend := 0.0, 0.3;
      } else {
        emotionTrend, stressTrend := u1, u2;
      }
    }

    /** The trends of the phase entered: `simulate_scenario` on the phase's name. */
    method EnterPhase(phase: nat, trendDraw: (real, real))
      requires Valid() && phase < PhaseCount
      modifies this`emotionTrend, this`stressTrend
      ensures Valid()
      ensures (emotionTrend, stressTrend) == ScenarioTrends(Phases[phase].0, trendDraw)
    {
      SimulateScenario(Phases[phase].0, trendDraw.0, trendDraw.1);
    }

    /** One iteration of `generate_realistic_session_data`'s loop: move to the next phase
        when the current one has used up its share of the `totalPoints` samples (running the
        trends of the phase entered, `trendDraw` standing for the draws of
        `simulate_scenario`'s default branch), then build one point from a face sample and
        an audio sample stamped with the clock reading `now`. */
    method SessionStep(totalPoints: int, phase: nat, progress: int, now: real,
                       sin: real -> real, cos: real -> real, draw: Scenario, noise: real,
                       trendDraw: (real, real))
      returns (point: DataPoint, nextPhase: nat, nextProgress: int)
      requires Valid() && phase < PhaseCount
      modifies this
      ensures Valid()
      ensures timeFactor == old(timeFactor) + 1
      ensures WellFormed(point) && point.timestamp == now
      ensures point.faceEmotions == FaceEmotions(old(currentScenario), timeFactor, sin, cos)
      ensures scenarioTimer == TimerStep(old(scenarioTimer))
      ensures currentScenario == if old(scenarioTimer) + 1 > ScenarioPeriod then draw else old(currentScenario)
      ensures point.audioStress == AudioStress(currentScenario, timeFactor, sin, noise)
      ensures lastFaceEmotions == point.faceEmotions && lastAudioStress == point.audioStress
      ensures nextPhase < PhaseCount && Advances(phase, nextPhase)
      ensures (emotionTrend, stressTrend) ==
        if nextPhase != phase then ScenarioTrends(Phases[nextPhase].0, trendDraw)
        else (old(emotionTrend), old(stressTrend))
      ensures nextPhase != phase <==> progress >= Trunc((totalPoints as real) * Phases[phase].1)
      ensures nextProgress == (if nextPhase == phase then progress + 1 else 1)
    {
      nextPhase, nextProgress := PhaseSwitch(totalPoints, phase, progress);
      if nextPhase != phase {
        EnterPhase(nextPhase, trendDraw);
      }
      point := NextPoint(now, sin, cos, draw, noise);
      nextProgress := nextProgress + 1;
    }

    /** The face sample and the audio sample of one point, stamped with `now`. */
    method NextPoint(now: real, sin: real -> real, cos: real -> real, draw: Scenario, noise: real)
      returns (point: DataPoint)
      requires Valid()
      modifies this`timeFactor, this`scenarioTimer, this`currentScenario, this`lastFaceEmotions,
               this`lastAudioStress
      ensures Valid()
      ensures timeFactor == old(timeFactor) + 1
      ensures WellFormed(point) && point.timestamp == now
      ensures point.faceEmotions == FaceEmotions(old(currentScenario), timeFactor, sin, cos)
      ensures scenarioTimer == TimerStep(old(scenarioTimer))
      ensures currentScenario == if old(scenarioTimer) + 1 > ScenarioPeriod then draw else old(currentScenario)
      ensures point.audioStress == AudioStress(currentScenario, timeFactor, sin, noise)
      ensures lastFaceEmotions == point.faceEmotions && lastAudioStress == point.audioStress
    {
      var face := GenerateFaceEmotions(sin, cos, draw);
      var audio := GenerateAudioStress(sin, noise);
      point := DataPoint(now, face, audio);
    }

    /** `generate_realistic_session_data`: one point per second for `durationMinutes`
        minutes, cycling through the four phases. Sample `i` uses the clock reading
        `clock(i)`, the scenario draw `draws(i)`, the audio noise `noises(i)` and the trend
        draws `trendDraws(i)`. The ghost `phaseTrace` records the phase index of each sample. */
    method GenerateRealisticSessionData(durationMinutes: int, sin: real -> real, cos: real -> real,
                                        clock: nat -> real, draws: nat -> Scenario, noises: nat -> real,
                                        trendDraws: nat -> (real, real))
      returns (points: seq<DataPoint>, ghost phaseTrace: seq<nat>)
      requires Valid()
      modifies this
      ensures Valid()
      ensures |points| == (if durationMinutes * 60 > 0 then durationMinutes * 60 else 0)
      ensures timeFactor == old(timeFactor) + |points|
      ensures forall k :: 0 <= k < |points| ==> WellFormed(points[k]) && points[k].timestamp == clock(k)
      ensures |phaseTrace| == |points| && PhaseTrace(phaseTrace)
      ensures |points| > 0 ==> phaseTrace[0] == 0
    {
      var totalPoints := durationMinutes * 60;
      var n: nat := if totalPoints > 0 then totalPoints else 0;
      points := [];
      phaseTrace := [];
      var currentPhase: nat := 0;
      var phaseProgress := 0;
      var i := 0;
      while i < n
        invariant 0 <= i <= n
        invariant Valid()
        invariant |points| == i && |phaseTrace| == i
        invariant timeFactor == old(timeFactor) + i
        invariant forall k :: 0 <= k < i ==> WellFormed(points[k]) && points[k].timestamp == clock(k)
        invariant currentPhase < PhaseCount
        invariant PhaseTrace(phaseTrace)
        invariant i == 0 ==> currentPhase == 0 && phaseProgress == 0
        invariant i > 0 ==> phaseTrace[i - 1] == currentPhase
        invariant i > 0 ==> phaseTrace[0] == 0
      {
        var point;
        ghost var previous := currentPhase;
        if i == 0 {
          FirstPhaseLong(durationMinutes, totalPoints, currentPhase, phaseProgress);
        }
        point, currentPhase, phaseProgress :=
          SessionStep(totalPoints, currentPhase, phaseProgress, clock(i), sin, cos, draws(i), noises(i), trendDraws(i));
        assert i == 0 ==> currentPhase == 0;
        PhaseTraceExtend(phaseTrace, previous, currentPhase);
        ghost var first := if i == 0 then currentPhase else phaseTrace[0];
        ghost var before := points;
        points := points + [point];
        forall k | 0 <= k <= i ensures WellFormed(points[k]) && points[k].timestamp == clock(k) {
          if k < i {
            assert points[k] == before[k];
          }
        }
        phaseTrace := phaseTrace + [currentPhase];
        assert phaseTrace[0] == first;
        i := i + 1;
      }
    }
  }
}
