/** One refresh of the live dashboard: where the face map and the audio stress come from,
    and the automatic screenshot triggers that run on the fused metrics outside simulation
    mode. Each refresh is one tick; the clock reading `now` is an input. The fusion engine is
    not part of this model: its output is the `Metrics` value handed to a tick. */
module LiveDashboard {
  import opened Common
  import opened Emotions
  import FaceEmotion
  import FallbackGenerator

  // ---------------------------------------------------------------------------------------
  // Trigger constants (hard-coded in the trigger block)

  const StressLevel: real := 0.85
  const StressTicks: nat := 3
  const HappyConfidence: real := 0.75
  const DistractionLevel: real := 0.10
  const DistractionTicks: nat := 5
  const Cooldown: real := 10.0

  /** The keys of `last_screenshot_time`: 'STRESS', 'HAPPY' and 'DISTRACTION'. */
  datatype Trigger = StressTrigger | HappyTrigger | DistractionTrigger

  /** The `event_type` written into a screenshot record. */
  datatype EventType = StressEvent | HappyEvent | DistractionEvent | AutoEvent

  /** The fused metrics the trigger block reads: `stress` is indexed directly, `engagement`
      and `confidence` are read with `.get` and may be missing. */
  datatype Metrics = Metrics(stress: real, engagement: Option<real>, confidence: Option<real>)

  /** `fused_metrics.get('engagement', 1)`. */
  function Engagement(m: Metrics): real {
    m.engagement.GetOr(1.0)
  }

  /** `fused_metrics.get('confidence', 0)`. */
  function Confidence(m: Metrics): real {
    m.confidence.GetOr(0.0)
  }

  /** `last_screenshot_time.get(kind, 0)`. */
  function LastShot(last: map<Trigger, real>, kind: Trigger): real {
    if kind in last then last[kind] else 0.0
  }

  /** The ten-second cooldown of a trigger has elapsed at `now`. */
  predicate CooledDown(last: map<Trigger, real>, kind: Trigger, now: real) {
    now - LastShot(last, kind) >= Cooldown
  }

  /** The HAPPY condition: the face map is non-empty, its first maximum is 'happy', and the
      confidence (0 when missing) is at least 0.75. */
  predicate HappyCondition(face: Dict, m: Metrics) {
    |face| > 0 && Dominant(face) == Happy && Confidence(m) >= HappyConfidence
  }

  predicate Distracted(m: Metrics) {
    Engagement(m) <= DistractionLevel
  }

  // ---------------------------------------------------------------------------------------
  // One tick of the trigger block, as a function of the previous state

  /** The `st.session_state` entries the trigger block keeps between ticks. */
  datatype TriggerState = TriggerState(stressCounter: nat, distractionCounter: nat, last: map<Trigger, real>)

  /** The state before the first tick: counters 0 and no last-fire times. */
  const InitialState: TriggerState := TriggerState(0, 0, map[])

  /** The state after a tick, and which triggers fired during it. */
  datatype Tick = Tick(state: TriggerState, stressFired: bool, happyFired: bool, distractionFired: bool)

  /** `screenshot_taken`. */
  predicate Taken(t: Tick) {
    t.stressFired || t.happyFired || t.distractionFired
  }

  /** The outcome of one trigger check: the state it leaves and whether it fired. */
  datatype Check = Check(state: TriggerState, fired: bool)

  /** The STRESS check: count a tick at the stress level (reset otherwise); fire on the third
      counted tick once the cooldown has elapsed, recording `now` and resetting the count. */
  function StressCheck(s: TriggerState, m: Metrics, now: real): Check {
    if m.stress >= StressLevel then
      var count := s.stressCounter + 1;
      if count >= StressTicks && CooledDown(s.last, StressTrigger, now) then
        Check(s.(stressCounter := 0, last := s.last[StressTrigger := now]), true)
      else Check(s.(stressCounter := count), false)
    else Check(s.(stressCounter := 0), false)
  }

  /** The HAPPY check: no counter, only the condition and the cooldown. */
  function HappyCheck(s: TriggerState, m: Metrics, face: Dict, now: real): Check {
    if HappyCondition(face, m) && CooledDown(s.last, HappyTrigger, now) then
      Check(s.(last := s.last[HappyTrigger := now]), true)
    else Check(s, false)
  }

  /** The DISTRACTION check: as STRESS, on engagement at most 0.10 and five ticks. */
  function DistractionCheck(s: TriggerState, m: Metrics, now: real): Check {
    if Distracted(m) then
      var count := s.distractionCounter + 1;
      if count >= DistractionTicks && CooledDown(s.last, DistractionTrigger, now) then
        Check(s.(distractionCounter := 0, last := s.last[DistractionTrigger := now]), true)
      else Check(s.(distractionCounter := count), false)
    else Check(s.(distractionCounter := 0), false)
  }

  /** The three trigger checks in order: STRESS, then HAPPY, then DISTRACTION, each reading
      the state the previous check left. */
  function Step(s: TriggerState, m: Metrics, face: Dict, now: real): Tick {
    var c1 := StressCheck(s, m, now);
    var c2 := HappyCheck(c1.state, m, face, now);
    var c3 := DistractionCheck(c2.state, m, now);
    Tick(c3.state, c1.fired, c2.fired, c3.fired)
  }

  /** The label chosen for the capture, read from the state AFTER the tick: STRESS when the
      stress counter is 0 with stress at the level, else HAPPY when the happy condition
      holds, else DISTRACTION when the distraction counter is 0 while distracted, else AUTO. */
  function EventLabel(t: Tick, m: Metrics, face: Dict): EventType {
    if t.state.stressCounter == 0 && m.stress >= StressLevel then StressEvent
    else if HappyCondition(face, m) then HappyEvent
    else if t.state.distractionCounter == 0 && Distracted(m) then DistractionEvent
    else AutoEvent
  }

  /** The score stored with a capture of each type. */
  function Score(e: EventType, m: Metrics): real {
    match e
    case StressEvent => m.stress
    case HappyEvent => Confidence(m)
    case DistractionEvent => Engagement(m)
    case AutoEvent => m.stress
  }

  /** The firing time recorded for `kind` after a tick. */
  function Fired(t: Tick, kind: Trigger): bool {
    match kind
    case StressTrigger => t.stressFired
    case HappyTrigger => t.happyFired
    case DistractionTrigger => t.distractionFired
  }

  // ---------------------------------------------------------------------------------------
  // Properties of a tick

  /** The stress counter counts consecutive ticks at the stress level: it resets on a tick
      below the level and on a firing, and otherwise grows by one. STRESS fires exactly when
      the counter reaches three and ten seconds have passed since its last firing (0 when it
      never fired). */
  lemma StressRule(s: TriggerState, m: Metrics, face: Dict, now: real)
    ensures var t := Step(s, m, face, now);
      && (t.stressFired <==>
            m.stress >= StressLevel && s.stressCounter + 1 >= StressTicks
            && now - LastShot(s.last, StressTrigger) >= Cooldown)
      && t.state.stressCounter == (if m.stress < StressLevel || t.stressFired then 0 else s.stressCounter + 1)
  {
  }

  /** While the cooldown blocks, the stress counter keeps growing past three. */
  lemma StressCooldownKeepsCounting(s: TriggerState, m: Metrics, face: Dict, now: real)
    requires m.stress >= StressLevel && s.stressCounter + 1 >= StressTicks
    requires now - LastShot(s.last, StressTrigger) < Cooldown
    ensures var t := Step(s, m, face, now);
      !t.stressFired && t.state.stressCounter == s.stressCounter + 1 >= StressTicks
  {
  }

  /** The distraction counter follows the same rule with engagement at most 0.10 (a missing
      engagement counts as 1), five ticks and its own cooldown. */
  lemma DistractionRule(s: TriggerState, m: Metrics, face: Dict, now: real)
    ensures var t := Step(s, m, face, now);
      && (t.distractionFired <==>
            Engagement(m) <= DistractionLevel && s.distractionCounter + 1 >= DistractionTicks
            && now - LastShot(s.last, DistractionTrigger) >= Cooldown)
      && t.state.distractionCounter ==
           (if Engagement(m) > DistractionLevel || t.distractionFired then 0 else s.distractionCounter + 1)
  {
    LastShotOther(s.last, StressTrigger, now, DistractionTrigger);
    LastShotOther(s.last, HappyTrigger, now, DistractionTrigger);
    LastShotOther(s.last[StressTrigger := now], HappyTrigger, now, DistractionTrigger);
  }

  /** HAPPY has no counter: it fires exactly when the happy condition holds and its own
      cooldown has elapsed. */
  lemma HappyRule(s: TriggerState, m: Metrics, face: Dict, now: real)
    ensures var t := Step(s, m, face, now);
      t.happyFired <==>
        (&& |face| > 0 && Dominant(face) == Happy && Confidence(m) >= HappyConfidence
         && now - LastShot(s.last, HappyTrigger) >= Cooldown)
  {
    LastShotOther(s.last, StressTrigger, now, HappyTrigger);
  }

  /** Setting one trigger's time leaves the others' times as they were. */
  lemma LastShotOther(last: map<Trigger, real>, kind: Trigger, now: real, other: Trigger)
    requires other != kind
    ensures LastShot(last[kind := now], other) == LastShot(last, other)
  {
  }

  /** A trigger's last-fire time becomes `now` when it fires and is otherwise left alone:
      one trigger firing never moves another trigger's time. */
  lemma LastShotUpdate(s: TriggerState, m: Metrics, face: Dict, now: real, kind: Trigger)
    ensures var t := Step(s, m, face, now);
      && LastShot(t.state.last, kind) == (if Fired(t, kind) then now else LastShot(s.last, kind))
      && (kind in t.state.last <==> kind in s.last || Fired(t, kind))
  {
  }

  /** The two counters are independent: each depends only on its own previous value, its own
      signal and its own trigger. */
  lemma CountersIndependent(s1: TriggerState, s2: TriggerState, m: Metrics, face: Dict, now: real)
    requires s1.stressCounter == s2.stressCounter
    requires s1.last == s2.last
    ensures Step(s1, m, face, now).state.stressCounter == Step(s2, m, face, now).state.stressCounter
    ensures Step(s1, m, face, now).stressFired == Step(s2, m, face, now).stressFired
    ensures Step(s1, m, face, now).happyFired == Step(s2, m, face, now).happyFired
  {
  }

  /** The STRESS label is given exactly when STRESS fired on this tick. */
  lemma StressLabelIffFired(s: TriggerState, m: Metrics, face: Dict, now: real)
    ensures var t := Step(s, m, face, now);
      EventLabel(t, m, face) == StressEvent <==> t.stressFired
  {
  }

  /** When a capture is taken its label is never AUTO, and it is one of the types that
      fired, except that a DISTRACTION-only firing is labelled HAPPY whenever the happy
      condition holds. */
  lemma LabelOfCapture(s: TriggerState, m: Metrics, face: Dict, now: real)
    ensures var t := Step(s, m, face, now);
      Taken(t) ==>
        && EventLabel(t, m, face) != AutoEvent
        && (t.stressFired ==> EventLabel(t, m, face) == StressEvent)
        && (!t.stressFired && t.happyFired ==> EventLabel(t, m, face) == HappyEvent)
        && (!t.stressFired && !t.happyFired && t.distractionFired ==>
              EventLabel(t, m, face) == (if HappyCondition(face, m) then HappyEvent else DistractionEvent))
  {
    StressLabelIffFired(s, m, face, now);
  }

  /** A reachable instance of the mislabelling: the fifth distracted tick fires DISTRACTION
      while HAPPY, whose condition holds, is still cooling down, and the capture is labelled
      HAPPY. */
  lemma DistractionLabelledHappy()
    ensures var face := [Entry(Happy, 0.9), Entry(Neutral, 0.1)];
      var m := Metrics(0.2, Some(0.05), Some(0.8));
      var t := Step(TriggerState(0, 4, map[HappyTrigger := 95.0]), m, face, 100.0);
      && t.distractionFired && !t.happyFired && !t.stressFired
      && EventLabel(t, m, face) == HappyEvent
  {
    var face := [Entry(Happy, 0.9), Entry(Neutral, 0.1)];
    assert Dominant(face) == Happy by {
      assert FirstMaxIndex(Values(face)) == 0;
    }
  }

  /** Three consecutive ticks at stress 0.9 from a fresh session, one second apart, fire
      STRESS once, on the third tick, and leave the counter at 0, whatever the face map. */
  lemma ThreeStressedTicks(face: Dict)
    ensures var m := Metrics(0.9, None, None);
      var t1 := Step(InitialState, m, face, 100.0);
      var t2 := Step(t1.state, m, face, 101.0);
      var t3 := Step(t2.state, m, face, 102.0);
      && !t1.stressFired && !t2.stressFired && t3.stressFired
      && t3.state.stressCounter == 0 && LastShot(t3.state.last, StressTrigger) == 102.0
  {
    var m := Metrics(0.9, None, None);
    var t1 := Step(InitialState, m, face, 100.0);
    assert t1.state.stressCounter == 1 && t1.state.last == map[];
    var t2 := Step(t1.state, m, face, 101.0);
    assert t2.state.stressCounter == 2 && t2.state.last == map[];
  }

  // ---------------------------------------------------------------------------------------
  // The session state, updated in place

  /** One entry of `session_logger.screenshots`; the file path is not modelled. */
  datatype Screenshot = Screenshot(time: real, eventType: EventType, score: real)

  class DashboardSession {
    var stressCounter: nat
    var distractionCounter: nat
    var lastScreenshotTime: map<Trigger, real>
    var screenshots: seq<Screenshot>

    /** The trigger part of the state, as the tick function sees it. */
    function State(): TriggerState
      reads this
    {
      TriggerState(stressCounter, distractionCounter, lastScreenshotTime)
    }

    /** A session whose trigger entries are first created (counters 0, empty time map). */
    constructor ()
      ensures State() == InitialState && screenshots == []
    {
      stressCounter := 0;
      distractionCounter := 0;
      lastScreenshotTime := map[];
      screenshots := [];
    }

    /** The STRESS check of the trigger block. */
    method CheckStress(m: Metrics, now: real) returns (fired: bool)
      modifies this`stressCounter, this`lastScreenshotTime
      ensures Check(State(), fired) == StressCheck(old(State()), m, now)
    {
      fired := false;
      if m.stress >= StressLevel {
        stressCounter := stressCounter + 1;
        if stressCounter >= StressTicks {
          var lastStressShot := LastShot(lastScreenshotTime, StressTrigger);
          if now - lastStressShot >= Cooldown {
            fired := true;
            lastScreenshotTime := lastScreenshotTime[StressTrigger := now];
            stressCounter := 0;
          }
        }
      } else {
        stressCounter := 0;
      }
    }

    /** The HAPPY check of the trigger block. */
    method CheckHappy(m: Metrics, face: Dict, now: real) returns (fired: bool)
      modifies this`lastScreenshotTime
      ensures Check(State(), fired) == HappyCheck(old(State()), m, face, now)
    {
      fired := false;
      if |face| > 0 && Dominant(face) == Happy && Confidence(m) >= HappyConfidence {
        var lastHappyShot := LastShot(lastScreenshotTime, HappyTrigger);
        if now - lastHappyShot >= Cooldown {
          fired := true;
          lastScreenshotTime := lastScreenshotTime[HappyTrigger := now];
        }
      }
    }

    /** The DISTRACTION check of the trigger block. */
    method CheckDistraction(m: Metrics, now: real) returns (fired: bool)
      modifies this`distractionCounter, this`lastScreenshotTime
      ensures Check(State(), fired) == DistractionCheck(old(State()), m, now)
    {
      fired := false;
      if Engagement(m) <= DistractionLevel {
        distractionCounter := distractionCounter + 1;
        if distractionCounter >= DistractionTicks {
          var lastDistractionShot := LastShot(lastScreenshotTime, DistractionTrigger);
          if now - lastDistractionShot >= Cooldown {
            fired := true;
            lastScreenshotTime := lastScreenshotTime[DistractionTrigger := now];
            distractionCounter := 0;
          }
        }
      } else {
        distractionCounter := 0;
      }
    }

    /** The labelling chain run once a capture is taken, on the counters as the checks left
        them, with the score stored beside the label. */
    method ChooseEvent(m: Metrics, face: Dict) returns (eventType: EventType, score: real)
      ensures eventType == EventLabel(Tick(State(), false, false, false), m, face)
      ensures score == Score(eventType, m)
    {
      if stressCounter == 0 && m.stress >= StressLevel {
        eventType, score := StressEvent, m.stress;
      } else if |face| > 0 && Dominant(face) == Happy && Confidence(m) >= HappyConfidence {
        eventType, score := HappyEvent, Confidence(m);
      } else if distractionCounter == 0 && Engagement(m) <= DistractionLevel {
        eventType, score := DistractionEvent, Engagement(m);
      } else {
        eventType, score := AutoEvent, m.stress;
      }
    }

    /** The trigger block of `live_dashboard`. It runs only outside simulation mode and only
        when `pyautogui` can be imported; `saved` says whether writing the image succeeds. An
        error while saving is caught after the counters and times have been updated, so only
        the log entry is lost. */
    method CheckTriggers(simulationMode: bool, pyautoguiAvailable: bool, m: Metrics, face: Dict,
                         now: real, saved: bool)
      returns (taken: bool)
      modifies this
      ensures simulationMode || !pyautoguiAvailable ==>
        !taken && State() == old(State()) && screenshots == old(screenshots)
      ensures !simulationMode && pyautoguiAvailable ==>
        var t := Step(old(State()), m, face, now);
        var event := EventLabel(t, m, face);
        && taken == Taken(t)
        && State() == t.state
        && screenshots == old(screenshots) +
             (if taken && saved then [Screenshot(now, event, Score(event, m))] else [])
    {
      taken := false;
      if simulationMode || !pyautoguiAvailable {
        return;
      }
      var stressFired := CheckStress(m, now);
      var happyFired := CheckHappy(m, face, now);
      var distractionFired := CheckDistraction(m, now);
      taken := stressFired || happyFired || distractionFired;
      if taken {
        var eventType, score := ChooseEvent(m, face);
        if saved {
          screenshots := screenshots + [Screenshot(now, eventType, score)];
        }
      }
    }
  }

  // ---------------------------------------------------------------------------------------
  // Where the signals come from

  /** Which component produced the face map of a refresh. */
  datatype FaceSource = DetectorSource | GeneratorSource

  /** Simulation mode always uses the generator; live mode uses the detector when the camera
      gave a frame and the detector is available, and the generator otherwise. */
  function SourceOf(simulationMode: bool, hasFrame: bool, detectorAvailable: bool): (src: FaceSource)
    ensures src == DetectorSource <==> !simulationMode && hasFrame && detectorAvailable
  {
    if simulationMode then GeneratorSource
    else if hasFrame && detectorAvailable then DetectorSource
    else GeneratorSource
  }

  /** The first half of `live_dashboard`: the face map and the audio stress of one refresh.
      `frame` is what the camera returned, `analyzedStress` what the audio analyser made of
      the microphone chunk; `draw` and `noise` are the generator's random draws. In live mode
      the detector's result always carries 'probs', so its other branch is never taken. */
  method SelectSignals(simulationMode: bool, frame: Option<FaceEmotion.Frame>,
                       detector: FaceEmotion.FaceEmotionDetector,
                       generator: FallbackGenerator.FallbackEmotionGenerator,
                       sin: real -> real, cos: real -> real, draw: FallbackGenerator.Scenario,
                       noise: real, analyzedStress: real)
    returns (face: Dict, audioStress: real, src: FaceSource)
    requires detector.Valid() && generator.Valid()
    requires frame.Some? ==> frame.value.width >= 0 && frame.value.height >= 0
    modifies detector, generator
    ensures detector.Valid() && generator.Valid()
    ensures src == SourceOf(simulationMode, frame.Some?, old(detector.isAvailable))
    ensures src == GeneratorSource ==>
      && unchanged(detector)
      && face == FallbackGenerator.FaceEmotions(old(generator.currentScenario), generator.timeFactor, sin, cos)
      && generator.timeFactor == old(generator.timeFactor) + 1
      && IsDistribution(face)
    ensures src == DetectorSource ==> generator.timeFactor == old(generator.timeFactor)
    ensures simulationMode ==>
      audioStress == FallbackGenerator.AudioStress(generator.currentScenario, generator.timeFactor, sin, noise)
    ensures !simulationMode ==> audioStress == analyzedStress
  {
    src := SourceOf(simulationMode, frame.Some?, detector.isAvailable);
    if simulationMode {
      face := generator.GenerateFaceEmotions(sin, cos, draw);
      FallbackGenerator.FaceEmotionsDistribution(old(generator.currentScenario), generator.timeFactor, sin, cos);
      audioStress := generator.GenerateAudioStress(sin, noise);
    } else {
      if frame.Some? && detector.isAvailable {
        var result := detector.DetectEmotions(frame);
        face := result.probs;
      } else {
        face := generator.GenerateFaceEmotions(sin, cos, draw);
        FallbackGenerator.FaceEmotionsDistribution(old(generator.currentScenario), generator.timeFactor, sin, cos);
      }
      audioStress := analyzedStress;
    }
  }
}
