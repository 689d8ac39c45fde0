# EMOTISENSE-AI decision core in Dafny

EMOTISENSE-AI is a Streamlit dashboard. It watches a learner through a webcam and a microphone and turns those signals into emotion maps, a stress level and an engagement level. It also raises alerts and takes automatic screenshots. This project models the parts of it that make decisions and proves properties about them:

- **Face emotion detector** (`FaceEmotion`, `face_emotion.dfy`). A class with the detector's own fields:
  - a five-slot history of emotion maps and a three-slot history of face boxes;
  - a frame counter and the last valid map.
  It covers face selection, damping of the chosen face position, temporal smoothing, the neutral prior, and the three outputs of `detect_emotions`.
- **Synthetic signal generator** (`FallbackGenerator`, `fallback.dfy`). A class with the generator's fields:
  - a tick counter drives floored sine and cosine weights that are normalised into a distribution;
  - audio stress is clamped to [0, 1];
  - a scenario timer re-draws the scenario on every 21st face sample;
  - a loop builds a demo session that cycles through four phases.
- **Live dashboard** (`LiveDashboard`, `live_dashboard.dfy`). This covers the choice between detector output and generator output, and the automatic screenshot trigger state machine. The state machine has:
  - two consecutive-tick counters;
  - per-type last-fire times with a ten-second cooldown;
  - a stateless HAPPY trigger;
  - the priority rule that labels the one capture of a tick.
  The state lives in a class whose `CheckTriggers` method is proved equal to a pure `Step` function. The lemmas are stated about `Step`.
- **Session helpers** (`SessionAnalytics`, `analytics.dfy`): score normalisation, the unweighted negative score, the session analytics, the feedback messages and the quality score.
- **Dashboard widgets** (`Dashboard`, `dashboard.dfy`): the sustained-stress alert, the heat band, the quality grade and the early/late comparison windows.
- **Shared definitions** (`Emotions`, `emotions.dfy`; `Common`, `common.dfy`).
  - An emotion dict is a sequence of `(label, value)` entries in insertion order.
  - `max(d, key=d.get)` is the first maximum in that order.
  - `d.get(k, 0)` is `Get`.
  - Python's `int()`, the slice `s[-d:]` and `dict.get` defaults are written out.

Several facts are stated as lemmas:

- **Smoothing.** The code pairs its weights with the history oldest first. So with five frames the newest frame has no influence (`NewestIgnoredWhenFull`). The model follows the code here, not the "recent frames have more weight" comment.
- **Neutral output.** It reports a negative score of 0.075, while its own probabilities give 0.05 (`NeutralOutputFacts`).
- **Capture label.** The label is read from the post-tick state. So a capture fired only by DISTRACTION is labelled HAPPY whenever the happy condition holds but HAPPY is cooling down (`LabelOfCapture`, with a concrete instance in `DistractionLabelledHappy`).

Inputs the code reads from the outside world are parameters:

- the camera frame and the detectors' candidate boxes and emotion maps;
- `np.sin`, `np.cos`, every `random` draw and every clock reading;
- whether `pyautogui` imports, and whether saving an image succeeds;
- the audio analyser's stress value and the fusion engine's metrics.

## Model

| member | source | states |
|---|---|---|
| FaceEmotion.Push | src/webcam/face_emotion.py:61-62 | appending to a bounded deque keeps at most `maxlen` items, ends with the new item, and drops the oldest only when full |
| FaceEmotion.NeutralEmotions | src/webcam/face_emotion.py:207-217 | the neutral prior has the seven labels once each, sums to 1, lies in [0, 1] and has 'neutral' as its dominant label |
| FaceEmotion.NeutralPriorDistribution | src/webcam/face_emotion.py:207-217 | the prior's values are non-negative, at most 1, and total exactly 1 |
| FaceEmotion.SmoothingWeights | src/webcam/face_emotion.py:197-198 | four weights 0.1..0.4 from four values on, 0.3/0.7 for two or three, and the slice never shortens them |
| FaceEmotion.WeightsSumToOne | src/webcam/face_emotion.py:197-199 | every weight list sums to 1, so the division in the average is by 1 |
| FaceEmotion.SmoothedValue | src/webcam/face_emotion.py:195-199 | one label's smoothed value: the history column (0 where the label is missing) dotted with the weights, zip-truncated oldest first, divided by their sum (proved to be 1) |
| FaceEmotion.Smooth | src/webcam/face_emotion.py:192-201 | the smoothed map has the current map's keys in order, each with the weighted average over the history |
| FaceEmotion.SmoothThree | src/webcam/face_emotion.py:195-199 | with three frames the value is 0.3·oldest + 0.7·second; the newest is ignored |
| FaceEmotion.SmoothFour | src/webcam/face_emotion.py:195-199 | with four frames the value is 0.1·h0 + 0.2·h1 + 0.3·h2 + 0.4·h3 |
| FaceEmotion.SmoothFive | src/webcam/face_emotion.py:195-199 | with five frames the same four weights apply to the four oldest frames |
| FaceEmotion.NewestIgnoredWhenFull | src/webcam/face_emotion.py:195-199 | with a full history, replacing the newest frame never changes the smoothed value |
| FaceEmotion.SmoothConstantHistory | src/webcam/face_emotion.py:195-199 | a label with the same value in every frame keeps that value |
| FaceEmotion.SmoothInUnitInterval | src/webcam/face_emotion.py:195-199 | values in [0, 1] across the history give a smoothed value in [0, 1] |
| FaceEmotion.SmoothMapInUnitInterval | src/webcam/face_emotion.py:192-201 | a history of maps with values in [0, 1] gives a smoothed map with values in [0, 1] |
| FaceEmotion.Damp | src/webcam/face_emotion.py:141-152 | with a face history, a box that moved more than 50 pixels in x or y from the last one is replaced coordinate-wise by `int(0.7·new + 0.3·last)`; otherwise it is kept (properties in `DampBetween`) |
| FaceEmotion.ChooseFace | src/webcam/face_emotion.py:117-155 | the valid candidates (each side over 80 px and under 80% of the frame, strictly inside the frame: x > 0, y > 0, x + w < width, y + h < height); none gives None, else the first of greatest area, damped against the face history (properties in `ChooseFaceNone`, `ChooseFaceLargest`) |
| FaceEmotion.FaceEmotionDetector.GetStableEmotions | src/webcam/face_emotion.py:183-205 | empty input returns the last valid map or the prior and changes nothing; otherwise the map is pushed, and the result (raw below three frames, smoothed from three on) becomes the last valid map |
| FaceEmotion.ChooseFaceNone | src/webcam/face_emotion.py:117-136 | no face is chosen exactly when no candidate passes the size and position test |
| FaceEmotion.ChooseFaceLargest | src/webcam/face_emotion.py:126-139 | without history the chosen face is a valid candidate of greatest area, the first such among the valid ones |
| FaceEmotion.BlendCoordBetween | src/webcam/face_emotion.py:145-152 | each damped coordinate `int(0.7·new + 0.3·old)` lies between the old and the new coordinate |
| FaceEmotion.DampBetween | src/webcam/face_emotion.py:141-152 | a face within 50 pixels of the last one is kept; a farther one is blended coordinate-wise between the two |
| FaceEmotion.FaceEmotionDetector.SelectBestFace | src/webcam/face_emotion.py:117-155 | returns the chosen face and pushes it onto the face history only when one is chosen |
| FaceEmotion.KeepValid | src/webcam/face_emotion.py:123-133 | the filter loop keeps exactly the candidates passing the size and position test, in order |
| FaceEmotion.KeepLargeEnough | src/webcam/face_emotion.py:79-82 | the FER loop keeps exactly the boxes wider and taller than 60, in order |
| FaceEmotion.Candidates | src/webcam/face_emotion.py:69-115 | the FER boxes over 60 px if any, else the cascade's boxes if any, else the dlib boxes over 60 px; a missing backend yields no boxes (properties in `CandidatesOrder`) |
| FaceEmotion.CandidatesOrder | src/webcam/face_emotion.py:69-115 | every candidate is a box of an available backend (FER and dlib boxes over 60 px); when FER yields any, the later backends are not consulted; otherwise a non-empty cascade list is used as is |
| FaceEmotion.FaceEmotionDetector.DetectFaceMultiMethod | src/webcam/face_emotion.py:69-115 | the face is the one chosen among the candidates of the first detector that yields any |
| FaceEmotion.NegativeScore | src/webcam/face_emotion.py:286-291 | `_calculate_negative_score`: 0.4·sad + 0.3·angry + 0.2·fear + 0.1·disgust, a missing label read as 0 (bounds in `NegativeScoreBounds`) |
| FaceEmotion.NegativeScoreBounds | src/webcam/face_emotion.py:286-291 | on a distribution the weighted negative score lies in [0, 0.4] |
| FaceEmotion.NeutralOutput | src/webcam/face_emotion.py:293-306 | `_get_neutral_output`: emotion neutral with the prior, confidence 0.6 with a box and 0.0 without, negative score 0.075 (properties in `NeutralOutputFacts`) |
| FaceEmotion.NeutralOutputFacts | src/webcam/face_emotion.py:293-306 | the neutral output is 'neutral' with the prior, confidence 0.6 exactly when a non-zero box is given, and score 0.075 although the prior's own score is 0.05 |
| FaceEmotion.LastKnownOutput | src/webcam/face_emotion.py:230-239 | with no face, the last valid map itself is reported, with its first-maximum label and a zero box |
| FaceEmotion.DetectedOutput | src/webcam/face_emotion.py:265-280 | the reported emotion is the first maximum of the stable map and the confidence is its value, at least every other value |
| FaceEmotion.FaceEmotionDetector.DetectEmotions | src/webcam/face_emotion.py:219-284 | no frame gives the neutral output and changes nothing; no face gives the last known or the neutral output; an empty crop, no classifier or no result gives the neutral output for the box; a classified face pushes the map and reports the stabilised map (the raw map below three frames, `Smooth` from three on) with its first maximum as emotion |
| FaceEmotion.FaceEmotionDetector.constructor | src/webcam/face_emotion.py:60-66 | empty histories, an available detector, frame count 0 and no last valid map |
| FallbackGenerator.Floored | src/fallback/rule_based.py:28-50 | each weight is at least 0.01, and equals the wave when the wave is above 0.01 |
| FallbackGenerator.Wave | src/fallback/rule_based.py:27-50 | the floored weight of each label of each branch, with the branch's base, amplitude, sine or cosine and frequency; always at least 0.01 |
| FallbackGenerator.OrderIsPermutation | src/fallback/rule_based.py:27-50 | every scenario's branch names each of the seven labels exactly once |
| FallbackGenerator.RawWeights | src/fallback/rule_based.py:27-50 | the unnormalised map has seven entries in the branch's order, each at least 0.01 |
| FallbackGenerator.Normalised | src/fallback/rule_based.py:52-61 | divides every weight by the total when it is positive, else the fixed neutral-heavy map |
| FallbackGenerator.FaceEmotions | src/fallback/rule_based.py:17-61 | the map returned at tick `t`: the branch's floored weights at `time_mod = 0.1·t`, normalised (properties in `FaceEmotionsDistribution`) |
| FallbackGenerator.RawWeightsTotal | src/fallback/rule_based.py:52-61 | the weights total at least 0.07, so the normalising branch is always taken |
| FallbackGenerator.FaceEmotionsDistribution | src/fallback/rule_based.py:17-61 | every generated face map has the seven labels once each, all strictly positive, summing to 1 |
| FallbackGenerator.ShareOfTotal | src/fallback/rule_based.py:53-55 | dividing positive weights by their total gives positive shares that sum to 1 |
| FallbackGenerator.UniformEmotions | src/fallback/rule_based.py:9 | the initial map gives each of the seven labels 1/7 and is a distribution |
| FallbackGenerator.BaseStress | src/fallback/rule_based.py:77-84 | the scenario's baseline at `time_mod = 0.08·t`: 0.7 + 0.2·sin(1.5·m) stressed, 0.2 + 0.15·sin(0.8·m) happy, 0.4 + 0.2·sin(m) otherwise |
| FallbackGenerator.AudioStress | src/fallback/rule_based.py:74-94 | audio stress lies in [0, 1] and equals baseline plus noise when that sum is already in range |
| FallbackGenerator.TimerStep | src/fallback/rule_based.py:63-68 | the timer stays at most 20 and returns to 0 exactly when it would pass 20 |
| FallbackGenerator.TimerCycle | src/fallback/rule_based.py:63-68 | after k samples the timer equals k mod 21, so the scenario is re-drawn exactly on multiples of 21 |
| FallbackGenerator.FallbackEmotionGenerator.constructor | src/fallback/rule_based.py:8-15 | uniform face map, audio stress 0.5, zero trends, tick and timer 0, normal scenario |
| FallbackGenerator.FallbackEmotionGenerator.GenerateFaceEmotions | src/fallback/rule_based.py:17-72 | increments the tick, returns the map of the scenario in force before the timer step, advances the timer, re-draws the scenario when it passes 20, and stores the map; the object invariant keeps the timer equal to the tick count mod 21 |
| FallbackGenerator.FallbackEmotionGenerator.AdvanceTimer | src/fallback/rule_based.py:63-68 | the timer takes one step, which brings it to the new tick count mod 21, and the drawn scenario replaces the current one exactly on reset |
| FallbackGenerator.SampleFace | src/fallback/rule_based.py:19-61 | the computed face map is a distribution |
| FallbackGenerator.FallbackEmotionGenerator.GenerateAudioStress | src/fallback/rule_based.py:74-94 | returns and stores the clamped stress of the current scenario at the current tick |
| FallbackGenerator.FallbackEmotionGenerator.SimulateScenario | src/fallback/rule_based.py:96-110 | sets exactly the two trends to `ScenarioTrends` of the name: stressed, happy and confused get their fixed values, any other name gets the two draws |
| FallbackGenerator.PhaseTrends | src/fallback/rule_based.py:119-135 | entering the "normal" phase takes the random default branch; stressed, happy and confused set (−0.8, 0.8), (0.8, −0.5) and (0.0, 0.3) |
| FallbackGenerator.FallbackEmotionGenerator.EnterPhase | src/fallback/rule_based.py:135 | the trends become those of the entered phase's name |
| FallbackGenerator.PhaseSwitch | src/fallback/rule_based.py:129-134 | the phase moves on cyclically exactly when the progress reaches the truncated share, and the progress restarts |
| FallbackGenerator.FirstPhaseLong | src/fallback/rule_based.py:116-132 | a session of at least one minute gives the first phase at least 18 samples, so the first sample does not switch phase |
| FallbackGenerator.PhaseTraceExtend | src/fallback/rule_based.py:126-148 | appending a phase that stays or advances keeps the trace a valid phase sequence |
| FallbackGenerator.FallbackEmotionGenerator.SessionStep | src/fallback/rule_based.py:129-148 | one iteration: the phase check with the entered phase's trends (trends unchanged otherwise), then one point whose face map is `FaceEmotions` of the old scenario at the new tick and whose stress is `AudioStress` of the scenario after the timer step, with the timer, scenario and last values updated |
| FallbackGenerator.FallbackEmotionGenerator.NextPoint | src/fallback/rule_based.py:138-146 | the point's face map is `FaceEmotions` of the scenario before the timer step and its stress `AudioStress` of the scenario after it, both at the new tick; timer, scenario and last values updated; the point is well formed |
| FallbackGenerator.FallbackEmotionGenerator.GenerateRealisticSessionData | src/fallback/rule_based.py:112-150 | returns 60 points per minute (none for a non-positive duration), each well formed and stamped with its clock reading; the tick grows by the count; the phases start at 0 and only stay or advance cyclically |
| LiveDashboard.StressRule | app.py:256-266 | the stress counter counts consecutive ticks at stress ≥ 0.85 and resets below it or on firing; STRESS fires iff the third such tick comes at least 10 after its last firing (0 if none) |
| LiveDashboard.StressCooldownKeepsCounting | app.py:256-266 | while the cooldown blocks, STRESS does not fire and the counter keeps growing past 3 |
| LiveDashboard.DistractionRule | app.py:276-286 | the same rule for engagement ≤ 0.10 (missing counts as 1), five ticks and its own cooldown |
| LiveDashboard.HappyRule | app.py:268-274 | HAPPY fires iff the face's first-maximum label is 'happy', confidence (missing counts as 0) ≥ 0.75, and its own cooldown has elapsed |
| LiveDashboard.LastShotOther | app.py:259-283 | recording one trigger's firing time leaves every other trigger's time unchanged |
| LiveDashboard.LastShotUpdate | app.py:256-286 | after a tick, a trigger's last time is `now` if it fired and unchanged otherwise |
| LiveDashboard.CountersIndependent | app.py:256-286 | the STRESS and HAPPY outcomes do not depend on the distraction counter |
| LiveDashboard.StressLabelIffFired | app.py:293-295 | the capture is labelled STRESS exactly when STRESS fired on this tick |
| LiveDashboard.LabelOfCapture | app.py:288-306 | a capture is never labelled AUTO; STRESS wins, then HAPPY; a DISTRACTION-only capture is labelled HAPPY whenever the happy condition holds |
| LiveDashboard.DistractionLabelledHappy | app.py:298-303 | a reachable tick where only DISTRACTION fires and the capture is labelled HAPPY |
| LiveDashboard.StressCheck | app.py:255-265 | the STRESS block: count a tick at stress ≥ 0.85, reset below; at a count of 3 with the 10-second cooldown elapsed, fire, record `now` and reset the count |
| LiveDashboard.HappyCheck | app.py:267-273 | the HAPPY block: fire and record `now` when the first-maximum label is happy, confidence (0 when missing) ≥ 0.75 and the cooldown has elapsed |
| LiveDashboard.DistractionCheck | app.py:275-285 | the DISTRACTION block: as STRESS with engagement (1 when missing) ≤ 0.10 and a count of 5 |
| LiveDashboard.Step | app.py:252-285 | one tick: the three checks in source order, each reading the state the previous one left (properties in `StressRule`, `HappyRule`, `DistractionRule`, `LastShotUpdate`) |
| LiveDashboard.EventLabel | app.py:294-306 | the capture label from the post-tick counters: STRESS, else HAPPY, else DISTRACTION, else AUTO (properties in `LabelOfCapture`) |
| LiveDashboard.ThreeStressedTicks | app.py:256-266 | three ticks at stress 0.9 from a fresh session fire STRESS once, on the third, resetting the counter and recording the time, whatever the face map |
| LiveDashboard.DashboardSession.CheckStress | app.py:256-266 | the STRESS block updates the counter and time map as the STRESS check prescribes |
| LiveDashboard.DashboardSession.CheckHappy | app.py:267-274 | the HAPPY block updates the time map as the HAPPY check prescribes |
| LiveDashboard.DashboardSession.CheckDistraction | app.py:276-286 | the DISTRACTION block updates the counter and time map as the DISTRACTION check prescribes |
| LiveDashboard.DashboardSession.ChooseEvent | app.py:292-306 | the label and score follow the priority chain on the post-tick counters |
| LiveDashboard.DashboardSession.CheckTriggers | app.py:240-328 | nothing changes in simulation mode or without pyautogui; otherwise the state becomes `Step` of the old state, and a record is appended exactly when a capture is taken and saved |
| LiveDashboard.DashboardSession.constructor | app.py:247-252 | counters start at 0 with an empty time map and an empty log |
| LiveDashboard.SourceOf | app.py:199-234 | the detector supplies the face map iff not in simulation mode, a frame arrived, and the detector is available |
| LiveDashboard.SelectSignals | app.py:199-234 | generator-sourced face maps are distributions from one generator tick and leave the detector untouched; audio comes from the generator in simulation mode and from the analyser otherwise |
| SessionAnalytics.NormalizeScores | src/utils.py:17-22 | keys and their order are kept |
| SessionAnalytics.NormalizeScoresUniform | src/utils.py:20-21 | a non-empty map whose values total 0 becomes uniform 1/n, summing to 1 |
| SessionAnalytics.NormalizeScoresProportional | src/utils.py:22 | otherwise each value is divided by the total; the result sums to 1 and is non-negative when the input is |
| SessionAnalytics.EqualShares | src/utils.py:21 | every key gets 1/n |
| SessionAnalytics.NegativeSum | src/utils.py:24-27 | angry + disgust + fear + sad, a missing label read as 0 (bounds in `NegativeSumBounds`) |
| SessionAnalytics.NegativeSumBounds | src/utils.py:24-27 | the unweighted negative sum lies between 0 and the total, and bounds the detector's weighted score scaled by 0.4 |
| SessionAnalytics.Stability | src/utils.py:86-87 | `max(0, 1 − sample variance)` for two or more rows, 0 for fewer (pandas gives NaN, and `max(0, nan)` is 0) |
| SessionAnalytics.StabilityBounds | src/utils.py:86-87 | the stability score `max(0, 1 - var)` always lies in [0, 1] |
| SessionAnalytics.StabilityOfConstant | src/utils.py:86-87 | a session of two or more rows with constant stress has stability 1 |
| SessionAnalytics.CalculateAnalytics | src/utils.py:64-95 | empty frame gives the empty result; otherwise duration 5, no critical moments, stability in [0, 1] |
| SessionAnalytics.AnalyticsMoments | src/utils.py:72-84 | the most stressed and most engaged moments are the first rows holding the column maximum |
| SessionAnalytics.StressMessage | src/utils.py:105-111 | high above 0.7, low below 0.3, moderate otherwise, each iff its band |
| SessionAnalytics.EngagementMessages | src/utils.py:113-117 | a low message below 0.4, an excellent message above 0.7, none in between |
| SessionAnalytics.SessionFeedback | src/utils.py:97-123 | the no-data message for an empty session; otherwise the stress message first and a second message iff engagement is outside [0.4, 0.7] |
| SessionAnalytics.QualityScore | src/utils.py:125-139 | the score lies in [0, 100] and is 0 for an empty session |
| SessionAnalytics.QualityScoreBlend | src/utils.py:131-139 | with values in [0, 1] the score is 60·(1 − mean stress) + 40·mean engagement |
| Dashboard.StressAlertMeaning | src/dashboard/ui_components.py:56-65 | no alert on a history shorter than the duration; otherwise an alert iff each of the last `duration` samples is strictly above the threshold |
| Dashboard.StressAlert | src/dashboard/ui_components.py:56-65 | `display_stress_alert`: false below `duration` samples, else whether every sample of `history[-duration:]` is strictly above the threshold |
| Dashboard.DashboardAlert | src/dashboard/ui_components.py:56-65 | with `STRESS_THRESHOLD` 0.7 and `ALERT_DURATION` 5 the alert shows iff at least five samples exist and the last five exceed 0.7 |
| Dashboard.StressAlertStrict | src/dashboard/ui_components.py:61-62 | a recent sample equal to the threshold suppresses the alert |
| Dashboard.StressAlertIgnoresPrefix | src/dashboard/ui_components.py:56-65 | samples before the last `duration` never change the alert |
| Dashboard.Heat | src/dashboard/ui_components.py:28-40 | Low iff below 0.3, Moderate iff in [0.3, 0.7), High iff at least 0.7 |
| Dashboard.HeatMonotone | src/dashboard/ui_components.py:28-40 | higher stress never shows a cooler band |
| Dashboard.QualityGrade | src/dashboard/ui_components.py:164-176 | Excellent iff ≥ 80, Good iff in [60, 80), Needs Improvement iff below 60 |
| Dashboard.GradeMonotone | src/dashboard/ui_components.py:164-176 | a higher score never earns a lower grade |
| Dashboard.SessionWindows | src/dashboard/ui_components.py:91-101 | no comparison below 10 rows; otherwise the first and last `max(1, n // 4)` rows, at least 2 each and not overlapping |
| Emotions.DominantIndex | src/webcam/face_emotion.py:268 | `max(d, key=d.get)` is the first key holding the greatest value |
| Emotions.TotalDivided | src/utils.py:22 | dividing every value by t divides the total by t |
| Common.FirstMaxIndex | src/utils.py:73 | the index returned holds the maximum and no earlier index reaches it |
| Common.Trunc | src/webcam/face_emotion.py:148-151 | Python's `int()` truncates toward zero |
| Common.FilterMembers | src/webcam/face_emotion.py:126-133 | the filtered list holds exactly the elements of the input that pass the test |
| Common.FilterEmpty | src/webcam/face_emotion.py:135-136 | the filtered list is empty exactly when no element passes the test |

## Left out

- The Streamlit UI: page layout, tabs, buttons, rendering and the refresh loop. Only the decisions behind the widgets are modelled.
- Detector backends and image processing: FER/MTCNN, the OpenCV cascade, dlib, the singleton getters, `_preprocess_face` and `draw_emotion_box`. Each detector is an optional list of candidate boxes and the classifier is an optional label map.
- The exception handlers of `detect_emotions` (neutral output on any error), of the analytics and feedback helpers (their fixed fallbacks), and of `calculate_session_quality_score` (50). No modelled operation raises.
- File and desktop I/O: `save_session_data`, `capture_desktop_screenshot`, `ensure_directories`, the directory creation and the image save in the trigger block. Only whether the save succeeds is an input, and the file path of a screenshot record is not kept.
- `_get_dlib_detector()` (src/webcam/face_emotion.py:47-57) returns None, never False, so the test at line 104 always passes; without dlib, calling None raises a TypeError that the bare `except` at line 112 swallows. The model gives this path directly as "no dlib boxes" (`dlib == None`), without the exception.
- The manual screenshot button (app.py:104-144) is outside the trigger block.
- The fusion engine, the session logger and the audio analyser are not part of this model. Their outputs are inputs here.
- Floating point: values are exact reals. Python floats may round differently, for example in the `int()` of the face blend or in sums compared with 1.
- `np.sin`, `np.cos`, `random` and the clocks are parameters. `time.time()` and `datetime.now()` are taken as the same reading `now`.
- The trend fields set by `simulate_scenario` are written but never read by any generator method. The model states their values and nothing that depends on them.
- The `SCREENSHOT_*` configuration constants are not read by the trigger block. The hard-coded 0.85, 3, 0.75, 0.10, 5 and 10 are modelled.
- The pandas frame is a sequence of rows with a default 0-based index, so `idxmax` is a position.
- FallbackGenerator.FallbackEmotionGenerator.GenerateRealisticSessionData: the per-point contract says each point is well formed and records the phase trace, but does not tie each point to the scenario sequence of the generator.
- LiveDashboard.SelectSignals: when the detector is used, the contract says only that the generator's tick is unchanged. The detector's own result is given by `DetectEmotions`.
