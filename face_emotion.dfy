/** The stateful part of the face-emotion detector: temporal smoothing of the classifier's
    label->probability maps over a 5-frame history, selection and jitter damping of the face
    box over a 3-box history, the ordered three-backend face-localisation chain, and the
    fallback outputs of `detect_emotions`. The detection backends and the classifier are
    black boxes whose answers for one frame are given as a `Frame` value. */
module FaceEmotion {
  import opened Common
  import opened Emotions

  const EmotionHistoryLen: nat := 5
  const FaceHistoryLen: nat := 3
  /** A corner moving further than this (in pixels, either axis) is damped. */
  const JumpLimit: int := 50
  /** Weight of the new detection in the damping blend. */
  const Alpha: real := 0.7

  // ---------------------------------------------------------------------------------------
  // Bounded FIFO history (`collections.deque(maxlen=n).append`)

  /** Appending to a deque of capacity `cap`: the oldest entry is evicted once it is full. */
  function Push<T>(h: seq<T>, x: T, cap: nat): (r: seq<T>)
    requires 0 < cap && |h| <= cap
    ensures |r| <= cap && |r| > 0 && r[|r| - 1] == x
    ensures |h| < cap ==> r == h + [x]
    ensures |h| == cap ==> r == h[1..] + [x]
  {
    var s := h + [x];
    if |s| > cap then s[1..] else s
  }

  // ---------------------------------------------------------------------------------------
  // Emotion smoothing

  /** `_get_neutral_emotions`: the neutral prior returned when no valid emotions exist yet. */
  function NeutralEmotions(): (d: Dict)
    ensures Keys(d) == Labels && DistinctLabels(d)
    ensures IsDistribution(d) && InUnitInterval(d)
    ensures |d| > 0 && Dominant(d) == Neutral
  {
    NeutralPriorLabels();
    NeutralPriorDistribution();
    NeutralPriorDominant();
    NeutralPrior
  }

  const NeutralPrior: Dict := [Entry(Angry, 0.05), Entry(Disgust, 0.05), Entry(Fear, 0.05), Entry(Happy, 0.15),
                               Entry(Sad, 0.05), Entry(Surprise, 0.05), Entry(Neutral, 0.60)]

  lemma NeutralPriorLabels()
    ensures Keys(NeutralPrior) == Labels && DistinctLabels(NeutralPrior)
  {
  }

  lemma NeutralPriorDistribution()
    ensures Total(NeutralPrior) == 1.0 && NonNegative(NeutralPrior) && InUnitInterval(NeutralPrior)
  {
  }

  lemma NeutralPriorDominant()
    ensures Dominant(NeutralPrior) == Neutral
  {
  }

  /** The weight list picked for `n` history values, after the slice `weights[-n:]`.
      The slice never shortens the list: there are always at least as many values as weights. */
  function SmoothingWeights(n: nat): (w: seq<real>)
    ensures n >= 4 ==> w == [0.1, 0.2, 0.3, 0.4]
    ensures 2 <= n < 4 ==> w == [0.3, 0.7]
    ensures n < 2 ==> w == [1.0]
  {
    var w := if n >= 4 then [0.1, 0.2, 0.3, 0.4] else if n >= 2 then [0.3, 0.7] else [1.0];
    PyTail(w, n)
  }

  /** Every weight list sums to one, so the division by `sum(weights)` changes nothing. */
  lemma WeightsSumToOne(n: nat)
    ensures Sum(SmoothingWeights(n)) == 1.0
  {
    var w := SmoothingWeights(n);
    if n >= 4 {
      var w1, w2, w3 := w[1..], w[1..][1..], w[1..][1..][1..];
      assert w1 == [0.2, 0.3, 0.4] && w2 == [0.3, 0.4] && w3 == [0.4] && w3[1..] == [];
      assert Sum(w3) == 0.4 + Sum(w3[1..]) == 0.4;
      assert Sum(w2) == 0.3 + Sum(w3) == 0.7;
      assert Sum(w1) == 0.2 + Sum(w2) == 0.9;
    } else if n >= 2 {
      assert w[1..] == [0.7] && w[1..][1..] == [];
      assert Sum(w[1..]) == 0.7 + Sum(w[1..][1..]) == 0.7;
    } else {
      assert w[1..] == [];
    }
  }

  /** `sum(v * w for v, w in zip(values, weights))`: pairs up from the front and stops at
      the end of the shorter list. */
  function ZipDot(vs: seq<real>, ws: seq<real>): real {
    if vs == [] || ws == [] then 0.0 else vs[0] * ws[0] + ZipDot(vs[1..], ws[1..])
  }

  /** `[hist.get(emotion, 0) for hist in self.emotion_history]`, oldest first. */
  function Column(history: seq<Dict>, k: Label): (vs: seq<real>)
    ensures |vs| == |history|
    ensures forall i :: 0 <= i < |history| ==> vs[i] == Get(history[i], k)
  {
    seq(|history|, i requires 0 <= i < |history| => Get(history[i], k))
  }

  /** The smoothed value of one label over the history, exactly as computed: the weights are
      matched against the history from its OLDEST entry, and `zip` drops what does not pair. */
  function SmoothedValue(history: seq<Dict>, k: Label): real {
    var w := SmoothingWeights(|history|);
    WeightsSumToOne(|history|);
    ZipDot(Column(history, k), w) / Sum(w)
  }

  /** The smoothed map: one entry per key of the current input, in its order. */
  function Smooth(history: seq<Dict>, current: Dict): (r: Dict)
    ensures Keys(r) == Keys(current)
    ensures forall i :: 0 <= i < |r| ==> r[i].p == SmoothedValue(history, current[i].emotion)
  {
    seq(|current|, i requires 0 <= i < |current| =>
      Entry(current[i].emotion, SmoothedValue(history, current[i].emotion)))
  }

  /** Three entries: only the two oldest are used, with weights 0.3 and 0.7. */
  lemma SmoothThree(h: seq<Dict>, k: Label)
    requires |h| == 3
    ensures SmoothedValue(h, k) == 0.3 * Get(h[0], k) + 0.7 * Get(h[1], k)
  {
    var c := Column(h, k);
    assert ZipDot(c, [0.3, 0.7]) == c[0] * 0.3 + ZipDot(c[1..], [0.7]);
    assert ZipDot(c[1..], [0.7]) == c[1] * 0.7 + ZipDot(c[2..], []);
  }

  /** Four entries: weights 0.1, 0.2, 0.3, 0.4 from oldest to newest. */
  lemma SmoothFour(h: seq<Dict>, k: Label)
    requires |h| == 4
    ensures SmoothedValue(h, k)
         == 0.1 * Get(h[0], k) + 0.2 * Get(h[1], k) + 0.3 * Get(h[2], k) + 0.4 * Get(h[3], k)
  {
    ZipDotFour(Column(h, k));
  }

  /** Five entries: the same four weights go to the four OLDEST entries. */
  lemma SmoothFive(h: seq<Dict>, k: Label)
    requires |h| == 5
    ensures SmoothedValue(h, k)
         == 0.1 * Get(h[0], k) + 0.2 * Get(h[1], k) + 0.3 * Get(h[2], k) + 0.4 * Get(h[3], k)
  {
    ZipDotFour(Column(h, k));
  }

  lemma ZipDotFour(c: seq<real>)
    requires |c| >= 4
    ensures ZipDot(c, [0.1, 0.2, 0.3, 0.4]) == 0.1 * c[0] + 0.2 * c[1] + 0.3 * c[2] + 0.4 * c[3]
  {
    var w := [0.1, 0.2, 0.3, 0.4];
    assert ZipDot(c, w) == c[0] * 0.1 + ZipDot(c[1..], w[1..]);
    assert ZipDot(c[1..], w[1..]) == c[1] * 0.2 + ZipDot(c[2..], w[2..]);
    assert ZipDot(c[2..], w[2..]) == c[2] * 0.3 + ZipDot(c[3..], w[3..]);
    assert ZipDot(c[3..], w[3..]) == c[3] * 0.4 + ZipDot(c[4..], []);
  }

  /** With a full history the newest raw frame has no influence on the output. */
  lemma NewestIgnoredWhenFull(h: seq<Dict>, d: Dict, k: Label)
    requires |h| == 5
    ensures SmoothedValue(h[..4] + [d], k) == SmoothedValue(h, k)
  {
    var h' := h[..4] + [d];
    SmoothFive(h, k);
    SmoothFive(h', k);
    assert forall i :: 0 <= i < 4 ==> h'[i] == h[i];
  }

  lemma {:induction false} ZipDotConstant(vs: seq<real>, ws: seq<real>, v: real)
    requires |vs| >= |ws|
    requires forall i :: 0 <= i < |vs| ==> vs[i] == v
    ensures ZipDot(vs, ws) == v * Sum(ws)
  {
    if ws != [] {
      ZipDotConstant(vs[1..], ws[1..], v);
      assert ws[1..] == ws[1..];
    }
  }

  lemma {:induction false} ZipDotBounds(vs: seq<real>, ws: seq<real>)
    requires forall i :: 0 <= i < |vs| ==> 0.0 <= vs[i] <= 1.0
    requires forall i :: 0 <= i < |ws| ==> ws[i] >= 0.0
    ensures 0.0 <= ZipDot(vs, ws) <= Sum(ws)
  {
    if vs == [] || ws == [] {
      SumNonNegative(ws);
    } else {
      ZipDotBounds(vs[1..], ws[1..]);
      assert 0.0 <= vs[0] * ws[0] <= ws[0] by {
        assert 0.0 <= vs[0] <= 1.0 && ws[0] >= 0.0;
      }
      assert ZipDot(vs, ws) == vs[0] * ws[0] + ZipDot(vs[1..], ws[1..]);
      assert Sum(ws) == ws[0] + Sum(ws[1..]);
    }
  }

  /** A history that holds value `v` for label `k` everywhere smooths to exactly `v`. */
  lemma SmoothConstantHistory(h: seq<Dict>, k: Label, v: real)
    requires |h| >= 1
    requires forall i :: 0 <= i < |h| ==> Get(h[i], k) == v
    ensures SmoothedValue(h, k) == v
  {
    var w := SmoothingWeights(|h|);
    WeightsSumToOne(|h|);
    ZipDotConstant(Column(h, k), w, v);
  }

  /** Smoothing values that lie in [0, 1] gives a value in [0, 1]. */
  lemma SmoothInUnitInterval(h: seq<Dict>, k: Label)
    requires forall i :: 0 <= i < |h| ==> 0.0 <= Get(h[i], k) <= 1.0
    ensures 0.0 <= SmoothedValue(h, k) <= 1.0
  {
    var w := SmoothingWeights(|h|);
    WeightsSumToOne(|h|);
    assert forall i :: 0 <= i < |w| ==> w[i] >= 0.0;
    ZipDotBounds(Column(h, k), w);
  }

  /** Every value of a smoothed map lies in [0, 1] when the history's maps do. */
  lemma SmoothMapInUnitInterval(h: seq<Dict>, current: Dict)
    requires forall i :: 0 <= i < |h| ==> InUnitInterval(h[i])
    ensures InUnitInterval(Smooth(h, current))
  {
    forall i, j | 0 <= i < |h| && 0 <= j < |current|
      ensures 0.0 <= Get(h[i], current[j].emotion) <= 1.0
    {
      GetInUnitInterval(h[i], current[j].emotion);
    }
    forall j | 0 <= j < |current|
      ensures 0.0 <= SmoothedValue(h, current[j].emotion) <= 1.0
    {
      SmoothInUnitInterval(h, current[j].emotion);
    }
  }

  /** Truthiness of `current_emotions` / `last_valid_emotions`: absent or empty is false. */
  predicate Present(o: Option<Dict>) {
    o.Some? && |o.value| > 0
  }

  // ---------------------------------------------------------------------------------------
  // Face boxes

  /** A face box `[x, y, w, h]` in frame pixels. */
  datatype Box = Box(x: int, y: int, w: int, h: int)

  /** `[0, 0, 0, 0]`, the box reported when no face is known. */
  const NoBox := Box(0, 0, 0, 0)

  function Area(b: Box): real {
    (b.w * b.h) as real
  }

  function Areas(s: seq<Box>): (r: seq<real>)
    ensures |r| == |s| && forall i :: 0 <= i < |s| ==> r[i] == Area(s[i])
  {
    seq(|s|, i requires 0 <= i < |s| => Area(s[i]))
  }

  /** The minimum size the FER and dlib candidates must exceed. */
  predicate LargeEnough(b: Box) {
    b.w > 60 && b.h > 60
  }

  /** The size and position filter of `_select_best_face`, for a frame `width` x `height`. */
  predicate IsValidFace(b: Box, width: int, height: int) {
    && b.w > 80 && b.h > 80
    && b.x > 0 && b.y > 0
    && b.x + b.w < width && b.y + b.h < height
    && (b.w as real) < (width as real) * 0.8 && (b.h as real) < (height as real) * 0.8
  }

  function ValidFaces(faces: seq<Box>, width: int, height: int): seq<Box> {
    Filter(faces, b => IsValidFace(b, width, height))
  }

  /** `max(valid_faces, key=lambda f: f[2] * f[3])`. */
  function Largest(valid: seq<Box>): Box
    requires |valid| > 0
  {
    valid[FirstMaxIndex(Areas(valid))]
  }

  function Abs(n: int): int { if n < 0 then -n else n }

  /** One component of the damping blend: `int(0.7 * new + 0.3 * old)`. */
  function BlendCoord(n: int, o: int): int {
    Trunc(Alpha * (n as real) + (1.0 - Alpha) * (o as real))
  }

  /** A blended coordinate lies between the old and the new coordinate. */
  lemma BlendCoordBetween(n: int, o: int)
    ensures (if n <= o then n else o) <= BlendCoord(n, o) <= (if n <= o then o else n)
  {
    var lo, hi := if n <= o then n else o, if n <= o then o else n;
    var x := Alpha * (n as real) + (1.0 - Alpha) * (o as real);
    assert lo as real <= x <= hi as real;
    TruncBetween(x, lo, hi);
  }

  /** The jitter damping of lines 142-152, against the most recent box of the history. */
  function Damp(best: Box, history: seq<Box>): Box {
    if history == [] then best
    else
      var last := history[|history| - 1];
      if Abs(best.x - last.x) > JumpLimit || Abs(best.y - last.y) > JumpLimit then
        Box(BlendCoord(best.x, last.x), BlendCoord(best.y, last.y),
            BlendCoord(best.w, last.w), BlendCoord(best.h, last.h))
      else best
  }

  /** What `_select_best_face` returns for `faces` given the box history before the call. */
  function ChooseFace(faces: seq<Box>, width: int, height: int, history: seq<Box>): Option<Box> {
    var valid := ValidFaces(faces, width, height);
    if valid == [] then None else Some(Damp(Largest(valid), history))
  }

  /** No box is chosen exactly when no candidate passes the filter. */
  lemma ChooseFaceNone(faces: seq<Box>, width: int, height: int, history: seq<Box>)
    ensures ChooseFace(faces, width, height, history).None?
        <==> forall b :: b in faces ==> !IsValidFace(b, width, height)
  {
    FilterEmpty(faces, b => IsValidFace(b, width, height));
  }

  /** Without damping, the chosen box is a valid candidate of largest area, and the first
      such one among the valid candidates. */
  lemma ChooseFaceLargest(faces: seq<Box>, width: int, height: int)
    requires ChooseFace(faces, width, height, []).Some?
    ensures var b := ChooseFace(faces, width, height, []).value;
      && b in faces && IsValidFace(b, width, height)
      && (forall f :: f in faces && IsValidFace(f, width, height) ==> Area(f) <= Area(b))
      && var valid := ValidFaces(faces, width, height);
         exists k :: 0 <= k < |valid| && valid[k] == b && forall j :: 0 <= j < k ==> Area(valid[j]) < Area(b)
  {
    var p := (f: Box) => IsValidFace(f, width, height);
    var valid := ValidFaces(faces, width, height);
    FilterMembers(faces, p);
    var k := FirstMaxIndex(Areas(valid));
    var b := valid[k];
    assert b in valid;
    forall f | f in faces && IsValidFace(f, width, height) ensures Area(f) <= Area(b) {
      assert f in valid;
      var i :| 0 <= i < |valid| && valid[i] == f;
      assert Areas(valid)[i] <= Areas(valid)[k];
    }
    assert forall j :: 0 <= j < k ==> Areas(valid)[j] < Areas(valid)[k];
  }

  /** The damped box lies, coordinate by coordinate, between the new box and the last stored
      one; with no history, or a move of at most 50 px on both axes, it is the new box. */
  lemma DampBetween(best: Box, history: seq<Box>)
    requires history != []
    ensures var last := history[|history| - 1];
      var r := Damp(best, history);
      && (Abs(best.x - last.x) <= JumpLimit && Abs(best.y - last.y) <= JumpLimit ==> r == best)
      && (if best.x <= last.x then best.x <= r.x <= last.x else last.x <= r.x <= best.x)
      && (if best.y <= last.y then best.y <= r.y <= last.y else last.y <= r.y <= best.y)
      && (if best.w <= last.w then best.w <= r.w <= last.w else last.w <= r.w <= best.w)
      && (if best.h <= last.h then best.h <= r.h <= last.h else last.h <= r.h <= best.h)
  {
    var last := history[|history| - 1];
    BlendCoordBetween(best.x, last.x);
    BlendCoordBetween(best.y, last.y);
    BlendCoordBetween(best.w, last.w);
    BlendCoordBetween(best.h, last.h);
  }

  /** The candidate list the backend chain passes to `_select_best_face`: the FER boxes over
      60 px if there are any, else every cascade box, else the dlib boxes over 60 px. `None`
      stands for a backend that is unavailable or raised. */
  function Candidates(fer: Option<seq<Box>>, cascade: Option<seq<Box>>, dlib: Option<seq<Box>>): seq<Box> {
    var m1 := if fer.Some? then Filter(fer.value, LargeEnough) else [];
    var m2 := if cascade.Some? then cascade.value else [];
    var m3 := if dlib.Some? then Filter(dlib.value, LargeEnough) else [];
    if m1 != [] then m1 else if m2 != [] then m2 else m3
  }

  /** The chain is ordered: a later backend's boxes are used only when every earlier backend
      yielded none, and a FER or dlib candidate is always larger than 60 px. */
  lemma CandidatesOrder(fer: Option<seq<Box>>, cascade: Option<seq<Box>>, dlib: Option<seq<Box>>,
                        cascade': Option<seq<Box>>, dlib': Option<seq<Box>>)
    ensures var r := Candidates(fer, cascade, dlib);
      forall b :: b in r ==>
        || (fer.Some? && b in fer.value && LargeEnough(b))
        || (cascade.Some? && b in cascade.value)
        || (dlib.Some? && b in dlib.value && LargeEnough(b))
    ensures (fer.Some? && Filter(fer.value, LargeEnough) != []) ==>
      Candidates(fer, cascade, dlib) == Candidates(fer, cascade', dlib')
    ensures (fer.None? || Filter(fer.value, LargeEnough) == []) && cascade.Some? && cascade.value != [] ==>
      Candidates(fer, cascade, dlib) == cascade.value
  {
    if fer.Some? { FilterMembers(fer.value, LargeEnough); }
    if dlib.Some? { FilterMembers(dlib.value, LargeEnough); }
  }

  // ---------------------------------------------------------------------------------------
  // Detection results

  /** The answers of the black boxes for one camera frame: its size, the candidate boxes of
      the three localisation backends, whether FER can classify, and the emotions FER
      returns for the processed face crop (`None` when it returns no result). The source
      never has FER boxes without FER being available; the record does not rule that out,
      and no property here depends on it. */
  datatype Frame = Frame(width: int, height: int,
                         ferFaces: Option<seq<Box>>, cascadeFaces: Option<seq<Box>>,
                         dlibFaces: Option<seq<Box>>,
                         ferAvailable: bool, ferEmotions: Option<Dict>)

  /** Length of the NumPy slice `[start:stop]` along an axis of length `n`. */
  function SliceLen(start: int, stop: int, n: int): nat
    requires n >= 0
  {
    var a := if start < 0 then Max0(start + n) else MinI(start, n);
    var b := if stop < 0 then Max0(stop + n) else MinI(stop, n);
    if b > a then b - a else 0
  }

  function Max0(n: int): nat { if n < 0 then 0 else n }
  function MinI(a: int, b: int): int { if a <= b then a else b }

  /** `frame[y:y+h, x:x+w].size == 0`. */
  predicate CropEmpty(b: Box, width: int, height: int)
    requires width >= 0 && height >= 0
  {
    SliceLen(b.y, b.y + b.h, height) == 0 || SliceLen(b.x, b.x + b.w, width) == 0
  }

  datatype DetectionResult = DetectionResult(emotion: Label, confidence: real,
                                             negativeScore: real, bbox: Box, probs: Dict)

  /** `_calculate_negative_score`: 0.4 sad + 0.3 angry + 0.2 fear + 0.1 disgust. */
  function NegativeScore(d: Dict): real {
    0.4 * Get(d, Sad) + 0.3 * Get(d, Angry) + 0.2 * Get(d, Fear) + 0.1 * Get(d, Disgust)
  }

  /** On a probability vector the weighted negative score lies in [0, 0.4]. */
  lemma NegativeScoreBounds(d: Dict)
    requires DistinctLabels(d) && IsDistribution(d)
    ensures 0.0 <= NegativeScore(d) <= 0.4
  {
    NegativeMassAtMostTotal(d);
    GetNonNegative(d, Sad);
    GetNonNegative(d, Angry);
    GetNonNegative(d, Fear);
    GetNonNegative(d, Disgust);
  }

  /** `_get_neutral_output(bbox)`. */
  function NeutralOutput(bbox: Box): DetectionResult {
    DetectionResult(Neutral, if bbox != NoBox then 0.6 else 0.0, 0.075, bbox, NeutralEmotions())
  }

  /** The neutral output names the dominant label of its own probabilities, has confidence
      0.6 exactly when a real box is given, and reports 0.075 as negative score although the
      weighted score of its probabilities is 0.05. */
  lemma NeutralOutputFacts(bbox: Box)
    ensures var r := NeutralOutput(bbox);
      && r.emotion == Dominant(r.probs)
      && (r.confidence == 0.6 <==> bbox != NoBox)
      && (r.confidence == 0.0 <==> bbox == NoBox)
      && r.negativeScore == 0.075 && NegativeScore(r.probs) == 0.05
  {
  }

  /** The output when no face is found but earlier emotions are known (lines 233-239). */
  function LastKnownOutput(last: Dict): (r: DetectionResult)
    requires |last| > 0
    ensures r.emotion == Dominant(last) && r.probs == last && r.bbox == NoBox
  {
    DetectionResult(Dominant(last), 0.3, NegativeScore(last), NoBox, last)
  }

  /** The output for a classified face: the dominant label and its probability. */
  function DetectedOutput(stable: Dict, bbox: Box): (r: DetectionResult)
    requires |stable| > 0
    ensures r.emotion == Dominant(stable)
    ensures forall i :: 0 <= i < |stable| ==> stable[i].p <= r.confidence
    ensures exists i :: 0 <= i < |stable| && stable[i].emotion == r.emotion && stable[i].p == r.confidence
  {
    var i := DominantIndex(stable);
    DetectionResult(stable[i].emotion, stable[i].p, NegativeScore(stable), bbox, stable)
  }

  // ---------------------------------------------------------------------------------------
  // The detector object

  class FaceEmotionDetector {
    var emotionHistory: seq<Dict>
    var faceHistory: seq<Box>
    var isAvailable: bool
    var frameCount: nat
    var lastValidEmotions: Option<Dict>

    ghost predicate Valid()
      reads this
    {
      |emotionHistory| <= EmotionHistoryLen && |faceHistory| <= FaceHistoryLen
    }

    constructor ()
      ensures Valid()
      ensures emotionHistory == [] && faceHistory == [] && isAvailable
      ensures frameCount == 0 && lastValidEmotions == None
    {
      emotionHistory := [];
      faceHistory := [];
      isAvailable := true;
      frameCount := 0;
      lastValidEmotions := None;
    }

    /** `_get_stable_emotions`. */
    method GetStableEmotions(current: Option<Dict>) returns (r: Dict)
      requires Valid()
      modifies this
      ensures Valid()
      ensures faceHistory == old(faceHistory) && frameCount == old(frameCount)
      ensures isAvailable == old(isAvailable)
      ensures |r| > 0
      ensures !Present(current) ==>
        && r == (if Present(old(lastValidEmotions)) then old(lastValidEmotions).value else NeutralEmotions())
        && emotionHistory == old(emotionHistory) && lastValidEmotions == old(lastValidEmotions)
      ensures Present(current) ==>
        && emotionHistory == Push(old(emotionHistory), current.value, EmotionHistoryLen)
        && r == (if |emotionHistory| >= 3 then Smooth(emotionHistory, current.value) else current.value)
        && lastValidEmotions == Some(r)
    {
      if !Present(current) {
        if Present(lastValidEmotions) {
          r := lastValidEmotions.value;
        } else {
          r := NeutralEmotions();
        }
        return;
      }
      var cur := current.value;
      emotionHistory := emotionHistory + [cur];
      if |emotionHistory| > EmotionHistoryLen {
        emotionHistory := emotionHistory[1..];
      }
      if |emotionHistory| >= 3 {
        var smoothed: Dict := [];
        var i := 0;
        while i < |cur|
          invariant 0 <= i <= |cur|
          invariant smoothed == Smooth(emotionHistory, cur)[..i]
        {
          smoothed := smoothed + [Entry(cur[i].emotion, SmoothedValue(emotionHistory, cur[i].emotion))];
          i := i + 1;
        }
        assert smoothed == Smooth(emotionHistory, cur);
        lastValidEmotions := Some(smoothed);
        r := smoothed;
      } else {
        lastValidEmotions := Some(cur);
        r := cur;
      }
    }

    /** `_select_best_face`. */
    method SelectBestFace(faces: seq<Box>, width: int, height: int) returns (r: Option<Box>)
      requires Valid()
      modifies this
      ensures Valid()
      ensures r == ChooseFace(faces, width, height, old(faceHistory))
      ensures faceHistory == if r.None? then old(faceHistory) else Push(old(faceHistory), r.value, FaceHistoryLen)
      ensures emotionHistory == old(emotionHistory) && lastValidEmotions == old(lastValidEmotions)
      ensures frameCount == old(frameCount) && isAvailable == old(isAvailable)
    {
      if |faces| == 0 {
        return None;
      }
      var valid := KeepValid(faces, width, height);
      if valid == [] {
        return None;
      }
      var best := valid[FirstMaxIndex(Areas(valid))];
      if |faceHistory| > 0 {
        var last := faceHistory[|faceHistory| - 1];
        if Abs(best.x - last.x) > JumpLimit || Abs(best.y - last.y) > JumpLimit {
          best := Box(BlendCoord(best.x, last.x), BlendCoord(best.y, last.y),
                      BlendCoord(best.w, last.w), BlendCoord(best.h, last.h));
        }
      }
      faceHistory := faceHistory + [best];
      if |faceHistory| > FaceHistoryLen {
        faceHistory := faceHistory[1..];
      }
      r := Some(best);
    }

    /** `_detect_face_multi_method`: FER boxes over 60 px, else the cascade's boxes, else
        dlib's boxes over 60 px; the first non-empty list is handed to `_select_best_face`. */
    method DetectFaceMultiMethod(fer: Option<seq<Box>>, cascade: Option<seq<Box>>, dlib: Option<seq<Box>>,
                                 width: int, height: int) returns (r: Option<Box>)
      requires Valid()
      modifies this
      ensures Valid()
      ensures r == ChooseFace(Candidates(fer, cascade, dlib), width, height, old(faceHistory))
      ensures faceHistory == if r.None? then old(faceHistory) else Push(old(faceHistory), r.value, FaceHistoryLen)
      ensures emotionHistory == old(emotionHistory) && lastValidEmotions == old(lastValidEmotions)
      ensures frameCount == old(frameCount) && isAvailable == old(isAvailable)
    {
      var faces: seq<Box> := [];
      if fer.Some? {
        faces := KeepLargeEnough(fer.value);
      }
      if faces == [] && cascade.Some? {
        var src := cascade.value;
        var i := 0;
        while i < |src|
          invariant 0 <= i <= |src|
          invariant faces == src[..i]
        {
          faces := faces + [src[i]];
          i := i + 1;
        }
        assert src[..|src|] == src;
      }
      if faces == [] && dlib.Some? {
        faces := KeepLargeEnough(dlib.value);
      }
      r := SelectBestFace(faces, width, height);
    }

    /** `detect_emotions`: the branches that fall back to the last known or the neutral
        output, around the classifier call. */
    method DetectEmotions(frame: Option<Frame>) returns (res: DetectionResult)
      requires Valid()
      requires frame.Some? ==> frame.value.width >= 0 && frame.value.height >= 0
      modifies this
      ensures Valid()
      ensures isAvailable == old(isAvailable)
      ensures frame.None? ==> res == NeutralOutput(NoBox) && unchanged(this)
      ensures frame.Some? ==> frameCount == old(frameCount) + 1
      ensures frame.Some? ==>
        var f := frame.value;
        var chosen := ChooseFace(Candidates(f.ferFaces, f.cascadeFaces, f.dlibFaces), f.width, f.height, old(faceHistory));
        && faceHistory == (if chosen.None? then old(faceHistory) else Push(old(faceHistory), chosen.value, FaceHistoryLen))
        && (chosen.None? ==>
              && emotionHistory == old(emotionHistory) && lastValidEmotions == old(lastValidEmotions)
              && res == (if Present(old(lastValidEmotions)) then LastKnownOutput(old(lastValidEmotions).value)
                         else NeutralOutput(NoBox)))
        && (chosen.Some? && (CropEmpty(chosen.value, f.width, f.height) || !f.ferAvailable || f.ferEmotions.None?) ==>
              && emotionHistory == old(emotionHistory) && lastValidEmotions == old(lastValidEmotions)
              && res == NeutralOutput(chosen.value))
        && (chosen.Some? && !CropEmpty(chosen.value, f.width, f.height) && f.ferAvailable && f.ferEmotions.Some? ==>
              && |res.probs| > 0 && res == DetectedOutput(res.probs, chosen.value)
              && (Present(f.ferEmotions) ==>
                    && emotionHistory == Push(old(emotionHistory), f.ferEmotions.value, EmotionHistoryLen)
                    && res.probs == (if |emotionHistory| >= 3 then Smooth(emotionHistory, f.ferEmotions.value)
                                     else f.ferEmotions.value)
                    && lastValidEmotions == Some(res.probs))
              && (!Present(f.ferEmotions) ==>
                    && emotionHistory == old(emotionHistory) && lastValidEmotions == old(lastValidEmotions)
                    && res.probs == (if Present(old(lastValidEmotions)) then old(lastValidEmotions).value
                                     else NeutralEmotions())))
    {
      if frame.None? {
        return NeutralOutput(NoBox);
      }
      var f := frame.value;
      frameCount := frameCount + 1;
      var bbox := DetectFaceMultiMethod(f.ferFaces, f.cascadeFaces, f.dlibFaces, f.width, f.height);
      if bbox.None? {
        if Present(lastValidEmotions) {
          return LastKnownOutput(lastValidEmotions.value);
        }
        return NeutralOutput(NoBox);
      }
      var b := bbox.value;
      if CropEmpty(b, f.width, f.height) {
        return NeutralOutput(b);
      }
      if !f.ferAvailable {
        return NeutralOutput(b);
      }
      if f.ferEmotions.None? {
        return NeutralOutput(b);
      }
      var stable := GetStableEmotions(f.ferEmotions);
      res := DetectedOutput(stable, b);
    }
  }

  /** The filtering loop of `_select_best_face`: keep the candidates that pass the size and
      position test, in order. */
  method KeepValid(faces: seq<Box>, width: int, height: int) returns (valid: seq<Box>)
    ensures valid == ValidFaces(faces, width, height)
  {
    var p := (b: Box) => IsValidFace(b, width, height);
    valid := [];
    var i := 0;
    while i < |faces|
      invariant 0 <= i <= |faces|
      invariant valid == Filter(faces[..i], p)
    {
      assert faces[..i + 1][..i] == faces[..i];
      if IsValidFace(faces[i], width, height) {
        valid := valid + [faces[i]];
      }
      i := i + 1;
    }
    assert faces[..|faces|] == faces;
  }

  /** The candidate loops of methods 1 and 3: keep the boxes larger than 60 px, in order. */
  method KeepLargeEnough(src: seq<Box>) returns (kept: seq<Box>)
    ensures kept == Filter(src, LargeEnough)
  {
    kept := [];
    var i := 0;
    while i < |src|
      invariant 0 <= i <= |src|
      invariant kept == Filter(src[..i], LargeEnough)
    {
      assert src[..i + 1][..i] == src[..i];
      if LargeEnough(src[i]) {
        kept := kept + [src[i]];
      }
      i := i + 1;
    }
    assert src[..|src|] == src;
  }
}
