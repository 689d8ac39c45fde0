/** The emotion-probability mapping shared by the detector, the fallback generator, the
    trigger logic and the analytics. A Python dict `{label: probability}` is modelled as an
    association list in insertion order, because the program's `max(d, key=d.get)` returns
    the first key (in insertion order) that attains the maximum. */
module Emotions {
  import opened Common

  datatype Label = Angry | Disgust | Fear | Happy | Sad | Surprise | Neutral

  /** The label list `EMOTIONS` of the configuration, in its order. */
  const Labels: seq<Label> := [Angry, Disgust, Fear, Happy, Sad, Surprise, Neutral]

  datatype Entry = Entry(emotion: Label, p: real)
  type Dict = seq<Entry>

  function Keys(d: Dict): seq<Label> {
    seq(|d|, i requires 0 <= i < |d| => d[i].emotion)
  }

  function Values(d: Dict): seq<real> {
    seq(|d|, i requires 0 <= i < |d| => d[i].p)
  }

  /** `sum(d.values())`. */
  function Total(d: Dict): real {
    if d == [] then 0.0 else d[0].p + Total(d[1..])
  }

  /** `d.get(k, 0)`. */
  function Get(d: Dict, k: Label): real {
    if d == [] then 0.0 else if d[0].emotion == k then d[0].p else Get(d[1..], k)
  }

  /** What holds of every real Python dict: no label occurs twice. */
  ghost predicate DistinctLabels(d: Dict) {
    forall i, j :: 0 <= i < j < |d| ==> d[i].emotion != d[j].emotion
  }

  ghost predicate NonNegative(d: Dict) {
    forall i :: 0 <= i < |d| ==> d[i].p >= 0.0
  }

  ghost predicate InUnitInterval(d: Dict) {
    forall i :: 0 <= i < |d| ==> 0.0 <= d[i].p <= 1.0
  }

  /** A probability vector: non-negative values summing to one. */
  ghost predicate IsDistribution(d: Dict) {
    NonNegative(d) && Total(d) == 1.0
  }

  /** Position of `max(d, key=d.get)`. */
  function DominantIndex(d: Dict): (i: nat)
    requires |d| > 0
    ensures i < |d|
    ensures forall j :: 0 <= j < |d| ==> d[j].p <= d[i].p
    ensures forall j :: 0 <= j < i ==> d[j].p < d[i].p
  {
    var vs := Values(d);
    var k := FirstMaxIndex(vs);
    assert forall j :: 0 <= j < |d| ==> vs[j] == d[j].p;
    k
  }

  /** `max(d, key=d.get)`: the first label holding the largest probability. */
  function Dominant(d: Dict): Label
    requires |d| > 0
  {
    d[DominantIndex(d)].emotion
  }

  /** `{k: v / total for k, v in d.items()}`. */
  function DivideAll(d: Dict, total: real): (r: Dict)
    requires total != 0.0
    ensures |r| == |d| && Keys(r) == Keys(d)
    ensures forall i :: 0 <= i < |d| ==> r[i].p == d[i].p / total
  {
    seq(|d|, i requires 0 <= i < |d| => Entry(d[i].emotion, d[i].p / total))
  }

  /** Dividing every value by `t` divides the total by `t`. */
  lemma {:induction false} TotalDivided(d: Dict, t: real)
    requires t != 0.0
    ensures Total(DivideAll(d, t)) == Total(d) / t
  {
    if d != [] {
      TotalDivided(d[1..], t);
      var r := DivideAll(d, t);
      assert r[1..] == DivideAll(d[1..], t);
      assert Total(r) == d[0].p / t + Total(d[1..]) / t;
      DivideSum(d[0].p, Total(d[1..]), t);
    }
  }

  lemma DivideSum(a: real, b: real, t: real)
    requires t != 0.0
    ensures a / t + b / t == (a + b) / t
  {
  }

  lemma {:induction false} TotalConstant(d: Dict, c: real)
    requires forall i :: 0 <= i < |d| ==> d[i].p == c
    ensures Total(d) == (|d| as real) * c
  {
    if d != [] {
      TotalConstant(d[1..], c);
    }
  }

  lemma {:induction false} TotalAtLeast(d: Dict, c: real)
    requires forall i :: 0 <= i < |d| ==> d[i].p >= c
    ensures Total(d) >= (|d| as real) * c
  {
    if d != [] {
      TotalAtLeast(d[1..], c);
    }
  }

  lemma {:induction false} TotalNonNegative(d: Dict)
    requires NonNegative(d)
    ensures Total(d) >= 0.0
  {
    if d != [] {
      TotalNonNegative(d[1..]);
    }
  }

  lemma {:induction false} GetAbsent(d: Dict, k: Label)
    requires forall i :: 0 <= i < |d| ==> d[i].emotion != k
    ensures Get(d, k) == 0.0
  {
    if d != [] {
      assert d[0].emotion != k;
      GetAbsent(d[1..], k);
    }
  }

  /** A missing label counts as 0; a present one contributes one of the dict's values. */
  lemma {:induction false} GetInUnitInterval(d: Dict, k: Label)
    requires InUnitInterval(d)
    ensures 0.0 <= Get(d, k) <= 1.0
  {
    if d != [] && d[0].emotion != k {
      GetInUnitInterval(d[1..], k);
    }
  }

  lemma {:induction false} GetNonNegative(d: Dict, k: Label)
    requires NonNegative(d)
    ensures Get(d, k) >= 0.0
  {
    if d != [] && d[0].emotion != k {
      GetNonNegative(d[1..], k);
    }
  }

  /** The probability mass on the four negative labels never exceeds the total mass. */
  lemma {:induction false} NegativeMassAtMostTotal(d: Dict)
    requires DistinctLabels(d) && NonNegative(d)
    ensures 0.0 <= Get(d, Angry) + Get(d, Disgust) + Get(d, Fear) + Get(d, Sad) <= Total(d)
  {
    if d == [] {
    } else {
      var t := d[1..];
      NegativeMassAtMostTotal(t);
      GetAbsent(t, d[0].emotion);
      GetNonNegative(t, Angry);
      GetNonNegative(t, Disgust);
      GetNonNegative(t, Fear);
      GetNonNegative(t, Sad);
    }
  }
}
