/** Score fusion (`_calculate_final_score`): the weighted sum of the component scores,
    the verdict, the confidence and the ordered list of anomalous components. */
module Fusion {
  import opened Floats

  datatype Component = Facial | Frequency | AudioVisual

  datatype Verdict = Real | LikelyDeepfake

  /** The score dict: component names with their scores, in insertion order. */
  type Bundle = seq<(Component, Float)>

  datatype Interpretation = Interpretation(verdict: Verdict, confidence: Float, anomalies: seq<Component>)

  datatype Report = Report(finalScore: Float, componentScores: Bundle, interpretation: Interpretation)

  /** A fused score strictly above this is judged real. */
  const RealThreshold: real := 0.7

  /** A component scoring strictly below this is an anomaly. */
  const AnomalyThreshold: real := 0.7

  function Weight(c: Component): real {
    match c
    case Facial => 0.4
    case Frequency => 0.3
    case AudioVisual => 0.3
  }

  function Keys(b: Bundle): seq<Component> {
    seq(|b|, i requires 0 <= i < |b| => b[i].0)
  }

  /** The three components with their scores, in the order the dict literal lists them. */
  function Standard(facial: Float, frequency: Float, audioVisual: Float): (b: Bundle)
    ensures Keys(b) == [Facial, Frequency, AudioVisual]
  {
    var b := [(Facial, facial), (Frequency, frequency), (AudioVisual, audioVisual)];
    assert Keys(b)[0] == Facial && Keys(b)[1] == Frequency && Keys(b)[2] == AudioVisual;
    b
  }

  /** scores[c] = v: overwrites the entry in place, or appends a new one. */
  function Put(b: Bundle, c: Component, v: Float): (r: Bundle)
    ensures c in Keys(b) ==> Keys(r) == Keys(b)
    ensures c !in Keys(b) ==> Keys(r) == Keys(b) + [c]
    ensures forall i :: 0 <= i < |b| ==> r[i].1 == if b[i].0 == c then v else b[i].1
    ensures c !in Keys(b) ==> r[|b|].1 == v
  {
    if c in Keys(b) then seq(|b|, i requires 0 <= i < |b| => if b[i].0 == c then (c, v) else b[i])
    else
      assert forall i :: 0 <= i < |b| ==> Keys(b)[i] == b[i].0;
      b + [(c, v)]
  }

  /** sum(scores[c] * weights[c] for c in scores), starting from 0: NaN exactly when
      one score is NaN, and non-negative when every score is. */
  function WeightedSum(b: Bundle): (s: Float)
    ensures s.NaN? <==> exists i :: 0 <= i < |b| && b[i].1.NaN?
    ensures (forall i :: 0 <= i < |b| ==> b[i].1.Finite? && 0.0 <= b[i].1.val) ==> s.Finite? && 0.0 <= s.val
  {
    if b == [] then Finite(0.0)
    else
      var init := b[..|b| - 1];
      assert forall i :: 0 <= i < |init| ==> init[i] == b[i];
      Add(WeightedSum(init), Scale(b[|b| - 1].1, Weight(b[|b| - 1].0)))
  }

  /** [c for c in scores if scores[c] < 0.7] */
  function Anomalies(b: Bundle): (r: seq<Component>)
    ensures forall c :: c in r <==> exists i :: 0 <= i < |b| && b[i].0 == c && Less(b[i].1, AnomalyThreshold)
  {
    if b == [] then []
    else
      var init := b[..|b| - 1];
      assert forall i :: 0 <= i < |init| ==> init[i] == b[i];
      Anomalies(init) + if Less(b[|b| - 1].1, AnomalyThreshold) then [b[|b| - 1].0] else []
  }

  /** |s - 0.5| * 2: NaN exactly for a NaN score, otherwise non-negative, and in
      [0, 1] for a score in [0, 1]. */
  function Confidence(s: Float): (r: Float)
    ensures r.NaN? <==> s.NaN?
    ensures r.Finite? ==> 0.0 <= r.val
    ensures InUnit(s) ==> InUnit(r)
  {
    Scale(Abs(Minus(s, 0.5)), 2.0)
  }

  /** _calculate_final_score */
  function CalculateFinalScore(b: Bundle): (r: Report)
    ensures r.componentScores == b
    ensures r.interpretation.verdict == Real <==> Greater(r.finalScore, RealThreshold)
    ensures r.interpretation.confidence.NaN? <==> r.finalScore.NaN?
    ensures forall c :: c in r.interpretation.anomalies <==>
      exists i :: 0 <= i < |b| && b[i].0 == c && Less(b[i].1, AnomalyThreshold)
  {
    var s := WeightedSum(b);
    Report(s, b, Interpretation(if Greater(s, RealThreshold) then Real else LikelyDeepfake, Confidence(s), Anomalies(b)))
  }

  /** The fused score of the three components is 0.4 facial + 0.3 frequency
      + 0.3 audio_visual, and NaN as soon as one of them is NaN. */
  lemma StandardFinalScore(f: Float, q: Float, a: Float)
    ensures WeightedSum(Standard(f, q, a)) ==
      if f.Finite? && q.Finite? && a.Finite? then Finite(0.4 * f.val + 0.3 * q.val + 0.3 * a.val) else NaN
  {
    var b := Standard(f, q, a);
    var b2 := b[..2];
    var b1 := b2[..1];
    assert b2 == [(Facial, f), (Frequency, q)] && b1 == [(Facial, f)] && b1[..0] == [];
    assert WeightedSum(b1) == Add(Finite(0.0), Scale(f, 0.4));
    assert WeightedSum(b2) == Add(WeightedSum(b1), Scale(q, 0.3));
    assert WeightedSum(b) == Add(WeightedSum(b2), Scale(a, 0.3));
  }

  /** The report of the three components: the fused score is 0.4 facial + 0.3
      frequency + 0.3 audio_visual (NaN when one is NaN), the confidence is
      |score - 0.5| * 2, and the verdict is real exactly when the score exceeds 0.7. */
  lemma StandardReport(f: Float, q: Float, a: Float)
    ensures var r := CalculateFinalScore(Standard(f, q, a));
      f.Finite? && q.Finite? && a.Finite? ==>
        var s := 0.4 * f.val + 0.3 * q.val + 0.3 * a.val;
        && r.finalScore == Finite(s)
        && r.interpretation.confidence == Finite(RealAbs(s - 0.5) * 2.0)
        && (r.interpretation.verdict == Real <==> s > 0.7)
    ensures var r := CalculateFinalScore(Standard(f, q, a));
      f.NaN? || q.NaN? || a.NaN? ==>
        r.finalScore == NaN && r.interpretation.confidence == NaN && r.interpretation.verdict == LikelyDeepfake
  {
    StandardFinalScore(f, q, a);
  }

  /** Components in [0, 1] give a fused score in [0, 1]. */
  lemma FinalScoreInUnit(f: Float, q: Float, a: Float)
    requires InUnit(f) && InUnit(q) && InUnit(a)
    ensures InUnit(CalculateFinalScore(Standard(f, q, a)).finalScore)
  {
    StandardFinalScore(f, q, a);
  }

  /** Confidence is 0 at 0.5, 0.4 at 0.7 and 1 at 1.0. */
  lemma ConfidenceFacts(s: Float)
    ensures Confidence(Finite(0.5)) == Finite(0.0)
    ensures Confidence(Finite(0.7)) == Finite(0.4)
    ensures Confidence(Finite(1.0)) == Finite(1.0)
    ensures s.Finite? ==> Confidence(s) == Finite(RealAbs(s.val - 0.5) * 2.0)
  {
  }

  /** The anomalies of the three components: exactly those below 0.7, in the order
      facial, frequency, audio_visual. */
  lemma StandardAnomalies(f: Float, q: Float, a: Float)
    ensures Anomalies(Standard(f, q, a)) ==
      (if Less(f, AnomalyThreshold) then [Facial] else []) +
      (if Less(q, AnomalyThreshold) then [Frequency] else []) +
      (if Less(a, AnomalyThreshold) then [AudioVisual] else [])
  {
    var b := Standard(f, q, a);
    var b2 := b[..2];
    var b1 := b2[..1];
    assert b2 == [(Facial, f), (Frequency, q)] && b1 == [(Facial, f)] && b1[..0] == [];
    assert Anomalies(b1) == [] + if Less(f, AnomalyThreshold) then [Facial] else [];
    assert Anomalies(b2) == Anomalies(b1) + if Less(q, AnomalyThreshold) then [Frequency] else [];
    assert Anomalies(b) == Anomalies(b2) + if Less(a, AnomalyThreshold) then [AudioVisual] else [];
  }

  /** {facial: 0.9, frequency: 0.6, audio_visual: 0.65} flags frequency and
      audio_visual; its fused score 0.735 is judged real. */
  lemma AnomaliesExample()
    ensures var r := CalculateFinalScore(Standard(Finite(0.9), Finite(0.6), Finite(0.65)));
      r.interpretation.anomalies == [Frequency, AudioVisual] && r.finalScore == Finite(0.735) &&
      r.interpretation.verdict == Real
  {
    StandardAnomalies(Finite(0.9), Finite(0.6), Finite(0.65));
    StandardFinalScore(Finite(0.9), Finite(0.6), Finite(0.65));
  }

  /** The threshold is strict: three components at exactly 0.7 fuse to 0.7, are
      judged a likely deepfake, and none of them is an anomaly. */
  lemma ThresholdIsStrict()
    ensures var r := CalculateFinalScore(Standard(Finite(0.7), Finite(0.7), Finite(0.7)));
      r.finalScore == Finite(0.7) && r.interpretation.verdict == LikelyDeepfake &&
      r.interpretation.anomalies == [] && r.interpretation.confidence == Finite(0.4)
  {
    StandardAnomalies(Finite(0.7), Finite(0.7), Finite(0.7));
    StandardFinalScore(Finite(0.7), Finite(0.7), Finite(0.7));
  }

  /** A NaN component makes the fused score and the confidence NaN, the verdict a
      likely deepfake, and is itself not listed as an anomaly. */
  lemma NaNComponent(f: Float, q: Float, a: Float, c: Component)
    requires (c == Facial && f.NaN?) || (c == Frequency && q.NaN?) || (c == AudioVisual && a.NaN?)
    ensures var r := CalculateFinalScore(Standard(f, q, a));
      r.finalScore == NaN && r.interpretation.confidence == NaN &&
      r.interpretation.verdict == LikelyDeepfake && c !in r.interpretation.anomalies
  {
    StandardFinalScore(f, q, a);
    StandardAnomalies(f, q, a);
  }
}
