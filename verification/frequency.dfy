/** The spectral regularity analyser (`_analyze_frequency_domain`): on every tenth
    frame, 1 - std(spectrum) / mean(spectrum) of the log-magnitude spectrum,
    averaged; 0.5 when the clip has no frame. */
module FrequencyAnalysis {
  import opened Floats
  import opened Stats
  import opened Sampling
  import opened Detector

  /** The score of one sampled frame. A spectrum with mean 0 is all zeros, so its
      ratio is 0 / 0 (see ZeroMeanIsZeroOverZero). For a non-negative spectrum the
      score is NaN exactly when no value is non-zero. */
  function FrameScore<F>(p: Primitives<F>, frame: F): (r: Float)
    ensures AllAtLeast(p.logSpectrum(frame), 0.0) ==>
      (r.NaN? <==> forall i :: 0 <= i < |p.logSpectrum(frame)| ==> p.logSpectrum(frame)[i] == 0.0)
  {
    var spectrum := p.logSpectrum(frame);
    if spectrum == [] then NaN
    else
      assert AllAtLeast(spectrum, 0.0) ==> (Mean(spectrum) == 0.0 <==> forall i :: 0 <= i < |spectrum| ==> spectrum[i] == 0.0) by {
        if AllAtLeast(spectrum, 0.0) {
          MeanZeroIff(spectrum);
        }
      }
      if Mean(spectrum) == 0.0 then NaN
      else Finite(1.0 - p.std(spectrum) / Mean(spectrum))
  }

  /** freq_scores after visiting the frames of `sample` in order */
  function Collected<F>(p: Primitives<F>, sample: seq<F>): (scores: seq<Float>)
    ensures |scores| == |sample|
    ensures forall k :: 0 <= k < |sample| ==> scores[k] == FrameScore(p, sample[k])
  {
    if sample == [] then []
    else
      assert forall k :: 0 <= k < |sample| - 1 ==> sample[..|sample| - 1][k] == sample[k];
      Collected(p, sample[..|sample| - 1]) + [FrameScore(p, sample[|sample| - 1])]
  }

  /** The analyser's result as a function of the clip. */
  function FrequencyScore<F>(p: Primitives<F>, frames: seq<F>): Float {
    var scores := Collected(p, StrideSample(frames));
    if scores == [] then Finite(0.5) else MeanF(scores)
  }

  /** _analyze_frequency_domain */
  method AnalyzeFrequencyDomain<F>(p: Primitives<F>, frames: seq<F>) returns (score: Float)
    ensures score == FrequencyScore(p, frames)
  {
    var sample := StrideSample(frames);
    var freqScores: seq<Float> := [];
    for j := 0 to |sample|
      invariant freqScores == Collected(p, sample[..j])
    {
      var spectrum := p.logSpectrum(sample[j]);
      var frameScore: Float;
      if spectrum == [] {
        frameScore := NaN;
      } else {
        var meanSpectrum := Mean(spectrum);
        if meanSpectrum == 0.0 {
          frameScore := NaN;
        } else {
          frameScore := Finite(1.0 - p.std(spectrum) / meanSpectrum);
        }
      }
      freqScores := freqScores + [frameScore];
      assert sample[..j + 1][..j] == sample[..j];
    }
    assert sample[..|sample|] == sample;
    if |freqScores| > 0 {
      score := MeanF(freqScores);
    } else {
      score := Finite(0.5);
    }
  }

  /** Under a non-negative spectrum, a zero spectrum mean forces a zero standard
      deviation, so the source divides 0 by 0 and gets NaN. */
  lemma ZeroMeanIsZeroOverZero<F>(p: Primitives<F>, frame: F)
    requires StdSound(p) && AllAtLeast(p.logSpectrum(frame), 0.0)
    requires p.logSpectrum(frame) != [] && Mean(p.logSpectrum(frame)) == 0.0
    ensures p.std(p.logSpectrum(frame)) == 0.0
  {
    var s := p.logSpectrum(frame);
    MeanZeroIff(s);
    assert Constant(s);
  }

  /** The result is exactly 0.5 for an empty clip; otherwise it is the mean of one
      score for each of the ceil(n / 10) sampled frames, so a single NaN frame makes
      it NaN. */
  lemma FrequencyShape<F>(p: Primitives<F>, frames: seq<F>)
    ensures frames == [] ==> FrequencyScore(p, frames) == Finite(0.5)
    ensures frames != [] ==>
      var scores := Collected(p, StrideSample(frames));
      |scores| == (|frames| + FrameStride - 1) / FrameStride && FrequencyScore(p, frames) == MeanF(scores)
    ensures forall i :: 0 <= i < |frames| && i % FrameStride == 0 && FrameScore(p, frames[i]).NaN? ==>
      FrequencyScore(p, frames) == NaN
  {
    var sample := StrideSample(frames);
    forall i | 0 <= i < |frames| && i % FrameStride == 0 && FrameScore(p, frames[i]).NaN?
      ensures FrequencyScore(p, frames) == NaN
    {
      SampledIndices(frames, i);
      assert Collected(p, sample)[i / FrameStride].NaN?;
    }
  }

  /** A finite per-frame score is at most 1. */
  lemma FrameScoreAtMostOne<F>(p: Primitives<F>, frame: F)
    requires StdSound(p) && AllAtLeast(p.logSpectrum(frame), 0.0)
    ensures FrameScore(p, frame).Finite? ==> FrameScore(p, frame).val <= 1.0
  {
    var s := p.logSpectrum(frame);
    if s != [] && Mean(s) != 0.0 {
      var m := Mean(s);
      var q := p.std(s) / m;
      assert q * m == p.std(s);
      if q < 0.0 {
        ProductNonNegative(-q, m);
      }
    }
  }

  /** A finite spectral score never exceeds 1; no lower bound holds. */
  lemma FrequencyAtMostOne<F>(p: Primitives<F>, frames: seq<F>)
    requires StdSound(p) && SpectrumSound(p, frames)
    ensures FrequencyScore(p, frames).Finite? ==> FrequencyScore(p, frames).val <= 1.0
  {
    var sample := StrideSample(frames);
    var scores := Collected(p, sample);
    forall k | 0 <= k < |scores| && scores[k].Finite? ensures scores[k].val <= 1.0 {
      assert sample[k] == frames[FrameStride * k];
      FrameScoreAtMostOne(p, sample[k]);
    }
    if scores != [] && MeanF(scores).Finite? {
      MeanFAtMost(scores, 1.0);
    }
  }

  /** The analyser reads only the frames at indices 0, 10, 20, ... */
  lemma FrequencyOnlySeesStride<F>(p: Primitives<F>, a: seq<F>, b: seq<F>)
    requires |a| == |b|
    requires forall i :: 0 <= i < |a| && i % FrameStride == 0 ==> a[i] == b[i]
    ensures FrequencyScore(p, a) == FrequencyScore(p, b)
  {
    SampleOnlySeesStride(a, b);
  }
}
