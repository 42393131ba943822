/** The audio-visual correlation analyser (`_analyze_audio_visual_sync`): the absolute
    Pearson correlation between the normalised audio energy and the normalised
    frame-to-frame motion, 0.5 without audio or when any step raises. */
module AudioVisualAnalysis {
  import opened Floats
  import opened Results
  import opened Stats
  import opened Detector

  /** The decoded audio track, one row of channel samples per audio sample; the
      decoder always delivers at least one channel. */
  type SoundArray = s: seq<seq<real>> | forall i :: 0 <= i < |s| ==> |s[i]| > 0 witness []

  /** The step that raised inside the analyser's try block. */
  datatype Failure =
    | EmptyAudio      // min() of an empty energy series
    | NoMotion        // min() of an empty motion series: fewer than two frames
    | LengthMismatch  // corrcoef of series of different lengths: audio shorter than motion

  /** np.abs(audio_data.mean(axis=1)) */
  function AudioEnergy(samples: SoundArray): (energy: seq<real>)
    ensures |energy| == |samples| && AllAtLeast(energy, 0.0)
  {
    seq(|samples|, i requires 0 <= i < |samples| => RealAbs(Mean(samples[i])))
  }

  /** [mean(|frames[i + 1] - frames[i]|) for i in range(len(frames) - 1)] */
  function FrameDiffs<F>(p: Primitives<F>, frames: seq<F>): (diffs: seq<real>)
    ensures |diffs| == if frames == [] then 0 else |frames| - 1
  {
    var n := if frames == [] then 0 else |frames| - 1;
    seq(n, i requires 0 <= i < n => p.frameDiff(frames[i], frames[i + 1]))
  }

  /** xs[:n], which clamps to the length of xs */
  function Take(xs: seq<real>, n: nat): (r: seq<real>)
    ensures |r| == if |xs| < n then |xs| else n
    ensures forall i :: 0 <= i < |r| ==> r[i] == xs[i]
  {
    if |xs| < n then xs else xs[..n]
  }

  /** The body of the try block. It raises exactly when the audio is empty, the clip
      has fewer than two frames, or the audio is shorter than the motion series;
      otherwise it yields an absolute correlation, which is NaN or non-negative. */
  function Correlate<F>(p: Primitives<F>, frames: seq<F>, samples: SoundArray): (r: Result<Float, Failure>)
    ensures r.Err? <==> (|samples| == 0 || |frames| < 2 || |samples| < |frames| - 1)
    ensures r.Ok? ==> r.value.NaN? || 0.0 <= r.value.val
  {
    var energy := AudioEnergy(samples);
    var diffs := FrameDiffs(p, frames);
    if energy == [] then Err(EmptyAudio)
    else if diffs == [] then Err(NoMotion)
    else
      var audioSeries := Normalize(energy);
      var motionSeries := Normalize(diffs);
      var aligned := Take(audioSeries, |motionSeries|);
      if |aligned| != |motionSeries| then Err(LengthMismatch)
      else Ok(Abs(p.pearson(aligned, motionSeries)))
  }

  /** _analyze_audio_visual_sync */
  function AudioVisualScore<F>(p: Primitives<F>, frames: seq<F>, audio: Option<SoundArray>): (score: Float)
    ensures audio.None? ==> score == Finite(0.5)
    ensures audio.Some? && (|frames| < 2 || |audio.value| < |frames| - 1) ==> score == Finite(0.5)
    ensures score.Finite? ==> 0.0 <= score.val
  {
    match audio
    case None => Finite(0.5)
    case Some(samples) =>
      match Correlate(p, frames, samples)
      case Ok(v) => v
      case Err(_) => Finite(0.5)
  }

  /** Which step raises: min() of the energy series when the audio is empty, else
      min() of the motion series when the clip has fewer than two frames. */
  lemma CorrelateFailsIff<F>(p: Primitives<F>, frames: seq<F>, samples: SoundArray)
    ensures Correlate(p, frames, samples) == Err(EmptyAudio) <==> |samples| == 0
    ensures Correlate(p, frames, samples) == Err(NoMotion) <==> |samples| > 0 && |frames| < 2
  {
  }

  /** Otherwise both series have len(frames) - 1 entries, the audio series being the
      first len(frames) - 1 normalised energies, and the score is the absolute
      correlation of the two. */
  lemma CorrelateSucceeds<F>(p: Primitives<F>, frames: seq<F>, samples: SoundArray)
    requires 2 <= |frames| && |frames| - 1 <= |samples|
    ensures var motion := Normalize(FrameDiffs(p, frames));
      var audio := Take(Normalize(AudioEnergy(samples)), |frames| - 1);
      && |motion| == |frames| - 1 && |audio| == |frames| - 1
      && (forall i :: 0 <= i < |audio| ==> audio[i] == Normalize(AudioEnergy(samples))[i])
      && AudioVisualScore(p, frames, Some(samples)) == Abs(p.pearson(audio, motion))
  {
  }

  /** Both normalised series lie in [0, 1). */
  lemma SeriesInUnit<F>(p: Primitives<F>, frames: seq<F>, samples: SoundArray)
    requires 2 <= |frames| && samples != []
    ensures forall i :: 0 <= i < |frames| - 1 ==> 0.0 <= Normalize(FrameDiffs(p, frames))[i] < 1.0
    ensures forall i :: 0 <= i < |samples| ==> 0.0 <= Normalize(AudioEnergy(samples))[i] < 1.0
  {
    NormalizeInUnit(FrameDiffs(p, frames));
    NormalizeInUnit(AudioEnergy(samples));
  }

  /** With a sound correlation primitive the score is NaN or lies in [0, 1]. */
  lemma AudioVisualInUnit<F>(p: Primitives<F>, frames: seq<F>, audio: Option<SoundArray>)
    requires PearsonSound(p)
    ensures AudioVisualScore(p, frames, audio).Finite? ==> AudioVisualScore(p, frames, audio).val <= 1.0
  {
    if audio.Some? && 2 <= |frames| && |frames| - 1 <= |audio.value| {
      var motion := Normalize(FrameDiffs(p, frames));
      var aligned := Take(Normalize(AudioEnergy(audio.value)), |frames| - 1);
      var c := p.pearson(aligned, motion);
      assert c.Finite? ==> -1.0 <= c.val <= 1.0;
    }
  }

  /** A clip whose frames are all identical has a constant motion series, which
      normalises to all zeros; the epsilon guard keeps that division defined, but the
      correlation of a zero-variance series is NaN, and so is the score. */
  lemma StaticClipIsNaN<F>(p: Primitives<F>, frames: seq<F>, samples: SoundArray)
    requires PearsonSound(p)
    requires 2 <= |frames| && |frames| - 1 <= |samples|
    requires forall i :: 0 <= i < |frames| ==> frames[i] == frames[0]
    ensures AudioVisualScore(p, frames, Some(samples)) == NaN
  {
    var diffs := FrameDiffs(p, frames);
    assert forall i :: 0 <= i < |diffs| ==> diffs[i] == p.frameDiff(frames[0], frames[0]);
    assert Constant(diffs);
    var motion := Normalize(diffs);
    NormalizeConstant(diffs);
    assert Constant(motion);
    var aligned := Take(Normalize(AudioEnergy(samples)), |frames| - 1);
    assert p.pearson(aligned, motion) == NaN;
  }

  /** A clip of exactly two frames has a one-value motion series, whose correlation
      is NaN: with enough audio the score is NaN. */
  lemma TwoFrameClipIsNaN<F>(p: Primitives<F>, frames: seq<F>, samples: SoundArray)
    requires PearsonSound(p)
    requires |frames| == 2 && 1 <= |samples|
    ensures AudioVisualScore(p, frames, Some(samples)) == NaN
  {
    var motion := Normalize(FrameDiffs(p, frames));
    assert Constant(motion);
    var aligned := Take(Normalize(AudioEnergy(samples)), 1);
    assert p.pearson(aligned, motion) == NaN;
  }
}
