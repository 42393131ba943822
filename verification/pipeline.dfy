/** The scoring entry point (`process_video`): the score dict is created with all three
    keys, each analyser overwrites its own entry once, and the dict is fused. Decoding
    the video file into frames and an optional audio track happens before this. */
module Pipeline {
  import opened Floats
  import opened Results
  import opened Detector
  import opened Sampling
  import opened FacialAnalysis
  import opened FrequencyAnalysis
  import opened AudioVisualAnalysis
  import opened Fusion

  /** The report process_video returns, as a function of the decoded clip. The dict
      lists facial, frequency, audio_visual in that order; the fused score weighs the
      three analysers 0.4, 0.3, 0.3 and is NaN exactly when the spectral or the
      audio-visual score is; a clip without audio always flags audio_visual. */
  function ScoreVideo<F>(p: Primitives<F>, frames: seq<F>, audio: Option<SoundArray>): (r: Report)
    ensures Keys(r.componentScores) == [Facial, Frequency, AudioVisual]
    ensures var q, a := FrequencyScore(p, frames), AudioVisualScore(p, frames, audio);
      && (r.finalScore.NaN? <==> q.NaN? || a.NaN?)
      && (q.Finite? && a.Finite? ==> r.finalScore == Finite(0.4 * FacialScore(p, frames) + 0.3 * q.val + 0.3 * a.val))
    ensures audio.None? ==> AudioVisual in r.interpretation.anomalies
  {
    var f, q, a := Finite(FacialScore(p, frames)), FrequencyScore(p, frames), AudioVisualScore(p, frames, audio);
    StandardReport(f, q, a);
    StandardAnomalies(f, q, a);
    CalculateFinalScore(Standard(f, q, a))
  }

  /** process_video, after decoding */
  method ProcessVideo<F>(p: Primitives<F>, frames: seq<F>, audio: Option<SoundArray>) returns (r: Report)
    ensures Keys(r.componentScores) == [Facial, Frequency, AudioVisual]
    ensures r.componentScores ==
      Standard(Finite(FacialScore(p, frames)), FrequencyScore(p, frames), AudioVisualScore(p, frames, audio))
    ensures r == ScoreVideo(p, frames, audio)
  {
    var scores := Standard(Finite(0.0), Finite(0.0), Finite(0.0));
    assert Keys(scores) == [Facial, Frequency, AudioVisual];

    var facial := AnalyzeFaceMovement(p, frames);
    scores := Put(scores, Facial, Finite(facial));
    var frequency := AnalyzeFrequencyDomain(p, frames);
    scores := Put(scores, Frequency, frequency);
    scores := Put(scores, AudioVisual, AudioVisualScore(p, frames, audio));

    assert scores[0].0 == Keys(scores)[0] && scores[1].0 == Keys(scores)[1] && scores[2].0 == Keys(scores)[2];
    assert scores == Standard(Finite(facial), frequency, AudioVisualScore(p, frames, audio));
    r := CalculateFinalScore(scores);
  }

  /** The clip of the end-to-end scenario: every sampled frame shows faces of one
      constant positive area and there is no audio. Facial stability is exactly 1,
      audio-visual is exactly 0.5, and the fused score is 0.55 + 0.3 frequency, real
      exactly when the spectral score exceeds 0.5. */
  lemma UniformFacesWithoutAudio<F>(p: Primitives<F>, frames: seq<F>)
    requires StdSound(p) && frames != []
    requires forall i :: 0 <= i < |frames| && i % FrameStride == 0 ==> UniformFaces(p.detectFaces(frames[i]))
    ensures var r := ScoreVideo(p, frames, None);
      var q := FrequencyScore(p, frames);
      && r.componentScores == Standard(Finite(1.0), q, Finite(0.5))
      && (q.Finite? ==> r.finalScore == Finite(0.55 + 0.3 * q.val))
      && (r.interpretation.verdict == Real <==> Greater(q, 0.5))
      && AudioVisual in r.interpretation.anomalies && Facial !in r.interpretation.anomalies
  {
    UniformFacesScoreOne(p, frames);
    var q := FrequencyScore(p, frames);
    StandardFinalScore(Finite(1.0), q, Finite(0.5));
    StandardAnomalies(Finite(1.0), q, Finite(0.5));
  }

  /** A clip with no face in any sampled frame and no audio can never be judged real:
      its fused score is at most 0.65, and facial and audio_visual are both anomalies. */
  lemma NoFacesNoAudioNeverReal<F>(p: Primitives<F>, frames: seq<F>)
    requires StdSound(p) && SpectrumSound(p, frames)
    requires forall i :: 0 <= i < |frames| && i % FrameStride == 0 ==> p.detectFaces(frames[i]) == []
    ensures var r := ScoreVideo(p, frames, None);
      && r.interpretation.verdict == LikelyDeepfake
      && (r.finalScore.Finite? ==> r.finalScore.val <= 0.65)
      && Facial in r.interpretation.anomalies && AudioVisual in r.interpretation.anomalies
  {
    NoFacesIsNeutral(p, frames);
    FrequencyAtMostOne(p, frames);
    var q := FrequencyScore(p, frames);
    StandardFinalScore(Finite(0.5), q, Finite(0.5));
    StandardAnomalies(Finite(0.5), q, Finite(0.5));
  }

  /** A static clip (all frames identical, at least two) with enough audio gets a NaN
      audio-visual score: the report says likely deepfake, its fused score and
      confidence are NaN, and audio_visual is not listed as an anomaly. */
  lemma StaticClipWithAudio<F>(p: Primitives<F>, frames: seq<F>, samples: SoundArray)
    requires PearsonSound(p)
    requires 2 <= |frames| && |frames| - 1 <= |samples|
    requires forall i :: 0 <= i < |frames| ==> frames[i] == frames[0]
    ensures var r := ScoreVideo(p, frames, Some(samples));
      && r.finalScore == NaN && r.interpretation.confidence == NaN
      && r.interpretation.verdict == LikelyDeepfake
      && AudioVisual !in r.interpretation.anomalies
  {
    StaticClipIsNaN(p, frames, samples);
    NaNComponent(Finite(FacialScore(p, frames)), FrequencyScore(p, frames), NaN, AudioVisual);
  }

  /** The report depends on the visual analysers only through frames 0, 10, 20, ...
      and on the rest of the clip only through the audio-visual score. */
  lemma OnlyStrideFramesReachVisualScores<F>(p: Primitives<F>, a: seq<F>, b: seq<F>, audio: Option<SoundArray>)
    requires |a| == |b|
    requires forall i :: 0 <= i < |a| && i % FrameStride == 0 ==> a[i] == b[i]
    requires AudioVisualScore(p, a, audio) == AudioVisualScore(p, b, audio)
    ensures ScoreVideo(p, a, audio) == ScoreVideo(p, b, audio)
  {
    FacialOnlySeesStride(p, a, b);
    FrequencyOnlySeesStride(p, a, b);
  }
}
