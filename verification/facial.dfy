/** The facial stability analyser (`_analyze_face_movement`): on every tenth frame,
    the consistency of the detected face areas, 1 - std(areas) / mean(areas),
    averaged over the frames that produced one; 0.5 when none did. */
module FacialAnalysis {
  import opened Floats
  import opened Results
  import opened Stats
  import opened Sampling
  import opened Detector

  /** [w * h for (_, _, w, h) in faces] */
  function Areas(faces: seq<Box>): (areas: seq<real>)
    ensures |areas| == |faces| && AllAtLeast(areas, 0.0)
  {
    seq(|faces|, i requires 0 <= i < |faces| => (faces[i].w * faces[i].h) as real)
  }

  /** The score one sampled frame contributes; None when it has no face or its
      mean face area is 0, that is, exactly when no detected face has a positive area. */
  function FrameScore<F>(p: Primitives<F>, frame: F): (r: Option<real>)
    ensures r.Some? <==> exists i :: 0 <= i < |p.detectFaces(frame)| && 0 < p.detectFaces(frame)[i].w * p.detectFaces(frame)[i].h
  {
    var faces := p.detectFaces(frame);
    if |faces| == 0 then None
    else
      var areas := Areas(faces);
      MeanZeroIff(areas);
      assert forall i :: 0 <= i < |faces| ==> (areas[i] == 0.0 <==> faces[i].w * faces[i].h == 0);
      if Mean(areas) == 0.0 then None else Some(1.0 - p.std(areas) / Mean(areas))
  }

  /** facial_scores after visiting the frames of `sample` in order: at most one score
      per frame, and exactly one per frame when every frame yields one. */
  function Collected<F>(p: Primitives<F>, sample: seq<F>): (scores: seq<real>)
    ensures |scores| <= |sample|
    ensures (forall j :: 0 <= j < |sample| ==> FrameScore(p, sample[j]).Some?) ==> |scores| == |sample|
  {
    if sample == [] then []
    else
      assert forall j :: 0 <= j < |sample| - 1 ==> sample[..|sample| - 1][j] == sample[j];
      Collected(p, sample[..|sample| - 1]) +
      match FrameScore(p, sample[|sample| - 1])
      case Some(s) => [s]
      case None => []
  }

  /** The analyser's result as a function of the clip. */
  function FacialScore<F>(p: Primitives<F>, frames: seq<F>): real {
    var scores := Collected(p, StrideSample(frames));
    if scores == [] then 0.5 else Mean(scores)
  }

  /** _analyze_face_movement */
  method AnalyzeFaceMovement<F>(p: Primitives<F>, frames: seq<F>) returns (score: real)
    ensures score == FacialScore(p, frames)
  {
    var sample := StrideSample(frames);
    var facialScores: seq<real> := [];
    for j := 0 to |sample|
      invariant facialScores == Collected(p, sample[..j])
    {
      var faces := p.detectFaces(sample[j]);
      if |faces| > 0 {
        var areas := Areas(faces);
        var meanArea := Mean(areas);
        if meanArea != 0.0 {
          facialScores := facialScores + [1.0 - p.std(areas) / meanArea];
        }
      }
      assert sample[..j + 1][..j] == sample[..j];
    }
    assert sample[..|sample|] == sample;
    if |facialScores| > 0 {
      score := Mean(facialScores);
    } else {
      score := 0.5;
    }
  }

  /** Nothing is collected exactly when no sampled frame yields a score. */
  lemma {:induction false} CollectedEmpty<F>(p: Primitives<F>, sample: seq<F>)
    ensures Collected(p, sample) == [] <==> forall k :: 0 <= k < |sample| ==> FrameScore(p, sample[k]).None?
  {
    if sample != [] {
      var init := sample[..|sample| - 1];
      CollectedEmpty(p, init);
      assert forall k :: 0 <= k < |init| ==> init[k] == sample[k];
    }
  }

  /** With no face in any sampled frame the analyser returns exactly 0.5. */
  lemma NoFacesIsNeutral<F>(p: Primitives<F>, frames: seq<F>)
    requires forall i :: 0 <= i < |frames| && i % FrameStride == 0 ==> p.detectFaces(frames[i]) == []
    ensures FacialScore(p, frames) == 0.5
  {
    var sample := StrideSample(frames);
    forall k | 0 <= k < |sample| ensures FrameScore(p, sample[k]).None? {
      assert (FrameStride * k) % FrameStride == 0;
    }
    CollectedEmpty(p, sample);
  }

  /** Each collected per-frame score is at most 1: areas are non-negative, so a
      non-zero mean area is positive, and a standard deviation is non-negative. */
  lemma FrameScoreAtMostOne<F>(p: Primitives<F>, frame: F)
    requires StdSound(p)
    ensures FrameScore(p, frame).Some? ==> FrameScore(p, frame).value <= 1.0
  {
    var faces := p.detectFaces(frame);
    if |faces| > 0 {
      var areas := Areas(faces);
      var m := Mean(areas);
      if m != 0.0 {
        DivInUnit(0.0, m);
        var q := p.std(areas) / m;
        assert q * m == p.std(areas);
        if q < 0.0 {
          ProductNonNegative(-q, m);
        }
      }
    }
  }

  lemma {:induction false} CollectedAtMostOne<F>(p: Primitives<F>, sample: seq<F>)
    requires StdSound(p)
    ensures AllAtMost(Collected(p, sample), 1.0)
  {
    if sample != [] {
      CollectedAtMostOne(p, sample[..|sample| - 1]);
      FrameScoreAtMostOne(p, sample[|sample| - 1]);
    }
  }

  /** The facial score never exceeds 1 (it can be negative: a spread of areas wider
      than their mean). */
  lemma FacialAtMostOne<F>(p: Primitives<F>, frames: seq<F>)
    requires StdSound(p)
    ensures FacialScore(p, frames) <= 1.0
  {
    var scores := Collected(p, StrideSample(frames));
    CollectedAtMostOne(p, StrideSample(frames));
    if scores != [] {
      assert AllAtMost(scores, 1.0);
    }
  }

  /** The analyser reads only the frames at indices 0, 10, 20, ... */
  lemma FacialOnlySeesStride<F>(p: Primitives<F>, a: seq<F>, b: seq<F>)
    requires |a| == |b|
    requires forall i :: 0 <= i < |a| && i % FrameStride == 0 ==> a[i] == b[i]
    ensures FacialScore(p, a) == FacialScore(p, b)
  {
    SampleOnlySeesStride(a, b);
  }

  /** Faces whose areas in one frame are all the same positive value. */
  predicate UniformFaces(faces: seq<Box>) {
    faces != [] && 0 < faces[0].w * faces[0].h &&
    forall i :: 0 <= i < |faces| ==> faces[i].w * faces[i].h == faces[0].w * faces[0].h
  }

  lemma UniformFrameScoresOne<F>(p: Primitives<F>, frame: F)
    requires StdSound(p) && UniformFaces(p.detectFaces(frame))
    ensures FrameScore(p, frame) == Some(1.0)
  {
    var faces := p.detectFaces(frame);
    var areas := Areas(faces);
    var c := (faces[0].w * faces[0].h) as real;
    assert forall i :: 0 <= i < |areas| ==> areas[i] == c;
    MeanOfConstant(areas, c);
    assert Constant(areas);
  }

  lemma {:induction false} CollectedAllOne<F>(p: Primitives<F>, sample: seq<F>)
    requires StdSound(p)
    requires forall k :: 0 <= k < |sample| ==> UniformFaces(p.detectFaces(sample[k]))
    ensures |Collected(p, sample)| == |sample|
    ensures forall k :: 0 <= k < |sample| ==> Collected(p, sample)[k] == 1.0
  {
    if sample != [] {
      var init := sample[..|sample| - 1];
      assert forall k :: 0 <= k < |init| ==> init[k] == sample[k];
      CollectedAllOne(p, init);
      UniformFrameScoresOne(p, sample[|sample| - 1]);
    }
  }

  /** A non-empty clip whose every sampled frame shows faces of one constant positive
      area has a facial score of exactly 1. */
  lemma UniformFacesScoreOne<F>(p: Primitives<F>, frames: seq<F>)
    requires StdSound(p) && frames != []
    requires forall i :: 0 <= i < |frames| && i % FrameStride == 0 ==> UniformFaces(p.detectFaces(frames[i]))
    ensures FacialScore(p, frames) == 1.0
  {
    var sample := StrideSample(frames);
    forall k | 0 <= k < |sample| ensures UniformFaces(p.detectFaces(sample[k])) {
      assert (FrameStride * k) % FrameStride == 0;
    }
    CollectedAllOne(p, sample);
    MeanOfConstant(Collected(p, sample), 1.0);
  }
}
