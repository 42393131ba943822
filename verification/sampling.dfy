/** The frame sampling shared by the facial and spectral analysers: the slice
    `frames[::10]`, every tenth frame starting at index 0. */
module Sampling {

  const FrameStride: nat := 10

  /** frames[::10] */
  function StrideSample<F>(frames: seq<F>): (sample: seq<F>)
    ensures |sample| == (|frames| + FrameStride - 1) / FrameStride
    ensures forall k :: 0 <= k < |sample| ==> sample[k] == frames[FrameStride * k]
    decreases |frames|
  {
    if frames == [] then []
    else [frames[0]] + StrideSample(if |frames| <= FrameStride then [] else frames[FrameStride..])
  }

  /** A frame is sampled exactly when its index is a multiple of the stride. */
  lemma SampledIndices<F>(frames: seq<F>, i: int)
    requires 0 <= i < |frames|
    ensures i % FrameStride == 0 <==> exists k :: 0 <= k < |StrideSample(frames)| && FrameStride * k == i
    ensures i % FrameStride == 0 ==> StrideSample(frames)[i / FrameStride] == frames[i]
  {
    var sample := StrideSample(frames);
    if i % FrameStride == 0 {
      var k := i / FrameStride;
      assert FrameStride * k == i;
      assert k < |sample|;
    }
  }

  /** The sample depends only on the frames at multiples of the stride. */
  lemma SampleOnlySeesStride<F>(a: seq<F>, b: seq<F>)
    requires |a| == |b|
    requires forall i :: 0 <= i < |a| && i % FrameStride == 0 ==> a[i] == b[i]
    ensures StrideSample(a) == StrideSample(b)
  {
    var sa, sb := StrideSample(a), StrideSample(b);
    forall k | 0 <= k < |sa| ensures sa[k] == sb[k] {
      assert (FrameStride * k) % FrameStride == 0;
    }
  }
}
