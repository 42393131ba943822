/** The external numeric and vision capabilities the scorer calls, passed explicitly.
    A frame is an opaque type parameter `F`: the scorer never looks inside a frame
    except through these capabilities. */
module Detector {
  import opened Floats
  import opened Stats

  /** A face bounding box (x, y, width, height) as the cascade detector reports it. */
  datatype Box = Box(x: int, y: int, w: nat, h: nat)

  datatype Primitives<!F> = Primitives(
    /** face detection on the grayscale frame (scale factor 1.3, 5 neighbours) */
    detectFaces: F -> seq<Box>,
    /** population standard deviation of a series */
    std: seq<real> -> real,
    /** log(|fftshift(fft2(gray))| + 1), flattened */
    logSpectrum: F -> seq<real>,
    /** mean absolute pixel difference between a frame and the next one */
    frameDiff: (F, F) -> real,
    /** Pearson correlation coefficient of two series of equal length */
    pearson: (seq<real>, seq<real>) -> Float)

  /** A standard deviation is never negative and is 0 on a constant series. */
  ghost predicate StdSound<F>(p: Primitives<F>) {
    && (forall xs :: 0.0 <= p.std(xs))
    && (forall xs :: Constant(xs) ==> p.std(xs) == 0.0)
  }

  /** log(|z| + 1) is never negative: the spectrum of every frame of a clip. */
  predicate SpectrumSound<F>(p: Primitives<F>, frames: seq<F>) {
    forall i :: 0 <= i < |frames| ==> AllAtLeast(p.logSpectrum(frames[i]), 0.0)
  }

  /** A correlation coefficient is NaN or lies in [-1, 1], and it is NaN when either
      series has zero variance. */
  ghost predicate PearsonSound<F>(p: Primitives<F>) {
    && (forall x, y :: p.pearson(x, y).Finite? ==> -1.0 <= p.pearson(x, y).val <= 1.0)
    && (forall x, y :: |x| == |y| && (Constant(x) || Constant(y)) ==> p.pearson(x, y) == NaN)
  }
}
