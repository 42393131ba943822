/** The series statistics the scorer computes itself: sum, mean, minimum, maximum and
    the epsilon-guarded min-max normalisation of the audio-visual analyser. */
module Stats {
  import opened Floats

  function Sum(xs: seq<real>): real {
    if xs == [] then 0.0 else Sum(xs[..|xs| - 1]) + xs[|xs| - 1]
  }

  /** np.mean of a non-empty series: it lies between any lower and any upper bound
      of the series. */
  function Mean(xs: seq<real>): (m: real)
    requires xs != []
    ensures forall b :: AllAtMost(xs, b) ==> m <= b
    ensures forall b :: AllAtLeast(xs, b) ==> b <= m
  {
    var n := |xs| as real;
    assert forall b :: AllAtMost(xs, b) ==> Sum(xs) / n <= b by {
      forall b | AllAtMost(xs, b) ensures Sum(xs) / n <= b {
        SumAtMost(xs, b);
        assert (Sum(xs) / n) * n == Sum(xs);
      }
    }
    assert forall b :: AllAtLeast(xs, b) ==> b <= Sum(xs) / n by {
      forall b | AllAtLeast(xs, b) ensures b <= Sum(xs) / n {
        SumAtLeast(xs, b);
        assert (Sum(xs) / n) * n == Sum(xs);
      }
    }
    Sum(xs) / n
  }

  predicate AllAtMost(xs: seq<real>, b: real) {
    forall i :: 0 <= i < |xs| ==> xs[i] <= b
  }

  predicate AllAtLeast(xs: seq<real>, b: real) {
    forall i :: 0 <= i < |xs| ==> b <= xs[i]
  }

  ghost predicate Constant(xs: seq<real>) {
    forall i, j :: 0 <= i < |xs| && 0 <= j < |xs| ==> xs[i] == xs[j]
  }

  lemma {:induction false} SumAtMost(xs: seq<real>, b: real)
    requires AllAtMost(xs, b)
    ensures Sum(xs) <= (|xs| as real) * b
  {
    if xs != [] {
      var init := xs[..|xs| - 1];
      assert AllAtMost(init, b) by {
        forall i | 0 <= i < |init| ensures init[i] <= b { assert init[i] == xs[i]; }
      }
      SumAtMost(init, b);
      assert (|init| as real) * b + b == (|xs| as real) * b;
    }
  }

  lemma {:induction false} SumAtLeast(xs: seq<real>, b: real)
    requires AllAtLeast(xs, b)
    ensures (|xs| as real) * b <= Sum(xs)
  {
    if xs != [] {
      var init := xs[..|xs| - 1];
      assert AllAtLeast(init, b) by {
        forall i | 0 <= i < |init| ensures b <= init[i] { assert init[i] == xs[i]; }
      }
      SumAtLeast(init, b);
      assert (|init| as real) * b + b == (|xs| as real) * b;
    }
  }

  /** The mean of a series whose every value is c is c. */
  lemma MeanOfConstant(xs: seq<real>, c: real)
    requires xs != [] && forall i :: 0 <= i < |xs| ==> xs[i] == c
    ensures Mean(xs) == c
  {
    assert AllAtMost(xs, c) && AllAtLeast(xs, c);
  }

  lemma {:induction false} ElementAtMostSum(xs: seq<real>, k: int)
    requires AllAtLeast(xs, 0.0) && 0 <= k < |xs|
    ensures xs[k] <= Sum(xs)
  {
    var init := xs[..|xs| - 1];
    assert AllAtLeast(init, 0.0) by {
      forall i | 0 <= i < |init| ensures 0.0 <= init[i] { assert init[i] == xs[i]; }
    }
    SumAtLeast(init, 0.0);
    if k < |init| {
      ElementAtMostSum(init, k);
    }
  }

  /** A non-negative series has mean 0 exactly when it is all zeros. */
  lemma MeanZeroIff(xs: seq<real>)
    requires xs != [] && AllAtLeast(xs, 0.0)
    ensures Mean(xs) == 0.0 <==> forall i :: 0 <= i < |xs| ==> xs[i] == 0.0
  {
    if Mean(xs) == 0.0 {
      var n := |xs| as real;
      assert Sum(xs) == Mean(xs) * n;
      forall i | 0 <= i < |xs| ensures xs[i] == 0.0 {
        ElementAtMostSum(xs, i);
      }
    }
    if forall i :: 0 <= i < |xs| ==> xs[i] == 0.0 {
      MeanOfConstant(xs, 0.0);
    }
  }

  /** min() of a non-empty series */
  function Min(xs: seq<real>): (m: real)
    requires xs != []
    ensures m in xs && AllAtLeast(xs, m)
  {
    if |xs| == 1 then xs[0]
    else
      var rest := Min(xs[..|xs| - 1]);
      assert forall i :: 0 <= i < |xs| - 1 ==> xs[..|xs| - 1][i] == xs[i];
      if xs[|xs| - 1] < rest then xs[|xs| - 1] else rest
  }

  /** max() of a non-empty series */
  function Max(xs: seq<real>): (m: real)
    requires xs != []
    ensures m in xs && AllAtMost(xs, m)
  {
    if |xs| == 1 then xs[0]
    else
      var rest := Max(xs[..|xs| - 1]);
      assert forall i :: 0 <= i < |xs| - 1 ==> xs[..|xs| - 1][i] == xs[i];
      if xs[|xs| - 1] > rest then xs[|xs| - 1] else rest
  }

  /** The additive guard in the normaliser's denominator, 1e-6. */
  const Epsilon: real := 0.000001

  /** (xs - min) / (max - min + 1e-6) */
  function Normalize(xs: seq<real>): (r: seq<real>)
    requires xs != []
    ensures |r| == |xs|
  {
    var lo, hi := Min(xs), Max(xs);
    seq(|xs|, i requires 0 <= i < |xs| => (xs[i] - lo) / (hi - lo + Epsilon))
  }

  lemma DivInUnit(a: real, b: real)
    requires 0.0 <= a < b
    ensures 0.0 <= a / b < 1.0
  {
    assert (a / b) * b == a;
  }

  lemma ProductNonNegative(x: real, y: real)
    requires 0.0 <= x && 0.0 <= y
    ensures 0.0 <= x * y
  {
  }

  /** Every normalised value lies in [0, 1): the epsilon keeps the denominator
      positive and strictly above every numerator. */
  lemma NormalizeInUnit(xs: seq<real>)
    requires xs != []
    ensures forall i :: 0 <= i < |xs| ==> 0.0 <= Normalize(xs)[i] < 1.0
  {
    var lo, hi := Min(xs), Max(xs);
    forall i | 0 <= i < |xs| ensures 0.0 <= Normalize(xs)[i] < 1.0 {
      DivInUnit(xs[i] - lo, hi - lo + Epsilon);
    }
  }

  /** A series normalises to all zeros exactly when it is constant. */
  lemma NormalizeConstant(xs: seq<real>)
    requires xs != []
    ensures Constant(xs) <==> forall i :: 0 <= i < |xs| ==> Normalize(xs)[i] == 0.0
  {
    var lo, hi := Min(xs), Max(xs);
    var d := hi - lo + Epsilon;
    assert d > 0.0;
    if Constant(xs) {
      forall i | 0 <= i < |xs| ensures Normalize(xs)[i] == 0.0 {
        assert xs[i] == lo;
      }
    }
    if forall i :: 0 <= i < |xs| ==> Normalize(xs)[i] == 0.0 {
      forall i | 0 <= i < |xs| ensures xs[i] == lo {
        assert Normalize(xs)[i] == (xs[i] - lo) / d;
        assert ((xs[i] - lo) / d) * d == xs[i] - lo;
      }
    }
  }

  lemma DivMonotone(a: real, b: real, d: real)
    requires 0.0 < d
    ensures a <= b <==> a / d <= b / d
  {
    var qa, qb := a / d, b / d;
    assert qa * d == a && qb * d == b;
    if qa <= qb {
      ProductNonNegative(qb - qa, d);
    } else {
      ProductNonNegative(qa - qb, d);
      assert (qa - qb) * d == a - b;
      assert a != b;
    }
  }

  /** Normalisation keeps the order of any two values, in both directions. */
  lemma NormalizeMonotone(xs: seq<real>, i: int, j: int)
    requires xs != [] && 0 <= i < |xs| && 0 <= j < |xs|
    ensures xs[i] <= xs[j] <==> Normalize(xs)[i] <= Normalize(xs)[j]
  {
    var lo, hi := Min(xs), Max(xs);
    DivMonotone(xs[i] - lo, xs[j] - lo, hi - lo + Epsilon);
  }

  /** np.sum of a list of floats, from 0: NaN exactly when one entry is NaN. */
  function SumF(xs: seq<Float>): (s: Float)
    ensures s.NaN? <==> exists i :: 0 <= i < |xs| && xs[i].NaN?
  {
    if xs == [] then Finite(0.0)
    else
      var init := xs[..|xs| - 1];
      assert forall i :: 0 <= i < |init| ==> init[i] == xs[i];
      Add(SumF(init), xs[|xs| - 1])
  }

  /** np.mean of a non-empty list of floats: NaN exactly when one entry is NaN. */
  function MeanF(xs: seq<Float>): (m: Float)
    requires xs != []
    ensures m.NaN? <==> exists i :: 0 <= i < |xs| && xs[i].NaN?
  {
    var s := SumF(xs);
    if s.Finite? then Finite(s.val / (|xs| as real)) else NaN
  }

  lemma {:induction false} SumFAtMost(xs: seq<Float>, b: real)
    requires forall i :: 0 <= i < |xs| && xs[i].Finite? ==> xs[i].val <= b
    requires SumF(xs).Finite?
    ensures SumF(xs).val <= (|xs| as real) * b
  {
    if xs != [] {
      var init := xs[..|xs| - 1];
      assert forall i :: 0 <= i < |init| ==> init[i] == xs[i];
      SumFAtMost(init, b);
      assert (|init| as real) * b + b == (|xs| as real) * b;
    }
  }

  /** A finite mean of floats never exceeds a bound of its finite entries. */
  lemma MeanFAtMost(xs: seq<Float>, b: real)
    requires xs != []
    requires forall i :: 0 <= i < |xs| && xs[i].Finite? ==> xs[i].val <= b
    requires MeanF(xs).Finite?
    ensures MeanF(xs).val <= b
  {
    var n := |xs| as real;
    assert SumF(xs).Finite? && MeanF(xs).val == SumF(xs).val / n;
    SumFAtMost(xs, b);
    assert MeanF(xs).val * n == SumF(xs).val;
  }
}
