/** The numerical core shared by the gyroscope and the accelerometer
    engines: the cumulative integral ("thetas"), the overlapping Allan
    variance over second differences, cluster times, deviations, and the
    average sample spacing. Sample values are reals; the loops mirror the
    source's loops. */
module Variance {
  import opened Strides
  import opened Arith

  /** w[0] + ... + w[|w|-1], accumulated left to right. */
  function Sum(w: seq<real>): real
  {
    if w == [] then 0.0 else Sum(w[..|w| - 1]) + w[|w| - 1]
  }

  lemma SumStep(w: seq<real>, i: nat)
    requires i < |w|
    ensures Sum(w[..i + 1]) == Sum(w[..i]) + w[i]
  {
    assert w[..i + 1][..i] == w[..i];
  }

  /** calcThetas: thetas[i] is the running sum of the first i+1 samples
      divided by the frequency. */
  method CalcThetas(w: seq<real>, freq: real) returns (thetas: seq<real>)
    requires freq != 0.0
    ensures |thetas| == |w|
    ensures forall i :: 0 <= i < |w| ==> thetas[i] == Sum(w[..i + 1]) / freq
  {
    thetas := [];
    var sum := 0.0;
    for i := 0 to |w|
      invariant |thetas| == i
      invariant sum == Sum(w[..i])
      invariant forall j :: 0 <= j < i ==> thetas[j] == Sum(w[..j + 1]) / freq
    {
      SumStep(w, i);
      sum := sum + w[i];
      thetas := thetas + [sum / freq];
    }
  }

  /** Differencing the thetas gives back the samples: the integral is
      invertible, so no sample is lost. */
  lemma ThetasRecoverSamples(w: seq<real>, freq: real, i: nat)
    requires freq != 0.0 && 0 < i < |w|
    ensures Sum(w[..1]) / freq == w[0] / freq
    ensures Sum(w[..i + 1]) / freq - Sum(w[..i]) / freq == w[i] / freq
  {
    SumStep(w, 0);
    SumStep(w, i);
  }

  /** The second difference at offset k for stride m. */
  function SecondDiff(th: seq<real>, m: nat, k: nat): real
    requires k + 2 * m < |th|
  {
    th[k + 2 * m] - 2.0 * th[k + m] + th[k]
  }

  /** The sum of the first `count` squared second differences at stride m. */
  function SumSq(th: seq<real>, m: nat, count: nat): (s: real)
    requires count + 2 * m <= |th|
    ensures s >= 0.0
  {
    if count == 0 then 0.0
    else SumSq(th, m, count - 1) + SecondDiff(th, m, count - 1) * SecondDiff(th, m, count - 1)
  }

  /** The divisor 2 (m period)^2 windows of calcVariance. */
  function ClusterDivisor(period: real, m: nat, windows: nat): real
  {
    2.0 * Square(period * (m as real)) * (windows as real)
  }

  lemma DivisorPositive(period: real, m: nat, windows: nat)
    requires period != 0.0 && m >= 1 && windows >= 1
    ensures ClusterDivisor(period, m, windows) > 0.0
  {
    assert period * (m as real) != 0.0;
    SquarePositive(period * (m as real));
    ProductPositive(2.0 * Square(period * (m as real)), windows as real);
  }

  /** The overlapping Allan variance at stride m:
      sum of squared second differences / (2 (m period)^2 (n - 2m)). */
  function AllanVar(th: seq<real>, m: nat, period: real): (v: real)
    requires 1 <= m && 2 * m < |th| && period != 0.0
    ensures v >= 0.0
  {
    var windows := |th| - 2 * m;
    DivisorPositive(period, m, windows);
    SumSq(th, m, windows) / ClusterDivisor(period, m, windows)
  }

  /** What calcVariance needs of the first numFactors factors. */
  predicate FactorsFit(factors: seq<int>, numFactors: nat, numData: nat)
  {
    numFactors <= |factors| &&
    forall i :: 0 <= i < numFactors ==> 1 <= factors[i] && 2 * factors[i] < numData
  }

  /** calcVariance: for each selected factor, accumulate the squared
      second differences over the windows k, k+factor, k+2 factor and
      divide by 2 (factor period)^2 (numData - 2 factor). */
  method CalcVariance(thetas: seq<real>, factors: seq<int>, numFactors: nat, numData: nat, period: real)
    returns (sigma2: seq<real>)
    requires |thetas| == numData && period != 0.0
    requires FactorsFit(factors, numFactors, numData)
    ensures |sigma2| == numFactors
    ensures forall i :: 0 <= i < numFactors ==> sigma2[i] == AllanVar(thetas, factors[i], period)
    ensures forall i :: 0 <= i < numFactors ==> sigma2[i] >= 0.0
  {
    var acc := new real[numFactors](_ => 0.0);
    for i := 0 to numFactors
      invariant forall j :: 0 <= j < i ==> acc[j] == AllanVar(thetas, factors[j], period)
      invariant forall j :: i <= j < numFactors ==> acc[j] == 0.0
    {
      var factor := factors[i];
      var clusterPeriod2 := Square(period * (factor as real));
      var divided := 2.0 * clusterPeriod2 * ((numData - 2 * factor) as real);
      var max := numData - 2 * factor;
      var sum := 0.0;
      for k := 0 to max
        invariant sum == SumSq(thetas, factor, k)
      {
        var temp := thetas[k + 2 * factor] - 2.0 * thetas[k + factor] + thetas[k];
        sum := sum + temp * temp;
      }
      assert divided == ClusterDivisor(period, factor, max);
      DivisorPositive(period, factor, max);
      acc[i] := sum / divided;
    }
    sigma2 := acc[..];
  }

  /** Adding a + b*k to every theta (a constant offset and a constant
      rate) leaves every second difference, hence the sum, unchanged. */
  lemma {:induction false} SumSqIgnoresLinearTrend(th: seq<real>, th2: seq<real>, a: real, b: real, m: nat, count: nat)
    requires |th2| == |th| && count + 2 * m <= |th|
    requires forall k :: 0 <= k < |th| ==> th2[k] == th[k] + a + b * k as real
    ensures SumSq(th2, m, count) == SumSq(th, m, count)
  {
    if count > 0 {
      SumSqIgnoresLinearTrend(th, th2, a, b, m, count - 1);
      var k := count - 1;
      assert b * (k + 2 * m) as real - 2.0 * (b * (k + m) as real) + b * k as real == 0.0;
      assert SecondDiff(th2, m, k) == SecondDiff(th, m, k);
    }
  }

  lemma {:induction false} SumShifted(w: seq<real>, w2: seq<real>, c: real)
    requires |w2| == |w|
    requires forall i :: 0 <= i < |w| ==> w2[i] == w[i] + c
    ensures Sum(w2) == Sum(w) + |w| as real * c
  {
    if |w| > 0 {
      SumShifted(w[..|w| - 1], w2[..|w2| - 1], c);
    }
  }

  lemma ThetaShift(w: seq<real>, w2: seq<real>, c: real, freq: real, k: nat)
    requires freq != 0.0 && k < |w|
    requires |w2| == |w| && forall i :: 0 <= i < |w| ==> w2[i] == w[i] + c
    ensures Sum(w2[..k + 1]) / freq == Sum(w[..k + 1]) / freq + c / freq + (c / freq) * k as real
  {
    SumShifted(w[..k + 1], w2[..k + 1], c);
    var s := Sum(w[..k + 1]);
    var n := (k + 1) as real;
    assert Sum(w2[..k + 1]) == s + n * c;
    DivideSum(s, n * c, freq);
    assert (n * c) / freq == n * (c / freq);
  }

  /** A constant bias c on every sample does not change the Allan
      variance at any stride: the estimator only sees fluctuations. */
  lemma AllanVarIgnoresBias(w: seq<real>, w2: seq<real>, c: real, freq: real,
                            th: seq<real>, th2: seq<real>, m: nat, period: real)
    requires freq != 0.0 && period != 0.0 && 1 <= m && 2 * m < |w|
    requires |w2| == |w| && forall i :: 0 <= i < |w| ==> w2[i] == w[i] + c
    requires |th| == |w| && forall i :: 0 <= i < |w| ==> th[i] == Sum(w[..i + 1]) / freq
    requires |th2| == |w| && forall i :: 0 <= i < |w| ==> th2[i] == Sum(w2[..i + 1]) / freq
    ensures AllanVar(th2, m, period) == AllanVar(th, m, period)
  {
    var r := c / freq;
    forall k | 0 <= k < |th|
      ensures th2[k] == th[k] + r + r * k as real
    {
      ThetaShift(w, w2, c, freq, k);
    }
    SumSqIgnoresLinearTrend(th, th2, r, r, m, |th| - 2 * m);
  }

  /** A series whose thetas grow linearly (constant rate) has zero
      Allan variance at every stride. */
  lemma {:induction false} LinearThetasHaveZeroSumSq(th: seq<real>, a: real, b: real, m: nat, count: nat)
    requires count + 2 * m <= |th|
    requires forall k :: 0 <= k < |th| ==> th[k] == a + b * k as real
    ensures SumSq(th, m, count) == 0.0
  {
    if count > 0 {
      LinearThetasHaveZeroSumSq(th, a, b, m, count - 1);
      var k := count - 1;
      assert b * (k + 2 * m) as real - 2.0 * (b * (k + m) as real) + b * k as real == 0.0;
      assert SecondDiff(th, m, k) == 0.0;
    }
  }

  predicate StrictlyIncreasingReals(s: seq<real>)
  {
    forall i, j :: 0 <= i < j < |s| ==> s[i] < s[j]
  }

  /** getTimes: the duration of each cluster, period * factor. */
  method ClusterTimes(factors: seq<int>, numFactors: nat, period: real) returns (times: seq<real>)
    requires numFactors <= |factors|
    ensures |times| == numFactors
    ensures forall i :: 0 <= i < numFactors ==> times[i] == period * factors[i] as real
    ensures period > 0.0 && StrictlyIncreasing(factors[..numFactors]) ==> StrictlyIncreasingReals(times)
  {
    var time := new real[numFactors](_ => 0.0);
    for i := 0 to numFactors
      invariant forall j :: 0 <= j < i ==> time[j] == period * factors[j] as real
    {
      var factor := factors[i];
      time[i] := period * factor as real;
    }
    times := time[..];
    if period > 0.0 && StrictlyIncreasing(factors[..numFactors]) {
      forall i, j | 0 <= i < j < numFactors
        ensures times[i] < times[j]
      {
        assert factors[..numFactors][i] < factors[..numFactors][j];
        assert (factors[j] - factors[i]) as real > 0.0;
        assert times[j] - times[i] == period * (factors[j] - factors[i]) as real;
      }
    }
  }

  /** A square-root function on the non-negative reals. */
  ghost predicate IsSquareRoot(sqrt: real -> real)
  {
    forall x :: x >= 0.0 ==> sqrt(x) >= 0.0 && sqrt(x) * sqrt(x) == x
  }

  /** The loop of getDeviation: one square root per variance. */
  method Deviations(sigma2: seq<real>, sqrt: real -> real) returns (sigma: seq<real>)
    ensures |sigma| == |sigma2|
    ensures forall i :: 0 <= i < |sigma2| ==> sigma[i] == sqrt(sigma2[i])
    ensures IsSquareRoot(sqrt) && (forall i :: 0 <= i < |sigma2| ==> sigma2[i] >= 0.0) ==>
              forall i :: 0 <= i < |sigma2| ==> sigma[i] >= 0.0 && sigma[i] * sigma[i] == sigma2[i]
  {
    sigma := [];
    for i := 0 to |sigma2|
      invariant |sigma| == i
      invariant forall j :: 0 <= j < i ==> sigma[j] == sqrt(sigma2[j])
    {
      sigma := sigma + [sqrt(sigma2[i])];
    }
  }

  /** (t[1] - t[0]) + (t[2] - t[1]) + ... accumulated left to right. */
  function SumOfSteps(t: seq<real>): real
  {
    if |t| <= 1 then 0.0 else SumOfSteps(t[..|t| - 1]) + (t[|t| - 1] - t[|t| - 2])
  }

  lemma {:induction false} StepsTelescope(t: seq<real>)
    requires |t| >= 1
    ensures SumOfSteps(t) == t[|t| - 1] - t[0]
  {
    if |t| > 1 {
      StepsTelescope(t[..|t| - 1]);
    }
  }

  /** getAvgDt: the sum of consecutive time differences over n - 1,
      which telescopes to the time span over n - 1. */
  method AvgDt(t: seq<real>) returns (dt: real)
    requires |t| >= 2
    ensures dt == SumOfSteps(t) / (|t| - 1) as real
    ensures dt == (t[|t| - 1] - t[0]) / (|t| - 1) as real
  {
    var sumDt := 0.0;
    var startT := t[0];
    var first := true;
    for i := 0 to |t|
      invariant first <==> i == 0
      invariant i > 0 ==> startT == t[i - 1] && sumDt == SumOfSteps(t[..i])
      invariant i == 0 ==> sumDt == 0.0
    {
      if !first {
        assert t[..i + 1][..i] == t[..i];
        sumDt := sumDt + (t[i] - startT);
      }
      startT := t[i];
      first := false;
    }
    assert t[..|t|] == t;
    StepsTelescope(t);
    dt := sumDt / (|t| - 1) as real;
  }

  /** For evenly spaced timestamps the average dt is the spacing. */
  lemma UniformSpacingAvgDt(t: seq<real>, d: real)
    requires |t| >= 2
    requires forall i :: 0 <= i < |t| ==> t[i] == t[0] + i as real * d
    ensures SumOfSteps(t) / (|t| - 1) as real == d
  {
    var n1 := (|t| - 1) as real;
    assert t[|t| - 1] - t[0] == n1 * d;
    StepsTelescope(t);
    QuotientOfProduct(n1, d);
  }

  /** getAvgValue: the mean of the samples. */
  method AvgValue(w: seq<real>) returns (avg: real)
    requires |w| >= 1
    ensures avg == Sum(w) / |w| as real
    ensures (forall i :: 0 <= i < |w| ==> w[i] == w[0]) ==> avg == w[0]
  {
    var sum := 0.0;
    var num := 0;
    for i := 0 to |w|
      invariant num == i && sum == Sum(w[..i])
    {
      SumStep(w, i);
      sum := sum + w[i];
      num := num + 1;
    }
    assert w[..|w|] == w;
    avg := sum / num as real;
    if forall i :: 0 <= i < |w| ==> w[i] == w[0] {
      SumOfConstant(w, w[0]);
      assert Sum(w) == (|w| as real) * w[0];
    }
  }

  lemma {:induction false} SumOfConstant(w: seq<real>, c: real)
    requires forall i :: 0 <= i < |w| ==> w[i] == c
    ensures Sum(w) == |w| as real * c
  {
    if |w| > 0 {
      SumOfConstant(w[..|w| - 1], c);
    }
  }
}
