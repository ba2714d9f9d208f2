/** The accelerometer engine imu::AllanAcc: the same pipeline as the
    gyroscope engine over acceleration samples (in m/s^2). */
module AccLib {
  import opened Strides
  import opened Variance
  import opened Units

  /** One accelerometer sample: the acceleration a and its time in seconds. */
  datatype AccData = AccData(a: real, t: real)

  /** The accelerations of a run of samples, in order. */
  function Accels(d: seq<AccData>): seq<real>
  {
    seq(|d|, i requires 0 <= i < |d| => d[i].a)
  }

  /** The timestamps of a run of samples, in order. */
  function Stamps(d: seq<AccData>): seq<real>
  {
    seq(|d|, i requires 0 <= i < |d| => d[i].t)
  }

  class AllanAcc {
    const name: string
    const numCluster: int
    var rawData: seq<AccData>
    var numData: int
    var freq: real
    var thetas: seq<real>
    var factors: seq<int>
    var numFactors: int
    var variance: seq<real>

    /** The counter always equals the number of stored samples. */
    predicate Valid()
      reads this
    {
      numData == |rawData|
    }

    /** Thetas and strides are in place for calcVariance: one theta per
        sample and every kept factor leaves at least one window. */
    predicate StridesReady()
      reads this
    {
      Valid() && |thetas| == numData && 0 <= numFactors &&
      FactorsFit(factors, numFactors, numData)
    }

    /** The stored variances are those of the current thetas and factors
        at the given sampling period. */
    predicate Calculated(period: real)
      reads this
    {
      StridesReady() && period != 0.0 && |variance| == numFactors &&
      forall i :: 0 <= i < numFactors ==> variance[i] == AllanVar(thetas, factors[i], period)
    }

    constructor(name: string, maxCluster: int)
      ensures this.name == name && numCluster == maxCluster
      ensures rawData == [] && numData == 0
      ensures Valid()
    {
      this.name := name;
      numCluster := maxCluster;
      rawData := [];
      numData := 0;
      freq := 0.0;
      thetas := [];
      factors := [];
      numFactors := 0;
      variance := [];
    }

    /** pushRadPerSec: scales like the gyroscope engine does (rad/s to
        degree/hour), although the sample is an acceleration. */
    method PushRadPerSec(data: real, time: real)
      modifies this`rawData, this`numData
      ensures rawData == old(rawData) + [AccData(data * RadToDeg * SecondsPerHour, time)]
      ensures numData == old(numData) + 1
      ensures old(Valid()) ==> Valid()
    {
      rawData := rawData + [AccData(data * RadToDeg * SecondsPerHour, time)];
      numData := numData + 1;
    }

    /** pushDegreePerSec: scales like the gyroscope engine does (degree/s
        to degree/hour), although the sample is an acceleration. */
    method PushDegreePerSec(data: real, time: real)
      modifies this`rawData, this`numData
      ensures rawData == old(rawData) + [AccData(data * SecondsPerHour, time)]
      ensures numData == old(numData) + 1
      ensures old(Valid()) ==> Valid()
    {
      rawData := rawData + [AccData(data * SecondsPerHour, time)];
      numData := numData + 1;
    }

    /** pushMPerSec2: store an acceleration in m/s^2 unchanged. */
    method PushMPerSec2(data: real, time: real)
      modifies this`rawData, this`numData
      ensures rawData == old(rawData) + [AccData(data, time)]
      ensures numData == old(numData) + 1
      ensures old(Valid()) ==> Valid()
    {
      rawData := rawData + [AccData(data, time)];
      numData := numData + 1;
    }

    /** calc: store the frequency, integrate the accelerations into thetas, pick
        the strides from the log-spaced points for the current sample
        count, and compute the variance at each stride. The averages
        avgFreq and avgPeriod, and the log-space generator, are inputs. */
    method Calc(avgFreq: real, avgPeriod: real, logSpace: nat -> seq<real>)
      requires Valid() && numData >= 1 && numCluster >= 1
      requires avgFreq != 0.0 && avgPeriod != 0.0
      requires |logSpace(MaxStrideOf(numData))| == numCluster
      requires StridesFit(Ceiled(logSpace(MaxStrideOf(numData))), numData)
      modifies this`freq, this`thetas, this`factors, this`numFactors, this`variance
      ensures rawData == old(rawData) && numData == old(numData)
      ensures freq == avgFreq
      ensures |thetas| == numData
      ensures forall i :: 0 <= i < numData ==> thetas[i] == Sum(Accels(rawData)[..i + 1]) / avgFreq
      ensures |factors| == numCluster && 1 <= numFactors <= numCluster
      ensures factors[..numFactors] == Kept(Ceiled(logSpace(MaxStrideOf(numData))))
      ensures forall i :: numFactors <= i < numCluster ==> factors[i] == 0
      ensures Calculated(avgPeriod)
      ensures forall i :: 0 <= i < numFactors ==> 1 <= factors[i] && 2 * factors[i] < numData && variance[i] >= 0.0
    {
      freq := avgFreq;
      var period := avgPeriod;
      thetas := CalcThetas(freq);
      InitStrides(logSpace);
      variance := CalcVariance(period);
    }

    /** getVariance: the variances of the last calc. */
    function GetVariance(): (v: seq<real>)
      reads this
      ensures (exists period :: Calculated(period)) ==> |v| == numFactors && forall i :: 0 <= i < |v| ==> v[i] >= 0.0
    {
      variance
    }

    /** getDeviation recomputes the variances at the given period rather
        than reading the stored ones, then takes one square root each. */
    method GetDeviation(period: real, sqrt: real -> real) returns (sigma: seq<real>)
      requires StridesReady() && period != 0.0
      ensures |sigma| == numFactors
      ensures forall i :: 0 <= i < numFactors ==> sigma[i] == sqrt(AllanVar(thetas, factors[i], period))
      ensures Calculated(period) ==> forall i :: 0 <= i < numFactors ==> sigma[i] == sqrt(variance[i])
      ensures IsSquareRoot(sqrt) ==>
                forall i :: 0 <= i < numFactors ==>
                  sigma[i] >= 0.0 && sigma[i] * sigma[i] == AllanVar(thetas, factors[i], period)
    {
      var sigma2 := CalcVariance(period);
      sigma := Deviations(sigma2, sqrt);
    }

    /** getTimes: the duration period * factor of each kept stride. */
    method GetTimes(period: real) returns (time: seq<real>)
      requires 0 <= numFactors <= |factors|
      ensures |time| == numFactors
      ensures forall i :: 0 <= i < numFactors ==> time[i] == period * (factors[i] as real)
      ensures period > 0.0 && StrictlyIncreasing(factors[..numFactors]) ==> StrictlyIncreasingReals(time)
    {
      time := ClusterTimes(factors, numFactors, period);
    }

    /** getFactors: the whole numCluster-slot buffer, zero past numFactors. */
    function GetFactors(): (f: seq<int>)
      reads this
      ensures StridesReady() ==> numFactors <= |f| && forall i :: 0 <= i < numFactors ==> 1 <= f[i] && 2 * f[i] < numData
    {
      factors
    }

    /** calcVariance over the current thetas and kept strides. */
    method CalcVariance(period: real) returns (sigma2: seq<real>)
      requires StridesReady() && period != 0.0
      ensures |sigma2| == numFactors
      ensures forall i :: 0 <= i < numFactors ==> sigma2[i] == AllanVar(thetas, factors[i], period)
      ensures forall i :: 0 <= i < numFactors ==> sigma2[i] >= 0.0
    {
      sigma2 := Variance.CalcVariance(thetas, factors, numFactors, numData, period);
    }

    /** calcThetas: the running sum of the accelerations divided by the frequency. */
    method CalcThetas(f: real) returns (th: seq<real>)
      requires f != 0.0
      ensures |th| == |rawData|
      ensures forall i :: 0 <= i < |rawData| ==> th[i] == Sum(Accels(rawData)[..i + 1]) / f
    {
      th := Variance.CalcThetas(Accels(rawData), f);
    }

    /** initStrides: find max_stride by the shift loop, round the
        log-spaced points for it up and keep each one that differs from
        its predecessor. */
    method InitStrides(logSpace: nat -> seq<real>)
      requires Valid() && numCluster >= 1
      requires |logSpace(MaxStrideOf(numData))| == numCluster
      modifies this`factors, this`numFactors
      ensures |factors| == numCluster && 1 <= numFactors <= numCluster
      ensures numFactors == |Kept(Ceiled(logSpace(MaxStrideOf(numData))))|
      ensures factors[..numFactors] == Kept(Ceiled(logSpace(MaxStrideOf(numData))))
      ensures forall i :: numFactors <= i < numCluster ==> factors[i] == 0
      ensures forall i :: 0 <= i < numFactors ==> factors[i] in Ceiled(logSpace(MaxStrideOf(numData)))
      ensures NonDecreasing(logSpace(MaxStrideOf(numData))) ==> StrictlyIncreasing(factors[..numFactors])
    {
      var maxStride := MaxStride(numData);
      var avgFactors := logSpace(maxStride);
      var kept: nat;
      factors, kept := SelectFactors(avgFactors);
      numFactors := kept;
    }

    /** getAvgDt: the mean spacing of the timestamps. */
    method GetAvgDt() returns (dt: real)
      requires Valid() && numData >= 2
      ensures dt == SumOfSteps(Stamps(rawData)) / (numData - 1) as real
      ensures dt == (rawData[numData - 1].t - rawData[0].t) / (numData - 1) as real
    {
      dt := AvgDt(Stamps(rawData));
    }

    /** getFreq: the frequency stored by the last calc. */
    function GetFreq(): real
      reads this
    {
      freq
    }
  }

  /** calc reads neither its own results nor anything it writes, so a
      second call with the same inputs stores the same factors, thetas
      and variances. */
  method CalcTwice(g: AllanAcc, avgFreq: real, avgPeriod: real, logSpace: nat -> seq<real>)
    returns (factors1: seq<int>, variance1: seq<real>)
    requires g.Valid() && g.numData >= 1 && g.numCluster >= 1
    requires avgFreq != 0.0 && avgPeriod != 0.0
    requires |logSpace(MaxStrideOf(g.numData))| == g.numCluster
    requires StridesFit(Ceiled(logSpace(MaxStrideOf(g.numData))), g.numData)
    modifies g
    ensures g.factors == factors1 && g.variance == variance1
  {
    g.Calc(avgFreq, avgPeriod, logSpace);
    factors1, variance1 := g.factors, g.variance;
    ghost var thetas1 := g.thetas;
    g.Calc(avgFreq, avgPeriod, logSpace);
    assert g.thetas == thetas1;
    assert g.factors[..g.numFactors] == factors1[..g.numFactors];
    assert g.factors == factors1 by {
      assert g.factors == g.factors[..g.numFactors] + g.factors[g.numFactors..];
      assert factors1 == factors1[..g.numFactors] + factors1[g.numFactors..];
    }
  }
}
