/** Stride ("cluster factor") selection shared by the gyroscope and the
    accelerometer engines: the power-of-two bound on the largest averaging
    window, the rounding of the log-spaced points and the removal of
    consecutive duplicates (initStrides in allan_gyr.cpp / allan_acc.cpp). */
module Strides {

  /** 2^k, the value of `1 << k`. */
  function Pow2(k: nat): (p: nat)
    ensures p >= 1
  {
    if k == 0 then 1 else 2 * Pow2(k - 1)
  }

  predicate IsPowerOfTwo(n: nat)
  {
    n == 1 || (n >= 2 && n % 2 == 0 && IsPowerOfTwo(n / 2))
  }

  /** The largest power of two that is at most h; 1 when h is 0 or 1. */
  function LargestPow2AtMost(h: nat): (p: nat)
    ensures p >= 1
  {
    if h <= 1 then 1 else 2 * LargestPow2AtMost(h / 2)
  }

  /** The max_stride that initStrides derives from the sample count. */
  function MaxStrideOf(numData: nat): nat
  {
    LargestPow2AtMost(numData / 2)
  }

  lemma {:induction false} LargestPow2Bounds(h: nat)
    ensures IsPowerOfTwo(LargestPow2AtMost(h))
    ensures h <= 1 ==> LargestPow2AtMost(h) == 1
    ensures h >= 1 ==> LargestPow2AtMost(h) <= h < 2 * LargestPow2AtMost(h)
  {
    if h > 1 {
      LargestPow2Bounds(h / 2);
      var p := LargestPow2AtMost(h / 2);
      assert (2 * p) / 2 == p;
    }
  }

  /** No power of two that fits under h is larger than the chosen one. */
  lemma {:induction false} LargestPow2IsLargest(h: nat, p: nat)
    requires IsPowerOfTwo(p) && p <= h
    ensures p <= LargestPow2AtMost(h)
  {
    if p > 1 {
      LargestPow2IsLargest(h / 2, p / 2);
    }
  }

  lemma {:induction false} LargestPow2OfPow2(k: nat)
    ensures LargestPow2AtMost(Pow2(k)) == Pow2(k)
  {
    if k > 0 {
      LargestPow2OfPow2(k - 1);
      assert Pow2(k) / 2 == Pow2(k - 1);
    }
  }

  /** The bound is not strict: when the sample count is twice a power of
      two, the largest stride is exactly half the sample count, so a factor
      equal to max_stride leaves no window for the variance sum. */
  lemma TopStrideCanFillWindow(k: nat)
    ensures 2 * MaxStrideOf(2 * Pow2(k)) == 2 * Pow2(k)
  {
    assert (2 * Pow2(k)) / 2 == Pow2(k);
    LargestPow2OfPow2(k);
  }

  /** The number of binary digits of h: how many right shifts bring it to 0. */
  function BitLength(h: nat): nat
  {
    if h == 0 then 0 else 1 + BitLength(h / 2)
  }

  /** The largest power of two under h is 2^(bit length - 1). */
  lemma {:induction false} LargestPow2ByBitLength(h: nat)
    requires h >= 1
    ensures BitLength(h) >= 1 && LargestPow2AtMost(h) == Pow2(BitLength(h) - 1)
  {
    if h >= 2 {
      LargestPow2ByBitLength(h / 2);
    }
  }

  /** The shift loop of initStrides: halve `mode` until it is zero,
      remembering 1 << shift of the previous round. */
  method MaxStride(numData: nat) returns (maxStride: nat)
    ensures maxStride == MaxStrideOf(numData)
    ensures IsPowerOfTwo(maxStride)
    ensures numData / 2 <= 1 ==> maxStride == 1
    ensures numData / 2 >= 1 ==> maxStride <= numData / 2 < 2 * maxStride
  {
    var mode: nat := numData / 2;
    maxStride := 1;
    var shift: nat := 0;
    while mode != 0
      invariant shift + BitLength(mode) == BitLength(numData / 2)
      invariant shift == 0 ==> maxStride == 1 && mode == numData / 2
      invariant shift >= 1 ==> maxStride == Pow2(shift - 1)
      decreases mode
    {
      mode := mode / 2;
      maxStride := Pow2(shift);
      shift := shift + 1;
    }
    if numData / 2 >= 1 {
      LargestPow2ByBitLength(numData / 2);
    }
    LargestPow2Bounds(numData / 2);
  }

  /** ceil(x) as an integer. */
  function Ceil(x: real): (c: int)
    ensures x <= c as real < x + 1.0
  {
    -((-x).Floor)
  }

  lemma CeilMonotone(x: real, y: real)
    requires x <= y
    ensures Ceil(x) <= Ceil(y)
  {
  }

  /** The log-spaced points after `avgFactors[i] = ceil(avgFactors[i])`. */
  function Ceiled(s: seq<real>): seq<int>
  {
    seq(|s|, i requires 0 <= i < |s| => Ceil(s[i]))
  }

  predicate NonDecreasing(s: seq<real>)
  {
    forall i, j :: 0 <= i < j < |s| ==> s[i] <= s[j]
  }

  predicate Sorted(r: seq<int>)
  {
    forall i, j :: 0 <= i < j < |r| ==> r[i] <= r[j]
  }

  predicate StrictlyIncreasing(r: seq<int>)
  {
    forall i, j :: 0 <= i < j < |r| ==> r[i] < r[j]
  }

  /** The de-duplication of initStrides: keep r[0], then every r[i]
      that differs from the previous ROUNDED value r[i-1]. */
  function Kept(r: seq<int>): seq<int>
  {
    if |r| <= 1 then r
    else Kept(r[..|r| - 1]) + (if r[|r| - 1] != r[|r| - 2] then [r[|r| - 1]] else [])
  }

  /** The textbook alternative: keep a value when it differs from the
      last value KEPT so far. */
  function KeptAgainstLast(r: seq<int>): seq<int>
  {
    if |r| <= 1 then r
    else
      var k := KeptAgainstLast(r[..|r| - 1]);
      if |k| > 0 && r[|r| - 1] == k[|k| - 1] then k else k + [r[|r| - 1]]
  }

  lemma {:induction false} KeptShape(r: seq<int>)
    requires |r| >= 1
    ensures 1 <= |Kept(r)| <= |r|
    ensures Kept(r)[0] == r[0]
    ensures Kept(r)[|Kept(r)| - 1] == r[|r| - 1]
  {
    if |r| > 1 {
      KeptShape(r[..|r| - 1]);
    }
  }

  /** Every input value survives, and nothing else appears. */
  lemma {:induction false} KeptValues(r: seq<int>)
    ensures forall x :: x in Kept(r) <==> x in r
  {
    if |r| > 1 {
      var p := r[..|r| - 1];
      KeptValues(p);
      assert r == p + [r[|r| - 1]];
      if r[|r| - 1] == r[|r| - 2] {
        assert r[|r| - 1] == p[|p| - 1];
      }
    }
  }

  /** The kept values never repeat back to back. */
  lemma {:induction false} KeptNoAdjacentRepeats(r: seq<int>)
    ensures forall i :: 0 <= i < |Kept(r)| - 1 ==> Kept(r)[i] != Kept(r)[i + 1]
  {
    if |r| > 1 {
      var p := r[..|r| - 1];
      KeptNoAdjacentRepeats(p);
      KeptShape(p);
    }
  }

  /** For a non-decreasing rounded sequence the kept factors are strictly increasing. */
  lemma {:induction false} KeptStrictlyIncreasing(r: seq<int>)
    requires Sorted(r)
    ensures StrictlyIncreasing(Kept(r))
  {
    if |r| > 1 {
      var p := r[..|r| - 1];
      assert Sorted(p);
      KeptStrictlyIncreasing(p);
      KeptShape(p);
      var k := Kept(p);
      assert forall i :: 0 <= i < |k| ==> k[i] <= k[|k| - 1];
    }
  }

  /** Comparing with the previous rounded value is the same as comparing
      with the previous kept value, for every input: a dropped value always
      equals the last kept one. */
  lemma {:induction false} DedupComparesAgainstKept(r: seq<int>)
    ensures Kept(r) == KeptAgainstLast(r)
  {
    if |r| > 1 {
      var p := r[..|r| - 1];
      DedupComparesAgainstKept(p);
      KeptShape(p);
    }
  }

  lemma {:induction false} CeiledSorted(s: seq<real>)
    requires NonDecreasing(s)
    ensures Sorted(Ceiled(s))
  {
    forall i, j | 0 <= i < j < |s|
      ensures Ceiled(s)[i] <= Ceiled(s)[j]
    {
      CeilMonotone(s[i], s[j]);
    }
  }

  /** The exact-arithmetic shape of getLogSpace: starts at 1, never
      decreases and never exceeds the largest stride. The program computes
      the end point as pow(10, b) with b = log10(max_stride) rounded to a
      float, which can land just above max_stride, so its points need not
      have this shape (see TopPointAboveStride). */
  predicate IsLogSpace(s: seq<real>, maxStride: nat)
  {
    |s| >= 1 && s[0] == 1.0 && NonDecreasing(s) &&
    forall i :: 0 <= i < |s| ==> s[i] <= maxStride as real
  }

  /** Every factor selected from an exact-arithmetic log space lies in [1, maxStride],
      the first is 1 and they are strictly increasing. */
  lemma SelectedStridesInRange(s: seq<real>, maxStride: nat)
    requires IsLogSpace(s, maxStride)
    ensures |Kept(Ceiled(s))| >= 1 && Kept(Ceiled(s))[0] == 1
    ensures StrictlyIncreasing(Kept(Ceiled(s)))
    ensures forall f :: f in Kept(Ceiled(s)) ==> 1 <= f <= maxStride
  {
    var r := Ceiled(s);
    KeptShape(r);
    KeptValues(r);
    CeiledSorted(s);
    KeptStrictlyIncreasing(r);
    forall i | 0 <= i < |s|
      ensures 1 <= r[i] <= maxStride
    {
      CeilMonotone(1.0, s[i]);
      CeilMonotone(s[i], maxStride as real);
    }
  }

  /** With max_stride from the shift loop and an exact-arithmetic log
      space, no selected factor exceeds half the sample count (so
      2 * factor <= numData, not <). */
  lemma SelectedStridesAtMostHalf(s: seq<real>, numData: nat)
    requires numData >= 2 && IsLogSpace(s, MaxStrideOf(numData))
    ensures forall f :: f in Kept(Ceiled(s)) ==> 2 * f <= numData
  {
    SelectedStridesInRange(s, MaxStrideOf(numData));
    LargestPow2Bounds(numData / 2);
  }

  /** A last point that overshoots max_stride by less than 1, as the float
      end point of getLogSpace can, is rounded up to max_stride + 1; when
      numData is 2^(k+1) or 2^(k+1) + 1 that factor leaves a negative
      window count numData - 2 factor. */
  lemma TopPointAboveStride(s: seq<real>, k: nat, numData: nat)
    requires numData == 2 * Pow2(k) || numData == 2 * Pow2(k) + 1
    requires |s| >= 1
    requires MaxStrideOf(numData) as real < s[|s| - 1] <= (MaxStrideOf(numData) + 1) as real
    ensures MaxStrideOf(numData) == Pow2(k)
    ensures Ceiled(s)[|s| - 1] == Pow2(k) + 1
    ensures numData - 2 * Ceiled(s)[|s| - 1] < 0
  {
    assert numData / 2 == Pow2(k);
    LargestPow2OfPow2(k);
  }

  /** The condition calcVariance needs of every rounded factor: at least
      one sample per window and at least one window. */
  predicate StridesFit(r: seq<int>, numData: nat)
  {
    forall i :: 0 <= i < |r| ==> 1 <= r[i] && 2 * r[i] < numData
  }

  /** `avgFactors[i] = ceil(avgFactors[i])` for every slot. */
  method CeilInPlace(a: array<real>)
    modifies a
    ensures forall j :: 0 <= j < a.Length ==> a[j] == Ceil(old(a[j])) as real
  {
    for i := 0 to a.Length
      invariant forall j :: 0 <= j < i ==> a[j] == Ceil(old(a[j])) as real
      invariant forall j :: i <= j < a.Length ==> a[j] == old(a[j])
    {
      a[i] := Ceil(a[i]) as real;
    }
  }

  /** The de-duplication loop of initStrides over the rounded points:
      copy the first one and every one that differs from its predecessor
      into a zero-filled buffer of numCluster slots. */
  method DedupFactors(avgFactors: array<real>, ghost rounded: seq<int>) returns (factors: seq<int>, numFactors: nat)
    requires avgFactors.Length >= 1 && |rounded| == avgFactors.Length
    requires forall j :: 0 <= j < |rounded| ==> avgFactors[j] == rounded[j] as real
    ensures |factors| == |rounded| && numFactors <= |rounded|
    ensures factors[..numFactors] == Kept(rounded)
    ensures forall i :: numFactors <= i < |factors| ==> factors[i] == 0
  {
    var numCluster := avgFactors.Length;
    var buf := new int[numCluster](_ => 0);
    numFactors := 1;
    buf[0] := avgFactors[0].Floor;
    for i := 1 to numCluster
      invariant 1 <= numFactors <= i
      invariant buf[..numFactors] == Kept(rounded[..i])
      invariant forall j :: numFactors <= j < numCluster ==> buf[j] == 0
    {
      assert rounded[..i + 1][..i] == rounded[..i];
      if avgFactors[i] != avgFactors[i - 1] {
        ghost var before := buf[..numFactors];
        buf[numFactors] := avgFactors[i].Floor;
        assert buf[..numFactors + 1] == before + [rounded[i]];
        numFactors := numFactors + 1;
      }
    }
    factors := buf[..];
    assert rounded[..numCluster] == rounded;
  }

  /** The ceil and de-duplication half of initStrides on the log-spaced
      points of length numCluster. */
  method SelectFactors(logSpace: seq<real>) returns (factors: seq<int>, numFactors: nat)
    requires |logSpace| >= 1
    ensures |factors| == |logSpace|
    ensures 1 <= numFactors <= |logSpace| && factors[0] == Ceil(logSpace[0])
    ensures numFactors == |Kept(Ceiled(logSpace))|
    ensures factors[..numFactors] == Kept(Ceiled(logSpace))
    ensures forall i :: numFactors <= i < |factors| ==> factors[i] == 0
    ensures NonDecreasing(logSpace) ==> StrictlyIncreasing(factors[..numFactors])
    ensures forall i :: 0 <= i < numFactors ==> factors[i] in Ceiled(logSpace)
  {
    var numCluster := |logSpace|;
    var avgFactors := new real[numCluster](i requires 0 <= i < numCluster => logSpace[i]);
    CeilInPlace(avgFactors);
    ghost var rounded := Ceiled(logSpace);
    factors, numFactors := DedupFactors(avgFactors, rounded);

    KeptShape(rounded);
    KeptValues(rounded);
    assert factors[0] == factors[..numFactors][0];
    assert forall i :: 0 <= i < numFactors ==> factors[i] == factors[..numFactors][i];
    if NonDecreasing(logSpace) {
      CeiledSorted(logSpace);
      KeptStrictlyIncreasing(rounded);
    }
  }
}
