/**
 * The peak finder: the first index of the largest correlation value, and the remap of that
 * circular index into a signed offset.
 */
module PeakFinder {
  import opened Wrappers

  /** Reference definition of the scan: the index of the first occurrence of the maximum. */
  function FirstArgMax(s: seq<real>): (k: nat)
    ensures |s| == 0 ==> k == 0
    ensures |s| > 0 ==> k < |s|
    ensures forall j :: 0 <= j < |s| ==> s[j] <= s[k]
    ensures forall j :: 0 <= j < k ==> s[j] < s[k]
  {
    if |s| <= 1 then 0
    else
      var k := FirstArgMax(s[..|s| - 1]);
      if s[|s| - 1] > s[k] then |s| - 1 else k
  }

  /** The two properties of FirstArgMax single out one index. */
  lemma FirstArgMaxUnique(s: seq<real>, k: nat)
    requires k < |s|
    requires forall j :: 0 <= j < |s| ==> s[j] <= s[k]
    requires forall j :: 0 <= j < k ==> s[j] < s[k]
    ensures k == FirstArgMax(s)
  {
  }

  /**
   * The scan over the correlation buffer. The running maximum starts below every sample
   * (None) and is replaced only on a strictly greater value, so ties keep the first index.
   */
  method FindPeak(convolved: seq<real>) returns (peak: nat)
    ensures |convolved| == 0 ==> peak == 0
    ensures |convolved| > 0 ==> peak < |convolved|
    ensures forall j :: 0 <= j < |convolved| ==> convolved[j] <= convolved[peak]
    ensures forall j :: 0 <= j < peak ==> convolved[j] < convolved[peak]
    ensures peak == FirstArgMax(convolved)
  {
    var maxValue: Option<real> := None;
    peak := 0;
    for i := 0 to |convolved|
      invariant i == 0 ==> maxValue == None && peak == 0
      invariant i > 0 ==> peak < i && maxValue == Some(convolved[peak])
      invariant i > 0 ==> peak == FirstArgMax(convolved[..i])
    {
      var value := convolved[i];
      assert convolved[..i + 1][..i] == convolved[..i];
      if maxValue.None? || value > maxValue.value {
        maxValue := Some(value);
        peak := i;
      }
    }
    assert convolved[..|convolved|] == convolved;
  }

  /** The largest non-negative offset: common size minus half the track (at least 1 below it). */
  function UpperOffset(commonSize: nat, trackLength: nat): (bound: int) {
    commonSize - (if trackLength / 2 == 0 then 1 else trackLength / 2)
  }

  /**
   * The circular remap: a peak past commonSize - trackLength/2 stands for a negative
   * (leading) offset. The result is the one representative of the peak's residue class
   * modulo commonSize in the window (UpperOffset - commonSize, UpperOffset].
   */
  function Remap(peak: nat, commonSize: nat, trackLength: nat): (offset: int)
    requires peak < commonSize && trackLength <= commonSize
    ensures offset < 0 <==> peak > commonSize - trackLength / 2
    ensures offset % commonSize == peak
    ensures UpperOffset(commonSize, trackLength) - commonSize < offset <= UpperOffset(commonSize, trackLength)
  {
    if peak > commonSize - trackLength / 2 then
      ModOfNegative(peak - commonSize, commonSize);
      peak - commonSize
    else
      ModOfSmall(peak, commonSize);
      peak
  }

  /** Any offset congruent to the peak and inside the window is the remapped one. */
  lemma RemapUnique(peak: nat, commonSize: nat, trackLength: nat, offset: int)
    requires peak < commonSize && trackLength <= commonSize
    requires offset % commonSize == peak
    requires UpperOffset(commonSize, trackLength) - commonSize < offset <= UpperOffset(commonSize, trackLength)
    ensures offset == Remap(peak, commonSize, trackLength)
  {
    if offset >= 0 {
      ModOfSmall(offset, commonSize);
    } else {
      ModOfNegative(offset, commonSize);
    }
  }

  lemma ModOfSmall(x: int, m: nat)
    requires 0 <= x < m
    ensures x % m == x
  {
  }

  lemma ModOfNegative(x: int, m: int)
    requires m > 0 && -m <= x < 0
    ensures x % m == x + m
  {
  }
}
