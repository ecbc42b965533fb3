/**
 * The padder: the power-of-two "common size" shared by the track and the base in one query,
 * and the zero-extending (or truncating) copy that brings a buffer to that size.
 */
module Padder {

  predicate IsPowerOfTwo(n: nat)
    decreases n
  {
    n == 1 || (n >= 2 && n % 2 == 0 && IsPowerOfTwo(n / 2))
  }

  /**
   * Reference definition of the common size: the least power of two at or above
   * minimalSize, obtained by halving the requirement (rounding up) instead of doubling.
   */
  function CommonSize(minimalSize: nat): (r: nat)
    decreases minimalSize
    ensures IsPowerOfTwo(r)
    ensures r >= minimalSize
    ensures r == 1 || r / 2 < minimalSize
  {
    if minimalSize <= 1 then 1 else 2 * CommonSize((minimalSize + 1) / 2)
  }

  /** A smaller power of two is at most half of a larger one. */
  lemma {:induction false} PowerOfTwoGap(p: nat, q: nat)
    requires IsPowerOfTwo(p) && IsPowerOfTwo(q) && p < q
    ensures 2 * p <= q
    decreases q
  {
    if p != 1 {
      PowerOfTwoGap(p / 2, q / 2);
    }
  }

  /** The three properties of CommonSize single out one number: it is the least power of two >= m. */
  lemma LeastPowerOfTwoUnique(m: nat, a: nat, b: nat)
    requires IsPowerOfTwo(a) && a >= m && (a == 1 || a / 2 < m)
    requires IsPowerOfTwo(b) && b >= m && (b == 1 || b / 2 < m)
    ensures a == b
  {
    if a < b {
      PowerOfTwoGap(a, b);
    } else if b < a {
      PowerOfTwoGap(b, a);
    }
  }

  /** Every power of two that covers m is at least the common size of m. */
  lemma CommonSizeIsLeast(m: nat, p: nat)
    requires IsPowerOfTwo(p) && p >= m
    ensures CommonSize(m) <= p
  {
    var r := CommonSize(m);
    if p < r {
      PowerOfTwoGap(p, r);
    }
  }

  /** The common size: starts at 1 and doubles while it is below minimalSize. */
  method GetCommonSize(minimalSize: nat) returns (res: nat)
    ensures IsPowerOfTwo(res) && res >= minimalSize
    ensures res == 1 || res / 2 < minimalSize
    ensures res == CommonSize(minimalSize)
  {
    res := 1;
    while res < minimalSize
      invariant IsPowerOfTwo(res)
      invariant res == 1 || res / 2 < minimalSize
      decreases minimalSize - res
    {
      res := res * 2;
    }
    LeastPowerOfTwoUnique(minimalSize, res, CommonSize(minimalSize));
  }

  function Zeros(n: nat): (z: seq<real>)
    ensures |z| == n && forall i :: 0 <= i < n ==> z[i] == 0.0
  {
    seq(n, _ => 0.0)
  }

  /** s brought to length m: its first min(|s|, m) samples followed by zeros. */
  function Padded(s: seq<real>, m: nat): (r: seq<real>)
    ensures |r| == m
    ensures forall i :: 0 <= i < m && i < |s| ==> r[i] == s[i]
    ensures forall i :: |s| <= i < m ==> r[i] == 0.0
  {
    if m <= |s| then s[..m] else s + Zeros(m - |s|)
  }

  /** Padding to a length at least |s| and truncating back to |s| gives back s. */
  lemma PaddedRoundTrip(s: seq<real>, m: nat)
    requires m >= |s|
    ensures Padded(Padded(s, m), |s|) == s
  {
    var r := Padded(Padded(s, m), |s|);
    assert forall i :: 0 <= i < |s| ==> r[i] == s[i];
  }

  /** Resizing twice is resizing once, provided the intermediate length is not the shortest. */
  lemma PaddedTwice(s: seq<real>, m: nat, k: nat)
    requires k <= m || |s| <= m
    ensures Padded(Padded(s, m), k) == Padded(s, k)
  {
    var lhs, rhs := Padded(Padded(s, m), k), Padded(s, k);
    forall i | 0 <= i < k
      ensures lhs[i] == rhs[i]
    {
    }
  }

  /**
   * A fresh buffer of numSamplesOut samples: zero-filled, then the first
   * min(numSamplesIn, numSamplesOut) input samples copied in. The input is left as it was.
   */
  method Resize(samplesIn: seq<real>, numSamplesIn: nat, numSamplesOut: nat) returns (res: array<real>)
    requires numSamplesIn <= |samplesIn|
    ensures fresh(res)
    ensures res[..] == Padded(samplesIn[..numSamplesIn], numSamplesOut)
  {
    res := new real[numSamplesOut](_ => 0.0);
    var minNumSamples := if numSamplesOut < numSamplesIn then numSamplesOut else numSamplesIn;
    forall i | 0 <= i < minNumSamples {
      res[i] := samplesIn[i];
    }
    ghost var expected := Padded(samplesIn[..numSamplesIn], numSamplesOut);
    assert forall i :: 0 <= i < numSamplesOut ==> res[i] == expected[i];
  }
}
