/**
 * The arithmetic of the chunked (multi-worker) resampling path: the input is cut into
 * `threads` contiguous slices, each slice goes through the resampler on its own, and the
 * per-slice outputs are laid end to end using a prefix sum of their lengths. The resampler
 * itself is a parameter: its output, and so its output length, is its own.
 */
module RateConverter {

  function Sum(s: seq<nat>): (total: nat) {
    if s == [] then 0 else Sum(s[..|s| - 1]) + s[|s| - 1]
  }

  function Flatten(ss: seq<seq<real>>): (flat: seq<real>) {
    if ss == [] then [] else Flatten(ss[..|ss| - 1]) + ss[|ss| - 1]
  }

  function Lengths(ss: seq<seq<real>>): (lengths: seq<nat>)
    ensures |lengths| == |ss| && forall i :: 0 <= i < |ss| ==> lengths[i] == |ss[i]|
  {
    seq(|ss|, i requires 0 <= i < |ss| => |ss[i]|)
  }

  function MapSeq(f: seq<real> -> seq<real>, ss: seq<seq<real>>): (r: seq<seq<real>>)
    ensures |r| == |ss| && forall i :: 0 <= i < |ss| ==> r[i] == f(ss[i])
  {
    seq(|ss|, i requires 0 <= i < |ss| => f(ss[i]))
  }

  /** Laying buffers end to end yields as many samples as their lengths add up to. */
  lemma {:induction false} FlattenLength(ss: seq<seq<real>>)
    ensures |Flatten(ss)| == Sum(Lengths(ss))
    decreases |ss|
  {
    if ss != [] {
      var init := ss[..|ss| - 1];
      FlattenLength(init);
      assert Lengths(ss)[..|ss| - 1] == Lengths(init);
    }
  }

  lemma MulDivBound(i: nat, n: nat, threads: nat)
    requires 1 <= threads && i <= threads
    ensures i * (n / threads) <= n
  {
    var q := n / threads;
    assert threads * q <= n;
    assert i * q <= threads * q;
  }

  /** Every slice but the last has n / threads samples. */
  function SliceSize(n: nat, threads: nat): (size: nat)
    requires threads >= 1
  {
    n / threads
  }

  /** Slice i starts at i * slice_size. */
  function SliceStart(i: nat, n: nat, threads: nat): (start: nat)
    requires threads >= 1
  {
    i * SliceSize(n, threads)
  }

  /** The last slice absorbs the remainder of the division. */
  function SliceLength(i: nat, n: nat, threads: nat): (len: nat)
    requires threads >= 1 && i < threads
    ensures SliceStart(i, n, threads) + len <= n
    ensures i < threads - 1 ==> len == SliceSize(n, threads)
    ensures i < threads - 1 ==> SliceStart(i + 1, n, threads) == SliceStart(i, n, threads) + len
    ensures i == threads - 1 ==> SliceStart(i, n, threads) + len == n
  {
    MulDivBound(i, n, threads);
    MulDivBound(i + 1, n, threads);
    if i == threads - 1 then n - SliceStart(i, n, threads) else SliceSize(n, threads)
  }

  function SliceLengths(n: nat, threads: nat): (lengths: seq<nat>)
    requires threads >= 1
  {
    seq(threads, i requires 0 <= i < threads => SliceLength(i, n, threads))
  }

  /** The samples handed to worker i. */
  function SliceOf(s: seq<real>, i: nat, threads: nat): (slice: seq<real>)
    requires threads >= 1 && i < threads
    ensures |slice| == SliceLength(i, |s|, threads)
  {
    var start := SliceStart(i, |s|, threads);
    s[start..start + SliceLength(i, |s|, threads)]
  }

  function Slices(s: seq<real>, threads: nat): (slices: seq<seq<real>>)
    requires threads >= 1
    ensures |slices| == threads
    ensures forall i :: 0 <= i < threads ==> slices[i] == SliceOf(s, i, threads)
  {
    seq(threads, i requires 0 <= i < threads => SliceOf(s, i, threads))
  }

  lemma {:induction false} SlicesPrefix(s: seq<real>, threads: nat, k: nat)
    requires 1 <= threads && k < threads
    ensures Flatten(Slices(s, threads)[..k]) == s[..SliceStart(k, |s|, threads)]
    decreases k
  {
    var slices := Slices(s, threads);
    if k == 0 {
      assert slices[..0] == [];
    } else {
      SlicesPrefix(s, threads, k - 1);
      assert slices[..k][..k - 1] == slices[..k - 1];
      var start := SliceStart(k - 1, |s|, threads);
      var len := SliceLength(k - 1, |s|, threads);
      assert s[..start] + s[start..start + len] == s[..start + len];
    }
  }

  /** Laying the slices end to end gives back the input: no sample is lost or repeated. */
  lemma SlicesCover(s: seq<real>, threads: nat)
    requires threads >= 1
    ensures Flatten(Slices(s, threads)) == s
  {
    var slices := Slices(s, threads);
    SlicesPrefix(s, threads, threads - 1);
    assert slices[..threads][..threads - 1] == slices[..threads - 1];
    assert slices[..threads] == slices;
    var start := SliceStart(threads - 1, |s|, threads);
    assert s[..start] + s[start..] == s;
  }

  /** The slice lengths add up to the input length. */
  lemma SliceLengthsSum(n: nat, threads: nat)
    requires threads >= 1
    ensures Sum(SliceLengths(n, threads)) == n
  {
    var s := seq(n, _ => 0.0);
    SlicesCover(s, threads);
    FlattenLength(Slices(s, threads));
    assert Lengths(Slices(s, threads)) == SliceLengths(n, threads);
  }

  /**
   * The prefix sum of the per-slice output lengths: the running total and the offset at
   * which each slice's output starts in the concatenated buffer.
   */
  method CumulatedSizes(bufferSizes: seq<nat>) returns (numSamplesOut: nat, cumulated: seq<nat>)
    ensures |cumulated| == |bufferSizes| + 1 && cumulated[0] == 0
    ensures forall j :: 0 <= j < |bufferSizes| ==> cumulated[j + 1] == cumulated[j] + bufferSizes[j]
    ensures numSamplesOut == Sum(bufferSizes) && cumulated[|bufferSizes|] == numSamplesOut
  {
    numSamplesOut := 0;
    cumulated := [0];
    for j := 0 to |bufferSizes|
      invariant |cumulated| == j + 1 && cumulated[0] == 0
      invariant forall k :: 0 <= k < j ==> cumulated[k + 1] == cumulated[k] + bufferSizes[k]
      invariant numSamplesOut == Sum(bufferSizes[..j]) && cumulated[j] == numSamplesOut
    {
      assert bufferSizes[..j + 1][..j] == bufferSizes[..j];
      numSamplesOut := numSamplesOut + bufferSizes[j];
      cumulated := cumulated + [cumulated[j] + bufferSizes[j]];
    }
    assert bufferSizes[..|bufferSizes|] == bufferSizes;
  }

  lemma {:induction false} CumulatedMonotone(cumulated: seq<nat>, sizes: seq<nat>, i: nat, j: nat)
    requires |cumulated| == |sizes| + 1
    requires forall k :: 0 <= k < |sizes| ==> cumulated[k + 1] == cumulated[k] + sizes[k]
    requires i <= j <= |sizes|
    ensures cumulated[i] <= cumulated[j]
    decreases j - i
  {
    if i < j {
      CumulatedMonotone(cumulated, sizes, i + 1, j);
    }
  }

  /** A fresh buffer holding each slice's output at its cumulated offset. */
  method Concatenate(buffers: seq<seq<real>>, cumulated: seq<nat>, numSamplesOut: nat) returns (res: array<real>)
    requires |cumulated| == |buffers| + 1 && cumulated[0] == 0
    requires forall j :: 0 <= j < |buffers| ==> cumulated[j + 1] == cumulated[j] + |buffers[j]|
    requires numSamplesOut == cumulated[|buffers|]
    ensures fresh(res)
    ensures res[..] == Flatten(buffers)
  {
    res := new real[numSamplesOut];
    for i := 0 to |buffers|
      invariant cumulated[i] <= numSamplesOut
      invariant res[..cumulated[i]] == Flatten(buffers[..i])
    {
      CumulatedMonotone(cumulated, Lengths(buffers), i + 1, |buffers|);
      ghost var done := res[..cumulated[i]];
      var offset := cumulated[i];
      forall k | 0 <= k < |buffers[i]| {
        res[offset + k] := buffers[i][k];
      }
      assert buffers[..i + 1][..i] == buffers[..i];
      assert res[..cumulated[i + 1]] == done + buffers[i];
    }
    assert buffers[..|buffers|] == buffers;
  }

  /**
   * Chunked resampling: with one worker the resampler runs once over the whole input;
   * otherwise every slice is resampled on its own and the outputs are concatenated in order.
   */
  method ResampleParallel(samplesIn: seq<real>, threads: nat, resample: seq<real> -> seq<real>)
    returns (res: seq<real>, numSamplesOut: nat)
    requires threads >= 1
    ensures threads == 1 ==> res == resample(samplesIn)
    ensures threads > 1 ==> res == Flatten(MapSeq(resample, Slices(samplesIn, threads)))
    ensures numSamplesOut == |res|
  {
    if threads == 1 {
      res := resample(samplesIn);
      numSamplesOut := |res|;
      return;
    }
    var buffers := MapSeq(resample, Slices(samplesIn, threads));
    var total, cumulated := CumulatedSizes(Lengths(buffers));
    var out := Concatenate(buffers, cumulated, total);
    FlattenLength(buffers);
    res := out[..];
    numSamplesOut := total;
  }

  lemma {:induction false} FlattenMapHomomorphism(f: seq<real> -> seq<real>, ss: seq<seq<real>>)
    requires forall a, b :: f(a + b) == f(a) + f(b)
    ensures Flatten(MapSeq(f, ss)) == f(Flatten(ss))
    decreases |ss|
  {
    if ss == [] {
      assert f([] + []) == f([]) + f([]);
    } else {
      var init := ss[..|ss| - 1];
      FlattenMapHomomorphism(f, init);
      assert MapSeq(f, ss)[..|ss| - 1] == MapSeq(f, init);
      assert f(Flatten(init) + ss[|ss| - 1]) == f(Flatten(init)) + f(ss[|ss| - 1]);
    }
  }

  /**
   * Slicing is exact for a resampler that distributes over concatenation: the chunked path
   * then returns what a single pass over the whole input returns.
   */
  lemma ParallelMatchesSequential(samplesIn: seq<real>, threads: nat, resample: seq<real> -> seq<real>)
    requires threads >= 1
    requires forall a, b :: resample(a + b) == resample(a) + resample(b)
    ensures Flatten(MapSeq(resample, Slices(samplesIn, threads))) == resample(samplesIn)
  {
    FlattenMapHomomorphism(resample, Slices(samplesIn, threads));
    SlicesCover(samplesIn, threads);
  }

  /** Keeping every other sample, starting with the first: a 2:1 decimating resampler. */
  function Decimate(s: seq<real>): (r: seq<real>)
    ensures |r| == (|s| + 1) / 2
  {
    seq((|s| + 1) / 2, i requires 0 <= i < (|s| + 1) / 2 => s[2 * i])
  }

  /**
   * For a resampler with state across samples, slicing changes the result: decimating
   * [1, 2, 3] in two slices, [1] and [2, 3], gives [1, 2], while one pass gives [1, 3].
   */
  lemma SlicedDecimationDiffers()
    ensures Flatten(MapSeq(Decimate, Slices([1.0, 2.0, 3.0], 2))) != Decimate([1.0, 2.0, 3.0])
  {
    var s := [1.0, 2.0, 3.0];
    var slices := Slices(s, 2);
    assert slices[0] == [1.0] && slices[1] == [2.0, 3.0];
    var outs := MapSeq(Decimate, slices);
    assert outs[0] == [1.0] && outs[1] == [2.0];
    assert outs[..1][..0] == [];
    assert Flatten(outs[..1]) == [1.0];
    assert Flatten(outs) == [1.0, 2.0];
    assert Decimate(s)[1] == 3.0;
  }
}
