/**
 * The synchroniser engine: the handle that owns the base signal and the filter chain, its
 * lifecycle (create, set the base once, append filters, query, destroy) and the index and
 * length logic of a query.
 */
module Shenidam {
  import opened Wrappers
  import opened ErrorModel
  import opened SampleConverter
  import opened Padder
  import opened PeakFinder
  import opened FilterChain

  /**
   * The outcome of an alignment query. On success: the signed start offset of the track in
   * the base (in samples at the processing rate), the track length, the common size, the two
   * zero-padded buffers handed to the forward transform, and the filter invocations made.
   */
  datatype QueryResult =
    | Failed(status: Status)
    | Aligned(offset: int, length: nat, commonSize: nat,
              paddedTrack: seq<real>, paddedBase: seq<real>, filterCalls: seq<FilterCall>)

  /**
   * The index and length logic of a query once both signals are at the processing rate:
   * the common size, the two padded buffers for the forward transform, and the signed
   * offset of the first correlation peak.
   */
  method LocateTrack(track: seq<real>, baseSamples: seq<real>, convolved: seq<real>)
    returns (offset: int, commonSize: nat, paddedTrack: seq<real>, paddedBase: seq<real>)
    requires |convolved| == CommonSize(|track| + |baseSamples|)
    ensures commonSize == |convolved| && IsPowerOfTwo(commonSize)
    ensures commonSize >= |track| + |baseSamples|
    ensures commonSize == 1 || commonSize / 2 < |track| + |baseSamples|
    ensures paddedTrack == Padded(track, commonSize) && paddedBase == Padded(baseSamples, commonSize)
    ensures offset % commonSize == FirstArgMax(convolved)
    ensures offset == Remap(FirstArgMax(convolved), commonSize, |track|)
  {
    var length := |track|;
    commonSize := GetCommonSize(length + |baseSamples|);
    var trackBuffer := Resize(track, length, commonSize);
    assert track[..length] == track;
    var baseBuffer := Resize(baseSamples, |baseSamples|, commonSize);
    assert baseSamples[..|baseSamples|] == baseSamples;
    var peak := FindPeak(convolved);
    offset := Remap(peak, commonSize, length);
    paddedTrack, paddedBase := trackBuffer[..], baseBuffer[..];
  }

  class Engine {
    var baseSampleRate: real                // the processing rate the base is stored at
    var baseRealSampleRate: real            // the base's native rate, recorded with the base
    var base: Option<seq<real>>             // None until the base signal is set
    var baseNumSamples: nat
    var frequentialFilters: array<FilterCallback>   // NULL-terminated
    var frequentialFilterData: array<FilterData>    // context of filter i at index i
    var numThreads: int

    ghost var Chain: seq<Filter>            // the registered filters, in registration order
    ghost var Repr: set<object>
    ghost var Destroyed: bool

    ghost predicate Valid()
      reads this, Repr
    {
      Repr == {this, frequentialFilters, frequentialFilterData} &&
      !Destroyed &&
      numThreads >= 1 &&
      (base.Some? ==> baseNumSamples == |base.value|) &&
      Stores(frequentialFilters[..], frequentialFilterData[..], Chain)
    }

    /** A new engine: thread count clamped to at least 1, no base, an empty filter chain. */
    constructor (baseSampleRate: real, numThreads: int)
      ensures Valid() && fresh(Repr)
      ensures this.baseSampleRate == baseSampleRate
      ensures this.numThreads == if numThreads <= 1 then 1 else numThreads
      ensures base == None && Chain == []
      ensures frequentialFilters.Length == 1 && frequentialFilterData.Length == 0
    {
      this.numThreads := if numThreads <= 1 then 1 else numThreads;
      this.baseSampleRate := baseSampleRate;
      baseRealSampleRate := 0.0;
      base := None;
      baseNumSamples := 0;
      var filters := new FilterCallback[1](_ => NullCallback);
      var data := new FilterData[0];
      frequentialFilters := filters;
      frequentialFilterData := data;
      Chain := [];
      Destroyed := false;
      Repr := {this, filters, data};
    }

    /** The number of registered filters: the index of the NULL terminator. */
    method CountFilters() returns (n: nat)
      requires Valid()
      ensures n == |Chain|
    {
      TerminatorIsFirstNull(frequentialFilters[..], frequentialFilterData[..], Chain);
      n := 0;
      while frequentialFilters[n] != NullCallback
        invariant n <= |Chain|
        decreases |Chain| - n
      {
        n := n + 1;
      }
    }

    /**
     * Appends a filter: a NULL callback is refused and nothing changes; otherwise both arrays
     * grow to hold the new entry and the terminator, and the entry goes at the end.
     */
    method AddFrequentialFilter(callback: FilterCallback, data: FilterData) returns (st: Status)
      requires Valid()
      modifies Repr
      ensures Valid() && fresh(Repr - old(Repr))
      ensures callback == NullCallback ==> st == InvalidArgument && unchanged(this) && Chain == old(Chain)
      ensures callback != NullCallback ==>
        st == Success && Chain == old(Chain) + [Filter(callback.fn, data)]
      ensures base == old(base) && baseNumSamples == old(baseNumSamples)
      ensures baseSampleRate == old(baseSampleRate) && baseRealSampleRate == old(baseRealSampleRate)
      ensures numThreads == old(numThreads)
    {
      if callback == NullCallback {
        return InvalidArgument;
      }
      var n := CountFilters();
      ghost var oldCallbacks, oldData := frequentialFilters[..], frequentialFilterData[..];
      var filters := ExtendCallbacks(frequentialFilters, n, callback);
      var filterData := ExtendData(frequentialFilterData, n, data);
      StoresAppend(oldCallbacks, oldData, Chain, callback.fn, data, filterData[n + 1]);
      ghost var chain := Chain + [Filter(callback.fn, data)];
      frequentialFilters := filters;
      frequentialFilterData := filterData;
      Chain := chain;
      Repr := {this, filters, filterData};
      st := Success;
    }

    /**
     * The traversal of a query: walks the chain up to the terminator, calling each filter on
     * both spectra of spectrumLength bins.
     */
    method FilterCalls(spectrumLength: nat) returns (calls: seq<FilterCall>)
      requires Valid()
      ensures calls == CallsOf(Chain, spectrumLength)
    {
      calls := [];
      var k := 0;
      while frequentialFilters[k] != NullCallback
        invariant k <= |Chain|
        invariant calls == CallsOf(Chain[..k], spectrumLength)
        decreases |Chain| - k
      {
        var fn := frequentialFilters[k].fn;
        var data := frequentialFilterData[k];
        assert Chain[..k + 1][..k] == Chain[..k];
        calls := calls + [FilterCall(fn, TrackSpectrum, spectrumLength, data),
                          FilterCall(fn, BaseSpectrum, spectrumLength, data)];
        k := k + 1;
      }
      assert Chain[..k] == Chain;
    }

    /**
     * Sets the base signal, once. `resampled` is what the converter, the normaliser and the
     * resampler made of the caller's buffer at the processing rate.
     */
    method SetBaseAudio(format: SampleFormat, sampleRate: real, resampled: seq<real>) returns (st: Status)
      requires Valid()
      modifies this
      ensures Valid()
      ensures old(base).Some? ==> st == AlreadySetBaseSignal && unchanged(this)
      ensures old(base).None? && !IsRecognized(format) ==> st == InvalidArgument && unchanged(this)
      ensures old(base).None? && IsRecognized(format) ==>
        st == Success && base == Some(resampled) && baseNumSamples == |resampled| &&
        baseRealSampleRate == sampleRate
      ensures baseSampleRate == old(baseSampleRate) && numThreads == old(numThreads) && Chain == old(Chain)
      ensures frequentialFilters == old(frequentialFilters) && frequentialFilterData == old(frequentialFilterData)
    {
      if base.Some? {
        return AlreadySetBaseSignal;
      }
      if ConvertToSamples(format) != 0 {
        return InvalidArgument;
      }
      baseNumSamples := |resampled|;
      base := Some(resampled);
      baseRealSampleRate := sampleRate;
      st := Success;
    }

    /** Whether a query gets past the argument checks and the format dispatch. */
    predicate Proceeds(format: SampleFormat, numSamples: nat, sampleRate: real)
      reads this
    {
      base.Some? && sampleRate > 0.0 && numSamples > 0 && IsRecognized(format)
    }

    /**
     * An alignment query. `track` is what the converter, the normaliser and (when the rates
     * differ) the resampler made of the caller's numSamples samples; `convolved` is what the
     * transforms, the filters and the correlator made of the two padded buffers.
     */
    method GetAudioRange(format: SampleFormat, numSamples: nat, sampleRate: real,
                         track: seq<real>, convolved: seq<real>) returns (r: QueryResult)
      requires Valid()
      requires Proceeds(format, numSamples, sampleRate) ==>
        (sampleRate == baseSampleRate ==> |track| == numSamples) &&
        |convolved| == CommonSize(|track| + baseNumSamples)
      ensures base.None? ==> r == Failed(BaseSignalNotSet)
      ensures base.Some? && sampleRate <= 0.0 ==> r == Failed(InvalidArgument)
      ensures base.Some? && sampleRate > 0.0 && numSamples == 0 ==> r == Failed(InvalidArgument)
      ensures base.Some? && sampleRate > 0.0 && numSamples > 0 && !IsRecognized(format) ==>
        r == Failed(InvalidArgument)
      ensures Proceeds(format, numSamples, sampleRate) ==> r.Aligned? && r.length == |track|
      ensures Proceeds(format, numSamples, sampleRate) ==>
        IsPowerOfTwo(r.commonSize) && r.commonSize >= |track| + baseNumSamples &&
        (r.commonSize == 1 || r.commonSize / 2 < |track| + baseNumSamples)
      ensures Proceeds(format, numSamples, sampleRate) ==>
        r.paddedTrack == Padded(track, r.commonSize) && r.paddedBase == Padded(base.value, r.commonSize)
      ensures Proceeds(format, numSamples, sampleRate) ==> r.filterCalls == CallsOf(Chain, r.commonSize / 2 + 1)
      ensures Proceeds(format, numSamples, sampleRate) ==> |convolved| == r.commonSize
      ensures Proceeds(format, numSamples, sampleRate) ==>
        r.offset == Remap(FirstArgMax(convolved), r.commonSize, |track|) &&
        r.offset % r.commonSize == FirstArgMax(convolved)
    {
      if base.None? {
        return Failed(BaseSignalNotSet);
      }
      if sampleRate <= 0.0 {
        return Failed(InvalidArgument);
      }
      if numSamples == 0 {
        return Failed(InvalidArgument);
      }
      if ConvertToSamples(format) != 0 {
        return Failed(InvalidArgument);
      }
      var offset, commonSize, paddedTrack, paddedBase := LocateTrack(track, base.value, convolved);
      var calls := FilterCalls(commonSize / 2 + 1);
      r := Aligned(offset, |track|, commonSize, paddedTrack, paddedBase, calls);
    }

    /**
     * The counting guard as written, on the engine's own array at a non-NULL address: it
     * still holds at the terminator, where CountFilters stops, and at the array's length,
     * one past its last slot.
     */
    lemma AsWrittenCountPassesTerminator(start: nat)
      requires Valid() && start != 0
      ensures frequentialFilters[|Chain|] == NullCallback && |Chain| < frequentialFilters.Length
      ensures AsWrittenCountGuard(start, |Chain|)
      ensures AsWrittenCountGuard(start, frequentialFilters.Length)
    {
      AsWrittenCountNeverStops(start, |Chain|);
      AsWrittenCountNeverStops(start, frequentialFilters.Length);
    }

    /**
     * Releases the engine; the context array is released only when a filter was registered.
     * The engine may not be used afterwards.
     */
    method Destroy() returns (st: Status, releasesFilterData: bool)
      requires Valid()
      modifies this
      ensures st == Success && Destroyed
      ensures releasesFilterData <==> |old(Chain)| > 0
    {
      releasesFilterData := frequentialFilters[0] != NullCallback;
      Destroyed := true;
      st := Success;
    }
  }

  /**
   * The state machine on a fresh engine: a query before the base is set fails with
   * BaseSignalNotSet, the first set succeeds, a second set fails and keeps the first base.
   */
  method BaseIsSetOnce(first: seq<real>, second: seq<real>)
    returns (early: QueryResult, firstSet: Status, secondSet: Status, kept: Option<seq<real>>)
    ensures early == Failed(BaseSignalNotSet)
    ensures firstSet == Success && secondSet == AlreadySetBaseSignal
    ensures kept == Some(first)
  {
    var engine := new Engine(44100.0, 0);
    early := engine.GetAudioRange(FormatShort, 1, 44100.0, [0.0], [0.0]);
    firstSet := engine.SetBaseAudio(FormatShort, 44100.0, first);
    secondSet := engine.SetBaseAudio(FormatShort, 22050.0, second);
    kept := engine.base;
  }
}
