/**
 * The frequency-domain filter chain: an append-only, ordered list of (callback, context)
 * pairs, stored on the engine as a NULL-terminated callback array beside a context array.
 */
module FilterChain {

  /** The address of a filter function, never NULL (0); callbacks are foreign code. */
  type FilterFn = x: nat | x > 0 witness 1
  /** The opaque context pointer handed back to a filter on every call. */
  type FilterData = nat

  /** One slot of the callback array: a function, or the NULL that ends the chain. */
  datatype FilterCallback = NullCallback | Callback(fn: FilterFn)

  /** A registered filter: its function and its context. */
  datatype Filter = Filter(fn: FilterFn, data: FilterData)

  /** The two spectra every filter is applied to in a query. */
  datatype Spectrum = TrackSpectrum | BaseSpectrum

  /**
   * One invocation of a filter callback during a query: the spectrum it is applied to, the
   * number of complex bins in that spectrum, and the filter's context.
   */
  datatype FilterCall = FilterCall(fn: FilterFn, target: Spectrum, length: nat, data: FilterData)

  /**
   * The invocations a query makes: every filter in registration order, each applied first to
   * the track's spectrum and then to the base's, with the spectrum length and its own context.
   */
  function CallsOf(chain: seq<Filter>, spectrumLength: nat): (calls: seq<FilterCall>)
    ensures |calls| == 2 * |chain|
    ensures forall i :: 0 <= i < |chain| ==>
      calls[2 * i] == FilterCall(chain[i].fn, TrackSpectrum, spectrumLength, chain[i].data) &&
      calls[2 * i + 1] == FilterCall(chain[i].fn, BaseSpectrum, spectrumLength, chain[i].data)
  {
    if chain == [] then []
    else
      var last := chain[|chain| - 1];
      CallsOf(chain[..|chain| - 1], spectrumLength) +
        [FilterCall(last.fn, TrackSpectrum, spectrumLength, last.data),
         FilterCall(last.fn, BaseSpectrum, spectrumLength, last.data)]
  }

  /** The calls of a chain extended at its end are the old calls followed by the new filters' calls. */
  lemma {:induction false} CallsOfAppend(a: seq<Filter>, b: seq<Filter>, spectrumLength: nat)
    ensures CallsOf(a + b, spectrumLength) == CallsOf(a, spectrumLength) + CallsOf(b, spectrumLength)
    decreases |b|
  {
    if b == [] {
      assert a + b == a;
    } else {
      var b' := b[..|b| - 1];
      assert (a + b)[..|a + b| - 1] == a + b';
      CallsOfAppend(a, b', spectrumLength);
    }
  }

  /**
   * The storage layout of a chain: callback i and context i describe filter i, and the
   * callback slot right after the last filter holds the NULL terminator.
   */
  ghost predicate Stores(callbacks: seq<FilterCallback>, data: seq<FilterData>, chain: seq<Filter>) {
    |chain| < |callbacks| && |chain| <= |data| &&
    callbacks[|chain|] == NullCallback &&
    forall i :: 0 <= i < |chain| ==> callbacks[i] == Callback(chain[i].fn) && data[i] == chain[i].data
  }

  /** No slot before the terminator is NULL: the terminator is the first NULL slot. */
  lemma TerminatorIsFirstNull(callbacks: seq<FilterCallback>, data: seq<FilterData>, chain: seq<Filter>)
    requires Stores(callbacks, data, chain)
    ensures forall k :: 0 <= k < |chain| ==> callbacks[k] != NullCallback
    ensures callbacks[|chain|] == NullCallback
  {
  }

  /**
   * Appending: keeping the first n slots, then the new callback and a terminator (and the
   * new context after the first n contexts) stores the chain extended by the new filter.
   */
  lemma {:induction false} StoresAppend(callbacks: seq<FilterCallback>, data: seq<FilterData>, chain: seq<Filter>,
                                        fn: FilterFn, d: FilterData, filler: FilterData)
    requires Stores(callbacks, data, chain)
    ensures Stores(callbacks[..|chain|] + [Callback(fn), NullCallback],
                   data[..|chain|] + [d, filler],
                   chain + [Filter(fn, d)])
  {
    var n := |chain|;
    var callbacks', data', chain' := callbacks[..n] + [Callback(fn), NullCallback], data[..n] + [d, filler], chain + [Filter(fn, d)];
    forall i | 0 <= i < |chain'|
      ensures callbacks'[i] == Callback(chain'[i].fn) && data'[i] == chain'[i].data
    {
      if i < n {
        assert callbacks'[i] == callbacks[i] && data'[i] == data[i] && chain'[i] == chain[i];
      }
    }
  }

  /**
   * Reallocation: a fresh array of newLength elements whose first min(a.Length, newLength)
   * elements are a's; the rest hold filler (the C reallocation leaves them indeterminate).
   */
  method Realloc<T>(a: array<T>, newLength: nat, filler: T) returns (b: array<T>)
    ensures fresh(b) && b.Length == newLength
    ensures forall i :: 0 <= i < a.Length && i < newLength ==> b[i] == a[i]
  {
    b := new T[newLength](_ => filler);
    forall i | 0 <= i < a.Length && i < newLength {
      b[i] := a[i];
    }
  }

  /** The callback array grown for one more filter: the new callback at n, the terminator after it. */
  method ExtendCallbacks(callbacks: array<FilterCallback>, n: nat, callback: FilterCallback)
    returns (b: array<FilterCallback>)
    requires n < callbacks.Length
    ensures fresh(b)
    ensures b[..] == callbacks[..n] + [callback, NullCallback]
  {
    b := Realloc(callbacks, ReallocLength(n), NullCallback);
    b[n] := callback;
    b[n + 1] := NullCallback;
  }

  /** The context array grown for one more filter: the new context at n. */
  method ExtendData(data: array<FilterData>, n: nat, d: FilterData) returns (b: array<FilterData>)
    requires n <= data.Length
    ensures fresh(b) && b.Length == ReallocLength(n)
    ensures b[..] == data[..n] + [d, b[n + 1]]
  {
    b := Realloc(data, ReallocLength(n), 0);
    b[n] := d;
  }

  /** Size in bytes of a callback or context pointer (LP64). */
  const PointerSize: nat := 8

  /**
   * Elements to reserve when appending to a chain of n filters: slot n for the new filter,
   * slot n + 1 for the NULL terminator.
   */
  function ReallocLength(n: nat): (len: nat)
    ensures n + 1 < len
    ensures PointerSize * len >= PointerSize * (n + 1) + PointerSize
  {
    n + 2
  }

  /** The byte count the append actually requests: sizeof(pointer) * n + 2. */
  function AsWrittenReallocBytes(n: nat): (bytes: nat) {
    PointerSize * n + 2
  }

  /**
   * The requested block does not even hold the new filter's slot n (bytes
   * [PointerSize * n, PointerSize * (n + 1))), let alone the terminator at n + 1.
   */
  lemma AsWrittenReallocTooSmall(n: nat)
    ensures AsWrittenReallocBytes(n) < PointerSize * (n + 1)
    ensures AsWrittenReallocBytes(n) < PointerSize * ReallocLength(n)
  {
  }

  /**
   * The counting loop's guard as written: it compares the pointer itself, at address
   * start + k * PointerSize after k steps, with NULL rather than the slot it points to.
   */
  predicate AsWrittenCountGuard(start: nat, k: nat) {
    start + k * PointerSize != 0
  }

  /**
   * For an array that was allocated (non-NULL start) the guard as written never fails, so
   * the count runs past the terminator: on a fresh engine, whose array holds only the
   * terminator at index 0, the guard still holds at index 1.
   */
  lemma AsWrittenCountNeverStops(start: nat, k: nat)
    requires start != 0
    ensures AsWrittenCountGuard(start, k)
  {
  }
}
