# Shenidam audio alignment: a Dafny model of its index, length and state logic

Shenidam finds where a short audio clip (the *track*) occurs in a longer reference recording
(the *base*). An engine handle owns the base signal, stored at the engine's processing rate,
and an ordered chain of frequency-domain filters. A query goes through these steps:

1. The track is converted and normalised, and resampled to the processing rate.
2. The track and the base are zero-padded to a common power-of-two size.
3. Both are transformed, the filters are run over both spectra, and the cross-power spectrum is
   inverse-transformed.
4. The index of the largest correlation value is taken. A circular index in the upper part of
   the buffer is remapped to a negative (leading) offset.

The floating-point and foreign stages (FFTW transforms, libsamplerate, normalisation, the
complex multiply) cannot be specified exactly. This model covers everything around them that
can: the index, length and state logic.

- `Padder` (padder.dfy): the power-of-two common size (`GetCommonSize`, proved equal to an
  independent definition `CommonSize`). Also the pad/truncate copy `Resize`, specified by
  `Padded`.
- `PeakFinder` (peak.dfy): the first-occurrence argmax scan `FindPeak`, specified by
  `FirstArgMax`. Also the circular remap `Remap`, which is proved to pick the one
  representative of the peak's residue class in a window of width `commonSize`.
- `FilterChain` (filters.dfy): the NULL-terminated callback array and context array.
  - `Stores` is the layout invariant, and appending preserves it.
  - `CallsOf` gives the order in which a query calls the filters: each filter in
    registration order, first on the track's spectrum and then on the base's, each call
    carrying the spectrum length `commonSize / 2 + 1`.
  - This module also holds the two discrepancies under "Findings".
- `RateConverter` (resampling.dfy): the arithmetic of the chunked resampling path.
  - The slices are equal, and the last one takes the remainder. Together they cover the input
    exactly.
  - A prefix sum gives each slice's output offset, and the outputs are concatenated in order.
  - The resampler itself is a function parameter. The slicing is exact for a resampler that
    distributes over concatenation; a decimating resampler shows it is not exact in general.
- `ErrorModel` (errors.dfy) and `SampleConverter` (formats.dfy): the result codes, the message
  lookup and the sample-format dispatch.
- `Shenidam` (engine.dfy): the handle as a class `Engine`.
  - Fields: an `Option` base, the two filter arrays and the thread count.
  - Ghost state: the abstract filter chain `Chain`, the footprint `Repr` and a `Destroyed` flag
    for the terminal state.
  - Operations: create, append filter, set base (once), query (checks in the source's order,
    never mutating), and destroy.
  - Allocation failure (`setjmp`/`longjmp`) is not modelled; `AllocationError` exists only in
    `Status`.

The external stages become parameters:

- `SetBaseAudio` receives `resampled`: what conversion, normalisation and resampling made of
  the caller's buffer.
- `GetAudioRange` receives `track`: the processed track.
- `GetAudioRange` also receives `convolved`: what the transforms, the filters and the correlator
  made of the two padded buffers. Its precondition is that this buffer has the common size.

Three behaviours of the code are easy to miss; the model follows the code:

- Setting the base validates only the format. The sample rate is not checked there.
- The chunked resampler takes its worker count from the OpenMP runtime, not from the handle's
  thread count. The handle's thread count is used only by the transforms.
- The filter append is modelled as evidently intended (see "Findings").

## Model

| member | source | states |
|---|---|---|
| ErrorModel.ErrorMessage | shenidam.c:62-76 | every code gets a non-empty message; the "Unknown error" fallback is returned exactly for a code the switch does not list (Success) |
| ErrorModel.ErrorMessageInjective | shenidam.c:62-76 | distinct error codes have distinct messages |
| SampleConverter.ConvertToSamples | shenidam.c:205-229 | the converter returns 0 for each of the seven recognised formats and 1 exactly for an unrecognised tag |
| Padder.CommonSize | shenidam.c:284-292 | the reference common size is a power of two, at least the minimal size, and 1 or with half below the minimal size |
| Padder.GetCommonSize | shenidam.c:284-292 | the doubling loop returns a power of two at or above the minimal size that is least (1, or half of it is below the minimum), and equal to CommonSize |
| Padder.LeastPowerOfTwoUnique | shenidam.c:284-292 | those three properties determine the result uniquely |
| Padder.CommonSizeIsLeast | shenidam.c:284-292 | every power of two covering the minimal size is at least the common size |
| Padder.Padded | shenidam.c:186-193 | the resized buffer has the target length, keeps the first min(n, m) input samples and is zero beyond the input |
| Padder.Resize | shenidam.c:186-193 | returns a fresh buffer whose contents are Padded(input prefix, target length); the input is not modified |
| Padder.PaddedRoundTrip | shenidam.c:186-193 | padding to a length at least the input's and truncating back returns the input |
| Padder.PaddedTwice | shenidam.c:186-193 | resizing through an intermediate length that is not the shortest equals resizing once |
| PeakFinder.FirstArgMax | shenidam.c:449-459 | the reference index lies in the buffer (0 for an empty one), holds a value at least every other, and every earlier value is strictly smaller |
| PeakFinder.FirstArgMaxUnique | shenidam.c:449-459 | an index with those properties is the first argmax |
| PeakFinder.FindPeak | shenidam.c:449-459 | the scan with strict > from a running maximum below every sample returns the first argmax: in range, maximal, earlier values strictly smaller |
| PeakFinder.Remap | shenidam.c:460-463 | the offset is negative exactly when the peak exceeds commonSize - trackLength/2, is congruent to the peak modulo commonSize, and lies in a window of width commonSize ending at commonSize - max(trackLength/2, 1) |
| PeakFinder.RemapUnique | shenidam.c:460-463 | any offset congruent to the peak inside that window is the remapped offset |
| FilterChain.CallsOf | shenidam.c:435-440 | a query makes two calls per filter, in registration order: filter i on the track spectrum at position 2i, then on the base spectrum, each with the given spectrum length and filter i's context |
| FilterChain.CallsOfAppend | shenidam.c:435-440 | the calls of an extended chain are the old calls followed by the new filters' calls |
| FilterChain.TerminatorIsFirstNull | shenidam.c:334-339 | in a well-formed chain no callback slot before the chain's length is NULL and the slot at the length is, so counting stops exactly there |
| FilterChain.StoresAppend | shenidam.c:340-344 | keeping the first n slots, then the new callback, a terminator and the new context, stores the chain extended by the new filter |
| FilterChain.Realloc | shenidam.c:340-341 | reallocation returns a fresh array of the new length that keeps the old elements below both lengths |
| FilterChain.ExtendCallbacks | shenidam.c:340-343 | the grown callback array is the first n callbacks, the new callback, then the terminator |
| FilterChain.ExtendData | shenidam.c:341-344 | the grown context array has n + 2 slots and holds the first n contexts followed by the new one |
| FilterChain.ReallocLength | shenidam.c:340-341 | the corrected allocation covers slot n (new filter) and slot n + 1 (terminator) |
| FilterChain.AsWrittenReallocTooSmall | shenidam.c:340-341 | the byte count as written, pointer size * n + 2, is below even the end of slot n |
| FilterChain.AsWrittenCountNeverStops | shenidam.c:334-339 | the counting guard as written (pointer compared with NULL) holds at every step for an allocated array, so it does not stop at the terminator |
| RateConverter.SliceLength | shenidam.c:256-262 | slice i starts at i * (n / threads); every slice but the last has n / threads samples and ends where the next begins; the last ends at n |
| RateConverter.SliceOf | shenidam.c:261-262 | worker i receives exactly SliceLength(i) samples starting at its slice start |
| RateConverter.Slices | shenidam.c:258-263 | there is one slice per worker, slice i being SliceOf(i) |
| RateConverter.SlicesCover | shenidam.c:256-262 | the slices laid end to end give back the input |
| RateConverter.SliceLengthsSum | shenidam.c:256-262 | the slice lengths sum to the input length |
| RateConverter.FlattenLength | shenidam.c:264-270 | the concatenation's length is the sum of the per-slice lengths |
| RateConverter.CumulatedSizes | shenidam.c:264-270 | the offsets start at 0, each is the previous plus that slice's output length, and the last equals the total output length, which is the sum of the lengths |
| RateConverter.Concatenate | shenidam.c:271-277 | the output buffer holds every slice's output at its cumulated offset, i.e. the concatenation in slice order |
| RateConverter.ResampleParallel | shenidam.c:243-283 | with one worker the resampler runs once over the input; otherwise the output is the per-slice outputs concatenated in order, and the reported count is its length |
| RateConverter.ParallelMatchesSequential | shenidam.c:256-277 | for a resampler that distributes over concatenation the chunked output equals the single-pass output |
| RateConverter.SlicedDecimationDiffers | shenidam.c:258-263 | for a decimating resampler on [1, 2, 3] with two workers the chunked output differs from the single-pass output |
| Shenidam.LocateTrack | shenidam.c:418-463 | the common size is the least power of two covering both lengths and equals the correlation length; both buffers are padded to it; the offset names the first correlation peak modulo the common size and is its remap |
| Shenidam.Engine.constructor | shenidam.c:294-321 | a new engine clamps the thread count to at least 1, records the processing rate, has no base, and its filter array holds only the terminator, with no context array |
| Shenidam.Engine.CountFilters | shenidam.c:334-339 | counting up to the terminator yields the number of registered filters |
| Shenidam.Engine.AddFrequentialFilter | shenidam.c:323-346 | a NULL callback gives InvalidArgument and changes nothing; otherwise Success, and the pair is appended after the earlier filters, which keep their order; base and rates unchanged |
| Shenidam.Engine.FilterCalls | shenidam.c:435-440 | the traversal makes exactly CallsOf(Chain, spectrumLength): every filter in registration order, track spectrum then base spectrum, each with the spectrum length and its context |
| Shenidam.Engine.SetBaseAudio | shenidam.c:347-374 | a set base gives AlreadySetBaseSignal and no change; an unknown format gives InvalidArgument and no change; otherwise Success, the base and its length are stored and the real rate recorded; filters, processing rate and thread count unchanged |
| Shenidam.Engine.GetAudioRange | shenidam.c:376-468 | checks in order: no base gives BaseSignalNotSet, then a rate <= 0 gives InvalidArgument, then zero samples gives InvalidArgument, then an unknown format gives InvalidArgument; otherwise the track length, the common size, the padded buffers, the filter calls, each passing the spectrum length commonSize / 2 + 1, and the remapped first peak; the engine is not modified |
| Shenidam.Engine.AsWrittenCountPassesTerminator | shenidam.c:334-339 | on a valid engine the guard as written still holds at the terminator's index, where the corrected count stops, and at the array's length, one past its last slot |
| Shenidam.Engine.Destroy | shenidam.c:470-485 | returns Success, ends the engine's life, and releases the context array exactly when a filter was registered |
| Shenidam.BaseIsSetOnce | shenidam.c:347-395 | on a fresh engine a query before the base fails with BaseSignalNotSet, the first set succeeds, and a second set gives AlreadySetBaseSignal and keeps the first base |

## Left out

- Sample values enter only floating-point stages: the element casts in the converter, normalisation (mean and variance, `sqrt`), the spectral multiply and the transforms. None of these is modelled. Samples are `real` wherever they are only copied or compared.
- FFTW (`fft`/`ifft`) and libsamplerate (`resample`) are foreign code. Their outputs are parameters: `resampled`, `track` and `convolved`, and the `resample` function of `ResampleParallel`.
- Shenidam.Engine.GetAudioRange: the offset and length are returned at the processing rate. The final `round(x * real_rate / processing_rate)` rescaling at shenidam.c:464-465 is floating-point and is not modelled.
- Shenidam.Engine.GetAudioRange: sample rates are modelled as reals, so NaN and infinite rates are outside the model. A NaN rate passes the `sample_rate <= 0` check at shenidam.c:388, because that comparison is false, and goes on to the `(size_t)ceil(...)` length estimate at shenidam.c:411.
- Shenidam.Engine.SetBaseAudio: the caller's buffer, its count and the rate-ratio length estimate reach only the converter, the normaliser and the resampler, so the method takes the resampled base instead.
- Allocation failure and the `setjmp`/`longjmp` recovery are not modelled. Dafny allocation does not fail, so no operation returns `AllocationError`, and `shenidam_create` never returns NULL.
- ErrorModel.ErrorMessage: the lookup takes any integer, and every integer that matches no code also gets "Unknown error". The model takes the `Status` datatype, because the numeric values of the codes are defined in shenidam.h, which is not part of this model.
- OpenMP parallel regions, threaded FFTW initialisation and the process-wide `initialized_module` flag concern concurrency or global set-up. They are not modelled. Each worker's slice is computed as an element of a sequence.
- RateConverter.ResampleParallel: the worker count is a parameter. The source reads it from `omp_get_num_threads()`, which returns 1 outside a parallel region, so as written the sequential path is taken.
- RateConverter.ResampleParallel: each slice's output is a function of its samples alone. On the chunked path the source passes `&buffer_sizes[i]` (shenidam.c:262) as the output capacity, and `resample` reads it as both the allocation size and `output_frames` (shenidam.c:235-237). But `buffer_sizes` comes from `malloc` at shenidam.c:254 and is never initialised, so each slice's output is capped by an indeterminate capacity, and the caller's length estimate is ignored on this path. Neither the cap nor the ignored estimate is modelled.
- RateConverter.Concatenate: copies each slice's samples. The copy at shenidam.c:275 reads from `&buffers[i]`, the address of the pointer slot, rather than `buffers[i]`. Those bytes are memory layout with no behavioural meaning, so the model copies the samples.
- Memory release (the buffers freed during a query, and the base that `shenidam_destroy` frees) is not modelled. Only the guard at shenidam.c:478 on the context array is kept, as Destroy's `releasesFilterData`.
- Padder.GetCommonSize: integers are unbounded. With a 64-bit `size_t`, a minimal size above 2^63 makes `res` shift to 0 and the loop never ends. This is not modelled.
- Padder.Resize: the source holds the copy count in an `int`, which truncates counts of 2^31 or more. This is not modelled.
- PeakFinder.FindPeak: the peak index is held in an `int`, so a common size above 2^31 would overflow it. This is not modelled. NaN correlation values are outside the model: samples are ordered reals, and the running maximum starts below every sample.
- Use after destroy is undefined in the source. The model makes it unreachable, because every operation requires `Valid()` and Destroy leaves the engine not valid.

## Findings

| source | as written | input that shows it | evidently intended | confidence | as-written member | corrected member |
|---|---|---|---|---|---|---|
| shenidam.c:336 | the counting loop tests the pointer `cur` against NULL, not the slot `*cur` | any engine; on a fresh one the array holds only the terminator at index 0, and the guard still holds at index 1 | count slots until the NULL terminator | high, not executed | Shenidam.Engine.AsWrittenCountPassesTerminator | Shenidam.Engine.CountFilters |
| shenidam.c:340-341 | both reallocations request `sizeof(pointer) * n + 2` bytes | n = 0 (first filter): 2 bytes requested, while slots 0 and 1 need 16 | `sizeof(pointer) * (n + 2)`: room for the new entry and the terminator | high, not executed | FilterChain.AsWrittenReallocTooSmall | FilterChain.ReallocLength |
