# Real-time audio analysis: FFT butterfly and spectrum pipeline

This project models two pieces of the native part of the audio engine.

1. `kf_bfly_generic` of kiss_fft, the radix-p butterfly for factors without a specialised
   butterfly, together with the float-mode complex macros it is built from.
   - It runs in place on `Fout`.
   - `Fout` holds `m` interleaved lanes of `p` values each.
   - For every lane, the butterfly copies the `p` values at stride `m` into a scratch vector.
   - It then overwrites each of those slots with a size-`p` direct DFT, taking the factors from the twiddle table.
   - The index into that table is a running total that one conditional subtraction brings back below `Norig`.
2. The spectrum pipeline of `audio-analysis-jni.cpp`. Process-wide globals cache four things:
   - a real-FFT configuration;
   - its size `current_nfft`;
   - a Hann window;
   - two scratch vectors.

   `computeFft` does the following:
   - it rejects `nfft <= 0`;
   - it rebuilds the cache when the size changes or no configuration is held;
   - it gives up when allocation or access to the Java arrays fails;
   - otherwise it windows the input, runs the real FFT, and writes `min(outSize, nfft/2)` magnitudes divided by `nfft/2`.

   `cleanupFft` drops the configuration.

Three modules, one per file:

- `KissComplex` (`kiss_complex.dfy`): covers the complex numbers and `MIN`/`MAX`.
  - A complex number is a pair of exact reals.
  - `C_ADD`, `C_SUB` and `C_MUL` are pure functions: `Add`, `Sub` and `Mul`.
  - `C_ADDTO`, `C_SUBFROM` and `C_MULBYSCALAR` update their operand, so they are methods. Each updates one slot of an array.
  - Lemmas state the algebra of the macros. `SubFrom` undoes `AddTo`, addition is associative, the product distributes over the sum, scaling by a real commutes with both, and the modulus is multiplicative.
  - `SubFrom`, `MulByScalar`, `Add`, `Sub`, `Min` and `Max` are modelled with the rest of the macros, though `kf_bfly_generic` itself uses only `C_MUL`, `C_ADDTO` and `C_FIXDIV`.
- `KissButterfly` (`kiss_butterfly.dfy`): `GenericButterfly` is the in-place algorithm on an `array`.
  - It is proved against a pure specification, `Butterfly`, of what each slot ends up holding.
  - `Butterfly` in turn has lemmas:
    - the per-slot DFT formula;
    - lane independence;
    - untouched slots;
    - radix one is the identity;
    - agreement with the textbook DFT sum;
    - additivity and homogeneity, of the lane sum and of the whole butterfly.
  - The twiddle-index wrap-around is proved correct.
  - The state `st` is a value of type `FftState`, so it cannot change.
- `AudioAnalysis` (`audio_analysis.dfy`): the globals are the fields of class `FftCache`.
  - `ComputeFft` and `CleanupFft` keep the class's invariant `Valid`.
  - They are proved against the pure transitions `Compute` and `Release`.
  - Lemmas state the properties of one call and of sequences of calls on those transitions.
  - The cosine-based Hann coefficient, `kiss_fftr` and `sqrtf` are parameters of type `MathLib`, a value held by the cache object.
  - `kiss_fftr` is constrained only by its output length `nfft/2 + 1`.
  - Allocation success and access to each Java array are boolean parameters of each call.

Details of the code the model keeps:

- When `kiss_fftr_alloc` fails, `current_nfft` keeps its old value. Only `cfg` becomes null. The next call rebuilds anyway, because `cfg` is null (`AllocationFailure`).
- The cache invariant is conditional: it only says something while a configuration is held. Initially, and after a failed allocation or a cleanup, the window and buffers may not match `current_nfft`.
- The `cfg == nullptr` test at line 51 of `audio-analysis-jni.cpp` can never succeed. Every path that reaches it has a configuration. The model asserts that and has no branch for it.
- `cleanupFft` frees the configuration but not the vectors. `Release` keeps them, and the cache-state lemmas compare sizes only (`SameCache`).
- The code never checks the Java input array's length. The model requires that the input holds `nfft` samples on the paths that read them.

## Model

| member | source | states |
|---|---|---|
| KissComplex.Add | android/src/main/cpp/kiss_fft/_kiss_fft_guts.h:84-90 | `C_ADD`: the componentwise sum (a definition; its properties are the lemmas below) |
| KissComplex.Sub | android/src/main/cpp/kiss_fft/_kiss_fft_guts.h:91-97 | `C_SUB`: the componentwise difference (a definition; `SubUndoesAdd` is its partner) |
| KissComplex.Mul | android/src/main/cpp/kiss_fft/_kiss_fft_guts.h:67-71 | `C_MUL`: the complex product (a.r*b.r - a.i*b.i, a.r*b.i + a.i*b.r) (a definition; its properties are the lemmas below) |
| KissComplex.Scale | android/src/main/cpp/kiss_fft/_kiss_fft_guts.h:73-77 | the value `C_MULBYSCALAR` leaves: both parts multiplied by s (a definition; `ScaleIsMul` is its partner) |
| KissComplex.NormSq | android/src/main/cpp/audio-analysis-jni.cpp:78-80 | the squared modulus re*re + im*im handed to `sqrtf` (a definition; `NormSqNonNegative` and `NormSqMultiplies` are its partners) |
| KissComplex.ScaleMul | android/src/main/cpp/kiss_fft/_kiss_fft_guts.h:67-77 | scaling by a real commutes with `C_MUL` |
| KissComplex.ScaleAdd | android/src/main/cpp/kiss_fft/_kiss_fft_guts.h:73-90 | scaling by a real distributes over `C_ADD` |
| KissComplex.Min | android/src/main/cpp/kiss_fft/_kiss_fft_guts.h:4 | `MIN(n, m)` is at most both arguments and is one of them |
| KissComplex.Max | android/src/main/cpp/kiss_fft/_kiss_fft_guts.h:5 | `MAX(n, m)` is at least both arguments and is one of them |
| KissComplex.AddTo | android/src/main/cpp/kiss_fft/_kiss_fft_guts.h:98-104 | `C_ADDTO` on slot k: that slot becomes the componentwise sum and no other slot changes |
| KissComplex.SubFrom | android/src/main/cpp/kiss_fft/_kiss_fft_guts.h:106-112 | `C_SUBFROM` on slot k: that slot becomes the componentwise difference and no other slot changes |
| KissComplex.MulByScalar | android/src/main/cpp/kiss_fft/_kiss_fft_guts.h:73-77 | `C_MULBYSCALAR` on slot k: both parts are multiplied by s and no other slot changes |
| KissComplex.SubUndoesAdd | android/src/main/cpp/kiss_fft/_kiss_fft_guts.h:84-97 | `C_SUB` of b undoes `C_ADD` of b, and the other way round |
| KissComplex.AddCommutes | android/src/main/cpp/kiss_fft/_kiss_fft_guts.h:84-90 | `C_ADD` is commutative |
| KissComplex.AddAssociates | android/src/main/cpp/kiss_fft/_kiss_fft_guts.h:84-90 | `C_ADD` is associative |
| KissComplex.AddZero | android/src/main/cpp/kiss_fft/_kiss_fft_guts.h:84-90 | zero is neutral for `C_ADD` |
| KissComplex.MulCommutes | android/src/main/cpp/kiss_fft/_kiss_fft_guts.h:67-71 | `C_MUL` is commutative |
| KissComplex.MulOne | android/src/main/cpp/kiss_fft/_kiss_fft_guts.h:67-71 | multiplying by the twiddle factor 1 changes nothing |
| KissComplex.MulZero | android/src/main/cpp/kiss_fft/_kiss_fft_guts.h:67-71 | multiplying by zero gives zero |
| KissComplex.MulDistributes | android/src/main/cpp/kiss_fft/_kiss_fft_guts.h:67-90 | `C_MUL` distributes over `C_ADD` |
| KissComplex.ScaleIsMul | android/src/main/cpp/kiss_fft/_kiss_fft_guts.h:67-77 | `C_MULBYSCALAR` by s equals `C_MUL` by the complex number (s, 0) |
| KissComplex.NormSqMultiplies | android/src/main/cpp/kiss_fft/_kiss_fft_guts.h:67-71 | the squared modulus of a `C_MUL` product is the product of the squared moduli |
| KissComplex.NormSqNonNegative | android/src/main/cpp/audio-analysis-jni.cpp:80 | the value handed to `sqrtf`, `re*re + im*im`, is never negative |
| KissButterfly.WrapAdd | android/src/main/cpp/kiss_fft/_kiss_fft_guts.h:211-213 | one addition of the step and one conditional subtraction of Norig keep twidx in [0, Norig), and the result is (twidx + step) mod Norig |
| KissButterfly.TwiddleIndexStep | android/src/main/cpp/kiss_fft/_kiss_fft_guts.h:208-213 | after term q, twidx equals (q * fstride * k) mod Norig |
| KissButterfly.Butterfly | android/src/main/cpp/kiss_fft/_kiss_fft_guts.h:180-221 | the specification of the butterfly's result has the length of Fout |
| KissButterfly.Gather | android/src/main/cpp/kiss_fft/_kiss_fft_guts.h:199-204 | the scratch vector of lane u: the p values of Fout at stride m from u (a definition; `GatherLane` computes it in place) |
| KissButterfly.PartialDft | android/src/main/cpp/kiss_fft/_kiss_fft_guts.h:209-216 | the first n terms of the inner loop's sum for slot k: scratch[0] untwiddled, then scratch[q] times twiddles[(q*fstride*k) mod Norig] (a definition; `ComputeSlot` computes it in place) |
| KissButterfly.ButterflySlot | android/src/main/cpp/kiss_fft/_kiss_fft_guts.h:198-218 | for lane u < m and q1 < p, slot k = u + q1*m ends up as old Fout[u] plus the sum over q = 1..p-1 of old Fout[u + q*m] times twiddles[(q*fstride*k) mod Norig] |
| KissButterfly.ButterflyLeavesRestAlone | android/src/main/cpp/kiss_fft/_kiss_fft_guts.h:198-218 | slots from m*p on keep their values |
| KissButterfly.ButterflyLanesIndependent | android/src/main/cpp/kiss_fft/_kiss_fft_guts.h:199-217 | what a lane ends up holding depends only on that lane's old values |
| KissButterfly.RadixOneIsIdentity | android/src/main/cpp/kiss_fft/_kiss_fft_guts.h:198-218 | with p = 1 the butterfly leaves Fout unchanged |
| KissButterfly.PartialDftIsDftSum | android/src/main/cpp/kiss_fft/_kiss_fft_guts.h:209-216 | starting from scratch[0] without a twiddle gives the textbook DFT sum whenever twiddles[0] is 1 |
| KissButterfly.PartialDftAdditive | android/src/main/cpp/kiss_fft/_kiss_fft_guts.h:209-216 | the lane sum is additive in the lane: the sum of a pointwise sum of lanes is the sum of their lane sums |
| KissButterfly.PartialDftScales | android/src/main/cpp/kiss_fft/_kiss_fft_guts.h:209-216 | the lane sum is homogeneous: scaling the lane by a real scales its lane sum |
| KissButterfly.SlotAdditive | android/src/main/cpp/kiss_fft/_kiss_fft_guts.h:198-218 | each written slot of the butterfly of a pointwise sum of inputs is the sum of that slot's values for the two inputs |
| KissButterfly.ButterflyAdditive | android/src/main/cpp/kiss_fft/_kiss_fft_guts.h:180-221 | the butterfly of a pointwise sum of inputs is, on every slot, the sum of the butterflies |
| KissButterfly.SlotScales | android/src/main/cpp/kiss_fft/_kiss_fft_guts.h:198-218 | each written slot of the butterfly of a scaled input is that slot's value scaled |
| KissButterfly.ButterflyScales | android/src/main/cpp/kiss_fft/_kiss_fft_guts.h:180-221 | the butterfly of an input scaled by a real is, on every slot, the scaled butterfly; with `ButterflyAdditive` the butterfly is linear |
| KissButterfly.GatherLane | android/src/main/cpp/kiss_fft/_kiss_fft_guts.h:199-204 | the scratch vector receives Fout[u], Fout[u+m], ..., Fout[u+(p-1)m]; `C_FIXDIV` does nothing |
| KissButterfly.ComputeSlot | android/src/main/cpp/kiss_fft/_kiss_fft_guts.h:207-216 | only Fout[k] changes, and it becomes the lane sum of the scratch values with the running twiddle index, which stays in bounds |
| KissButterfly.WriteLane | android/src/main/cpp/kiss_fft/_kiss_fft_guts.h:206-218 | writing the p slots of lane u from the scratch vector advances the in-place state from "lanes below u done" to "lanes up to u done" |
| KissButterfly.GenericButterfly | android/src/main/cpp/kiss_fft/_kiss_fft_guts.h:180-221 | the in-place butterfly leaves exactly `Butterfly(old Fout)` in Fout |
| AudioAnalysis.HannTable | android/src/main/cpp/audio-analysis-jni.cpp:36-38 | the window for size n has n entries and entry i is Hann(n, i) |
| AudioAnalysis.Resize | android/src/main/cpp/audio-analysis-jni.cpp:32-34 | `std::vector::resize(n)`: length n, the old prefix kept, new entries zero |
| AudioAnalysis.NeedsRebuild | android/src/main/cpp/audio-analysis-jni.cpp:21 | the reallocation test: no configuration is held, or it was built for another size (a definition; `CacheHitKeepsCache` and `AllocationFailure` state its consequences) |
| AudioAnalysis.Rebuild | android/src/main/cpp/audio-analysis-jni.cpp:29-38 | the cache after a successful reallocation is valid for a positive size and needs no rebuild at that size |
| AudioAnalysis.Windowed | android/src/main/cpp/audio-analysis-jni.cpp:58-60 | nfft entries, entry i is in[i] * window[i] |
| AudioAnalysis.WriteMagnitudes | android/src/main/cpp/audio-analysis-jni.cpp:74-86 | the output keeps its length; entries below bins become sqrt(re*re + im*im) / divisor and the others keep their values |
| AudioAnalysis.Release | android/src/main/cpp/audio-analysis-jni.cpp:93-100 | the state `cleanupFft` leaves: no configuration, size 0, vectors kept (a definition; `ReleaseIdempotent` and `ReleaseForgetsHistory` are its partners) |
| AudioAnalysis.Compute | android/src/main/cpp/audio-analysis-jni.cpp:14-91 | every path keeps the cache invariant, and the output buffer keeps its length |
| AudioAnalysis.InvalidSizeIsNoOp | android/src/main/cpp/audio-analysis-jni.cpp:17-18 | nfft <= 0 changes neither the cache nor the output |
| AudioAnalysis.CacheHitKeepsCache | android/src/main/cpp/audio-analysis-jni.cpp:21-39 | without a size change, cfg, current_nfft, the window and the buffer sizes stay as they were |
| AudioAnalysis.RebuildEstablishesSize | android/src/main/cpp/audio-analysis-jni.cpp:29-38 | after a rebuild, current_nfft = nfft, the window and fft_in have nfft entries, fft_out has nfft/2+1, and window[i] = Hann(nfft, i) |
| AudioAnalysis.AllocationFailure | android/src/main/cpp/audio-analysis-jni.cpp:21-28 | a failed allocation leaves cfg null, keeps everything else, writes nothing, and makes the next call rebuild |
| AudioAnalysis.AccessFailureWritesNothing | android/src/main/cpp/audio-analysis-jni.cpp:45-55 | if either Java array is unavailable, no output is written |
| AudioAnalysis.WindowingUsesFirstSamples | android/src/main/cpp/audio-analysis-jni.cpp:57-63 | fft_in holds in[i] * Hann(nfft, i) for the first nfft samples, and fft_out is the real FFT of that |
| AudioAnalysis.OutputBounds | android/src/main/cpp/audio-analysis-jni.cpp:74-86 | entries below min(outSize, nfft/2) are magnitude / (nfft/2) with integer division, and later entries are unchanged; nothing is written when the call stops early |
| AudioAnalysis.SizeOneWritesNothing | android/src/main/cpp/audio-analysis-jni.cpp:75 | nfft = 1 gives no bins, so nothing is written |
| AudioAnalysis.CacheIsTransparent | android/src/main/cpp/audio-analysis-jni.cpp:14-91 | whatever the cache held, a call that gets through writes exactly the spectrum computed from scratch, and any other call writes nothing |
| AudioAnalysis.RepeatedCallIsIdempotent | android/src/main/cpp/audio-analysis-jni.cpp:21-86 | a second call at the same size needs no allocation and gives the same output and the same cache |
| AudioAnalysis.SizeChangeRoundTrip | android/src/main/cpp/audio-analysis-jni.cpp:21-38 | sizes A, B, A: the third call gives the output and cache of the first |
| AudioAnalysis.ReleaseIdempotent | android/src/main/cpp/audio-analysis-jni.cpp:93-100 | cleanup is idempotent, leaves cfg null and current_nfft 0, and keeps the invariant |
| AudioAnalysis.ReleaseForgetsHistory | android/src/main/cpp/audio-analysis-jni.cpp:93-100 | after cleanup a call behaves like the first call of the program: same output; same cached state when allocation succeeds; identical cache once it gets through |
| AudioAnalysis.FftCache.constructor | android/src/main/cpp/audio-analysis-jni.cpp:8-12 | the globals start with no configuration, size 0 and empty vectors |
| AudioAnalysis.FftCache.Reallocate | android/src/main/cpp/audio-analysis-jni.cpp:29-38 | records the size, resizes the vectors and fills the Hann window, giving `Rebuild` of the old state |
| AudioAnalysis.FftCache.ApplyWindow | android/src/main/cpp/audio-analysis-jni.cpp:58-60 | fft_in becomes the windowed input, and nothing else changes |
| AudioAnalysis.FftCache.ComputeFft | android/src/main/cpp/audio-analysis-jni.cpp:14-91 | keeps `Valid`, and the new globals and output array are exactly `Compute` of the old ones |
| AudioAnalysis.FftCache.CleanupFft | android/src/main/cpp/audio-analysis-jni.cpp:93-100 | keeps `Valid`; the new globals are `Release` of the old ones: cfg null, current_nfft 0, vectors kept |
| AudioAnalysis.WriteOutput | android/src/main/cpp/audio-analysis-jni.cpp:77-86 | the output array becomes `WriteMagnitudes` of its old contents: entries below bins are sqrt(re*re + im*im) / divisor, the rest unchanged |

## Left out

- Floating point: the model computes over exact reals, so float rounding, overflow and NaN are not modelled.
- The Hann coefficient `0.5f * (1 - cosf(2*pi*i/(nfft-1)))` is a parameter, including its value for nfft = 1, where the code divides by zero.
- `sqrtf` is a parameter.
- `kiss_fftr` and `kiss_fftr_alloc`: their bodies are not part of this model.
  - `kiss_fftr` is a parameter constrained only by its output length `nfft/2 + 1`.
  - Allocation success is a boolean parameter. This covers the allocator rejecting an odd `nfft`, which `kiss_fftr.h` requires to be even.
- JNI marshalling is reduced to the "array accessed" flags and the output array's length:
  - `GetFloatArrayElements`;
  - `ReleaseFloatArrayElements`, including its copy-back;
  - `GetArrayLength`.
- Memory management is not modelled:
  - `free` of the old configuration;
  - the allocation of the scratch vector (`KISS_FFT_MALLOC`) and its unchecked failure;
  - the vectors' storage.

  The scratch vector is a fresh array.
- `Compute`, `FftCache.ComputeFft`: the read past the end of a Java input array shorter than `nfft`, which the code does not guard against at lines 58-59, is not modelled. Both require the input to hold `nfft` samples on the paths that reach the windowing loop.
- Thread safety of the process-wide globals: calls are taken to be single-threaded.
- Twiddle generation (`kf_cexp` and the cosine/sine macros): the twiddle table is input data of the butterfly.
- The fixed-point and SIMD variants of the macros, and `pcpx` debug printing.
- `C_FIXDIV` has no member of its own: in float mode it expands to nothing. `GatherLane` copies the values unchanged.
- `GenericButterfly`: the nested loops are split into the methods `GatherLane`, `WriteLane` and `ComputeSlot`, one per loop. The order of the writes is the code's.
- `GenericButterfly`: does not model `int` overflow of `twidx + fstride*k`. This would need `Norig` above 2^30.
- `NormSqNonNegative`: states only that the squared modulus is not negative, not that it is zero exactly for zero.
- `ReleaseForgetsHistory`: after cleanup the vectors keep their old contents, so the cache equals a first call's only once that call gets through. Before that, only cfg, size, window and buffer lengths are compared.
