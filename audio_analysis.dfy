/** The spectrum pipeline of audio-analysis-jni.cpp: a process-wide cache of a real-FFT
    configuration, a Hann window and two scratch buffers, rebuilt when the requested
    transform size changes; each call windows the input, runs the real FFT and writes
    normalised magnitudes into the caller's output buffer.

    The floating-point primitives the code relies on are parameters of the model:
    the Hann coefficient 0.5f * (1 - cosf(2*pi*i / (n-1))), the real FFT kiss_fftr and
    sqrtf. Allocation and the JNI array accesses are success flags. */
module AudioAnalysis {
  import opened KissComplex

  datatype Option<T> = None | Some(value: T)

  /** A kiss_fftr configuration; the model keeps only the size it was allocated for. */
  datatype Plan = Plan(nfft: int)

  /** kiss_fftr as seen by its caller: the output has nfft/2 + 1 bins for an input of
      nfft samples. */
  type RealFft = f: seq<real> -> seq<Complex> | forall x :: |f(x)| == |x| / 2 + 1
    witness (x: seq<real>) => seq(|x| / 2 + 1, _ => Zero)

  /** The numerical primitives the pipeline calls. */
  datatype MathLib = MathLib(hann: (int, int) -> real, rfft: RealFft, sqrt: real -> real)

  /** The globals cfg, current_nfft, window, fft_in and fft_out. */
  datatype Cache = Cache(cfg: Option<Plan>, currentNfft: int, window: seq<real>, fftIn: seq<real>, fftOut: seq<Complex>)

  /** The state of the globals as the program starts (static initialisation). */
  const Initial: Cache := Cache(None, 0, [], [], [])

  /** The window table for size n: coefficient i is Hann(n, i). */
  function HannTable(hann: (int, int) -> real, n: nat): (w: seq<real>)
    ensures |w| == n && forall i :: 0 <= i < n ==> w[i] == hann(n, i)
  {
    seq(n, i => hann(n, i))
  }

  /** Whenever a configuration is held, it was built for current_nfft, which is positive,
      the window is the Hann table for that size, fft_in holds current_nfft samples and
      fft_out current_nfft/2 + 1 bins. Without a configuration nothing is promised: the
      next call rebuilds everything. */
  predicate CacheValid(c: Cache, hann: (int, int) -> real)
  {
    c.cfg.Some? ==>
      c.cfg.value.nfft == c.currentNfft && 0 < c.currentNfft &&
      c.window == HannTable(hann, c.currentNfft) &&
      |c.fftIn| == c.currentNfft && |c.fftOut| == c.currentNfft / 2 + 1
  }

  /** The test at line 21. */
  predicate NeedsRebuild(c: Cache, nfft: int)
  {
    c.cfg.None? || c.currentNfft != nfft
  }

  /** std::vector::resize(n): keeps the first n elements and appends value-initialised
      ones (zero) up to length n. */
  function Resize<T>(s: seq<T>, n: nat, fill: T): (r: seq<T>)
    ensures |r| == n
    ensures forall i :: 0 <= i < n && i < |s| ==> r[i] == s[i]
    ensures forall i :: |s| <= i < n ==> r[i] == fill
  {
    if n <= |s| then s[..n] else s + seq(n - |s|, _ => fill)
  }

  /** The cache after a successful reallocation at size nfft (lines 29-38). */
  function Rebuild(c: Cache, hann: (int, int) -> real, nfft: nat): (r: Cache)
    ensures 0 < nfft ==> CacheValid(r, hann)
    ensures !NeedsRebuild(r, nfft)
  {
    Cache(Some(Plan(nfft)), nfft, HannTable(hann, nfft),
          Resize(c.fftIn, nfft, 0.0), Resize(c.fftOut, nfft / 2 + 1, Zero))
  }

  /** The windowed samples: input[i] * window[i] for the first n samples. */
  function Windowed(input: seq<real>, window: seq<real>, n: nat): (x: seq<real>)
    requires n <= |input| && n <= |window|
    ensures |x| == n && forall i :: 0 <= i < n ==> x[i] == input[i] * window[i]
  {
    seq(n, i requires 0 <= i < n => input[i] * window[i])
  }

  /** The output buffer after the loop of lines 77-86: entry i < bins becomes the
      magnitude of bin i divided by divisor; the other entries are left as they were. */
  function WriteMagnitudes(out: seq<real>, spectrum: seq<Complex>, sqrt: real -> real, bins: int, divisor: int): (r: seq<real>)
    requires bins <= |spectrum| && (0 < bins ==> 0 < divisor)
    ensures |r| == |out|
    ensures forall i :: 0 <= i < |out| && bins <= i ==> r[i] == out[i]
    ensures forall i :: 0 <= i < |out| && i < bins ==> r[i] == sqrt(NormSq(spectrum[i])) / divisor as real
  {
    seq(|out|, i requires 0 <= i < |out| =>
      if i < bins then sqrt(NormSq(spectrum[i])) / divisor as real else out[i])
  }

  /** What a call leaves behind: the new cache and the new output buffer. */
  datatype Step = Step(cache: Cache, output: seq<real>)

  /** Java_com_realtimeaudio_AudioEngine_computeFft, lines 14-91, on the cache c and the
      output buffer out. allocOk says whether kiss_fftr_alloc succeeds if it is called;
      inOk and outOk whether GetFloatArrayElements succeeds for input and output. The
      input must hold nfft samples on the paths that read it. */
  function Compute(c: Cache, lib: MathLib, nfft: int, input: seq<real>, out: seq<real>,
                   allocOk: bool, inOk: bool, outOk: bool): (s: Step)
    requires CacheValid(c, lib.hann) && (Proceeds(c, nfft, allocOk, inOk, outOk) ==> nfft <= |input|)
    ensures CacheValid(s.cache, lib.hann) && |s.output| == |out|
  {
    if nfft <= 0 then Step(c, out)
    else if NeedsRebuild(c, nfft) && !allocOk then
      // The old configuration is freed and cfg is left null; current_nfft is kept.
      Step(c.(cfg := None), out)
    else
      var c1 := if NeedsRebuild(c, nfft) then Rebuild(c, lib.hann, nfft) else c;
      if !inOk || !outOk then Step(c1, out)
      else
        // cfg is never null here, so the test at line 51 cannot fire.
        var x := Windowed(input, c1.window, nfft);
        var y := lib.rfft(x);
        Step(c1.(fftIn := x, fftOut := y),
             WriteMagnitudes(out, y, lib.sqrt, Min(|out|, nfft / 2), nfft / 2))
  }

  /** Java_com_realtimeaudio_AudioEngine_cleanupFft, lines 93-100: the configuration is
      freed and current_nfft reset; the vectors keep their storage and contents. */
  function Release(c: Cache): (r: Cache)
  {
    c.(cfg := None, currentNfft := 0)
  }

  /** The spectrum a call at size nfft writes once it gets that far, computed without any
      cache: the first min(|out|, nfft/2) entries are the normalised magnitudes of the
      real FFT of the Hann-windowed input. */
  function Spectrum(lib: MathLib, nfft: nat, input: seq<real>, out: seq<real>): seq<real>
    requires nfft <= |input|
  {
    var y := lib.rfft(Windowed(input, HannTable(lib.hann, nfft), nfft));
    WriteMagnitudes(out, y, lib.sqrt, Min(|out|, nfft / 2), nfft / 2)
  }

  /** Whether a call gets as far as writing output. */
  predicate Proceeds(c: Cache, nfft: int, allocOk: bool, inOk: bool, outOk: bool)
  {
    0 < nfft && (allocOk || !NeedsRebuild(c, nfft)) && inOk && outOk
  }

  /** The cached state that survives between calls, apart from the scratch contents. */
  predicate SameCache(c: Cache, d: Cache)
  {
    c.cfg == d.cfg && c.currentNfft == d.currentNfft && c.window == d.window &&
    |c.fftIn| == |d.fftIn| && |c.fftOut| == |d.fftOut|
  }

  // ----- Properties of one call -----

  /** nfft <= 0: nothing changes and nothing is written (lines 17-18). */
  lemma InvalidSizeIsNoOp(c: Cache, lib: MathLib, nfft: int, input: seq<real>, out: seq<real>, allocOk: bool, inOk: bool, outOk: bool)
    requires CacheValid(c, lib.hann) && nfft <= 0
    ensures Compute(c, lib, nfft, input, out, allocOk, inOk, outOk) == Step(c, out)
  {
  }

  /** The cache is reallocated only when cfg is null or the size differs; otherwise cfg,
      current_nfft, the window and the buffer sizes stay as they are. */
  lemma CacheHitKeepsCache(c: Cache, lib: MathLib, nfft: int, input: seq<real>, out: seq<real>, allocOk: bool, inOk: bool, outOk: bool)
    requires CacheValid(c, lib.hann) && (Proceeds(c, nfft, allocOk, inOk, outOk) ==> nfft <= |input|)
    requires !NeedsRebuild(c, nfft)
    ensures SameCache(Compute(c, lib, nfft, input, out, allocOk, inOk, outOk).cache, c)
  {
  }

  /** After a successful reallocation the cache is built for exactly nfft. */
  lemma RebuildEstablishesSize(c: Cache, lib: MathLib, nfft: int, input: seq<real>, out: seq<real>, inOk: bool, outOk: bool)
    requires CacheValid(c, lib.hann) && (Proceeds(c, nfft, true, inOk, outOk) ==> nfft <= |input|) && 0 < nfft
    requires NeedsRebuild(c, nfft)
    ensures var r := Compute(c, lib, nfft, input, out, true, inOk, outOk).cache;
      r.cfg == Some(Plan(nfft)) && r.currentNfft == nfft &&
      |r.window| == |r.fftIn| == nfft && |r.fftOut| == nfft / 2 + 1 &&
      forall i :: 0 <= i < nfft ==> r.window[i] == lib.hann(nfft, i)
  {
  }

  /** A failed allocation leaves cfg null, keeps current_nfft and writes nothing; the
      next call rebuilds whatever size it asks for. */
  lemma AllocationFailure(c: Cache, lib: MathLib, nfft: int, input: seq<real>, out: seq<real>, inOk: bool, outOk: bool, next: int)
    requires CacheValid(c, lib.hann) && 0 < nfft
    requires NeedsRebuild(c, nfft)
    ensures var s := Compute(c, lib, nfft, input, out, false, inOk, outOk);
      s.output == out && s.cache == c.(cfg := None) && NeedsRebuild(s.cache, next)
  {
  }

  /** When either Java array cannot be accessed nothing is written (lines 45-49). */
  lemma AccessFailureWritesNothing(c: Cache, lib: MathLib, nfft: int, input: seq<real>, out: seq<real>, allocOk: bool, inOk: bool, outOk: bool)
    requires CacheValid(c, lib.hann)
    requires !inOk || !outOk
    ensures Compute(c, lib, nfft, input, out, allocOk, inOk, outOk).output == out
  {
  }

  /** A call that gets through windows exactly nfft samples and keeps the FFT result. */
  lemma WindowingUsesFirstSamples(c: Cache, lib: MathLib, nfft: int, input: seq<real>, out: seq<real>, allocOk: bool)
    requires CacheValid(c, lib.hann) && nfft <= |input|
    requires Proceeds(c, nfft, allocOk, true, true)
    ensures var r := Compute(c, lib, nfft, input, out, allocOk, true, true).cache;
      |r.fftIn| == nfft &&
      (forall i :: 0 <= i < nfft ==> r.fftIn[i] == input[i] * lib.hann(nfft, i)) &&
      r.fftOut == lib.rfft(r.fftIn)
  {
  }

  /** The output: with bins = min(outSize, nfft/2), entries below bins are the magnitudes
      divided by nfft/2 (integer division), the others are unchanged; a call that does not
      get through writes nothing. */
  lemma OutputBounds(c: Cache, lib: MathLib, nfft: int, input: seq<real>, out: seq<real>, allocOk: bool, inOk: bool, outOk: bool)
    requires CacheValid(c, lib.hann) && (Proceeds(c, nfft, allocOk, inOk, outOk) ==> nfft <= |input|)
    ensures var s := Compute(c, lib, nfft, input, out, allocOk, inOk, outOk);
      var bins := if Proceeds(c, nfft, allocOk, inOk, outOk) then Min(|out|, nfft / 2) else 0;
      |s.output| == |out| &&
      (forall i :: bins <= i < |out| ==> s.output[i] == out[i]) &&
      (forall i :: 0 <= i < bins ==>
         s.output[i] == lib.sqrt(NormSq(s.cache.fftOut[i])) / (nfft / 2) as real)
  {
  }

  /** A transform of size 1 has nfft/2 == 0 bins, so nothing is written. */
  lemma SizeOneWritesNothing(c: Cache, lib: MathLib, input: seq<real>, out: seq<real>, allocOk: bool, inOk: bool, outOk: bool)
    requires CacheValid(c, lib.hann) && (Proceeds(c, 1, allocOk, inOk, outOk) ==> 1 <= |input|)
    ensures Compute(c, lib, 1, input, out, allocOk, inOk, outOk).output == out
  {
  }

  // ----- Properties across calls -----

  /** The cache is transparent: whatever the cache held, a call that gets through writes
      the spectrum computed from scratch, and a call that does not writes nothing. */
  lemma CacheIsTransparent(c: Cache, lib: MathLib, nfft: int, input: seq<real>, out: seq<real>, allocOk: bool, inOk: bool, outOk: bool)
    requires CacheValid(c, lib.hann) && (Proceeds(c, nfft, allocOk, inOk, outOk) ==> nfft <= |input|)
    ensures Compute(c, lib, nfft, input, out, allocOk, inOk, outOk).output ==
      if Proceeds(c, nfft, allocOk, inOk, outOk) then Spectrum(lib, nfft, input, out) else out
  {
    if Proceeds(c, nfft, allocOk, inOk, outOk) && !NeedsRebuild(c, nfft) {
      assert c.window == HannTable(lib.hann, nfft);
    }
  }

  /** After a call that gets through, a second call at the same size needs no
      reallocation, so it gets through without allocating and writes the same output. */
  lemma RepeatedCallIsIdempotent(c: Cache, lib: MathLib, nfft: int, input: seq<real>, out: seq<real>, allocOk: bool, allocOk2: bool)
    requires CacheValid(c, lib.hann) && nfft <= |input|
    requires Proceeds(c, nfft, allocOk, true, true)
    ensures var s := Compute(c, lib, nfft, input, out, allocOk, true, true);
      var s2 := Compute(s.cache, lib, nfft, input, out, allocOk2, true, true);
      !NeedsRebuild(s.cache, nfft) && s2.output == s.output && s2.cache == s.cache
  {
    var s := Compute(c, lib, nfft, input, out, allocOk, true, true);
    CacheIsTransparent(c, lib, nfft, input, out, allocOk, true, true);
    CacheIsTransparent(s.cache, lib, nfft, input, out, allocOk2, true, true);
  }

  /** Sizes A, then B, then A again: the third call writes what the first wrote, as the
      window depends only on the size. */
  lemma SizeChangeRoundTrip(c: Cache, lib: MathLib, a: int, b: int, input: seq<real>, out: seq<real>, outB: seq<real>)
    requires CacheValid(c, lib.hann) && 0 < a && 0 < b && a <= |input| && b <= |input|
    requires Proceeds(c, a, true, true, true)
    ensures var s1 := Compute(c, lib, a, input, out, true, true, true);
      var s2 := Compute(s1.cache, lib, b, input, outB, true, true, true);
      var s3 := Compute(s2.cache, lib, a, input, out, true, true, true);
      s3.output == s1.output && s3.cache == s1.cache
  {
    var s1 := Compute(c, lib, a, input, out, true, true, true);
    var s2 := Compute(s1.cache, lib, b, input, outB, true, true, true);
    CacheIsTransparent(c, lib, a, input, out, true, true, true);
    CacheIsTransparent(s2.cache, lib, a, input, out, true, true, true);
  }

  /** cleanupFft is idempotent and leaves a cache that holds no configuration. */
  lemma ReleaseIdempotent(c: Cache, hann: (int, int) -> real)
    ensures Release(Release(c)) == Release(c)
    ensures CacheValid(Release(c), hann) && Release(c).cfg.None? && Release(c).currentNfft == 0
  {
  }

  /** After cleanup, a call at any size behaves as the first call of the program at that
      size: same output; the same cached state when allocation succeeds; and the same
      scratch contents once the call got through. */
  lemma ReleaseForgetsHistory(c: Cache, lib: MathLib, nfft: int, input: seq<real>, out: seq<real>, allocOk: bool, inOk: bool, outOk: bool)
    requires CacheValid(c, lib.hann) && (Proceeds(Initial, nfft, allocOk, inOk, outOk) ==> nfft <= |input|)
    ensures var s := Compute(Release(c), lib, nfft, input, out, allocOk, inOk, outOk);
      var t := Compute(Initial, lib, nfft, input, out, allocOk, inOk, outOk);
      s.output == t.output && (0 < nfft && allocOk ==> SameCache(s.cache, t.cache)) &&
      (Proceeds(Initial, nfft, allocOk, inOk, outOk) ==> s.cache == t.cache)
  {
    CacheIsTransparent(Release(c), lib, nfft, input, out, allocOk, inOk, outOk);
    CacheIsTransparent(Initial, lib, nfft, input, out, allocOk, inOk, outOk);
  }

  // ----- The globals and the two JNI entry points -----

  /** The process-wide state of audio-analysis-jni.cpp. Calls are single-threaded. */
  class FftCache {
    const lib: MathLib
    var cfg: Option<Plan>
    var currentNfft: int
    var window: seq<real>
    var fftOut: seq<Complex>
    var fftIn: seq<real>

    function State(): Cache
      reads this
    {
      Cache(cfg, currentNfft, window, fftIn, fftOut)
    }

    predicate Valid()
      reads this
    {
      CacheValid(State(), lib.hann)
    }

    /** Static initialisation of the globals (lines 8-12). */
    constructor (lib: MathLib)
      ensures this.lib == lib && State() == Initial && Valid()
    {
      this.lib := lib;
      cfg := None;
      currentNfft := 0;
      window := [];
      fftOut := [];
      fftIn := [];
    }

    /** Lines 29-38, after kiss_fftr_alloc succeeded: record the size, resize the three
        vectors and fill in the Hann window. */
    method Reallocate(nfft: nat)
      modifies this
      ensures State() == Rebuild(old(State()), lib.hann, nfft)
    {
      cfg := Some(Plan(nfft));
      currentNfft := nfft;

      window := Resize(window, nfft, 0.0);
      fftIn := Resize(fftIn, nfft, 0.0);
      fftOut := Resize(fftOut, nfft / 2 + 1, Zero);

      ghost var built := State();
      for i := 0 to nfft
        invariant State() == built.(window := window)
        invariant |window| == nfft
        invariant forall j :: 0 <= j < i ==> window[j] == lib.hann(nfft, j)
      {
        window := window[i := lib.hann(nfft, i)];
      }
      assert window == HannTable(lib.hann, nfft);
    }

    /** Lines 58-60: each of the first nfft input samples, multiplied by the window
        coefficient at the same index, is stored in fft_in. */
    method ApplyWindow(input: seq<real>, nfft: nat)
      requires nfft <= |input| && |window| == |fftIn| == nfft
      modifies this
      ensures State() == old(State()).(fftIn := Windowed(input, old(window), nfft))
    {
      ghost var c := State();
      for i := 0 to nfft
        invariant State() == c.(fftIn := fftIn) && window == c.window
        invariant |fftIn| == nfft
        invariant forall j :: 0 <= j < i ==> fftIn[j] == input[j] * window[j]
      {
        fftIn := fftIn[i := input[i] * window[i]];
      }
      ghost var x := Windowed(input, window, nfft);
      assert forall j :: 0 <= j < nfft ==> fftIn[j] == x[j];
      assert fftIn == x;
    }

    /** Java_com_realtimeaudio_AudioEngine_computeFft (lines 14-91). The input array holds
        at least nfft samples whenever the windowing loop is reached (the code reads nfft
        of them without checking its length); the length of the output array is the outSize of line 74. */
    method ComputeFft(input: seq<real>, output: array<real>, nfft: int, allocOk: bool, inOk: bool, outOk: bool)
      requires Valid() && (Proceeds(State(), nfft, allocOk, inOk, outOk) ==> nfft <= |input|)
      modifies this, output
      ensures Valid()
      ensures Step(State(), output[..]) ==
        Compute(old(State()), lib, nfft, input, old(output[..]), allocOk, inOk, outOk)
    {
      if nfft <= 0 {
        return;
      }

      // 1. Reallocate the configuration if the size changed.
      if cfg.None? || currentNfft != nfft {
        // The old configuration is released and a configuration for nfft is requested.
        if !allocOk {
          cfg := None;
          return;
        }
        Reallocate(nfft);
      }

      // 2. Get the Java arrays.
      if !inOk || !outOk {
        return;
      }
      // Line 51: cfg cannot be null at this point.
      assert cfg.Some?;

      // 3. Apply the window.
      ApplyWindow(input, nfft);

      // 4. Perform the FFT.
      fftOut := lib.rfft(fftIn);

      // 5. Compute normalised magnitudes.
      var bins := Min(output.Length, nfft / 2);
      WriteOutput(output, fftOut, lib.sqrt, bins, nfft / 2);
    }

    /** Java_com_realtimeaudio_AudioEngine_cleanupFft (lines 93-100). */
    method CleanupFft()
      modifies this
      ensures Valid()
      ensures State() == Release(old(State()))
    {
      if cfg.Some? {
        cfg := None;
      }
      currentNfft := 0;
    }
  }

  /** Lines 77-86: each slot below bins receives the square root of the squared modulus
      of the bin at the same index, divided by divisor; the rest of the output array is
      left alone. */
  method WriteOutput(output: array<real>, spectrum: seq<Complex>, sqrt: real -> real, bins: int, divisor: int)
    requires bins <= output.Length && bins <= |spectrum| && (0 < bins ==> 0 < divisor)
    modifies output
    ensures output[..] == WriteMagnitudes(old(output[..]), spectrum, sqrt, bins, divisor)
  {
    for i := 0 to if bins < 0 then 0 else bins
      invariant forall j :: 0 <= j < i ==> output[j] == sqrt(NormSq(spectrum[j])) / divisor as real
      invariant forall j :: i <= j < output.Length ==> output[j] == old(output[j])
    {
      var re := spectrum[i].r;
      var im := spectrum[i].i;
      assert re * re + im * im == NormSq(spectrum[i]);
      var mag := sqrt(re * re + im * im);
      output[i] := mag / divisor as real;
    }
  }
}
