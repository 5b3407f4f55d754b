/** src/SpectrumProcessor.cc: windowed power spectrum of a block of IQ samples, and the power in a band. */
module SpectrumProcessor {
  import opened Complex
  import opened Parseval
  import opened BandPower

  /** One octet of the sample buffer, and its value when read as a signed sample. */
  type Octet = x: int | 0 <= x < 256

  function Signed8(x: Octet): (r: int)
    ensures -128 <= r < 128
    ensures r % 256 == x
  {
    if x < 128 then x else x - 256
  }

  const UINT32: int := 0x1_0000_0000

  /** The value of a uint32_t expression. */
  function U32(x: int): (r: nat)
    ensures 0 <= x < UINT32 ==> r == x
    ensures r < UINT32 && (r - x) % UINT32 == 0
  {
    x % UINT32
  }

  // ------------------------------------------------------ what is computed

  /** An odd count makes the fill loop read one octet more. */
  predicate Readable(signal: seq<Octet>, count: nat) {
    count + count % 2 <= |signal|
  }

  /** One IQ pair, each component weighted by the same window coefficient. */
  function WindowedSample(i: Octet, q: Octet, coefficient: real): Complex {
    Complex(Signed8(i) as real * coefficient, Signed8(q) as real * coefficient)
  }

  /** The transform's input after a block: the windowed samples, and behind them what was there before. */
  function WindowedInput(signal: seq<Octet>, count: nat, window: seq<real>, before: seq<Complex>): (r: seq<Complex>)
    requires Readable(signal, count) && count <= 2 * |before| && |window| == |before|
    ensures |r| == |before|
  {
    seq(|before|, j requires 0 <= j < |before| =>
      if 2 * j < count then WindowedSample(signal[2 * j], signal[2 * j + 1], window[j]) else before[j])
  }

  /** Entry j is the j-th IQ pair, each component times the j-th coefficient; behind the block nothing changes. */
  ghost predicate Windowed(x: seq<Complex>, signal: seq<Octet>, count: nat, window: seq<real>, before: seq<Complex>) {
    && |x| == |before| == |window| && Readable(signal, count) && count <= 2 * |x|
    && (forall j :: 0 <= j < |x| && 2 * j < count ==>
          && x[j].re == Signed8(signal[2 * j]) as real * window[j]
          && x[j].im == Signed8(signal[2 * j + 1]) as real * window[j])
    && (forall j :: 0 <= j < |x| && 2 * j >= count ==> x[j] == before[j])
  }

  lemma SampleByArithmetic(i: Octet, q: Octet, coefficient: real)
    ensures WindowedSample(i, q, coefficient).re == Signed8(i) as real * coefficient
    ensures WindowedSample(i, q, coefficient).im == Signed8(q) as real * coefficient
  {
  }

  lemma WindowedByArithmetic(signal: seq<Octet>, count: nat, window: seq<real>, before: seq<Complex>)
    requires Readable(signal, count) && count <= 2 * |before| && |window| == |before|
    ensures Windowed(WindowedInput(signal, count, window, before), signal, count, window, before)
  {
    hide WindowedSample, Signed8;
    var x := WindowedInput(signal, count, window, before);
    forall j | 0 <= j < |x| && 2 * j < count
      ensures x[j].re == Signed8(signal[2 * j]) as real * window[j]
      ensures x[j].im == Signed8(signal[2 * j + 1]) as real * window[j]
    {
      SampleByArithmetic(signal[2 * j], signal[2 * j + 1], window[j]);
    }
  }

  lemma NothingWindowed(signal: seq<Octet>, window: seq<real>, before: seq<Complex>)
    requires |window| == |before|
    ensures WindowedInput(signal, 0, window, before) == before
  {
  }

  lemma OneMorePair(signal: seq<Octet>, j: nat, window: seq<real>, before: seq<Complex>)
    requires j < |before| == |window| && 2 * j + 2 <= |signal|
    ensures WindowedInput(signal, 2 * j + 2, window, before)
         == WindowedInput(signal, 2 * j, window, before)[j := WindowedSample(signal[2 * j], signal[2 * j + 1], window[j])]
  {
    hide WindowedSample;
  }

  lemma OddCountRoundsUp(signal: seq<Octet>, count: nat, window: seq<real>, before: seq<Complex>)
    requires Readable(signal, count) && count <= 2 * |before| && |window| == |before|
    ensures WindowedInput(signal, count, window, before) == WindowedInput(signal, count + count % 2, window, before)
  {
    hide WindowedSample;
  }

  /** The normalised power of each bin, unshifted. */
  function Powers(w: Complex, x: seq<Complex>): (r: seq<real>)
    requires |x| > 0
    ensures |r| == |x|
  {
    seq(|x|, k requires 0 <= k < |x| => Norm2(DftBin(w, x, k)) / |x| as real)
  }

  /** The power within a bandwidth about the centre frequency. */
  function PowerInBand(w: Complex, x: seq<Complex>, bandwidth: real, sampleRate: real): real
    requires Even(|x|) && bandwidth >= 0.0 && sampleRate > 0.0
  {
    SpanBounds(bandwidth, bandwidth, sampleRate, |x|);
    BandSum(Powers(w, x), SpanOf(bandwidth, sampleRate, |x|), |x|)
  }

  // ---------------------------------------------------------- its properties

  lemma QuotientNonnegative(a: real, d: real)
    requires a >= 0.0 && d > 0.0
    ensures a / d >= 0.0
  {
  }

  lemma PowersNonnegative(w: Complex, x: seq<Complex>)
    requires |x| > 0
    ensures Nonnegative(Powers(w, x))
  {
    hide Norm2, DftBin;
    forall k | 0 <= k < |x| ensures Powers(w, x)[k] >= 0.0 {
      QuotientNonnegative(Norm2(DftBin(w, x, k)), |x| as real);
    }
  }

  lemma ScaledStep(s: real, e: real, a: real, n: real)
    requires n > 0.0 && s * n == e
    ensures (s + a / n) * n == e + a
  {
    assert (a / n) * n == a;
  }

  lemma {:induction false} ScaledSum(w: Complex, x: seq<Complex>, count: nat)
    requires |x| > 0 && count <= |x|
    ensures Sum(Powers(w, x), 0, count) * |x| as real == BinEnergy(w, x, |x|, count)
  {
    hide Norm2, DftSum;
    if count > 0 {
      ScaledSum(w, x, count - 1);
      ScaledStep(Sum(Powers(w, x), 0, count - 1), BinEnergy(w, x, |x|, count - 1),
        Norm2(DftSum(w, x, count - 1, |x|)), |x| as real);
    }
  }

  lemma CancelFactor(a: real, b: real, n: real)
    requires n > 0.0 && a * n == n * b
    ensures a == b
  {
    assert (a - b) * n == 0.0;
  }

  /** With the division by N, the powers of all bins add up to the energy of the transform's input. */
  lemma PowersSumToEnergy(w: Complex, x: seq<Complex>)
    requires IsPrimitiveRoot(w, |x|)
    ensures Sum(Powers(w, x), 0, |x|) == Energy(x, |x|)
  {
    hide Powers, Sum, Energy, BinEnergy;
    ScaledSum(w, x, |x|);
    ParsevalIdentity(w, x);
    CancelFactor(Sum(Powers(w, x), 0, |x|), Energy(x, |x|), |x| as real);
  }

  /**
   The power in a band is never negative, never falls when the bandwidth grows, and is
   never more than the energy of the windowed input; from half the sample rate on it is
   that energy less exactly the power of the Nyquist bin at shifted index 0.
   */
  lemma BandPowerBounds(w: Complex, x: seq<Complex>, bandwidth: real, wider: real, sampleRate: real)
    requires IsPrimitiveRoot(w, |x|) && Even(|x|) && sampleRate > 0.0 && 0.0 <= bandwidth <= wider
    ensures 0.0 <= PowerInBand(w, x, bandwidth, sampleRate) <= PowerInBand(w, x, wider, sampleRate) <= Energy(x, |x|)
    ensures bandwidth >= sampleRate / 2.0 ==>
      PowerInBand(w, x, bandwidth, sampleRate) == Energy(x, |x|) - ShiftedOf(Powers(w, x))[0]
  {
    hide Powers, BandSum, SpanOf, Energy, Sum, IsPrimitiveRoot, ShiftedOf;
    SpanBounds(bandwidth, wider, sampleRate, |x|);
    SpanBounds(wider, wider, sampleRate, |x|);
    PowersNonnegative(w, x);
    PowersSumToEnergy(w, x);
    BandIsMonotone(Powers(w, x), SpanOf(bandwidth, sampleRate, |x|), SpanOf(wider, sampleRate, |x|), |x|);
    WidestBand(Powers(w, x));
  }

  lemma NormOfPeak(a: real)
    requires a > 0.0
    ensures Norm2(Complex(a, 0.0)) / a == a
  {
    assert Norm2(Complex(a, 0.0)) == a * a;
    assert (a * a) / a == a;
  }

  lemma PowerOfTone(w: Complex, n: nat, f: nat, k: nat)
    requires IsPrimitiveRoot(w, n) && f < n && k < n
    ensures Powers(w, Tone(w, n, f))[k] == if k == f then n as real else 0.0
  {
    hide IsPrimitiveRoot, DftBin, Tone, Norm2;
    ToneInItsBin(w, n, f, k);
    if k == f {
      NormOfPeak(n as real);
    } else {
      NormOfZero();
    }
  }

  /** A tone at a signed frequency shows as a single peak at n/2 plus that frequency, and nowhere else. */
  lemma ToneInPlace(w: Complex, n: nat, frequency: int, i: nat)
    requires IsPrimitiveRoot(w, n) && Even(n) && -(n / 2) <= frequency < n / 2 && i < n
    ensures ShiftedOf(Powers(w, Tone(w, n, BinOf(n, frequency))))[i] == if i == n / 2 + frequency then n as real else 0.0
  {
    hide IsPrimitiveRoot, Powers, Tone;
    ShiftIsInvolution(n);
    PowerOfTone(w, n, BinOf(n, frequency), Shifted(n, i));
  }

  lemma {:induction false} BandOfPeak(bins: seq<real>, k: nat, peak: real, span: nat, count: nat)
    requires k < |bins| && count <= |bins|
    requires forall i :: 0 <= i < |bins| ==> bins[i] == if i == k then peak else 0.0
    ensures BandSum(bins, span, count) == if k < count && InBand(|bins|, k, span) then peak else 0.0
  {
    if count > 0 {
      BandOfPeak(bins, k, peak, span, count - 1);
    }
  }

  /** A tone counts in full if its frequency is less than the span away from the centre, and not at all otherwise. */
  lemma ToneInBand(w: Complex, n: nat, frequency: int, bandwidth: real, sampleRate: real)
    requires IsPrimitiveRoot(w, n) && Even(n) && -(n / 2) <= frequency < n / 2
    requires bandwidth >= 0.0 && sampleRate > 0.0
    ensures PowerInBand(w, Tone(w, n, BinOf(n, frequency)), bandwidth, sampleRate)
         == if -SpanOf(bandwidth, sampleRate, n) < frequency < SpanOf(bandwidth, sampleRate, n) then n as real else 0.0
  {
    hide IsPrimitiveRoot, Powers, Tone, BandSum, SpanOf;
    var k := BinOf(n, frequency);
    var bins := Powers(w, Tone(w, n, k));
    forall i | 0 <= i < n ensures bins[i] == if i == k then n as real else 0.0 {
      PowerOfTone(w, n, k, i);
    }
    SpanBounds(bandwidth, bandwidth, sampleRate, n);
    BandOfPeak(bins, k, n as real, SpanOf(bandwidth, sampleRate, n), n);
  }

  /** Storing the same block again changes nothing, the part behind a short block included. */
  lemma StoringTwiceIsOnce(signal: seq<Octet>, count: nat, window: seq<real>, before: seq<Complex>)
    requires Readable(signal, count) && count <= 2 * |before| && |window| == |before|
    ensures var once := WindowedInput(signal, count, window, before);
            WindowedInput(signal, count, window, once) == once
  {
  }

  /** A full block leaves nothing of what was there before; a shorter one does. */
  lemma FullBlockForgets(signal: seq<Octet>, count: nat, window: seq<real>, before: seq<Complex>, other: seq<Complex>)
    requires Readable(signal, count) && count <= 2 * |before| && |window| == |before| == |other|
    ensures count + count % 2 == 2 * |before| ==>
      WindowedInput(signal, count, window, before) == WindowedInput(signal, count, window, other)
    ensures count + count % 2 < 2 * |before| && before[|before| - 1] != other[|other| - 1] ==>
      WindowedInput(signal, count, window, before) != WindowedInput(signal, count, window, other)
  {
    var j := |before| - 1;
    if count + count % 2 < 2 * |before| {
      assert WindowedInput(signal, count, window, before)[j] == before[j];
      assert WindowedInput(signal, count, window, other)[j] == other[j];
    }
  }

  // -------------------------------------------------------------- the class

  class SpectrumProcessor {
    const n: nat                              // N
    const w: Complex                          // FFTW_FORWARD's root of unity
    const sampleRate: real
    const fftBinResolutionInHz: real
    const spectralPowerBuffer: array<real>
    const fftShiftTable: array<nat>
    const hanningWindow: array<real>
    const fftInput: array<Complex>
    const fftOutput: array<Complex>

    ghost predicate Valid()
      reads fftShiftTable
    {
      && Even(n) && n <= 0x4000_0000 && IsPrimitiveRoot(w, n)
      && sampleRate > 0.0 && fftBinResolutionInHz == sampleRate / n as real
      && spectralPowerBuffer.Length == fftShiftTable.Length == hanningWindow.Length == n
      && fftInput.Length == fftOutput.Length == n
      && spectralPowerBuffer != hanningWindow && fftInput != fftOutput
      && (forall i :: 0 <= i < n ==> fftShiftTable[i] == Shifted(n, i))
    }

    /** `window` stands for the Hanning coefficients; fftInput starts with whatever memory holds. */
    constructor (n: nat, w: Complex, sampleRate: real, window: seq<real>)
      requires Even(n) && n <= 0x4000_0000 && IsPrimitiveRoot(w, n) && |window| == n
      ensures Valid() && this.n == n && this.w == w && hanningWindow[..] == window
      ensures this.sampleRate == if sampleRate <= 0.0 then 256000.0 else sampleRate
      ensures fresh(spectralPowerBuffer) && fresh(fftShiftTable) && fresh(fftInput) && fresh(fftOutput) && fresh(hanningWindow)
    {
      var rate := if sampleRate <= 0.0 then 256000.0 else sampleRate;
      this.n := n;
      this.w := w;
      this.sampleRate := rate;
      this.fftBinResolutionInHz := rate / n as real;
      this.spectralPowerBuffer := new real[n];
      this.fftShiftTable := new nat[n];
      this.hanningWindow := new real[n](i requires 0 <= i < n => window[i]);
      this.fftInput := new Complex[n];
      this.fftOutput := new Complex[n];
      new;
      InitializeFftw();
    }

    /** Fills the shift table in pairs, one entry of each half at a time. */
    method InitializeFftw()
      requires Even(n) && fftShiftTable.Length == n
      modifies fftShiftTable
      ensures forall i :: 0 <= i < n ==> fftShiftTable[i] == Shifted(n, i)
    {
      for i := 0 to n / 2
        invariant forall k :: 0 <= k < i ==> fftShiftTable[k] == Shifted(n, k)
        invariant forall k :: n / 2 <= k < n / 2 + i ==> fftShiftTable[k] == Shifted(n, k)
      {
        fftShiftTable[i] := i + n / 2;
        fftShiftTable[i + n / 2] := i;
      }
    }

    /** FFTW, of which only this is assumed: the forward transform, out of place, with its input kept. */
    method FftwExecute()
      requires Valid()
      modifies fftOutput
      ensures forall k :: 0 <= k < n ==> fftOutput[k] == DftBin(w, fftInput[..], k)
    {
      for k := 0 to n
        invariant forall i :: 0 <= i < k ==> fftOutput[i] == DftBin(w, fftInput[..], i)
      {
        fftOutput[k] := DftBin(w, fftInput[..], k);
      }
    }

    /** The fill loop: every other octet is the real part of the next entry, the one behind it the imaginary part. */
    method FillInput(signal: array<Octet>, bufferLength: nat)
      requires Valid() && bufferLength <= 2 * n && Readable(signal[..], bufferLength)
      modifies fftInput
      ensures fftInput[..] == WindowedInput(signal[..], bufferLength, hanningWindow[..], old(fftInput[..]))
      ensures Windowed(fftInput[..], signal[..], bufferLength, hanningWindow[..], old(fftInput[..]))
    {
      hide WindowedSample, IsPrimitiveRoot, Shifted, WindowedInput, Windowed;
      ghost var octets, window, before := signal[..], hanningWindow[..], fftInput[..];
      NothingWindowed(octets, window, before);
      var i, j := 0, 0;
      while i < bufferLength
        invariant i == 2 * j && i <= bufferLength + bufferLength % 2
        invariant fftInput[..] == WindowedInput(octets, i, window, before)
      {
        OneMorePair(octets, j, window, before);
        fftInput[j] := WindowedSample(signal[i], signal[i + 1], hanningWindow[j]);
        j := j + 1;
        i := i + 2;
      }
      OddCountRoundsUp(octets, bufferLength, window, before);
      WindowedByArithmetic(octets, bufferLength, window, before);
    }

    /** The store loop: magnitude squared, divided by N, to the shifted place. */
    method StoreSpectrum(ghost x: seq<Complex>)
      requires Valid() && |x| == n
      requires forall k :: 0 <= k < n ==> fftOutput[k] == DftBin(w, x, k)
      modifies spectralPowerBuffer
      ensures spectralPowerBuffer[..] == ShiftedOf(Powers(w, x))
    {
      hide DftBin, Powers, IsPrimitiveRoot, Shifted;
      ghost var bins := Powers(w, x);
      ShiftIsInvolution(n);
      for i := 0 to n
        invariant forall j :: 0 <= j < n && Shifted(n, j) < i ==> spectralPowerBuffer[j] == bins[Shifted(n, j)]
      {
        var iK, qK := fftOutput[i].re, fftOutput[i].im;
        PowerOfBin(w, x, i, fftOutput[i]);
        var power := (iK * iK) + (qK * qK);
        power := power / n as real;
        var j := fftShiftTable[i];
        spectralPowerBuffer[j] := power;
      }
    }

    method ComputePowerSpectrum(signal: array<Octet>, bufferLength: nat) returns (pairs: nat)
      requires Valid() && bufferLength <= 2 * n && Readable(signal[..], bufferLength)
      modifies fftInput, fftOutput, spectralPowerBuffer
      ensures Valid()
      ensures fftInput[..] == WindowedInput(signal[..], bufferLength, hanningWindow[..], old(fftInput[..]))
      ensures spectralPowerBuffer[..] == ShiftedOf(Powers(w, fftInput[..]))
      ensures pairs == bufferLength / 2
    {
      hide DftBin, Powers, WindowedInput, ShiftedOf, IsPrimitiveRoot;
      FillInput(signal, bufferLength);
      FftwExecute();
      StoreSpectrum(fftInput[..]);
      pairs := bufferLength / 2;
    }

    /**
     The power in the double-sided band, computed as the code does with unsigned 32-bit
     bin indices, none of which wraps: the sum over exactly the bins in the band.
     */
    method ComputeSpectralPower(lowpassBandwidthInHz: real, signal: array<Octet>, bufferLength: nat) returns (power: real)
      requires Valid() && lowpassBandwidthInHz >= 0.0
      requires bufferLength <= 2 * n && Readable(signal[..], bufferLength)
      modifies fftInput, fftOutput, spectralPowerBuffer
      ensures Valid()
      ensures fftInput[..] == WindowedInput(signal[..], bufferLength, hanningWindow[..], old(fftInput[..]))
      ensures spectralPowerBuffer[..] == ShiftedOf(Powers(w, fftInput[..]))
      ensures power == PowerInBand(w, fftInput[..], lowpassBandwidthInHz, sampleRate)
    {
      hide DftBin, Powers, WindowedInput, ShiftedOf, IsPrimitiveRoot, BandSum;
      var bandwidth := lowpassBandwidthInHz;
      if bandwidth > sampleRate / 2.0 {
        bandwidth := sampleRate / 2.0;
      }
      power := 0.0;
      var lowpassSpan := U32((bandwidth / fftBinResolutionInHz).Floor);
      SpanBounds(lowpassBandwidthInHz, lowpassBandwidthInHz, sampleRate, n);
      assert lowpassSpan == SpanOf(lowpassBandwidthInHz, sampleRate, n);
      hide SpanOf;
      var lowerBinIndex := U32(U32(n / 2 - lowpassSpan) + 1);
      var upperBinIndex := U32(U32(n / 2 + lowpassSpan) - 1);
      var spectrumLength := ComputePowerSpectrum(signal, bufferLength);
      LoopSumsBand(Powers(w, fftInput[..]), lowpassSpan);
      hide Sum;
      power := SumBins(lowerBinIndex, upperBinIndex, lowpassSpan);
    }

    /** The accumulation loop of computeSpectralPower. */
    method SumBins(lowerBinIndex: nat, upperBinIndex: nat, ghost span: nat) returns (power: real)
      requires Valid() && span <= n / 2
      requires lowerBinIndex == n / 2 - span + 1 && upperBinIndex == n / 2 + span - 1
      ensures span == 0 ==> power == 0.0
      ensures span >= 1 ==> power == Sum(spectralPowerBuffer[..], lowerBinIndex, upperBinIndex + 1)
    {
      hide IsPrimitiveRoot, Shifted;
      power := 0.0;
      var i := lowerBinIndex;
      while i <= upperBinIndex
        invariant span >= 1 ==> lowerBinIndex <= i <= upperBinIndex + 1
        invariant span >= 1 ==> power == Sum(spectralPowerBuffer[..], lowerBinIndex, i)
        invariant span == 0 ==> power == 0.0 && i > upperBinIndex
      {
        power := power + spectralPowerBuffer[i];
        i := U32(i + 1);
      }
    }
  }

  lemma PowerOfBin(w: Complex, x: seq<Complex>, k: nat, y: Complex)
    requires k < |x| && y == DftBin(w, x, k)
    ensures ((y.re * y.re) + (y.im * y.im)) / |x| as real == Powers(w, x)[k]
  {
  }
}
