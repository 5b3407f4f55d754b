/** src/spectrumProcessor.cc: one block of samples in, one averaged power out. */
module SpectrumMeasurement {
  import opened Parseval
  import opened BandPower
  import opened SpectrumProcessor

  /** What storing an int into an int8_t leaves in the octet. */
  function Store8(x: int): Octet {
    x % 256
  }

  /** The conversion of one unsigned sample, in the octet it lives in. */
  function Converted(x: Octet): Octet {
    Store8(Signed8(x) - 128)
  }

  /** Reading the octet as signed, subtracting and storing it back is subtracting 128 from the unsigned sample. */
  lemma ConvertedIsCentred(x: Octet)
    ensures Signed8(Converted(x)) == x - 128
    ensures Converted(x) == (x + 128) % 256
    ensures Converted(Converted(x)) == x
  {
  }

  /** The buffer after the first `count` unsigned samples are converted. */
  function ConvertedUpTo(buffer: seq<Octet>, count: nat): (r: seq<Octet>)
    requires count <= |buffer|
    ensures |r| == |buffer|
  {
    seq(|buffer|, i requires 0 <= i < |buffer| => if i < count then Converted(buffer[i]) else buffer[i])
  }

  /** The in-place conversion loop: each sample is centred once, and nothing behind the count is touched. */
  method ConvertUnsigned(buffer: array<Octet>, count: nat)
    requires count <= buffer.Length
    modifies buffer
    ensures buffer[..] == ConvertedUpTo(old(buffer[..]), count)
    ensures forall i :: 0 <= i < count ==> Signed8(buffer[i]) == old(buffer[i]) as int - 128
    ensures forall i :: 0 <= i < count ==> buffer[i] == (old(buffer[i]) as int + 128) % 256
    ensures forall i :: count <= i < buffer.Length ==> buffer[i] == old(buffer[i])
  {
    for i := 0 to count
      invariant forall k :: 0 <= k < i ==> buffer[k] == Converted(old(buffer[k]))
      invariant forall k :: 0 <= k < i ==> Signed8(buffer[k]) == old(buffer[k]) as int - 128
      invariant forall k :: 0 <= k < i ==> buffer[k] == (old(buffer[k]) as int + 128) % 256
      invariant forall k :: i <= k < buffer.Length ==> buffer[k] == old(buffer[k])
    {
      ConvertedIsCentred(buffer[i]);
      buffer[i] := Store8(Signed8(buffer[i]) - 128);
    }
  }

  /** No line printed, a line with a quotient of zeros, or a line with a power. */
  datatype Outcome = NoSamples | NotANumber | Power(value: real)

  /** The buffer that the analyzer sees. */
  function Samples(buffer: seq<Octet>, count: nat, unsignedSamples: bool): (r: seq<Octet>)
    requires count <= |buffer|
    ensures |r| == |buffer|
  {
    if unsignedSamples then ConvertedUpTo(buffer, count) else buffer
  }

  /** Only unsigned samples are moved by half the range; signed ones, and what lies behind the count, are left alone. */
  lemma SamplesByArithmetic(buffer: seq<Octet>, count: nat, unsignedSamples: bool)
    requires count <= |buffer|
    ensures forall i :: 0 <= i < |buffer| ==>
      Samples(buffer, count, unsignedSamples)[i]
        == if unsignedSamples && i < count then (buffer[i] as int + 128) % 256 else buffer[i]
  {
    forall i | 0 <= i < |buffer|
      ensures Samples(buffer, count, unsignedSamples)[i]
        == if unsignedSamples && i < count then (buffer[i] as int + 128) % 256 else buffer[i]
    {
      ConvertedIsCentred(buffer[i]);
    }
  }

  lemma NothingConverted(buffer: seq<Octet>)
    ensures ConvertedUpTo(buffer, 0) == buffer
  {
  }

  lemma MeanOfEqual(sum: real, value: real, n: nat)
    requires n > 0 && sum == n as real * value
    ensures sum / n as real == value
  {
    assert (n as real * value) / n as real == value;
  }

  /**
   One block, read with `count` octets. However often the block is analysed, the mean is
   the power of a single pass, and the transform's input and the spectrum are those of a
   single pass, the part behind a short block included.
   */
  method MeasureBlock(analyzer: SpectrumProcessor, inputBuffer: array<Octet>, count: nat,
                      unsignedSamples: bool, numberToAverage: nat, bandwidthInHz: real)
    returns (outcome: Outcome)
    requires analyzer.Valid() && bandwidthInHz >= 0.0
    requires inputBuffer.Length == 2 * analyzer.n && count <= inputBuffer.Length
    modifies inputBuffer, analyzer.fftInput, analyzer.fftOutput, analyzer.spectralPowerBuffer
    ensures analyzer.Valid()
    ensures count == 0 ==> outcome == NoSamples
    ensures count > 0 && numberToAverage == 0 ==> outcome == NotANumber
    ensures count == 0 || numberToAverage == 0 ==>
      && analyzer.fftInput[..] == old(analyzer.fftInput[..])
      && analyzer.spectralPowerBuffer[..] == old(analyzer.spectralPowerBuffer[..])
    ensures inputBuffer[..] == Samples(old(inputBuffer[..]), count, unsignedSamples)
    ensures count > 0 && numberToAverage > 0 ==>
      var samples := Samples(old(inputBuffer[..]), count, unsignedSamples);
      var once := WindowedInput(samples, count, analyzer.hanningWindow[..], old(analyzer.fftInput[..]));
      && analyzer.fftInput[..] == once
      && analyzer.spectralPowerBuffer[..] == ShiftedOf(Powers(analyzer.w, once))
      && outcome == Power(PowerInBand(analyzer.w, once, bandwidthInHz, analyzer.sampleRate))
  {
    hide IsPrimitiveRoot, PowerInBand, WindowedInput, ConvertedUpTo, Shifted, ShiftedOf, Powers;
    if count == 0 {
      NothingConverted(inputBuffer[..]);
      return NoSamples;
    }
    if unsignedSamples {
      ConvertUnsigned(inputBuffer, count);
    }
    ghost var samples, window, before := inputBuffer[..], analyzer.hanningWindow[..], analyzer.fftInput[..];
    ghost var once := WindowedInput(samples, count, window, before);
    ghost var spectrum := analyzer.spectralPowerBuffer[..];
    ghost var single := PowerInBand(analyzer.w, once, bandwidthInHz, analyzer.sampleRate);
    StoringTwiceIsOnce(samples, count, window, before);
    var power := 0.0;
    for j := 0 to numberToAverage
      invariant analyzer.Valid()
      invariant inputBuffer[..] == samples && analyzer.hanningWindow[..] == window
      invariant analyzer.fftInput[..] == if j == 0 then before else once
      invariant analyzer.spectralPowerBuffer[..] == if j == 0 then spectrum else ShiftedOf(Powers(analyzer.w, once))
      invariant power == j as real * single
    {
      var pass := analyzer.ComputeSpectralPower(bandwidthInHz, inputBuffer, count);
      power := power + pass;
    }
    if numberToAverage == 0 {
      return NotANumber;
    }
    MeanOfEqual(power, single, numberToAverage);
    power := power / numberToAverage as real;
    return Power(power);
  }
}
