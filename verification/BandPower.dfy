/**
 The arithmetic around the spectrum: the shift that puts the centre frequency in the
 middle, which bins a bandwidth selects, and what their sum is.
 */
module BandPower {
  import opened Common

  function Sum(s: seq<real>, lo: nat, hi: nat): real
    requires lo <= hi <= |s|
  {
    if lo == hi then 0.0 else Sum(s, lo, hi - 1) + s[hi - 1]
  }

  predicate Even(n: nat) {
    n >= 2 && n % 2 == 0
  }

  // ------------------------------------------------------------ the shift

  /** The entry of fftShiftTable. */
  function Shifted(n: nat, i: nat): (j: nat)
    requires Even(n) && i < n
    ensures j < n
  {
    if i < n / 2 then i + n / 2 else i - n / 2
  }

  /** The bins as spectralPowerBuffer holds them. */
  function ShiftedOf(bins: seq<real>): (r: seq<real>)
    requires Even(|bins|)
    ensures |r| == |bins|
  {
    seq(|bins|, j requires 0 <= j < |bins| => bins[Shifted(|bins|, j)])
  }

  /** The bin that holds a signed frequency. */
  function BinOf(n: nat, frequency: int): (k: int)
    requires Even(n) && -(n / 2) <= frequency < n / 2
    ensures 0 <= k < n
  {
    if frequency >= 0 then frequency else n + frequency
  }

  /** The shift is its own inverse, so it is a permutation, and it puts frequency f at n/2 + f. */
  lemma ShiftIsInvolution(n: nat)
    requires Even(n)
    ensures forall i :: 0 <= i < n ==> Shifted(n, Shifted(n, i)) == i
    ensures forall f :: -(n / 2) <= f < n / 2 ==> Shifted(n, BinOf(n, f)) == n / 2 + f
  {
  }

  lemma {:induction false} SumOfShiftedLow(bins: seq<real>, lo: nat, hi: nat)
    requires Even(|bins|) && lo <= hi <= |bins| / 2
    ensures Sum(ShiftedOf(bins), lo, hi) == Sum(bins, lo + |bins| / 2, hi + |bins| / 2)
  {
    if lo < hi {
      SumOfShiftedLow(bins, lo, hi - 1);
    }
  }

  lemma {:induction false} SumOfShiftedHigh(bins: seq<real>, lo: nat, hi: nat)
    requires Even(|bins|) && |bins| / 2 <= lo <= hi <= |bins|
    ensures Sum(ShiftedOf(bins), lo, hi) == Sum(bins, lo - |bins| / 2, hi - |bins| / 2)
  {
    if lo < hi {
      SumOfShiftedHigh(bins, lo, hi - 1);
    }
  }

  lemma {:induction false} SumSplits(s: seq<real>, a: nat, b: nat, c: nat)
    requires a <= b <= c <= |s|
    ensures Sum(s, a, c) == Sum(s, a, b) + Sum(s, b, c)
  {
    if b < c {
      SumSplits(s, a, b, c - 1);
    }
  }

  lemma ShiftSwapsHalves(bins: seq<real>)
    requires Even(|bins|)
    ensures ShiftedOf(bins) == bins[|bins| / 2..] + bins[..|bins| / 2]
  {
  }

  lemma SwappedHalves(bins: seq<real>, h: nat)
    requires h <= |bins|
    ensures multiset(bins[h..] + bins[..h]) == multiset(bins)
  {
    assert bins == bins[..h] + bins[h..];
  }

  /** The shift only moves the bins' powers about. */
  lemma ShiftKeepsBins(bins: seq<real>)
    requires Even(|bins|)
    ensures multiset(ShiftedOf(bins)) == multiset(bins)
  {
    hide ShiftedOf;
    ShiftSwapsHalves(bins);
    SwappedHalves(bins, |bins| / 2);
  }

  lemma ShiftKeepsTotal(bins: seq<real>)
    requires Even(|bins|)
    ensures Sum(ShiftedOf(bins), 0, |bins|) == Sum(bins, 0, |bins|)
  {
    hide ShiftedOf, Sum;
    var n, h := |bins|, |bins| / 2;
    SumOfShiftedLow(bins, 0, h);
    SumOfShiftedHigh(bins, h, n);
    SumSplits(ShiftedOf(bins), 0, h, n);
    SumSplits(bins, 0, h, n);
  }

  // ------------------------------------------------------------- the band

  /** Bin k lies less than `span` bins from the centre frequency, on either side. */
  predicate InBand(n: nat, k: nat, span: nat) {
    Min(k, n - k) < span
  }

  /** The power of the bins below `count` that lie in the band. */
  function BandSum(bins: seq<real>, span: nat, count: nat): real
    requires count <= |bins|
  {
    if count == 0 then 0.0
    else BandSum(bins, span, count - 1) + (if InBand(|bins|, count - 1, span) then bins[count - 1] else 0.0)
  }

  function BandSize(n: nat, span: nat, count: nat): nat
    requires count <= n
  {
    if count == 0 then 0 else BandSize(n, span, count - 1) + (if InBand(n, count - 1, span) then 1 else 0)
  }

  lemma {:induction false} BandIsTwoEnds(bins: seq<real>, span: nat, count: nat)
    requires Even(|bins|) && 1 <= span <= |bins| / 2 && count <= |bins|
    ensures BandSum(bins, span, count) ==
      if count <= span then Sum(bins, 0, count)
      else if count <= |bins| - span + 1 then Sum(bins, 0, span)
      else Sum(bins, 0, span) + Sum(bins, |bins| - span + 1, count)
    ensures BandSize(|bins|, span, count) ==
      if count <= span then count
      else if count <= |bins| - span + 1 then span
      else span + (count - (|bins| - span + 1))
  {
    if count > 0 {
      BandIsTwoEnds(bins, span, count - 1);
    }
  }

  lemma {:induction false} EmptyBand(bins: seq<real>, count: nat)
    requires count <= |bins|
    ensures BandSum(bins, 0, count) == 0.0 && BandSize(|bins|, 0, count) == 0
  {
    if count > 0 {
      EmptyBand(bins, count - 1);
    }
  }

  /**
   Summing the shifted spectrum from n/2 - span + 1 to n/2 + span - 1 inclusive sums
   exactly the bins less than `span` from the centre, each once: 2 * span - 1 of them,
   or none when the span is 0.
   */
  lemma LoopSumsBand(bins: seq<real>, span: nat)
    requires Even(|bins|) && span <= |bins| / 2
    ensures span == 0 ==> BandSum(bins, span, |bins|) == 0.0 && BandSize(|bins|, span, |bins|) == 0
    ensures span >= 1 ==>
      && Sum(ShiftedOf(bins), |bins| / 2 - span + 1, |bins| / 2 + span) == BandSum(bins, span, |bins|)
      && BandSize(|bins|, span, |bins|) == 2 * span - 1
  {
    var n, h := |bins|, |bins| / 2;
    if span == 0 {
      EmptyBand(bins, n);
    } else {
      SumSplits(ShiftedOf(bins), h - span + 1, h, h + span);
      SumOfShiftedLow(bins, h - span + 1, h);
      SumOfShiftedHigh(bins, h, h + span);
      BandIsTwoEnds(bins, span, n);
    }
  }

  ghost predicate Nonnegative(bins: seq<real>) {
    forall k :: 0 <= k < |bins| ==> bins[k] >= 0.0
  }

  /** A wider band never has less power. */
  lemma {:induction false} BandIsMonotone(bins: seq<real>, narrow: nat, wide: nat, count: nat)
    requires Nonnegative(bins) && narrow <= wide && count <= |bins|
    ensures 0.0 <= BandSum(bins, narrow, count) <= BandSum(bins, wide, count) <= Sum(bins, 0, count)
  {
    if count > 0 {
      BandIsMonotone(bins, narrow, wide, count - 1);
    }
  }

  lemma {:induction false} WidestBandSoFar(bins: seq<real>, count: nat)
    requires Even(|bins|) && count <= |bins|
    ensures BandSum(bins, |bins| / 2, count)
         == Sum(bins, 0, count) - (if count > |bins| / 2 then bins[|bins| / 2] else 0.0)
  {
    if count > 0 {
      WidestBandSoFar(bins, count - 1);
    }
  }

  /** The widest band is everything but the Nyquist bin, which the shift puts at index 0. */
  lemma WidestBand(bins: seq<real>)
    requires Even(|bins|)
    ensures BandSum(bins, |bins| / 2, |bins|) == Sum(bins, 0, |bins|) - ShiftedOf(bins)[0]
  {
    WidestBandSoFar(bins, |bins|);
  }

  // ------------------------------------------------- bandwidth to bins

  function RealMin(a: real, b: real): real {
    if a > b then b else a
  }

  /** How many bins a one-sided bandwidth spans, after the clip at half the sample rate. */
  function SpanOf(bandwidth: real, sampleRate: real, n: nat): int
    requires sampleRate > 0.0 && n > 0
  {
    (RealMin(bandwidth, sampleRate / 2.0) / (sampleRate / n as real)).Floor
  }

  lemma TimesOrder(x: real, y: real, d: real)
    requires d > 0.0
    ensures x > y ==> x * d > y * d
  {
  }

  lemma DivisionIsMonotone(a: real, b: real, d: real)
    requires d > 0.0 && a <= b
    ensures a / d <= b / d
  {
    TimesOrder(a / d, b / d, d);
    assert (a / d) * d == a && (b / d) * d == b;
  }

  lemma HalfRateInBins(sampleRate: real, n: nat)
    requires sampleRate > 0.0 && Even(n)
    ensures (sampleRate / 2.0) / (sampleRate / n as real) == (n / 2) as real
  {
    var half := (n / 2) as real;
    assert n as real == 2.0 * half;
    var bin := sampleRate / n as real;
    assert bin * n as real == sampleRate;
    assert sampleRate / 2.0 == bin * half;
    assert bin != 0.0;
  }

  lemma TimesAgain(a: real, d: real)
    requires d > 0.0
    ensures (a / d) * d == a
  {
  }

  lemma OneStepUp(low: real, top: real, d: real)
    requires top == low + 1.0
    ensures top * d == low * d + d
  {
  }

  lemma Between(low: real, x: real, top: real, y: real, d: real)
    requires low <= x < top && d > 0.0 && x * d == y
    ensures low * d <= y < top * d
  {
    TimesOrder(x, low, d);
    TimesOrder(top, x, d);
  }

  /** The whole bins below a bandwidth: one more would be too many. */
  lemma SpanIsWholeBins(bandwidth: real, sampleRate: real, n: nat)
    requires sampleRate > 0.0 && n > 0
    ensures var bin, span := sampleRate / n as real, SpanOf(bandwidth, sampleRate, n);
            var clipped := if bandwidth < sampleRate / 2.0 then bandwidth else sampleRate / 2.0;
            span as real * bin <= clipped < span as real * bin + bin
  {
    var bin, span := sampleRate / n as real, SpanOf(bandwidth, sampleRate, n);
    var clipped := RealMin(bandwidth, sampleRate / 2.0);
    var quotient := clipped / bin;
    assert bin > 0.0;
    TimesAgain(clipped, bin);
    Between(span as real, quotient, span as real + 1.0, clipped, bin);
    OneStepUp(span as real, span as real + 1.0, bin);
  }

  /**
   Any bandwidth selects the whole bins below it, at most half of them, more bandwidth never
   fewer, and from half the rate on exactly half.
   */
  lemma SpanBounds(bandwidth: real, wider: real, sampleRate: real, n: nat)
    requires sampleRate > 0.0 && Even(n) && 0.0 <= bandwidth <= wider
    ensures 0 <= SpanOf(bandwidth, sampleRate, n) <= SpanOf(wider, sampleRate, n) <= n / 2
    ensures bandwidth >= sampleRate / 2.0 ==> SpanOf(bandwidth, sampleRate, n) == n / 2
    ensures var bin, span := sampleRate / n as real, SpanOf(bandwidth, sampleRate, n);
            var clipped := if bandwidth < sampleRate / 2.0 then bandwidth else sampleRate / 2.0;
            span as real * bin <= clipped < span as real * bin + bin
  {
    SpanIsWholeBins(bandwidth, sampleRate, n);
    var bin := sampleRate / n as real;
    HalfRateInBins(sampleRate, n);
    DivisionIsMonotone(0.0, RealMin(bandwidth, sampleRate / 2.0), bin);
    DivisionIsMonotone(RealMin(bandwidth, sampleRate / 2.0), RealMin(wider, sampleRate / 2.0), bin);
    DivisionIsMonotone(RealMin(wider, sampleRate / 2.0), sampleRate / 2.0, bin);
  }
}
