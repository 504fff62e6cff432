/** The FFT configurator: bin count, smoothing window in bins, and the frequency
    bounds of interest quantised onto the zero-centred bin grid
    (`FFT_parameters` in custom_modules/signal_processing.py and its duplicate
    `FFT_complex` in custom_modules/FFT.py). */
module SpectralConfig {
  import opened Arith

  /** Why the configurator raises. */
  datatype ConfigError =
    | ZeroDivision             // resolution is 0, or the bin count came out as 0
    | RealSpectrumUnsupported  // the one-sided branch reads FREQUENCY_MIN before assigning it

  /** What the configurator computes: N, the smoothing window in bins, and each
      bound of interest as a bin index and as the frequency of that bin. */
  datatype Config = Config(
    bins: nat,
    smoothingBins: int,
    minBin: int,
    frequencyMin: real,
    maxBin: int,
    frequencyMax: real)

  function Abs(x: real): real { if x < 0.0 then -x else x }

  /** The smallest power of two not below x, searching upward from p. */
  function CeilPow2From(x: real, p: nat): (n: nat)
    requires IsPow2(p)
    requires p == 1 || ((p / 2) as real) < x
    ensures IsPow2(n) && x <= n as real
    ensures n == 1 || ((n / 2) as real) < x
    decreases x.Floor - p
  {
    if x <= p as real then p
    else
      assert IsPow2(2 * p) && (2 * p) / 2 == p by { DoublePow2(p); }
      CeilPow2From(x, 2 * p)
  }

  lemma DoublePow2(p: nat)
    requires IsPow2(p)
    ensures (2 * p) / 2 == p && (2 * p) % 2 == 0
    ensures IsPow2(2 * p)
  {
  }

  /** `int(2**ceil(log2(x)))` for x >= 0: the smallest power of two not below x,
      which truncates to 0 once the exponent is negative (x <= 1/2). */
  function BinCount(x: real): (n: nat)
    requires x >= 0.0
    ensures x <= 0.5 ==> n == 0
    ensures x > 0.5 ==> IsPow2(n) && x <= n as real && (n == 1 || ((n / 2) as real) < x)
  {
    if x <= 0.5 then 0 else CeilPow2From(x, 1)
  }

  lemma {:induction false} Pow2Between(m: nat, n: nat)
    requires IsPow2(m) && IsPow2(n) && m > n / 2
    ensures m >= n
    decreases n
  {
    if n >= 2 && m != 1 {
      Pow2Between(m / 2, n / 2);
    }
  }

  /** N is the least power of two not below x: no smaller power of two reaches x. */
  lemma BinCountMinimal(x: real, m: nat)
    requires x > 0.5 && IsPow2(m) && x <= m as real
    ensures BinCount(x) <= m
  {
    var n := BinCount(x);
    if n > 1 {
      assert (n / 2) as real < m as real;
      Pow2Between(m, n);
    }
  }

  /** |Fs/2/r|, the number of resolution steps in half the sampling rate. */
  function Ratio(samplingFrequency: real, resolution: real): (x: real)
    requires resolution != 0.0
    ensures x >= 0.0
    ensures x > 0.0 ==> samplingFrequency != 0.0
  {
    Abs(samplingFrequency / 2.0 / resolution)
  }

  /** `round(w / (Fs/N))`: the smoothing window in whole bins (ties to even, no floor). */
  function SmoothingBins(n: nat, samplingFrequency: real, smoothingWindow: real): int
    requires n > 0 && samplingFrequency != 0.0
  {
    Round(smoothingWindow / (samplingFrequency / n as real))
  }

  /** `int(N/2 + np.round(f / (Fs/N)))`: the bin of a bound on the centred grid. */
  function BoundBin(n: nat, samplingFrequency: real, f: real): int
    requires n > 0 && samplingFrequency != 0.0
  {
    Trunc(n as real / 2.0 + Round(f / (samplingFrequency / n as real)) as real)
  }

  /** `-Fs/2 + bin*Fs/N`: the frequency of a bin index. */
  function BinFrequency(n: nat, samplingFrequency: real, bin: int): real
    requires n > 0
  {
    -samplingFrequency / 2.0 + bin as real * samplingFrequency / n as real
  }

  /** `FFT_parameters`: the bin count, the smoothing bins and, in the two-sided
      case, the bin of each bound and its frequency on the centred axis. The
      error cases are exactly a zero resolution, a ratio that gives N = 0 (the
      next line divides by N) and the one-sided branch. */
  function Configure(complexFft: bool, samplingFrequency: real, resolution: real,
                     smoothingWindow: real, frequencyMin: real, frequencyMax: real)
    : (r: Result<Config, ConfigError>)
    ensures r.Success? <==>
      resolution != 0.0 && Ratio(samplingFrequency, resolution) > 0.5 && complexFft
    ensures r.Failure? && r.error == RealSpectrumUnsupported ==> !complexFft
    ensures r.Success? ==>
      var x := Ratio(samplingFrequency, resolution);
      IsPow2(r.value.bins) && x <= r.value.bins as real && (r.value.bins == 1 || ((r.value.bins / 2) as real) < x)
  {
    if resolution == 0.0 then Failure(ZeroDivision)
    else
      var n := BinCount(Ratio(samplingFrequency, resolution));
      if n == 0 then Failure(ZeroDivision)
      else
        var smoothingBins := SmoothingBins(n, samplingFrequency, smoothingWindow);
        if !complexFft then Failure(RealSpectrumUnsupported)
        else
          var minBin := BoundBin(n, samplingFrequency, frequencyMin);
          var maxBin := BoundBin(n, samplingFrequency, frequencyMax);
          Success(Config(
            n, smoothingBins,
            minBin, BinFrequency(n, samplingFrequency, minBin),
            maxBin, BinFrequency(n, samplingFrequency, maxBin)))
  }

  /** `FFT_complex`: the same computation as the two-sided branch above; each
      quantised bound is the rounded bin offset times the bin width. */
  function FftComplex(samplingFrequency: real, resolution: real, smoothingWindow: real,
                      frequencyMin: real, frequencyMax: real)
    : (r: Result<Config, ConfigError>)
    ensures r.Success? <==> resolution != 0.0 && Ratio(samplingFrequency, resolution) > 0.5
    ensures r.Success? && r.value.bins >= 2 ==>
      samplingFrequency != 0.0 &&
      OnGrid(r.value.frequencyMin, frequencyMin, samplingFrequency, r.value.bins) &&
      OnGrid(r.value.frequencyMax, frequencyMax, samplingFrequency, r.value.bins)
  {
    var r := Configure(true, samplingFrequency, resolution, smoothingWindow, frequencyMin, frequencyMax);
    if r.Success? && r.value.bins >= 2 then
      FftComplexBounds(samplingFrequency, resolution, smoothingWindow, frequencyMin, frequencyMax);
      r
    else r
  }

  /** `bound` is the requested frequency `request` moved to the nearest multiple of the
      bin width samplingFrequency/bins. */
  predicate OnGrid(bound: real, request: real, samplingFrequency: real, bins: nat)
    requires bins > 0 && samplingFrequency != 0.0
  {
    var width := samplingFrequency / bins as real;
    bound == Round(request / width) as real * width
  }

  lemma FftComplexBounds(samplingFrequency: real, resolution: real, smoothingWindow: real,
                         frequencyMin: real, frequencyMax: real)
    requires Configure(true, samplingFrequency, resolution, smoothingWindow, frequencyMin, frequencyMax).Success?
    requires Configure(true, samplingFrequency, resolution, smoothingWindow, frequencyMin, frequencyMax).value.bins >= 2
    ensures samplingFrequency != 0.0
    ensures
      var c := Configure(true, samplingFrequency, resolution, smoothingWindow, frequencyMin, frequencyMax).value;
      OnGrid(c.frequencyMin, frequencyMin, samplingFrequency, c.bins) &&
      OnGrid(c.frequencyMax, frequencyMax, samplingFrequency, c.bins)
  {
    ConfigureFields(true, samplingFrequency, resolution, smoothingWindow, frequencyMin, frequencyMax);
    var c := Configure(true, samplingFrequency, resolution, smoothingWindow, frequencyMin, frequencyMax).value;
    BinsAreEven(c.bins);
    FixedBoundIsOffsetTimesWidth(c.bins, samplingFrequency, frequencyMin);
    FixedBoundIsOffsetTimesWidth(c.bins, samplingFrequency, frequencyMax);
  }

  lemma BinsAreEven(n: nat)
    requires IsPow2(n) && n >= 2
    ensures n % 2 == 0
  {
  }

  lemma ConfigureFields(complexFft: bool, samplingFrequency: real, resolution: real,
                        smoothingWindow: real, frequencyMin: real, frequencyMax: real)
    requires Configure(complexFft, samplingFrequency, resolution, smoothingWindow, frequencyMin, frequencyMax).Success?
    ensures samplingFrequency != 0.0
    ensures
      var c := Configure(complexFft, samplingFrequency, resolution, smoothingWindow, frequencyMin, frequencyMax).value;
      c.bins > 0 &&
      c.smoothingBins == SmoothingBins(c.bins, samplingFrequency, smoothingWindow) &&
      c.minBin == BoundBin(c.bins, samplingFrequency, frequencyMin) &&
      c.maxBin == BoundBin(c.bins, samplingFrequency, frequencyMax) &&
      c.frequencyMin == BinFrequency(c.bins, samplingFrequency, c.minBin) &&
      c.frequencyMax == BinFrequency(c.bins, samplingFrequency, c.maxBin)
  {
  }

  /** With an even N the bin is N/2 plus the rounded offset, and its frequency is
      that offset times the bin width. */
  lemma FixedBoundIsOffsetTimesWidth(n: nat, samplingFrequency: real, f: real)
    requires n >= 2 && n % 2 == 0 && samplingFrequency != 0.0
    ensures BoundBin(n, samplingFrequency, f) == n / 2 + Round(f / (samplingFrequency / n as real))
    ensures BinFrequency(n, samplingFrequency, BoundBin(n, samplingFrequency, f))
         == Round(f / (samplingFrequency / n as real)) as real * (samplingFrequency / n as real)
  {
    var w := samplingFrequency / n as real;
    var k := Round(f / w);
    var h := n / 2;
    assert n as real / 2.0 == h as real;
    var b := h + k;
    assert BoundBin(n, samplingFrequency, f) == b;
    HalfAxisWidth(n, samplingFrequency);
    DistributeWidth(h as real, k as real, samplingFrequency, n as real);
  }

  lemma HalfAxisWidth(n: nat, samplingFrequency: real)
    requires n >= 2 && n % 2 == 0
    ensures (n / 2) as real * (samplingFrequency / n as real) == samplingFrequency / 2.0
  {
    var h := (n / 2) as real;
    var w := samplingFrequency / n as real;
    assert h * 2.0 == n as real;
    assert n as real * w == samplingFrequency;
    assert h * w * 2.0 == n as real * w;
  }

  lemma DistributeWidth(h: real, k: real, samplingFrequency: real, n: real)
    requires n > 0.0
    ensures (h + k) * samplingFrequency / n == h * (samplingFrequency / n) + k * (samplingFrequency / n)
  {
  }

  /** The centred frequency axis, `fftshift(fftfreq(N)) * Fs`: bin i sits at (i - N/2)*Fs/N. */
  function FreqAxis(n: nat, samplingFrequency: real): (axis: seq<real>)
    requires n > 0
    ensures |axis| == n
    ensures forall i :: 0 <= i < n - 1 ==>
      axis[i + 1] - axis[i] == samplingFrequency / n as real
  {
    seq(n, i requires 0 <= i < n => (i - n / 2) as real / n as real * samplingFrequency)
  }

  /** The quantised bound is the axis value at its bin. */
  lemma FixedBoundOnAxis(complexFft: bool, samplingFrequency: real, resolution: real,
                         smoothingWindow: real, frequencyMin: real, frequencyMax: real)
    requires Configure(complexFft, samplingFrequency, resolution, smoothingWindow, frequencyMin, frequencyMax).Success?
    ensures
      var c := Configure(complexFft, samplingFrequency, resolution, smoothingWindow, frequencyMin, frequencyMax).value;
      (c.bins >= 2 && 0 <= c.minBin < c.bins ==> c.frequencyMin == FreqAxis(c.bins, samplingFrequency)[c.minBin]) &&
      (c.bins >= 2 && 0 <= c.maxBin < c.bins ==> c.frequencyMax == FreqAxis(c.bins, samplingFrequency)[c.maxBin])
  {
    ConfigureFields(complexFft, samplingFrequency, resolution, smoothingWindow, frequencyMin, frequencyMax);
    var c := Configure(complexFft, samplingFrequency, resolution, smoothingWindow, frequencyMin, frequencyMax).value;
    if c.bins >= 2 {
      BinsAreEven(c.bins);
      AxisAtBin(c.bins, samplingFrequency, c.minBin);
      AxisAtBin(c.bins, samplingFrequency, c.maxBin);
    }
  }

  lemma AxisAtBin(n: nat, samplingFrequency: real, bin: int)
    requires n >= 2 && n % 2 == 0
    ensures 0 <= bin < n ==> FreqAxis(n, samplingFrequency)[bin] == BinFrequency(n, samplingFrequency, bin)
  {
    if 0 <= bin < n {
      assert (n / 2) as real == n as real / 2.0;
      calc {
        FreqAxis(n, samplingFrequency)[bin];
        (bin - n / 2) as real / n as real * samplingFrequency;
        (bin as real - n as real / 2.0) * samplingFrequency / n as real;
        { assert n as real / 2.0 * samplingFrequency / n as real == samplingFrequency / 2.0; }
        BinFrequency(n, samplingFrequency, bin);
      }
    }
  }

  /** Each quantised bound lies within half a bin of the requested one. */
  lemma QuantisationError(complexFft: bool, samplingFrequency: real, resolution: real,
                          smoothingWindow: real, frequencyMin: real, frequencyMax: real)
    requires samplingFrequency > 0.0
    requires Configure(complexFft, samplingFrequency, resolution, smoothingWindow, frequencyMin, frequencyMax).Success?
    ensures
      var c := Configure(complexFft, samplingFrequency, resolution, smoothingWindow, frequencyMin, frequencyMax).value;
      var halfBin := samplingFrequency / (2.0 * c.bins as real);
      c.bins >= 2 ==>
        frequencyMin - halfBin <= c.frequencyMin <= frequencyMin + halfBin &&
        frequencyMax - halfBin <= c.frequencyMax <= frequencyMax + halfBin
  {
    ConfigureFields(complexFft, samplingFrequency, resolution, smoothingWindow, frequencyMin, frequencyMax);
    var c := Configure(complexFft, samplingFrequency, resolution, smoothingWindow, frequencyMin, frequencyMax).value;
    if c.bins >= 2 {
      BinsAreEven(c.bins);
      BoundWithinHalfBin(c.bins, samplingFrequency, frequencyMin);
      BoundWithinHalfBin(c.bins, samplingFrequency, frequencyMax);
    }
  }

  lemma BoundWithinHalfBin(n: nat, samplingFrequency: real, f: real)
    requires n >= 2 && n % 2 == 0 && samplingFrequency > 0.0
    ensures var q := BinFrequency(n, samplingFrequency, BoundBin(n, samplingFrequency, f));
      var halfBin := samplingFrequency / (2.0 * n as real);
      f - halfBin <= q <= f + halfBin
  {
    var w := samplingFrequency / n as real;
    FixedBoundIsOffsetTimesWidth(n, samplingFrequency, f);
    RoundedMultipleWithinHalf(w, f);
    assert samplingFrequency / (2.0 * n as real) == w / 2.0;
  }

  lemma MulMonotone(a: real, b: real, c: real)
    requires a <= b && c >= 0.0
    ensures a * c <= b * c
  {
  }

  lemma RoundedMultipleWithinHalf(width: real, f: real)
    requires width > 0.0
    ensures f - width / 2.0 <= Round(f / width) as real * width <= f + width / 2.0
  {
    ScaledWithinHalf(Round(f / width) as real, f / width, width, f);
  }

  /** A value within 1/2 of q, scaled by w, is within w/2 of f = q·w. */
  lemma ScaledWithinHalf(k: real, q: real, w: real, f: real)
    requires w > 0.0 && q - 0.5 <= k <= q + 0.5 && q * w == f
    ensures f - w / 2.0 <= k * w <= f + w / 2.0
  {
    MulMonotone(k, q + 0.5, w);
    MulMonotone(q - 0.5, k, w);
  }

  /** Rounding and truncation are monotone, so ordered bounds give ordered bins. */
  lemma BinsOrdered(complexFft: bool, samplingFrequency: real, resolution: real,
                    smoothingWindow: real, frequencyMin: real, frequencyMax: real)
    requires samplingFrequency > 0.0 && frequencyMin <= frequencyMax
    requires Configure(complexFft, samplingFrequency, resolution, smoothingWindow, frequencyMin, frequencyMax).Success?
    ensures
      var c := Configure(complexFft, samplingFrequency, resolution, smoothingWindow, frequencyMin, frequencyMax).value;
      c.minBin <= c.maxBin && c.frequencyMin <= c.frequencyMax
  {
    ConfigureFields(complexFft, samplingFrequency, resolution, smoothingWindow, frequencyMin, frequencyMax);
    var c := Configure(complexFft, samplingFrequency, resolution, smoothingWindow, frequencyMin, frequencyMax).value;
    BoundBinMonotone(c.bins, samplingFrequency, frequencyMin, frequencyMax);
    BinFrequencyMonotone(c.bins, samplingFrequency, c.minBin, c.maxBin);
  }

  lemma BoundBinMonotone(n: nat, samplingFrequency: real, f: real, g: real)
    requires n > 0 && samplingFrequency > 0.0 && f <= g
    ensures BoundBin(n, samplingFrequency, f) <= BoundBin(n, samplingFrequency, g)
  {
    var width := samplingFrequency / n as real;
    MulMonotone(f, g, 1.0 / width);
    assert f / width <= g / width;
    RoundMonotone(f / width, g / width);
    TruncMonotone(n as real / 2.0 + Round(f / width) as real, n as real / 2.0 + Round(g / width) as real);
  }

  lemma BinFrequencyMonotone(n: nat, samplingFrequency: real, a: int, b: int)
    requires n > 0 && samplingFrequency > 0.0 && a <= b
    ensures BinFrequency(n, samplingFrequency, a) <= BinFrequency(n, samplingFrequency, b)
  {
    var width := samplingFrequency / n as real;
    MulMonotone(a as real, b as real, width);
    assert a as real * samplingFrequency / n as real == a as real * width;
    assert b as real * samplingFrequency / n as real == b as real * width;
  }

  lemma TruncMonotone(x: real, y: real)
    requires x <= y
    ensures Trunc(x) <= Trunc(y)
  {
  }

  /** The scenario of a 3 kHz sampling rate at 1 Hz resolution with a 10 Hz
      smoothing window: N = 2048 and 7 smoothing bins. */
  lemma ThreeKilohertzScenario()
    ensures Configure(true, 3000.0, 1.0, 10.0, 0.0, 0.0).Success?
    ensures Configure(true, 3000.0, 1.0, 10.0, 0.0, 0.0).value.bins == 2048
    ensures Configure(true, 3000.0, 1.0, 10.0, 0.0, 0.0).value.smoothingBins == 7
  {
    var x := Abs(3000.0 / 2.0 / 1.0);
    assert x == 1500.0;
    assert IsPow2(2048) by {
      assert IsPow2(1) && IsPow2(2) && IsPow2(4) && IsPow2(8) && IsPow2(16) && IsPow2(32);
      assert IsPow2(64) && IsPow2(128) && IsPow2(256) && IsPow2(512) && IsPow2(1024);
    }
    BinCountMinimal(x, 2048);
    var n := BinCount(x);
    assert n <= 2048 && 1500.0 <= n as real && (n / 2) as real < 1500.0;
    assert n == 2048;
    assert Round(10.0 / (3000.0 / 2048.0)) == 7;
  }
}
