/** The complex branch of `FFT`: zero-forcing of the magnitude spectrum, the dB
    spectrum and its smoothing, the three-way detection decision, the band
    scan and the velocity. The FFT itself, the offset removal and the window
    are upstream of the magnitude array; the dB conversion 20·log10(x/1000) is
    passed in as a function. */
module Doppler {
  import opened Arith
  import SpectralConfig
  import Spectrum
  import Centroid
  import Velocity

  /** What `FFT` reports when it does not raise. `band` is `None` when no
      target was detected; then the centroid and the velocity are 0. */
  datatype Detection = Detection(
    peak: real,              // maximum of the smoothed dB spectrum
    shift: real,             // how far smoothing lowered the maximum
    centroid: real,
    band: Option<Centroid.Band>,
    velocity: real,
    smoothed: seq<real>,
    axis: seq<real>)

  /** Why `FFT` raises instead of reporting:
      `EmptySpectrum` is the `ValueError` of `np.amax` on no bins;
      `EmptySmoothingWindow` the `ValueError` of smoothing over fewer than one bin;
      `MinBinOutOfRange` the `IndexError` of reading the smoothed spectrum at `minBin`;
      `ZeroForcingWindowTooNarrow` the `ValueError` raised when the smoothed
      spectrum at `minBin` already reaches the band threshold;
      `CentroidAxisOverrun` the `IndexError` of the band scan reading one past
      the frequency axis. */
  datatype DetectionError =
    | EmptySpectrum
    | EmptySmoothingWindow
    | MinBinOutOfRange
    | ZeroForcingWindowTooNarrow
    | CentroidAxisOverrun

  /** Python's `x[i]` position for a sequence of length n: negative indices
      count from the end; anything else out of range is `None`. */
  function PyIndex(n: nat, i: int): (o: Option<nat>)
    ensures o.Some? <==> -(n as int) <= i < n
    ensures o.Some? ==> o.value < n && (o.value == i || o.value == i + n)
  {
    if 0 <= i < n then Some(i)
    else if -(n as int) <= i < 0 then Some(i + n)
    else None
  }

  /** The decision on a dB spectrum of N = |dbv| bins. The maximum of the
      spectrum is taken and the spectrum is smoothed over `smoothingBins` bins.
      If the smoothed maximum is below the target threshold, nothing is
      detected. Otherwise, if the smoothed value at `minBin` is already within
      the bandwidth of the maximum, the zero-forcing window is too narrow.
      Otherwise the band scan as written runs over the smoothed spectrum and
      the centred frequency axis, with N as its bin count. */
  function Decide(dbv: seq<real>, samplingFrequency: real, smoothingBins: int, minBin: int,
                  targetThreshold: real, bandwidthThreshold: real, frequencyMin: real,
                  cosineFactor: real): (r: Result<Detection, DetectionError>)
    requires smoothingBins <= |dbv|
    requires cosineFactor != 0.0
    ensures |dbv| == 0 ==> r == Failure(EmptySpectrum)
    ensures |dbv| > 0 && smoothingBins < 1 ==> r == Failure(EmptySmoothingWindow)
    ensures 1 <= smoothingBins ==>
      var smoothed := Spectrum.MovingAverage(dbv, smoothingBins);
      var peak := Max(smoothed);
      var at := PyIndex(|dbv|, minBin);
      var threshold := peak - bandwidthThreshold;
      (r.Success? && r.value.band.None? <==> peak < targetThreshold) &&
      (r == Failure(MinBinOutOfRange) <==> peak >= targetThreshold && at.None?) &&
      (r == Failure(ZeroForcingWindowTooNarrow) <==>
         peak >= targetThreshold && at.Some? && smoothed[at.value] >= threshold) &&
      (r == Failure(CentroidAxisOverrun) <==>
         peak >= targetThreshold && at.Some? && smoothed[at.value] < threshold && smoothed[0] >= threshold) &&
      (r.Success? ==>
         r.value.peak == peak && r.value.shift == Max(dbv) - peak &&
         r.value.smoothed == smoothed &&
         r.value.axis == SpectralConfig.FreqAxis(|dbv|, samplingFrequency) &&
         r.value.velocity == Velocity.SurfaceVelocity(r.value.centroid, cosineFactor)) &&
      (r.Success? && r.value.band.None? ==> r.value.centroid == 0.0 && r.value.velocity == 0.0) &&
      (r.Success? && r.value.band.Some? ==> r.value.centroid == r.value.band.value.centroid)
  {
    if |dbv| == 0 then Failure(EmptySpectrum)
    else
      var smoothing := Spectrum.Smooth(dbv, smoothingBins);
      if smoothing.Failure? then Failure(EmptySmoothingWindow)
      else
        var smoothed := smoothing.value;
        var peak := Max(smoothed);
        var axis := SpectralConfig.FreqAxis(|dbv|, samplingFrequency);
        if peak < targetThreshold then
          Velocity.VelocityIsLinear(0.0, 0.0, 0.0, cosineFactor);
          Success(Detection(peak, Max(dbv) - peak, 0.0, None,
                            Velocity.SurfaceVelocity(0.0, cosineFactor), smoothed, axis))
        else
          var at := PyIndex(|dbv|, minBin);
          if at.None? then Failure(MinBinOutOfRange)
          else if smoothed[at.value] >= peak - bandwidthThreshold then Failure(ZeroForcingWindowTooNarrow)
          else
            Centroid.AsWrittenScanOutcome(smoothed, bandwidthThreshold, axis, frequencyMin, peak);
            var scan := Centroid.ScanBand(smoothed, bandwidthThreshold, axis, frequencyMin, peak,
                                          Centroid.ScanCount(|smoothed|));
            if scan.Failure? then Failure(CentroidAxisOverrun)
            else
              Success(Detection(peak, Max(dbv) - peak, scan.value.centroid, Some(scan.value),
                                Velocity.SurfaceVelocity(scan.value.centroid, cosineFactor), smoothed, axis))
  }

  /** When a target is detected, the band is within the threshold of the
      smoothed maximum: its start is the frequency of the first bin that
      reaches peak − bandwidth, raised to `frequencyMin`, its stop that of the
      last such bin, and the bin at `minBin` is below that threshold. */
  lemma DetectedBand(dbv: seq<real>, samplingFrequency: real, smoothingBins: int, minBin: int,
                     targetThreshold: real, bandwidthThreshold: real, frequencyMin: real,
                     cosineFactor: real, d: Detection)
    requires smoothingBins <= |dbv| && cosineFactor != 0.0 && bandwidthThreshold >= 0.0
    requires Decide(dbv, samplingFrequency, smoothingBins, minBin, targetThreshold,
                    bandwidthThreshold, frequencyMin, cosineFactor) == Success(d)
    requires d.band.Some?
    ensures d.peak >= targetThreshold
    ensures exists first, last ::
      0 <= first <= last < |dbv| &&
      d.smoothed[first] >= d.peak - bandwidthThreshold && d.smoothed[last] >= d.peak - bandwidthThreshold &&
      (forall i :: 0 <= i < first ==> d.smoothed[i] < d.peak - bandwidthThreshold) &&
      (forall i :: last < i < |dbv| ==> d.smoothed[i] < d.peak - bandwidthThreshold) &&
      d.band.value.start == Centroid.MaxOf(d.axis[first], frequencyMin) &&
      d.band.value.stop == d.axis[last] &&
      d.centroid == (d.band.value.start + d.band.value.stop) / 2.0 &&
      d.band.value.threshold == d.peak - bandwidthThreshold
    ensures PyIndex(|dbv|, minBin).Some? && d.smoothed[PyIndex(|dbv|, minBin).value] < d.peak - bandwidthThreshold
  {
    DetectionIsScan(dbv, samplingFrequency, smoothingBins, minBin, targetThreshold,
                    bandwidthThreshold, frequencyMin, cosineFactor, d);
    Centroid.CorrectedBandCharacterised(d.smoothed, bandwidthThreshold, d.axis, frequencyMin, d.peak);
  }

  /** A detection carries the single scan over its own smoothed spectrum and
      axis: the scan as written succeeded only because bin 0 is below the
      threshold, and then it agrees with the scan of each bin once. */
  lemma DetectionIsScan(dbv: seq<real>, samplingFrequency: real, smoothingBins: int, minBin: int,
                        targetThreshold: real, bandwidthThreshold: real, frequencyMin: real,
                        cosineFactor: real, d: Detection)
    requires smoothingBins <= |dbv| && cosineFactor != 0.0
    requires Decide(dbv, samplingFrequency, smoothingBins, minBin, targetThreshold,
                    bandwidthThreshold, frequencyMin, cosineFactor) == Success(d)
    requires d.band.Some?
    ensures d.peak >= targetThreshold && |d.smoothed| == |d.axis| == |dbv|
    ensures d.peak == Max(d.smoothed)
    ensures d.band.value == Centroid.ScanBand(d.smoothed, bandwidthThreshold, d.axis, frequencyMin, d.peak, |d.smoothed|).value
    ensures d.centroid == d.band.value.centroid
    ensures PyIndex(|dbv|, minBin).Some? && d.smoothed[PyIndex(|dbv|, minBin).value] < d.peak - bandwidthThreshold
    ensures d.smoothed[0] < d.peak - bandwidthThreshold
  {
    Centroid.AsWrittenScanOutcome(d.smoothed, bandwidthThreshold, d.axis, frequencyMin, d.peak);
  }

  /** 20·log10(x/1000) applied bin by bin, with the logarithm supplied by the caller. */
  function ToDbv(magnitude: seq<real>, toDbv: real -> real): (dbv: seq<real>)
    ensures |dbv| == |magnitude|
    ensures forall i :: 0 <= i < |magnitude| ==> dbv[i] == toDbv(magnitude[i])
  {
    seq(|magnitude|, i requires 0 <= i < |magnitude| => toDbv(magnitude[i]))
  }

  /** The complex branch of `FFT` from the magnitude spectrum on: zero-force it
      in place when asked, convert it to dB and decide. */
  method Fft(magnitude: array<real>, zeroForcing: bool, minBin: int, maxBin: int,
             samplingFrequency: real, smoothingBins: int, targetThreshold: real,
             bandwidthThreshold: real, frequencyMin: real, cosineFactor: real, toDbv: real -> real)
    returns (r: Result<Detection, DetectionError>)
    requires smoothingBins <= magnitude.Length
    requires cosineFactor != 0.0
    modifies magnitude
    ensures magnitude[..] == if zeroForcing then Spectrum.ZeroForced(old(magnitude[..]), minBin, maxBin)
                             else old(magnitude[..])
    ensures r == Decide(ToDbv(magnitude[..], toDbv), samplingFrequency, smoothingBins, minBin,
                        targetThreshold, bandwidthThreshold, frequencyMin, cosineFactor)
  {
    if zeroForcing {
      Spectrum.ZeroForce(magnitude, minBin, maxBin);
    }
    var dbv := ToDbv(magnitude[..], toDbv);
    r := Decide(dbv, samplingFrequency, smoothingBins, minBin, targetThreshold,
                bandwidthThreshold, frequencyMin, cosineFactor);
  }
}
