/** `centroid_estimation`: the band of the smoothed dB spectrum that lies within
    a bandwidth threshold of its maximum, and its midpoint, the Doppler centroid. */
module Centroid {
  import opened Arith


  /** The estimated band: its midpoint, its edges and the reported threshold. */
  datatype Band = Band(centroid: real, start: real, stop: real, threshold: real)

  /** The scan read the frequency axis past its end (an `IndexError`). */
  datatype CentroidError = AxisIndexOutOfRange

  /** Python's `max(a, b)` on two reals. */
  function MaxOf(a: real, b: real): (m: real)
    ensures m >= a && m >= b && (m == a || m == b)
  {
    if b > a then b else a
  }

  /** The element scan index i reads: past the end of the array the scan
      starts over from its first element, so index i reads element i mod |arr|. */
  function ElementAt(arr: seq<real>, i: nat): real
    requires |arr| > 0
    decreases i
  {
    if i < |arr| then arr[i] else ElementAt(arr, i - |arr|)
  }

  /** In pass k over the array, scan index k*|arr| + t reads element t. */
  lemma {:induction false} ElementAtInPass(arr: seq<real>, k: nat, t: nat)
    requires t < |arr|
    ensures ElementAt(arr, k * |arr| + t) == arr[t]
  {
    if k > 0 {
      assert k * |arr| + t - |arr| == (k - 1) * |arr| + t;
      ElementAtInPass(arr, k - 1, t);
    }
  }

  /** Scan index i qualifies when the element it reads reaches the threshold. */
  predicate Qualifies(arr: seq<real>, threshold: real, i: nat)
    requires |arr| > 0
  {
    ElementAt(arr, i) >= threshold
  }

  /** The least qualifying scan index below n, if any. */
  function FirstQualifying(arr: seq<real>, threshold: real, n: nat): (o: Option<nat>)
    requires |arr| > 0
    ensures o.Some? ==> o.value < n && Qualifies(arr, threshold, o.value)
    ensures o.Some? ==> forall i :: 0 <= i < o.value ==> !Qualifies(arr, threshold, i)
    ensures o.None? ==> forall i :: 0 <= i < n ==> !Qualifies(arr, threshold, i)
  {
    if n == 0 then None
    else
      var o := FirstQualifying(arr, threshold, n - 1);
      if o.Some? then o
      else if Qualifies(arr, threshold, n - 1) then Some(n - 1)
      else None
  }

  /** The greatest qualifying scan index below n, if any. */
  function LastQualifying(arr: seq<real>, threshold: real, n: nat): (o: Option<nat>)
    requires |arr| > 0
    ensures o.Some? ==> o.value < n && Qualifies(arr, threshold, o.value)
    ensures o.Some? ==> forall i :: o.value < i < n ==> !Qualifies(arr, threshold, i)
    ensures o.None? ==> forall i :: 0 <= i < n ==> !Qualifies(arr, threshold, i)
  {
    if n == 0 then None
    else if Qualifies(arr, threshold, n - 1) then Some(n - 1)
    else LastQualifying(arr, threshold, n - 1)
  }

  /** The outcome of scanning indices [0, count): with no qualifying index both
      edges stay 0; otherwise the start is the frequency of the first qualifying
      index, raised to `frequencyMin`, and the stop is the frequency of the last
      one, unclamped; gaps between them do not matter. Reading the axis past its
      end fails. The reported threshold uses the peak passed in, not the
      maximum of the array. */
  function ScanBand(arr: seq<real>, bandwidthThreshold: real, axis: seq<real>, frequencyMin: real,
                    peak: real, count: nat): (r: Result<Band, CentroidError>)
    requires |arr| > 0
    ensures r.Failure? ==> |axis| < count
    ensures r.Success? ==> r.value.threshold == peak - bandwidthThreshold
    ensures r.Success? ==> r.value.centroid == (r.value.start + r.value.stop) / 2.0
  {
    var threshold := Max(arr) - bandwidthThreshold;
    BandFromEdges(FirstQualifying(arr, threshold, count), LastQualifying(arr, threshold, count),
                  axis, frequencyMin, peak - bandwidthThreshold)
  }

  /** The band between the first and the last qualifying index, as the scan
      variables end up holding it. */
  function BandFromEdges(first: Option<nat>, last: Option<nat>, axis: seq<real>, frequencyMin: real,
                         threshold: real): Result<Band, CentroidError>
    requires first.Some? && last.Some? ==> first.value <= last.value
  {
    if first.None? || last.None? then Success(Band(0.0, 0.0, 0.0, threshold))
    else if last.value >= |axis| then Failure(AxisIndexOutOfRange)
    else
      var start := MaxOf(axis[first.value], frequencyMin);
      var stop := axis[last.value];
      Success(Band((stop + start) / 2.0, start, stop, threshold))
  }

  /** The number of indices the source's loop scans: 0, 1, ..., bins. */
  function ScanCount(bins: int): nat
  {
    if bins < 0 then 1 else bins + 1
  }

  /** `centroid_estimation` as written: an outer loop restarts the pass over
      the array until the index reaches bins + 1, so the scan covers indices
      0..bins and index |arr| reads the first element again. */
  method CentroidEstimationAsWritten(arr: seq<real>, bandwidthThreshold: real, axis: seq<real>,
                                     frequencyMin: real, peak: real, bins: int)
    returns (r: Result<Band, CentroidError>)
    requires |arr| > 0
    ensures r == ScanBand(arr, bandwidthThreshold, axis, frequencyMin, peak, ScanCount(bins))
  {
    ghost var count := ScanCount(bins);
    var maxValue := Max(arr);
    var threshold := maxValue - bandwidthThreshold;
    var freqIndex: nat := 0;
    var stopIndex: nat := 0;
    var startDetected := false;
    var startBand := 0.0;
    var stopBand := 0.0;
    var centroidDetected := false;
    while !centroidDetected
      invariant freqIndex <= count
      invariant centroidDetected <==> freqIndex == count
      invariant !centroidDetected ==> PassStart(|arr|, freqIndex)
      invariant ScanState(arr, threshold, axis, frequencyMin, freqIndex, startDetected, startBand, stopIndex, stopBand)
      decreases count - freqIndex
    {
      ghost var passStart := freqIndex;
      var j := 0;
      while j < |arr|
        invariant 0 <= j <= |arr|
        invariant freqIndex == passStart + j && freqIndex <= count
        invariant centroidDetected <==> freqIndex == count
        invariant !centroidDetected ==> freqIndex < count
        invariant PassStart(|arr|, passStart)
        invariant centroidDetected ==> j < |arr|
        invariant ScanState(arr, threshold, axis, frequencyMin, freqIndex, startDetected, startBand, stopIndex, stopBand)
        decreases |arr| - j
      {
        WithinPass(arr, passStart, j);
        if arr[j] >= threshold {
          ScanHit(arr, threshold, axis, frequencyMin, freqIndex, startDetected, startBand, stopIndex, stopBand);
          if !startDetected {
            if freqIndex >= |axis| {
              AxisOverrun(arr, bandwidthThreshold, axis, frequencyMin, peak, freqIndex, count);
              return Failure(AxisIndexOutOfRange);
            }
            startBand := MaxOf(axis[freqIndex], frequencyMin);
            startDetected := true;
          }
          stopIndex := if stopIndex >= freqIndex then stopIndex else freqIndex;
          if stopIndex >= |axis| {
            AxisOverrun(arr, bandwidthThreshold, axis, frequencyMin, peak, freqIndex, count);
            return Failure(AxisIndexOutOfRange);
          }
          stopBand := axis[stopIndex];
        } else {
          ScanMiss(arr, threshold, axis, frequencyMin, freqIndex, startDetected, startBand, stopIndex, stopBand);
        }
        freqIndex := freqIndex + 1;
        if freqIndex >= bins + 1 {
          centroidDetected := true;
          break;
        }
        j := j + 1;
      }
    }
    r := Success(Band((stopBand + startBand) / 2.0, startBand, stopBand, peak - bandwidthThreshold));
  }

  /** `start` is where a pass over an array of n elements begins: 0, n, 2n, ... */
  predicate PassStart(n: nat, start: nat)
    decreases start
  {
    start == 0 || (n > 0 && start >= n && PassStart(n, start - n))
  }

  /** Index j of a pass reads element j. */
  lemma {:induction false} WithinPass(arr: seq<real>, start: nat, j: nat)
    requires PassStart(|arr|, start) && j < |arr|
    ensures ElementAt(arr, start + j) == arr[j]
    decreases start
  {
    if start > 0 {
      WithinPass(arr, start - |arr|, j);
    }
  }

  /** What the scan variables hold after the indices [0, n): the start flag is
      set exactly when some index qualified; then the start band comes from the
      first such index and the stop index and band from the last one; otherwise
      all are still 0. */
  predicate ScanState(arr: seq<real>, threshold: real, axis: seq<real>, frequencyMin: real, n: nat,
                      startDetected: bool, startBand: real, stopIndex: nat, stopBand: real)
    requires |arr| > 0
  {
    var first := FirstQualifying(arr, threshold, n);
    var last := LastQualifying(arr, threshold, n);
    (startDetected <==> first.Some?) &&
    (startDetected ==>
       last.Some? && stopIndex == last.value && stopIndex < |axis| &&
       startBand == MaxOf(axis[first.value], frequencyMin) && stopBand == axis[stopIndex]) &&
    (!startDetected ==> startBand == 0.0 && stopBand == 0.0 && stopIndex == 0)
  }

  /** One qualifying scan index more sets the start band if none was set yet
      and moves the stop to itself. */
  lemma ScanHit(arr: seq<real>, threshold: real, axis: seq<real>, frequencyMin: real, n: nat,
                startDetected: bool, startBand: real, stopIndex: nat, stopBand: real)
    requires |arr| > 0 && Qualifies(arr, threshold, n)
    requires ScanState(arr, threshold, axis, frequencyMin, n, startDetected, startBand, stopIndex, stopBand)
    ensures startDetected ==> stopIndex < n
    ensures n < |axis| ==>
      ScanState(arr, threshold, axis, frequencyMin, n + 1, true,
                if startDetected then startBand else MaxOf(axis[n], frequencyMin), n, axis[n])
  {
    assert FirstQualifying(arr, threshold, n + 1) ==
      if FirstQualifying(arr, threshold, n).Some? then FirstQualifying(arr, threshold, n) else Some(n);
    assert LastQualifying(arr, threshold, n + 1) == Some(n);
  }

  /** One non-qualifying scan index more changes nothing. */
  lemma ScanMiss(arr: seq<real>, threshold: real, axis: seq<real>, frequencyMin: real, n: nat,
                 startDetected: bool, startBand: real, stopIndex: nat, stopBand: real)
    requires |arr| > 0 && !Qualifies(arr, threshold, n)
    requires ScanState(arr, threshold, axis, frequencyMin, n, startDetected, startBand, stopIndex, stopBand)
    ensures ScanState(arr, threshold, axis, frequencyMin, n + 1, startDetected, startBand, stopIndex, stopBand)
  {
    EdgesPastMiss(arr, threshold, n);
  }

  /** A non-qualifying index leaves the first and the last qualifying index as they were. */
  lemma EdgesPastMiss(arr: seq<real>, threshold: real, n: nat)
    requires |arr| > 0 && !Qualifies(arr, threshold, n)
    ensures FirstQualifying(arr, threshold, n + 1) == FirstQualifying(arr, threshold, n)
    ensures LastQualifying(arr, threshold, n + 1) == LastQualifying(arr, threshold, n)
  {
  }

  /** A qualifying scan index past the end of the axis makes the scan fail. */
  lemma AxisOverrun(arr: seq<real>, bandwidthThreshold: real, axis: seq<real>, frequencyMin: real,
                    peak: real, i: nat, count: nat)
    requires |arr| > 0 && i < count && |axis| <= i
    requires Qualifies(arr, Max(arr) - bandwidthThreshold, i)
    ensures ScanBand(arr, bandwidthThreshold, axis, frequencyMin, peak, count) == Failure(AxisIndexOutOfRange)
  {
    QualifyingIndexReachesAxis(arr, Max(arr) - bandwidthThreshold, i, count);
  }

  /** A qualifying index below `count` forces the last qualifying index at least as far. */
  lemma QualifyingIndexReachesAxis(arr: seq<real>, threshold: real, i: nat, count: nat)
    requires |arr| > 0 && i < count && Qualifies(arr, threshold, i)
    ensures LastQualifying(arr, threshold, count).Some?
    ensures LastQualifying(arr, threshold, count).value >= i
  {
  }

  /** The corrected scan: each bin of the array exactly once, so no index ever
      passes the end of an axis of the same length. */
  method CentroidEstimation(arr: seq<real>, bandwidthThreshold: real, axis: seq<real>,
                            frequencyMin: real, peak: real)
    returns (band: Band)
    requires |arr| > 0 && |axis| == |arr|
    ensures Success(band) == ScanBand(arr, bandwidthThreshold, axis, frequencyMin, peak, |arr|)
  {
    var maxValue := Max(arr);
    var threshold := maxValue - bandwidthThreshold;
    var stopIndex: nat := 0;
    var startDetected := false;
    var startBand := 0.0;
    var stopBand := 0.0;
    for freqIndex := 0 to |arr|
      invariant ScanState(arr, threshold, axis, frequencyMin, freqIndex, startDetected, startBand, stopIndex, stopBand)
    {
      ElementAtInRange(arr);
      if arr[freqIndex] >= threshold {
        ScanHit(arr, threshold, axis, frequencyMin, freqIndex, startDetected, startBand, stopIndex, stopBand);
        if !startDetected {
          startBand := MaxOf(axis[freqIndex], frequencyMin);
          startDetected := true;
        }
        stopIndex := freqIndex;
        stopBand := axis[stopIndex];
      } else {
        ScanMiss(arr, threshold, axis, frequencyMin, freqIndex, startDetected, startBand, stopIndex, stopBand);
      }
    }
    band := Band((stopBand + startBand) / 2.0, startBand, stopBand, peak - bandwidthThreshold);
  }

  /** The band the corrected scan finds, for a non-negative bandwidth threshold:
      the peak bin qualifies, so a band always exists; its start is the
      frequency of the first bin within the threshold of the maximum, raised to
      `frequencyMin`; its stop is the frequency of the last such bin; every bin
      before the first and after the last is below the threshold; the centroid
      is the midpoint and the reported threshold is the peak minus the
      bandwidth. */
  lemma CorrectedBandCharacterised(arr: seq<real>, bandwidthThreshold: real, axis: seq<real>,
                                   frequencyMin: real, peak: real)
    requires |arr| > 0 && |axis| == |arr| && bandwidthThreshold >= 0.0
    ensures var r := ScanBand(arr, bandwidthThreshold, axis, frequencyMin, peak, |arr|);
      var threshold := Max(arr) - bandwidthThreshold;
      r.Success? &&
      exists first, last :: 0 <= first <= last < |arr| &&
        arr[first] >= threshold && arr[last] >= threshold &&
        (forall i :: 0 <= i < first ==> arr[i] < threshold) &&
        (forall i :: last < i < |arr| ==> arr[i] < threshold) &&
        r.value.start == MaxOf(axis[first], frequencyMin) &&
        r.value.stop == axis[last] &&
        r.value.centroid == (r.value.start + r.value.stop) / 2.0 &&
        r.value.threshold == peak - bandwidthThreshold
  {
    var threshold := Max(arr) - bandwidthThreshold;
    var m :| 0 <= m < |arr| && arr[m] == Max(arr);
    ElementAtInRange(arr);
    assert Qualifies(arr, threshold, m);
    var first := FirstQualifying(arr, threshold, |arr|).value;
    var last := LastQualifying(arr, threshold, |arr|).value;
    QualifyingEdges(arr, threshold, first, last);
    var r := ScanBand(arr, bandwidthThreshold, axis, frequencyMin, peak, |arr|);
    assert r.Success? && r.value.start == MaxOf(axis[first], frequencyMin) && r.value.stop == axis[last];
  }

  /** Over the first pass, the first and last qualifying indices are the
      outermost bins at or above the threshold. */
  lemma QualifyingEdges(arr: seq<real>, threshold: real, first: nat, last: nat)
    requires |arr| > 0
    requires FirstQualifying(arr, threshold, |arr|) == Some(first)
    requires LastQualifying(arr, threshold, |arr|) == Some(last)
    ensures first <= last < |arr|
    ensures arr[first] >= threshold && arr[last] >= threshold
    ensures forall i :: 0 <= i < first ==> arr[i] < threshold
    ensures forall i :: last < i < |arr| ==> arr[i] < threshold
  {
    ElementAtInRange(arr);
    forall i | 0 <= i < first ensures arr[i] < threshold {
      assert !Qualifies(arr, threshold, i);
    }
    forall i | last < i < |arr| ensures arr[i] < threshold {
      assert !Qualifies(arr, threshold, i);
    }
    assert Qualifies(arr, threshold, first) && Qualifies(arr, threshold, last);
  }

  /** Within the first pass, scan index i reads element i. */
  lemma ElementAtInRange(arr: seq<real>)
    requires |arr| > 0
    ensures forall i :: 0 <= i < |arr| ==> ElementAt(arr, i) == arr[i]
  {
  }

  /** If bin 0 is within the threshold of the maximum, the scan as written
      (bins == |arr| == |axis|) meets it again at index |arr| and reads the axis
      one past its end. */
  lemma AsWrittenFailsWhenBinZeroQualifies(arr: seq<real>, bandwidthThreshold: real, axis: seq<real>,
                                           frequencyMin: real, peak: real)
    requires |arr| > 0 && |axis| == |arr|
    requires arr[0] >= Max(arr) - bandwidthThreshold
    ensures ScanBand(arr, bandwidthThreshold, axis, frequencyMin, peak, ScanCount(|arr|)).Failure?
  {
    var threshold := Max(arr) - bandwidthThreshold;
    assert ElementAt(arr, |arr|) == arr[0];
    QualifyingIndexReachesAxis(arr, threshold, |arr|, |arr| + 1);
  }

  /** The scan as written over an array and an axis of the same length fails
      exactly when bin 0 is within the threshold; otherwise it succeeds with
      the band of the corrected scan. */
  lemma AsWrittenScanOutcome(arr: seq<real>, bandwidthThreshold: real, axis: seq<real>,
                             frequencyMin: real, peak: real)
    requires |arr| > 0 && |axis| == |arr|
    ensures ScanBand(arr, bandwidthThreshold, axis, frequencyMin, peak, ScanCount(|arr|)).Failure?
        <==> arr[0] >= Max(arr) - bandwidthThreshold
    ensures arr[0] < Max(arr) - bandwidthThreshold ==>
      ScanBand(arr, bandwidthThreshold, axis, frequencyMin, peak, ScanCount(|arr|))
        == ScanBand(arr, bandwidthThreshold, axis, frequencyMin, peak, |arr|)
  {
    if arr[0] >= Max(arr) - bandwidthThreshold {
      AsWrittenFailsWhenBinZeroQualifies(arr, bandwidthThreshold, axis, frequencyMin, peak);
    } else {
      AsWrittenAgreesWhenBinZeroBelow(arr, bandwidthThreshold, axis, frequencyMin, peak);
      CorrectedScanSucceeds(arr, bandwidthThreshold, axis, frequencyMin, peak);
    }
  }

  /** A single scan over an array and an axis of equal length never reads past the axis. */
  lemma CorrectedScanSucceeds(arr: seq<real>, bandwidthThreshold: real, axis: seq<real>,
                              frequencyMin: real, peak: real)
    requires |arr| > 0 && |axis| == |arr|
    ensures ScanBand(arr, bandwidthThreshold, axis, frequencyMin, peak, |arr|).Success?
  {
    var threshold := Max(arr) - bandwidthThreshold;
    var last := LastQualifying(arr, threshold, |arr|);
    assert last.Some? ==> last.value < |axis|;
  }

  /** Otherwise the extra index changes nothing and the scan as written agrees
      with the corrected one. */
  lemma AsWrittenAgreesWhenBinZeroBelow(arr: seq<real>, bandwidthThreshold: real, axis: seq<real>,
                                        frequencyMin: real, peak: real)
    requires |arr| > 0 && |axis| == |arr|
    requires arr[0] < Max(arr) - bandwidthThreshold
    ensures ScanBand(arr, bandwidthThreshold, axis, frequencyMin, peak, ScanCount(|arr|))
         == ScanBand(arr, bandwidthThreshold, axis, frequencyMin, peak, |arr|)
  {
    var threshold := Max(arr) - bandwidthThreshold;
    assert ElementAt(arr, |arr|) == arr[0];
    EdgesPastMiss(arr, threshold, |arr|);
    ScanBandEdges(arr, bandwidthThreshold, axis, frequencyMin, peak, |arr|);
    ScanBandEdges(arr, bandwidthThreshold, axis, frequencyMin, peak, |arr| + 1);
  }

  lemma ScanBandEdges(arr: seq<real>, bandwidthThreshold: real, axis: seq<real>, frequencyMin: real,
                      peak: real, n: nat)
    requires |arr| > 0
    ensures var threshold := Max(arr) - bandwidthThreshold;
      ScanBand(arr, bandwidthThreshold, axis, frequencyMin, peak, n)
      == BandFromEdges(FirstQualifying(arr, threshold, n), LastQualifying(arr, threshold, n),
                       axis, frequencyMin, peak - bandwidthThreshold)
  {
  }

  /** A concrete spectrum that shows the out-of-range read: two bins, the first
      one the peak. */
  lemma AsWrittenCounterexample()
    ensures ScanBand([0.0, -10.0], 3.0, [-1.0, 0.0], -1.0, 0.0, ScanCount(2)).Failure?
  {
    AsWrittenFailsWhenBinZeroQualifies([0.0, -10.0], 3.0, [-1.0, 0.0], -1.0, 0.0);
  }

  /** On an increasing axis, with `frequencyMin` not beyond the last qualifying
      frequency, the centroid lies between the band edges. */
  lemma CentroidWithinBand(arr: seq<real>, bandwidthThreshold: real, axis: seq<real>,
                           frequencyMin: real, peak: real)
    requires |arr| > 0 && |axis| == |arr| && bandwidthThreshold >= 0.0
    requires forall i, j :: 0 <= i < j < |axis| ==> axis[i] < axis[j]
    requires var r := ScanBand(arr, bandwidthThreshold, axis, frequencyMin, peak, |arr|);
      r.Success? && frequencyMin <= r.value.stop
    ensures var b := ScanBand(arr, bandwidthThreshold, axis, frequencyMin, peak, |arr|).value;
      b.start <= b.centroid <= b.stop
  {
    CorrectedBandCharacterised(arr, bandwidthThreshold, axis, frequencyMin, peak);
  }
}
