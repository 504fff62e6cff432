/** Post-processing of the magnitude and dB spectra inside `FFT`: the in-place
    zero-forcing of the bins outside the band of interest, and the moving-average
    smoothing `np.convolve(x, np.ones(k), 'same') / k`. */
module Spectrum {
  import opened Arith

  // ---------------------------------------------------------------------------
  // Zero-forcing

  /** Where a slice bound lands in a sequence of length n under Python's rules:
      a negative bound counts from the end, and the result is clamped to [0, n]. */
  function SliceIndex(n: nat, bound: int): (i: nat)
    ensures i <= n
    ensures 0 <= bound <= n ==> i == bound
    ensures bound < 0 && bound + n >= 0 ==> i == bound + n
  {
    if bound < 0 then (if bound + n < 0 then 0 else bound + n)
    else if bound > n then n
    else bound
  }

  /** Bin i is cleared by `x[0:minBin] = 0` followed by `x[maxBin:-1] = 0`. */
  predicate Forced(n: nat, minBin: int, maxBin: int, i: int)
  {
    (0 <= i < SliceIndex(n, minBin)) || (SliceIndex(n, maxBin) <= i < SliceIndex(n, -1))
  }

  /** The magnitude spectrum after zero-forcing. */
  function ZeroForced(s: seq<real>, minBin: int, maxBin: int): (r: seq<real>)
    ensures |r| == |s|
  {
    seq(|s|, i requires 0 <= i < |s| => if Forced(|s|, minBin, maxBin, i) then 0.0 else s[i])
  }

  /** `FFT_mV[0:minBin] = 0; FFT_mV[maxBin:-1] = 0`, in place. */
  method ZeroForce(a: array<real>, minBin: int, maxBin: int)
    modifies a
    ensures a[..] == ZeroForced(old(a[..]), minBin, maxBin)
  {
    ghost var original := a[..];
    var n := a.Length;
    var stop := SliceIndex(n, minBin);
    for i := 0 to stop
      invariant forall j :: 0 <= j < n ==> a[j] == (if j < i then 0.0 else original[j])
    {
      a[i] := 0.0;
    }
    var start := SliceIndex(n, maxBin);
    var end := SliceIndex(n, -1);
    if start < end {
      for i := start to end
        invariant forall j :: 0 <= j < n ==>
          a[j] == (if j < stop || start <= j < i then 0.0 else original[j])
      {
        a[i] := 0.0;
      }
    }
    assert forall j :: 0 <= j < n ==> a[j] == ZeroForced(original, minBin, maxBin)[j];
  }

  /** With 0 <= minBin <= maxBin <= n, the bins [0, minBin) and [maxBin, n-1) are
      cleared, the band [minBin, maxBin) is kept, and so is the last bin, which
      the slice ending at -1 leaves out. */
  lemma ZeroForcedRegions(s: seq<real>, minBin: int, maxBin: int)
    requires 0 <= minBin <= maxBin <= |s|
    ensures forall i :: 0 <= i < minBin ==> ZeroForced(s, minBin, maxBin)[i] == 0.0
    ensures forall i :: maxBin <= i < |s| - 1 ==> ZeroForced(s, minBin, maxBin)[i] == 0.0
    ensures forall i :: minBin <= i < maxBin ==> ZeroForced(s, minBin, maxBin)[i] == s[i]
    ensures minBin < |s| ==> ZeroForced(s, minBin, maxBin)[|s| - 1] == s[|s| - 1]
  {
  }

  /** Zero-forcing a spectrum twice changes nothing more. */
  lemma ZeroForcedIdempotent(s: seq<real>, minBin: int, maxBin: int)
    ensures ZeroForced(ZeroForced(s, minBin, maxBin), minBin, maxBin) == ZeroForced(s, minBin, maxBin)
  {
  }

  // ---------------------------------------------------------------------------
  // Moving average

  /** Bin t of the spectrum, or 0 outside it (the zero padding of `np.convolve`). */
  function Padded(x: seq<real>, t: int): real
  {
    if 0 <= t < |x| then x[t] else 0.0
  }

  /** The sum of the k padded bins starting at `start`. */
  function WindowSum(x: seq<real>, start: int, k: nat): real
  {
    if k == 0 then 0.0 else WindowSum(x, start, k - 1) + Padded(x, start + k - 1)
  }

  /** `np.convolve(x, np.ones(k), 'same') / k` for 1 <= k <= |x|: entry i is the
      window of k bins that starts k/2 bins before i, summed with bins outside
      the spectrum counted as zero, divided by k. Equivalently, the sum of the
      part of that window inside the spectrum, divided by k. */
  function MovingAverage(x: seq<real>, k: int): (r: seq<real>)
    requires 1 <= k <= |x|
    ensures |r| == |x|
    ensures forall i :: 0 <= i < |x| ==> r[i] == Sum(ClippedWindow(x, k, i)) / k as real
  {
    AllWindowsClipped(x, k);
    seq(|x|, i requires 0 <= i < |x| => WindowSum(x, WindowStart(k, i), k) / k as real)
  }

  /** The `ValueError` of smoothing over no bins: `np.convolve` refuses the
      empty window `np.ones(0)`, and `np.ones` a negative size. */
  datatype SmoothingError = EmptyWindow

  /** The smoothing `np.convolve(x, np.ones(k), 'same') / k` with its error
      path: a window of fewer than one bin fails; otherwise entry i is the sum
      of the in-range part of the window starting k/2 bins before i, over k. */
  function Smooth(x: seq<real>, k: int): (r: Result<seq<real>, SmoothingError>)
    requires k <= |x|
    ensures r.Failure? <==> k < 1
    ensures r.Success? ==> |r.value| == |x|
    ensures r.Success? ==> forall i :: 0 <= i < |x| ==> r.value[i] == Sum(ClippedWindow(x, k, i)) / k as real
  {
    if k < 1 then Failure(EmptyWindow) else Success(MovingAverage(x, k))
  }

  /** The first bin of the smoothing window of entry i. */
  function WindowStart(k: nat, i: int): int
  {
    i - k / 2
  }

  /** The part of the smoothing window of entry i that lies inside the spectrum. */
  function ClippedWindow(x: seq<real>, k: nat, i: int): seq<real>
  {
    x[Clamp(|x|, WindowStart(k, i))..Clamp(|x|, WindowStart(k, i) + k)]
  }

  lemma AllWindowsClipped(x: seq<real>, k: nat)
    ensures forall i :: 0 <= i < |x| ==> WindowSum(x, WindowStart(k, i), k) == Sum(ClippedWindow(x, k, i))
  {
    forall i | 0 <= i < |x| {
      WindowSumIsClippedSum(x, WindowStart(k, i), k);
    }
  }

  /** The sum of a sequence. */
  function Sum(s: seq<real>): real
  {
    if s == [] then 0.0 else Sum(s[..|s| - 1]) + s[|s| - 1]
  }

  /** a clamped to [0, n]. */
  function Clamp(n: nat, a: int): (c: nat)
    ensures c <= n
  {
    if a < 0 then 0 else if a > n then n else a
  }

  /** The padded window sum is the plain sum of the part of the window that
      lies inside the spectrum: bins outside it count as zero. */
  lemma {:induction false} WindowSumIsClippedSum(x: seq<real>, start: int, k: nat)
    ensures WindowSum(x, start, k) == Sum(x[Clamp(|x|, start)..Clamp(|x|, start + k)])
  {
    var lo := Clamp(|x|, start);
    if k > 0 {
      WindowSumIsClippedSum(x, start, k - 1);
      var hi := Clamp(|x|, start + k - 1);
      var t := start + k - 1;
      if 0 <= t < |x| {
        assert Clamp(|x|, start + k) == hi + 1;
        assert x[lo..hi + 1][..hi - lo] == x[lo..hi];
      } else {
        assert Clamp(|x|, start + k) == hi;
      }
    }
  }

  /** Smoothing over a single bin leaves the spectrum unchanged. */
  lemma MovingAverageOfOneBin(x: seq<real>)
    requires |x| >= 1
    ensures MovingAverage(x, 1) == x
  {
    forall i | 0 <= i < |x|
      ensures MovingAverage(x, 1)[i] == x[i]
    {
      assert WindowSum(x, i, 1) == WindowSum(x, i, 0) + x[i];
    }
  }

  /** Where the window lies wholly inside the spectrum, the smoothed value lies
      between the least and the greatest bin value. */
  lemma MovingAverageInteriorBounds(x: seq<real>, k: int, i: int, lo: real, hi: real)
    requires 1 <= k <= |x| && 0 <= i < |x|
    requires 0 <= i - k / 2 && i - k / 2 + k <= |x|
    requires forall t :: 0 <= t < |x| ==> lo <= x[t] <= hi
    ensures lo <= MovingAverage(x, k)[i] <= hi
  {
    WindowAverageBounds(x, WindowStart(k, i), k, lo, hi);
    MovingAverageEntry(x, k, i);
  }

  /** The mean of a window inside the spectrum lies between the bounds of the bins. */
  lemma WindowAverageBounds(x: seq<real>, start: int, k: nat, lo: real, hi: real)
    requires 0 <= start && start + k <= |x| && k >= 1
    requires forall t :: 0 <= t < |x| ==> lo <= x[t] <= hi
    ensures lo <= WindowSum(x, start, k) / k as real <= hi
  {
    WindowSumBounds(x, start, k, lo, hi);
    DivideBounds(WindowSum(x, start, k), k as real, lo, hi);
  }

  /** Entry i of the moving average is its whole window's sum over k. */
  lemma MovingAverageEntry(x: seq<real>, k: int, i: int)
    requires 1 <= k <= |x| && 0 <= i < |x|
    ensures MovingAverage(x, k)[i] == WindowSum(x, WindowStart(k, i), k) / k as real
  {
  }

  lemma {:induction false} WindowSumBounds(x: seq<real>, start: int, k: nat, lo: real, hi: real)
    requires 0 <= start && start + k <= |x|
    requires forall t :: 0 <= t < |x| ==> lo <= x[t] <= hi
    ensures k as real * lo <= WindowSum(x, start, k) <= k as real * hi
  {
    if k > 0 {
      WindowSumBounds(x, start, k - 1, lo, hi);
      assert lo <= x[start + k - 1] <= hi;
      assert (k - 1) as real * lo + lo == k as real * lo;
      assert (k - 1) as real * hi + hi == k as real * hi;
    }
  }

  lemma DivideBounds(w: real, k: real, lo: real, hi: real)
    requires k > 0.0 && k * lo <= w <= k * hi
    ensures lo <= w / k <= hi
  {
  }
}
