/** `conform_sampling_frequency`: the PicoScope can only sample at rates its
    timebase can express. From 125 MS/s up the rate is 500 MS/s divided by a
    power of two; below, the sample interval is a whole number of 16 ns ticks
    (62.5 MHz) beyond two. The fast branch's timebase is round(log2(5e8/fs));
    the logarithm is not modelled, so that rounded timebase is an input. */
module Picoscope {
  import opened Arith

  /** Rates from this one up use the power-of-two timebases. */
  const FAST_RANGE_START: real := 125000000.0
  /** The base rate of the power-of-two timebases: 500 MS/s. */
  const FAST_CLOCK: real := 500000000.0
  /** The tick rate of the slow timebases: 62.5 MHz, one tick every 16 ns. */
  const SLOW_CLOCK: real := 62500000.0

  /** The `ZeroDivisionError` of `62.5e6/samplingFrequency` when the rate is 0
      and of `62.5e6/(timebase-2)` when the timebase rounds to 2. */
  datatype ConformError = ZeroDivision

  /** The slow branch's timebase `round(62.5e6/fs + 2)`. */
  function SlowTimebase(samplingFrequency: real): (t: int)
    requires samplingFrequency != 0.0
    ensures t as real - 0.5 <= SLOW_CLOCK / samplingFrequency + 2.0 <= t as real + 0.5
  {
    Round(SLOW_CLOCK / samplingFrequency + 2.0)
  }

  /** The conformed sampling rate. `fastTimebase` is the rounded base-2
      logarithm of 5e8/fs, used only from 125 MS/s up. */
  function ConformSamplingFrequency(samplingFrequency: real, fastTimebase: int): (r: Result<real, ConformError>)
    ensures samplingFrequency >= FAST_RANGE_START ==>
              r.Success? && r.value * Pow2Real(fastTimebase) == FAST_CLOCK
    ensures samplingFrequency < FAST_RANGE_START ==>
              (r.Failure? <==> samplingFrequency == 0.0 || SlowTimebase(samplingFrequency) == 2)
    ensures samplingFrequency < FAST_RANGE_START && r.Success? ==>
              r.value * (SlowTimebase(samplingFrequency) - 2) as real == SLOW_CLOCK
  {
    if samplingFrequency >= FAST_RANGE_START then
      var p := Pow2Real(fastTimebase);
      assert 1.0 / (p / 5.0) * 100000000.0 == FAST_CLOCK / p;
      Success(1.0 / (p / 5.0) * 100000000.0)
    else if samplingFrequency == 0.0 then Failure(ZeroDivision)
    else
      var timebase := SlowTimebase(samplingFrequency);
      if timebase == 2 then Failure(ZeroDivision)
      else Success(SLOW_CLOCK / (timebase - 2) as real)
  }

  /** Below 125 MS/s a positive rate has a timebase of at least 3, so nothing
      is divided by zero, and the conformed rate is positive and at most
      62.5 MS/s. */
  lemma SlowBranchBounded(samplingFrequency: real, fastTimebase: int)
    requires 0.0 < samplingFrequency < FAST_RANGE_START
    ensures SlowTimebase(samplingFrequency) >= 3
    ensures var r := ConformSamplingFrequency(samplingFrequency, fastTimebase);
      r.Success? && 0.0 < r.value <= SLOW_CLOCK
  {
    var ticks := SLOW_CLOCK / samplingFrequency;
    assert ticks > 0.5 by {
      assert samplingFrequency * 0.5 < SLOW_CLOCK;
    }
    var t := SlowTimebase(samplingFrequency);
    assert t >= 3;
    assert SLOW_CLOCK / (t - 2) as real <= SLOW_CLOCK;
  }

  /** Below 125 MS/s the conformed sample interval, counted in 16 ns ticks, is
      the whole number of ticks nearest to the requested interval. */
  lemma SlowBranchNearestInterval(samplingFrequency: real, fastTimebase: int)
    requires 0.0 < samplingFrequency < FAST_RANGE_START
    ensures var r := ConformSamplingFrequency(samplingFrequency, fastTimebase);
      r.Success? &&
      SLOW_CLOCK / samplingFrequency - 0.5 <= SLOW_CLOCK / r.value <= SLOW_CLOCK / samplingFrequency + 0.5
  {
    SlowBranchBounded(samplingFrequency, fastTimebase);
    var t := SlowTimebase(samplingFrequency);
    var out := SLOW_CLOCK / (t - 2) as real;
    assert SLOW_CLOCK / out == (t - 2) as real;
  }

  /** A slow rate the timebase can express, 62.5 MHz / k, is conformed to itself. */
  lemma SlowRateIsFixed(k: int, fastTimebase: int)
    requires k >= 1
    ensures ConformSamplingFrequency(SLOW_CLOCK / k as real, fastTimebase) == Success(SLOW_CLOCK / k as real)
  {
    var fs := SLOW_CLOCK / k as real;
    assert fs <= SLOW_CLOCK;
    assert SLOW_CLOCK / fs == k as real;
    RoundOfInt(k + 2);
    assert SlowTimebase(fs) == k + 2;
  }

  /** Conforming twice below 125 MS/s changes nothing the second time. */
  lemma SlowBranchIdempotent(samplingFrequency: real, fastTimebase: int, secondTimebase: int)
    requires 0.0 < samplingFrequency < FAST_RANGE_START
    ensures var r := ConformSamplingFrequency(samplingFrequency, fastTimebase);
      r.Success? && ConformSamplingFrequency(r.value, secondTimebase) == r
  {
    SlowBranchBounded(samplingFrequency, fastTimebase);
    SlowRateIsFixed(SlowTimebase(samplingFrequency) - 2, secondTimebase);
  }

  /** 2^t is at most 1 for t <= 0. */
  lemma {:induction false} Pow2RealAtMostOne(t: int)
    requires t <= 0
    ensures Pow2Real(t) <= 1.0
    decreases -t
  {
    if t < 0 {
      Pow2RealAtMostOne(t + 1);
    }
  }

  /** 2^t is at most 4 for t <= 2. */
  lemma Pow2RealAtMostFour(t: int)
    requires t <= 2
    ensures Pow2Real(t) <= 4.0
  {
    if t <= 0 {
      Pow2RealAtMostOne(t);
    } else {
      assert Pow2Real(t - 1) <= 2.0 by {
        if t == 2 { assert Pow2Real(1) == 2.0 * Pow2Real(0); }
      }
    }
  }

  /** A fast rate 500 MS/s / 2^t with t <= 2 is at least 125 MS/s and, with its
      own timebase t, is conformed to itself. */
  lemma FastRateIsFixed(t: int)
    requires t <= 2
    ensures FAST_CLOCK / Pow2Real(t) >= FAST_RANGE_START
    ensures ConformSamplingFrequency(FAST_CLOCK / Pow2Real(t), t) == Success(FAST_CLOCK / Pow2Real(t))
  {
    var p := Pow2Real(t);
    var fs := FAST_CLOCK / p;
    assert fs >= FAST_RANGE_START by {
      Pow2RealAtMostFour(t);
      assert FAST_CLOCK / p >= FAST_CLOCK / 4.0;
    }
    var r := ConformSamplingFrequency(fs, t);
    assert r.value * p == FAST_CLOCK;
    assert r.value == fs;
  }
}
