# radars: a Dafny model of the signal chain and the ADF4158 configuration

This project models the computational core of the *radars* repository in
Dafny. The repository drives a 24 GHz Doppler and FMCW radar used for river
surface-velocity measurements. The model covers six parts.

- **Spectral configuration** (`spectral_config.dfy`). `FFT_parameters` and
  `FFT_complex` choose the FFT bin count N, a power of two, and the smoothing
  window in bins. They also quantise the band of interest to the centred
  frequency grid.
- **Detection chain** (`spectrum.dfy`, `centroid.dfy`, `velocity.dfy`,
  `doppler.dfy`). This is the complex branch of `FFT` from the magnitude
  spectrum on:
  - zero-forcing in place with Python slice rules;
  - the moving average (`np.convolve(..., 'same')`);
  - the three-way decision: target not detected, zero-forcing window too
    narrow, or detected;
  - the Doppler band scan of `centroid_estimation`;
  - the surface velocity.
- **Raw sample extraction** (`raw_samples.dfy`). This is `txt_extract`, which
  exists in three identical copies (`sense2gol.py`, `sense2gol_rawdata.py` and
  `sense2gol_txt_extract.py`). A dump is a sequence of lines. The nested loops
  of the source are a method proved against a recursive parser. The
  main-module copy also scales to millivolts and builds the I + jQ signal and
  the time axis.
- **ADF4158 synthesiser configuration** (`adf4158.dfy`,
  `adf4158_registers.dfy`, `adf4158_script.dfy`). This covers:
  - the PFD frequency and the prescaler;
  - INT/FRAC;
  - the CLK1/CLK2 and DEV_OFFSET/DEV searches, as loops proved against
    recursive search functions;
  - the 16-bit two's-complement DEV word;
  - the packing of R0–R7;
  - the script as written, as one method. It returns the first failing
    `assert`, or the `ValueError` of `log2` on a step deviation that is not
    positive, as an error value. Its INT/FRAC split and its per-step
    deviation are the script's own formulas. The corrected formulas of
    "## Findings" are separate members with their properties proved.
- **PicoScope sampling rate** (`picoscope.dfy`): `conform_sampling_frequency`.
- **Servo duty cycle** (`servo.dfy`): the angle-to-duty-cycle formula of
  `rotate_servo_to_angle`.

Modelling conventions:
- Frequencies, voltages and angles are exact reals.
- Python's `round` and `np.round` round half to even (`Arith.Round`), and
  `int()` truncates toward zero (`Arith.Trunc`).
- Register words are `bv32`.
- The exceptions and failing `assert`s of the modelled path are error values
  of a `Result`. The exceptions are those "## Left out" excludes: a smoothing
  window longer than the spectrum, a zero sampling frequency and zero steps
  become preconditions, and unbound names and the missing argument are
  described there.

## Model

| member | source | states |
|---|---|---|
| Arith.Round | custom_modules/signal_processing.py:10 | The result is within 1/2 of x, and exact halves go to the even neighbour, as Python's `round` does. |
| Arith.Trunc | custom_modules/adf4158.py:133 | `int()` truncates toward zero: for x ≥ 0 it is the floor and for x < 0 the ceiling. |
| Arith.Max | custom_modules/signal_processing.py:32 | `np.amax`: the result bounds every element and is one of them. |
| SpectralConfig.CeilPow2From | custom_modules/signal_processing.py:9 | The upward search returns a power of two not below x whose half is below x. |
| SpectralConfig.BinCount | custom_modules/signal_processing.py:9 | `int(2**ceil(log2 x))` is 0 for x ≤ 1/2. Otherwise it is a power of two not below x whose half is below x. |
| SpectralConfig.BinCountMinimal | custom_modules/signal_processing.py:9 | N is the least power of two not below x. |
| SpectralConfig.Ratio | custom_modules/signal_processing.py:9 | \|Fs/2/r\| is non-negative and positive only for a non-zero sampling rate. |
| SpectralConfig.Configure | custom_modules/signal_processing.py:9-29 | `FFT_parameters` succeeds iff three things hold: the resolution is non-zero, the ratio is above 1/2 and the spectrum is complex. The unsupported-real-spectrum error only comes from the real branch. On success N is a power of two not below the ratio whose half is below it. |
| SpectralConfig.FftComplex | custom_modules/FFT.py:4-15 | `FFT_complex` succeeds iff the resolution is non-zero and the ratio is above 1/2. For N ≥ 2 each quantised bound is the requested bound rounded to the bin grid. |
| SpectralConfig.FftComplexBounds | custom_modules/FFT.py:11-15 | Each bound computed by the two-sided branch is the nearest multiple of the bin width to the request. |
| SpectralConfig.FixedBoundIsOffsetTimesWidth | custom_modules/signal_processing.py:12-15 | For even N the bound bin is N/2 plus the rounded offset, and its frequency is that offset times Fs/N. |
| SpectralConfig.FreqAxis | custom_modules/signal_processing.py:85-86 | The centred axis has N entries spaced Fs/N apart. |
| SpectralConfig.AxisAtBin | custom_modules/signal_processing.py:85-86 | The axis value at a bin is `-Fs/2 + bin*Fs/N`. |
| SpectralConfig.FixedBoundOnAxis | custom_modules/signal_processing.py:12-15 | A quantised bound whose bin lies on the axis equals the axis value at that bin. |
| SpectralConfig.QuantisationError | custom_modules/signal_processing.py:12-15 | Each quantised bound lies within half a bin of the requested bound. |
| SpectralConfig.BinsOrdered | custom_modules/signal_processing.py:12-15 | Ordered requested bounds give ordered bins and ordered quantised bounds. |
| SpectralConfig.BoundBinMonotone | custom_modules/signal_processing.py:12-14 | The bound bin is monotone in the requested frequency. |
| SpectralConfig.BinFrequencyMonotone | custom_modules/signal_processing.py:13-15 | The bin frequency is monotone in the bin. |
| SpectralConfig.ThreeKilohertzScenario | custom_modules/signal_processing.py:9-10 | At Fs = 3 kHz, 1 Hz resolution and a 10 Hz window, N = 2048 and there are 7 smoothing bins. |
| Spectrum.SliceIndex | custom_modules/signal_processing.py:75-76 | Python slice bounds: a negative bound counts from the end, and the result is clamped to [0, n]. |
| Spectrum.ZeroForced | custom_modules/signal_processing.py:75-76 | Zero-forcing keeps the length of the spectrum. |
| Spectrum.ZeroForce | custom_modules/signal_processing.py:74-76 | The in-place slice assignments leave the array equal to `ZeroForced` of its old contents. |
| Spectrum.ZeroForcedRegions | custom_modules/signal_processing.py:75-76 | Bins [0, minBin) and [maxBin, N−1) become 0. The band [minBin, maxBin) and the last bin, which `[maxBin:-1]` leaves out, keep their values. |
| Spectrum.ZeroForcedIdempotent | custom_modules/signal_processing.py:75-76 | Zero-forcing twice gives the same spectrum as zero-forcing once. |
| Spectrum.Smooth | custom_modules/signal_processing.py:80 | Smoothing fails, as `np.ones`/`np.convolve` raise `ValueError`, iff the window has fewer than one bin. Otherwise the result has the input's length, and entry i is the in-range part of the k-bin window starting k/2 bins before i, summed and divided by k. |
| Spectrum.MovingAverage | custom_modules/signal_processing.py:80 | For a window of 1..N bins, entry i is the sum of the in-range part of the k-bin window starting k/2 bins before i, divided by k, with the same length as the input. |
| Spectrum.AllWindowsClipped | custom_modules/signal_processing.py:80 | For every entry, the zero-padded window sum equals the sum of the window's in-range part. |
| Spectrum.WindowSumIsClippedSum | custom_modules/signal_processing.py:80 | Bins outside the spectrum count as zero: the padded sum equals the sum over the clamped slice. |
| Spectrum.MovingAverageOfOneBin | custom_modules/signal_processing.py:80 | Smoothing over one bin leaves the spectrum unchanged. |
| Spectrum.MovingAverageInteriorBounds | custom_modules/signal_processing.py:80 | Where the window lies inside the spectrum, the smoothed value lies between the least and the greatest bin value. |
| Centroid.MaxOf | custom_modules/signal_processing.py:43 | Python's `max` of two reals: one of them, and not below either. |
| Centroid.ElementAtInPass | custom_modules/signal_processing.py:39-40 | In pass k of the restarted `for` loop, scan index k·N + t reads element t. |
| Centroid.FirstQualifying | custom_modules/signal_processing.py:41-44 | The start index is the least index within the threshold. If there is none, no index below n qualifies. |
| Centroid.LastQualifying | custom_modules/signal_processing.py:41-46 | `stopIndex` is the greatest index within the threshold. If there is none, no index below n qualifies. |
| Centroid.ScanBand | custom_modules/signal_processing.py:39-53 | A scan fails only by reading past the axis, so the axis is shorter than the scan count. On success the reported threshold is peak − bandwidth and the centroid is the midpoint of the band edges. |
| Centroid.CentroidEstimationAsWritten | custom_modules/signal_processing.py:31-59 | The `while`/`for` loops with their break at bins + 1 compute the band scan over indices 0..bins, which wrap around the array. |
| Centroid.CentroidEstimation | custom_modules/signal_processing.py:31-59 | The corrected loop visits each bin once and always returns the band scan over the N bins, without reading past the axis. |
| Centroid.QualifyingIndexReachesAxis | custom_modules/signal_processing.py:45-46 | A qualifying index below the scan count forces `stopIndex` at least as far. |
| Centroid.CorrectedBandCharacterised | custom_modules/signal_processing.py:41-53 | Both scans agree on this band:<br>• the start is the first bin within the threshold of the maximum, raised to `frequencyMin`;<br>• the stop is the last such bin;<br>• all bins outside [first, last] are below the threshold;<br>• the centroid is the midpoint, and the reported threshold is peak − bandwidth. |
| Centroid.AsWrittenFailsWhenBinZeroQualifies | custom_modules/signal_processing.py:39-50 | If bin 0 is within the threshold, the loop as written meets it again at index N and reads `freqAxis_Hz[N]`, one past the end. |
| Centroid.AsWrittenAgreesWhenBinZeroBelow | custom_modules/signal_processing.py:39-50 | Otherwise the extra index changes nothing, and the loop as written equals the corrected scan. |
| Centroid.AsWrittenScanOutcome | custom_modules/signal_processing.py:39-50 | Over an array and an axis of N entries with bins = N, the loop as written fails iff bin 0 is within the threshold. Otherwise it equals the scan of each bin once. |
| Centroid.CorrectedScanSucceeds | custom_modules/signal_processing.py:39-50 | The scan of each bin once, over an array and an axis of the same length, never fails. |
| Centroid.AsWrittenCounterexample | custom_modules/signal_processing.py:39-50 | A two-bin spectrum whose first bin is the peak makes the loop as written fail. |
| Centroid.CentroidWithinBand | custom_modules/signal_processing.py:51 | On an increasing axis the centroid lies between the band edges. |
| Velocity.SurfaceVelocity | custom_modules/signal_processing.py:61-64 | The surface velocity of a centroid frequency is the velocity whose Doppler shift is that frequency. |
| Velocity.DopplerShift | custom_modules/signal_processing.py:62 | The inverse relation, the shift 2·f₀·cos·v/c. A surface at rest gives no shift. With a positive cosine factor the shift has the sign of the velocity. |
| Velocity.VelocityOfShift | custom_modules/signal_processing.py:62 | Converting a velocity to a Doppler shift and back gives the velocity again. |
| Velocity.VelocityIsLinear | custom_modules/signal_processing.py:62 | The velocity is linear in the frequency, and a centroid of 0 gives velocity 0. |
| Velocity.VelocityIncreasing | custom_modules/signal_processing.py:62 | With a positive cosine factor, a higher frequency gives a higher velocity. |
| Doppler.PyIndex | custom_modules/signal_processing.py:94 | Python indexing `x[minBin]`: negative indices count from the end, and other out-of-range indices fail. |
| Doppler.ToDbv | custom_modules/signal_processing.py:77 | The dB spectrum applies the conversion bin by bin and keeps the length. |
| Doppler.Decide | custom_modules/signal_processing.py:78-99 | The outcome:<br>• an empty spectrum fails (`np.amax`), then a window of fewer than one bin (`ValueError`);<br>• not detected iff the smoothed maximum is below the target threshold;<br>• otherwise `minBin` out of range is the `IndexError`, and a smoothed value there at or above peak − bandwidth is the zero-forcing `ValueError`;<br>• otherwise the scan as written fails iff smoothed bin 0 reaches peak − bandwidth;<br>• the peak, the smoothing shift, the smoothed spectrum, the axis and the velocity of the centroid are reported;<br>• not detected gives centroid and velocity 0. |
| Doppler.DetectedBand | custom_modules/signal_processing.py:91-99 | A detection has a peak at or above the target threshold. Its band is characterised by the first and last bins within the bandwidth. The bins at `minBin` and at 0 are below that threshold. |
| Doppler.Fft | custom_modules/signal_processing.py:74-101 | The array is zero-forced in place exactly when asked. The result is the decision on the dB conversion of the new magnitudes. |
| RawSamples.LeadingDigits | custom_modules/sense2gol_txt_extract.py:24 | Counts the maximal prefix of ASCII digits. |
| RawSamples.DecimalValueOfRender | custom_modules/sense2gol_txt_extract.py:24 | `int()` of a number's decimal rendering gives the number back. |
| RawSamples.RenderedNumberReadBack | custom_modules/sense2gol_txt_extract.py:24 | `re.findall(r'\d+')` reads a rendered number followed by a non-digit as exactly that number. |
| RawSamples.SampleLineRoundTrip | custom_modules/sense2gol_txt_extract.py:24 | Writing samples as a space-separated line and extracting its digit runs gives the samples back. |
| RawSamples.SignAndPointAreSeparators | custom_modules/sense2gol_txt_extract.py:24 | A minus sign and a decimal point are not part of a run: "-12" gives 12 and "3.5" gives 3 and 5. |
| RawSamples.ParseExtends | custom_modules/sense2gol_txt_extract.py:19-41 | The parse only appends: the samples collected before a line are a prefix of both final lists. At the end of the file nothing more is collected. |
| RawSamples.HeaderIndex | custom_modules/sense2gol_txt_extract.py:13-17 | The search for the I header stops at its first occurrence after the first line. |
| RawSamples.IBlockCollected | custom_modules/sense2gol_txt_extract.py:20-41 | Every line of an I block up to the Q header adds its digit runs to I, in order, and the Q block after the header then goes to Q. |
| RawSamples.QBlockCollected | custom_modules/sense2gol_txt_extract.py:35-41 | Every Q line up to the end of file adds its digit runs to Q, in order. |
| RawSamples.AfterQHeaderCollected | custom_modules/sense2gol_txt_extract.py:32-41 | The line after the Q header is read as Q data, whatever it holds. |
| RawSamples.SectionsAfterHead | custom_modules/sense2gol_txt_extract.py:12-41 | After lines with no I header past the first, the search stops at the I header that follows, and from there the I block goes to I and the Q block to Q. |
| RawSamples.SectionsOfDump | custom_modules/sense2gol_txt_extract.py:5-41 | For a dump laid out as first line, preamble, I header, I lines, Q header and Q lines, I collects exactly the I lines' numbers and Q the Q lines' numbers. |
| RawSamples.TxtExtract | custom_modules/sense2gol_rawdata.py:6-54 | The loops return both channels cut to the shorter length and swapped: I from the Q block and Q from the I block. |
| RawSamples.TxtExtractMillivolts | custom_modules/sense2gol.py:87-143 | It fails iff ADC_RANGE_BITS = 0 (`ZeroDivisionError`, line 136). Otherwise each sample is scaled by ADC_RANGE_V/ADC_RANGE_BITS·1000, the complex signal is I + jQ, and sample k sits at time k/Fs. |
| Adf4158Registers.FracMsb | custom_modules/adf4158.py:182 | `FRAC >> 13` fits 12 bits. |
| Adf4158Registers.FracLsb | custom_modules/adf4158.py:191 | `FRAC & 0x1FFF` fits 13 bits. |
| Adf4158Registers.FracSplitRoundTrip | custom_modules/adf4158.py:182-191 | Joining FRAC's 12 MSBs and 13 LSBs gives FRAC back. |
| Adf4158Registers.R0 | custom_modules/adf4158.py:186 | R0 decodes to code 0, the FRAC MSBs, INT, MUXOUT and the ramp bit. |
| Adf4158Registers.R1 | custom_modules/adf4158.py:195 | R1 decodes to code 1 and the FRAC LSBs, with all other bits clear. |
| Adf4158Registers.FracFromR0AndR1 | custom_modules/adf4158.py:182-195 | FRAC is read back from R0 and R1 together. |
| Adf4158Registers.R2 | custom_modules/adf4158.py:213 | R2 decodes to code 2, CLK1, the R counter, the doubler, RDIV2, the prescaler, the charge pump level and cycle slip reduction. |
| Adf4158Registers.RCounterField | custom_modules/adf4158.py:209-213 | `R_COUNTER % 32` fits the 5-bit field. |
| Adf4158Registers.RCounterWraps | custom_modules/adf4158.py:213 | A divider of 32 is written as 0, and 1..31 as themselves. |
| Adf4158Registers.R3 | custom_modules/adf4158.py:235 | R3 decodes to code 3 and each of its ten fields. |
| Adf4158Registers.R4 | custom_modules/adf4158.py:251 | R4 decodes to code 4, CLK2, the clock divider mode, readback, bleed current, the sigma-delta mode and load enable sync, with bits 6..3 clear. |
| Adf4158Registers.R5 | custom_modules/adf4158.py:267 | R5 (load 1) decodes to code 5, the DEV word, DEV_OFFSET, deviation select, ramp 2, FSK ramp, interrupt, the parabolic ramp and the TX ramp clock. |
| Adf4158Registers.R6 | custom_modules/adf4158.py:276 | R6 decodes to code 6, STEP and step select. |
| Adf4158Registers.R7 | custom_modules/adf4158.py:288 | R7 decodes to code 7, the delayed start word and the four delay flags. |
| Adf4158.XorFlipsBit | custom_modules/adf4158.py:267 | Python's `^ 1<<k` below 2^(k+1) flips bit k: it adds or removes 2^k. |
| Adf4158.DevWord | custom_modules/adf4158.py:264-267 | `DEV+32768 ^ 1<<15` is DEV mod 2^16, a 16-bit word. |
| Adf4158.DevWordRoundTrip | custom_modules/adf4158.py:264-267 | The DEV word decodes as two's complement to DEV. Every 16-bit word is the word of its decoded value. |
| Adf4158.PfdFrequency | custom_modules/adf4158.py:45 | A positive reference and R counter give a positive PFD frequency. |
| Adf4158.PrescalerFor | custom_modules/adf4158.py:127-132 | The prescaler bit is 0 iff the PLL stop frequency is at most 3 GHz. N_MIN is 23 with the 4/5 prescaler and 75 with the 8/9 prescaler. |
| Adf4158.SplitIsNearestStep | custom_modules/adf4158.py:133-135 | INT·2^25 + FRAC, with INT from truncation and FRAC from rounding the remainder, is the nearest integer to (pll/pfd)·2^25. |
| Adf4158.IntFracAsWritten | custom_modules/adf4158.py:133-136 | As written, success gives INT in [N_MIN, 4095] and FRAC in [0, 2^25), and INT·2^25 + FRAC is the nearest step count. Then N = INT + FRAC/2^25 ≥ N_MIN, so the check at line 197 always passes. |
| Adf4158.IntFrac | custom_modules/adf4158.py:133-137 | The corrected ratio has the same ranges and N = INT + FRAC/2^25 ≥ N_MIN (the check at line 197). |
| Adf4158.IntFracIsNearestStep | custom_modules/adf4158.py:133-136 | The corrected INT/FRAC is the quotient and remainder of the nearest step count by 2^25, and fails exactly when that quotient is not a valid INT. |
| Adf4158.IntFracExtendsAsWritten | custom_modules/adf4158.py:133-136 | Where the script succeeds, the corrected ratio agrees. They differ only when the remainder rounds to 2^25. |
| Adf4158.FracCarryCounterexample | custom_modules/adf4158.py:135-136 | For pll/pfd = 101 − 2^-27 the script's FRAC assertion fails, while the corrected ratio is INT 101, FRAC 0. |
| Adf4158.IntFracAccuracy | custom_modules/adf4158.py:137 | The synthesised start frequency is within pfd/2^26 of the requested one. |
| Adf4158.ClkSearch | custom_modules/adf4158.py:102-109 | CLK2 is the least value from the start whose CLK1 = round(cycles/CLK2) fits 12 bits, and success also needs that CLK1 ≥ 1. The CLK2 error occurs iff no CLK2 up to 4095 fits. Every other failure is the CLK1 error. |
| Adf4158.ClkDividers | custom_modules/adf4158.py:102-109 | The `while CLK1 > 4095` loop returns exactly the CLK search from CLK2 = 1. |
| Adf4158.ClkStepAccuracy | custom_modules/adf4158.py:104-108 | The ramp step of CLK1·CLK2 PFD cycles is within CLK2/2 cycles of the requested step. |
| Adf4158.DevSearch | custom_modules/adf4158.py:165-172 | DEV_OFFSET is the least offset in [seed, 9] whose DEV lies in [−32767, 32767]. It fails iff the seed is outside [0, 9] or no offset fits. |
| Adf4158.DevDividers | custom_modules/adf4158.py:165-172 | The `while DEV < -32767 or DEV > 32767` loop returns exactly the DEV search from the seed. |
| Adf4158.DevStepAccuracy | custom_modules/adf4158.py:167 | DEV·2^DEV_OFFSET resolution steps are within half a quantum of the requested step deviation. |
| Adf4158.FrequencyDeviationAsWritten | custom_modules/adf4158.py:173 | The script's `resolution·(DEV·DEV_OFFSET)` is 0 whenever DEV_OFFSET or DEV is 0. With DEV_OFFSET 1 it equals DEV resolution steps. |
| Adf4158.FrequencyDeviationInSteps | custom_modules/adf4158.py:167-173 | The synthesiser's per-step deviation is the whole number DEV·2^DEV_OFFSET of resolution steps. |
| Adf4158.FrequencyDeviationCounterexample | custom_modules/adf4158.py:173 | With DEV_OFFSET = 0 the script's `DEV*DEV_OFFSET` gives 0 Hz for DEV = 1000, while the synthesiser steps by 1000 resolution steps. |
| Adf4158Script.Pfd | custom_modules/adf4158.py:45 | The PFD frequency of a valid chirp and settings is positive. |
| Adf4158Script.Resolution | custom_modules/adf4158.py:47 | pfd/2^25 is positive. |
| Adf4158Script.SettingsError | custom_modules/adf4158.py:198-250 | The cross-checks of R1, R2 and R4 pass iff four conditions hold:<br>• integer-N mode implies FRAC = 0;<br>• cycle slip reduction implies RDIV2;<br>• the doubler implies REF_IN ≤ 30 MHz;<br>• bleed current 0b11 implies readback 0. |
| Adf4158Script.Pack | custom_modules/adf4158.py:176-288 | The eight words carry codes 0..7, and INT, FRAC, CLK1, the prescaler bit, CLK2, DEV_OFFSET, the DEV word and STEP read back from their fields. |
| Adf4158Script.PlannedFrequencyAccuracy | custom_modules/adf4158.py:133-137 | Where the script's INT/FRAC assertions pass, the synthesised start frequency is within pfd/2^26 of the requested one. |
| Adf4158Script.Synthesize | custom_modules/adf4158.py:102-288 | The script fails at the first failing check in source order:<br>• CLK;<br>• INT/FRAC as written;<br>• `log2` of a non-positive step deviation, then DEV_OFFSET/DEV;<br>• the register checks.<br>On success it returns the CLK, division and DEV results, the packed registers, the synthesised frequency and the script's per-step deviation `resolution·(DEV·DEV_OFFSET)`. |
| Picoscope.SlowTimebase | custom_modules/picoscope.py:8 | The timebase is within 1/2 of 62.5e6/fs + 2. |
| Picoscope.ConformSamplingFrequency | custom_modules/picoscope.py:3-10 | The two branches:<br>• from 125 MS/s up, the rate times 2^t is 5e8;<br>• below, it fails iff fs = 0 or the timebase rounds to 2, and otherwise the rate times (timebase − 2) is 62.5e6. |
| Picoscope.SlowBranchBounded | custom_modules/picoscope.py:8-9 | For 0 < fs < 125e6 the timebase is at least 3, and the rate is positive and at most 62.5 MS/s. |
| Picoscope.SlowBranchNearestInterval | custom_modules/picoscope.py:8-9 | The conformed interval, in 16 ns ticks, is within half a tick of the requested interval. |
| Picoscope.SlowRateIsFixed | custom_modules/picoscope.py:8-9 | 62.5 MHz/k is conformed to itself. |
| Picoscope.SlowBranchIdempotent | custom_modules/picoscope.py:3-10 | Conforming a conformed slow rate changes nothing. |
| Picoscope.FastRateIsFixed | custom_modules/picoscope.py:4-6 | 5e8/2^t with t ≤ 2 is in the fast range and is conformed to itself. |
| Servo.DutyCycleAsWritten | custom_modules/servo_motor.py:17 | As written, angles in [−90, 90] give duty cycles in [2, 12]. |
| Servo.AsWrittenSwapsEnds | custom_modules/servo_motor.py:13-17 | As written, +90° gets 12, the duty cycle named for −90°, and −90° gets 2. The map increases with the angle. |
| Servo.DutyCycle | custom_modules/servo_motor.py:13-17 | The map the constants describe keeps angles in [−90, 90] within [2, 12]. |
| Servo.DutyCycleEnds | custom_modules/servo_motor.py:13-16 | +90° gives MAX_ANGLE_DUTY_CYCLE = 2, −90° gives MIN_ANGLE_DUTY_CYCLE = 12, and 0° gives 7. |
| Servo.DutyCycleDecreasingAffine | custom_modules/servo_motor.py:17 | The duty cycle falls by 1/18 per degree, strictly, and is affine. |
| Servo.AsWrittenIsMirrored | custom_modules/servo_motor.py:17 | The formula as written is the intended map mirrored about 0°. |

## Left out

- The FFT itself is not modelled: the mean removal, the Hamming window, `np.fft.fft`, `fftshift` and the magnitude scaling (`signal_processing.py:68-73`). These are floating-point numerics upstream of the magnitude array, which is the model's input.
- `20*log10(x/1000)` is a function parameter of `Doppler.Fft` and `Doppler.ToDbv`. A logarithm of 0 (−inf) is therefore not modelled.
- The cosine factor cos(θ·cos φ) of `evaluate_surface_velocity` is an input of `Velocity.SurfaceVelocity`, which requires it to be non-zero. The mix of degrees and radians in the printed value (line 63) is not modelled.
- The `round(log2(...))` seeds are inputs: the DEV_OFFSET seed (`adf4158.py:165`) and the fast-branch PicoScope timebase (`picoscope.py:5`). The `ValueError` of `log2` on a step deviation that is not positive is modelled as an error value; the logarithm itself is not.
- Printing is not modelled, including the ADIsimPLL summary (`adf4158.py:291-297`).
- Floating point in general is not modelled: every quantity is an exact real.
- The real-signal branch of `FFT_parameters` becomes an error value. It reads an unbound name and raises. The real branch of `FFT` only prints and then fails on unbound names. It is not modelled beyond this.
- Doppler.Decide: smoothing is always applied. With smoothing off the source reads an unbound `FFT_dBV_smoothed` at line 94.
- Doppler.Decide: `centroid_estimation` is called with N = len(spectrum), through the loop as written, including its read past the axis. The call at line 99 passes five of its six arguments, which raises `TypeError`.
- Doppler.Decide: "not detected" returns centroid 0 and velocity 0. The source then fails at line 101 on the unbound `centroid_start`.
- Spectrum.Smooth: a smoothing window longer than the spectrum is not modelled, so it requires k ≤ N. `np.convolve(..., 'same')` then returns k values, not N. Windows of fewer than one bin are the error value.
- Doppler.Decide: it requires a window of at most N bins, as `Spectrum.Smooth` does.
- Doppler.Fft: it requires a window of at most N bins, as `Doppler.Decide` does.
- RawSamples.TxtExtractMillivolts: a sampling frequency of 0 is excluded (Fs ≠ 0). numpy divides the time axis by 0 and yields inf/nan without raising, and exact reals have no such values.
- `FFT_complex` returns nothing in the source. `SpectralConfig.FftComplex` returns the values it computes.
- In `txt_extract`, file opening and ASCII decoding are not modelled: the dump is given as its lines.
- `temp_line_int != '\r\n'` compares a list with a string, so it is always true, and the model treats it that way.
- A dump without an I header makes the header search loop forever. `RawSamples.TxtExtract` requires one.
- `txt_generate`, `serialPort_acquisition`, `load_settings` and the orchestration mains are outside the modelled core.
- Servo GPIO calls and sleeps are not modelled (`servo_motor.py:5-10,18-25`).
- Adf4158Script.Synthesize: register settings must fit their field widths (`FieldsFit`). Python would OR an oversized value into the neighbouring fields.
- Adf4158Script.Synthesize: the chirp must have 1 to 2^20 − 1 steps and a positive reference (`ChirpFits`). 0 steps raises `ZeroDivisionError` at line 30. STEP is not range-checked by the script.
- The check `INT + FRAC/2**25 >= N_MIN` at `adf4158.py:197` is not a separate error: `Adf4158.IntFracAsWritten` proves it always holds after the INT check.
- The R5 word for the second ramp (deviation select 1) is not packed. The script only builds load 1.
- Adf4158Script.Pack takes its computed fields as 32-bit words (`Word12`, `Word16`, …). The proofs connect each field to its register bits, not to the integer it came from.

## Findings

| source | as written | input that shows it | evidently intended | confidence | as-written member | corrected member |
|---|---|---|---|---|---|---|
| custom_modules/signal_processing.py:39-50 | The scan stops only when the index reaches bins + 1, so with bins = N it restarts the `for` loop. Index N re-reads element 0 and, if element 0 qualifies, reads `freqAxis_Hz[N]` | spectrum [0, −10], bandwidth 3, axis [−1, 0]: `IndexError` | scan each of the N bins once | high (not executed) | Centroid.AsWrittenCounterexample | Centroid.CentroidEstimation |
| custom_modules/adf4158.py:133-136 | FRAC is the rounded remainder and can equal 2^25, which fails the FRAC assertion | pll/pfd = 101 − 2^-27: INT 100 and FRAC 2^25 | carry into INT: INT 101, FRAC 0 | medium (not executed) | Adf4158.FracCarryCounterexample | Adf4158.IntFrac |
| custom_modules/adf4158.py:173 | the per-step deviation is `resolution·(DEV·DEV_OFFSET)` | DEV_OFFSET 0, DEV 1000: 0 Hz | resolution·DEV·2^DEV_OFFSET | medium (not executed) | Adf4158.FrequencyDeviationCounterexample | Adf4158.FrequencyDeviation |
| custom_modules/servo_motor.py:13-17 | the interpolation starts from MAX_ANGLE_DUTY_CYCLE at MIN_ANGLE | beam angle +90: duty 12, not MAX_ANGLE_DUTY_CYCLE = 2 | +90° at 2 and −90° at 12, as the constants are named | low (not executed) | Servo.AsWrittenSwapsEnds | Servo.DutyCycleEnds |
