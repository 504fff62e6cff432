/** The ADF4158 configuration script: from the triangle-chirp request and the
    register settings it derives the PFD frequency, the INT/FRAC division
    ratio of the start frequency, the CLK1/CLK2 ramp clock dividers, the
    DEV_OFFSET/DEV step deviation, and packs the eight register words. Every
    `assert` of the script becomes an error value. */
module Adf4158 {
  import opened Arith
  import opened Adf4158Registers

  /** The `assert` of the script that fails. */
  datatype SynthError =
    | IntOutOfRange             // INT outside [N_MIN, 4095]
    | FracOutOfRange            // FRAC outside [0, 2^25 - 1]
    | Clk2OutOfRange            // CLK2 passes 4095 while CLK1 is still above 4095
    | Clk1OutOfRange            // CLK1 below 1
    | DevOffsetOutOfRange       // DEV_OFFSET outside [0, 9]
    | IntegerModeNeedsZeroFrac  // integer-N sigma-delta mode with FRAC != 0
    | CycleSlipNeedsRdiv2       // cycle slip reduction without RDIV2
    | RefInTooHighForDoubler    // reference doubler with REF_IN above 30 MHz
    | BleedWithReadback         // negative bleed current on with readback to MUXOUT
    | StepDeviationNotPositive  // log2 of a step deviation that is not positive

  /** 2^25: FRAC counts the fractional part of N in steps of 2^-25. */
  const FRAC_STEPS: int := 0x200_0000
  /** The largest value of a 12-bit word (INT, CLK1, CLK2). */
  const MAX_12_BIT: int := 4095
  /** The sigma-delta modulator mode that puts the synthesiser in integer-N mode. */
  const INTEGER_N_MODE: bv32 := 0x0E

  // ---------------------------------------------------------------------------
  // Python's `^` on non-negative integers and the DEV word

  /** Python's `a ^ b` for non-negative integers, bit by bit from the least
      significant one. */
  function Xor(a: nat, b: nat): nat
    decreases a + b
  {
    if a == 0 then b
    else if b == 0 then a
    else 2 * Xor(a / 2, b / 2) + (if a % 2 == b % 2 then 0 else 1)
  }

  lemma XorZero(a: nat)
    ensures Xor(a, 0) == a
  {
  }

  /** XOR with 2^k flips bit k: below 2^(k+1) it adds or removes 2^k. */
  lemma {:induction false} XorFlipsBit(v: nat, k: nat)
    requires v < 2 * Pow2(k)
    ensures Xor(v, Pow2(k)) == if v >= Pow2(k) then v - Pow2(k) else v + Pow2(k)
  {
    if k == 0 {
      assert Pow2(0) == 1;
      if v == 1 {
        assert Xor(1, 1) == 2 * Xor(0, 0) + 0;
      }
    } else if v == 0 {
    } else {
      assert Pow2(k) == 2 * Pow2(k - 1);
      XorFlipsBit(v / 2, k - 1);
      assert Xor(v, Pow2(k)) == 2 * Xor(v / 2, Pow2(k - 1)) + v % 2;
      assert v / 2 >= Pow2(k - 1) <==> v >= Pow2(k);
    }
  }

  /** `DEV + 32768 ^ 1 << 15`, which Python groups as `(DEV + 32768) ^ (1 << 15)`:
      DEV as a 16-bit two's-complement word. */
  function DevWord(dev: int): (w: nat)
    requires -0x8000 <= dev <= 0x7FFF
    ensures w < 0x1_0000
    ensures w == dev % 0x1_0000
  {
    assert Pow2(15) == 0x8000 by { Pow2Value15(); }
    XorFlipsBit(dev + 0x8000, 15);
    Xor(dev + 0x8000, 0x8000)
  }

  lemma Pow2Value15()
    ensures Pow2(15) == 0x8000
  {
    assert Pow2(5) == 32;
    assert Pow2(10) == 1024 by { assert Pow2(10) == 32 * Pow2(5) by { Pow2Add(5, 5); } }
    assert Pow2(15) == 1024 * Pow2(5) by { Pow2Add(10, 5); }
  }

  lemma {:induction false} Pow2Add(a: nat, b: nat)
    ensures Pow2(a + b) == Pow2(a) * Pow2(b)
  {
    if a > 0 {
      Pow2Add(a - 1, b);
      assert Pow2(a + b) == 2 * Pow2(a - 1 + b);
    }
  }

  /** How the synthesiser reads a 16-bit two's-complement word. */
  function SignedWord(w: nat): (dev: int)
    requires w < 0x1_0000
    ensures -0x8000 <= dev <= 0x7FFF
  {
    if w >= 0x8000 then w - 0x1_0000 else w
  }

  /** The DEV word decodes back to DEV, and every 16-bit word is the word of
      the value it decodes to. */
  lemma DevWordRoundTrip(dev: int, w: nat)
    requires -0x8000 <= dev <= 0x7FFF && w < 0x1_0000
    ensures SignedWord(DevWord(dev)) == dev
    ensures DevWord(SignedWord(w)) == w
  {
  }

  // ---------------------------------------------------------------------------
  // Reference path, prescaler and the INT/FRAC division ratio

  /** `REF_IN * ((1 + doubler) / (R * (1 + RDIV2)))`. */
  function PfdFrequency(refIn: real, doubler: bool, rCounter: int, rdiv2: bool): (pfd: real)
    requires rCounter != 0
    ensures refIn > 0.0 && rCounter > 0 ==> pfd > 0.0
  {
    refIn * ((1 + (if doubler then 1 else 0)) as real
             / (rCounter * (1 + (if rdiv2 then 1 else 0))) as real)
  }

  /** The dual-modulus prescaler: N_MIN and the prescaler bit of R2. */
  datatype Prescaler = Prescaler(nMin: int, bit: bv32)

  /** 4/5 up to a PLL stop frequency of 3 GHz (N_MIN 23), 8/9 above (N_MIN 75). */
  function PrescalerFor(pllStop: real): (p: Prescaler)
    ensures p.bit < 2
    ensures p.bit == 0 <==> pllStop <= 3000000000.0
    ensures p.nMin == if p.bit == 0 then 23 else 75
  {
    if pllStop <= 3000000000.0 then Prescaler(23, 0) else Prescaler(75, 1)
  }

  /** N = INT + FRAC / 2^25. */
  datatype Division = Division(intValue: int, frac: int)

  /** The PLL frequency a division ratio synthesises: `pfd * (INT + FRAC / 2**25)`. */
  function SynthesizedFrequency(pfd: real, d: Division): real
  {
    pfd * (d.intValue as real + d.frac as real / FRAC_STEPS as real)
  }

  /** Rounding commutes with adding an even integer (ties go to the even side
      either way). */
  lemma RoundShift(x: real, m: int)
    ensures Round(x + (2 * m) as real) == Round(x) + 2 * m
  {
    assert (x + (2 * m) as real).Floor == x.Floor + 2 * m;
  }

  /** `int()` then `round()` of the scaled remainder splits the nearest multiple
      of 2^-25: INT·2^25 + FRAC is the nearest integer to (pll/pfd)·2^25. */
  lemma SplitIsNearestStep(q: real)
    ensures Trunc(q) * FRAC_STEPS + Round((q - Trunc(q) as real) * FRAC_STEPS as real)
         == Round(q * FRAC_STEPS as real)
  {
    SplitAt(q, Trunc(q));
  }

  lemma SplitAt(q: real, i: int)
    ensures i * FRAC_STEPS + Round((q - i as real) * FRAC_STEPS as real) == Round(q * FRAC_STEPS as real)
  {
    var x := (q - i as real) * FRAC_STEPS as real;
    var m := i * 0x100_0000;
    assert x + (2 * m) as real == q * FRAC_STEPS as real;
    RoundShift(x, m);
  }

  /** The division ratio as the script computes it: INT by truncation, FRAC by
      rounding the remainder, each checked against its field width. */
  function IntFracAsWritten(pllStart: real, pfd: real, nMin: int): (r: Result<Division, SynthError>)
    requires pfd != 0.0
    ensures r.Success? ==> nMin <= r.value.intValue <= MAX_12_BIT && 0 <= r.value.frac < FRAC_STEPS
    ensures r.Success? ==>
      r.value.intValue * FRAC_STEPS + r.value.frac == Round(pllStart / pfd * FRAC_STEPS as real)
    ensures r.Success? ==> r.value.intValue as real + r.value.frac as real / FRAC_STEPS as real >= nMin as real
  {
    var q := pllStart / pfd;
    var i := Trunc(q);
    if !(nMin <= i <= MAX_12_BIT) then Failure(IntOutOfRange)
    else
      var f := Round((q - i as real) * FRAC_STEPS as real);
      if !(0 <= f <= FRAC_STEPS - 1) then Failure(FracOutOfRange)
      else
        SplitIsNearestStep(q);
        Success(Division(i, f))
  }

  /** The division ratio with the carry the script misses: a remainder within
      2^-26 of 1 rounds to 2^25 steps, which is one more INT and FRAC 0. */
  function IntFrac(pllStart: real, pfd: real, nMin: int): (r: Result<Division, SynthError>)
    requires pfd != 0.0
    ensures r.Success? ==> nMin <= r.value.intValue <= MAX_12_BIT && 0 <= r.value.frac < FRAC_STEPS
    ensures r.Success? ==> r.value.intValue as real + r.value.frac as real / FRAC_STEPS as real >= nMin as real
  {
    var q := pllStart / pfd;
    var i := Trunc(q);
    var f := Round((q - i as real) * FRAC_STEPS as real);
    var d := if f == FRAC_STEPS then Division(i + 1, 0) else Division(i, f);
    if !(nMin <= d.intValue <= MAX_12_BIT) then Failure(IntOutOfRange)
    else if !(0 <= d.frac <= FRAC_STEPS - 1) then Failure(FracOutOfRange)
    else Success(d)
  }

  /** The remainder of a non-negative ratio rounds to between 0 and 2^25 steps. */
  lemma RemainderSteps(q: real)
    ensures var f := Round((q - Trunc(q) as real) * FRAC_STEPS as real);
      (q >= 0.0 ==> 0 <= f <= FRAC_STEPS) && (q < 0.0 ==> -FRAC_STEPS <= f <= 0)
  {
    var i := Trunc(q);
    var x := (q - i as real) * FRAC_STEPS as real;
    RoundOfInt(0);
    RoundOfInt(FRAC_STEPS);
    RoundOfInt(-FRAC_STEPS);
    if q >= 0.0 {
      assert 0.0 <= x <= FRAC_STEPS as real;
      RoundMonotone(0.0, x);
      RoundMonotone(x, FRAC_STEPS as real);
    } else {
      assert -FRAC_STEPS as real <= x <= 0.0;
      RoundMonotone(-FRAC_STEPS as real, x);
      RoundMonotone(x, 0.0);
    }
  }

  /** The corrected division ratio is the nearest multiple of 2^-25 to
      pll/pfd, split into its integer part and its 2^25ths, whenever that
      integer part is a valid INT. */
  lemma {:induction false} IntFracIsNearestStep(pllStart: real, pfd: real, nMin: int)
    requires pfd != 0.0 && nMin >= 1
    ensures var n := Round(pllStart / pfd * FRAC_STEPS as real);
      IntFrac(pllStart, pfd, nMin)
        == if nMin <= n / FRAC_STEPS <= MAX_12_BIT then Success(Division(n / FRAC_STEPS, n % FRAC_STEPS))
           else Failure(IntOutOfRange)
  {
    var q := pllStart / pfd;
    var i := Trunc(q);
    var f := Round((q - i as real) * FRAC_STEPS as real);
    var n := Round(q * FRAC_STEPS as real);
    SplitIsNearestStep(q);
    RemainderSteps(q);
    assert n == i * FRAC_STEPS + f;
    if q < 0.0 {
      assert i <= 0;
      assert n / FRAC_STEPS <= 0;
    } else if f == FRAC_STEPS {
      assert n == (i + 1) * FRAC_STEPS;
      assert n / FRAC_STEPS == i + 1 && n % FRAC_STEPS == 0;
    } else {
      assert n / FRAC_STEPS == i && n % FRAC_STEPS == f;
    }
  }

  /** Whenever the script's computation succeeds, the corrected one gives the
      same division ratio; they differ only where the remainder rounded up to
      a whole step. */
  lemma {:induction false} IntFracExtendsAsWritten(pllStart: real, pfd: real, nMin: int)
    requires pfd != 0.0 && nMin >= 1
    ensures IntFracAsWritten(pllStart, pfd, nMin).Success? ==>
      IntFrac(pllStart, pfd, nMin) == IntFracAsWritten(pllStart, pfd, nMin)
    ensures IntFracAsWritten(pllStart, pfd, nMin) != IntFrac(pllStart, pfd, nMin) ==>
      Round((pllStart / pfd - Trunc(pllStart / pfd) as real) * FRAC_STEPS as real) == FRAC_STEPS
  {
    var q := pllStart / pfd;
    RemainderSteps(q);
  }

  /** pll/pfd = 101 − 2^-27: INT is 100 and the remainder rounds to 2^25, so the
      script's FRAC assertion fails although N = 101, FRAC = 0 is exact to
      within 2^-27. */
  lemma FracCarryCounterexample()
    ensures IntFracAsWritten(101.0 - 1.0 / 134217728.0, 1.0, 23) == Failure(FracOutOfRange)
    ensures IntFrac(101.0 - 1.0 / 134217728.0, 1.0, 23) == Success(Division(101, 0))
  {
    var q := 101.0 - 1.0 / 134217728.0;
    assert Trunc(q) == 100;
    assert (q - 100.0) * FRAC_STEPS as real == FRAC_STEPS as real - 0.25;
    assert Round(FRAC_STEPS as real - 0.25) == FRAC_STEPS;
  }

  /** `value` lies within `tolerance` of `target`. */
  predicate Near(value: real, target: real, tolerance: real)
  {
    target - tolerance <= value <= target + tolerance
  }

  /** The synthesised start frequency is within pfd/2^26 of the requested one. */
  lemma {:induction false} IntFracAccuracy(pllStart: real, pfd: real, nMin: int, d: Division)
    requires pfd > 0.0 && nMin >= 1
    requires IntFrac(pllStart, pfd, nMin) == Success(d)
    ensures Near(SynthesizedFrequency(pfd, d), pllStart, pfd / (2 * FRAC_STEPS) as real)
  {
    IntFracSteps(pllStart, pfd, nMin, d);
    NearestDivisionNear(pllStart, pfd, d);
  }

  /** The division that is the nearest whole number of FRAC steps synthesises a
      frequency within half a step of the requested one. */
  lemma NearestDivisionNear(pllStart: real, pfd: real, d: Division)
    requires pfd > 0.0
    requires d.intValue * FRAC_STEPS + d.frac == Round(pllStart / pfd * FRAC_STEPS as real)
    ensures Near(SynthesizedFrequency(pfd, d), pllStart, pfd / (2 * FRAC_STEPS) as real)
  {
    SynthesizedFrequencyOfSteps(pfd, d);
    NearestStepNear(pllStart, pfd);
  }

  /** A successful division is the nearest whole number of FRAC steps. */
  lemma IntFracSteps(pllStart: real, pfd: real, nMin: int, d: Division)
    requires pfd > 0.0 && nMin >= 1
    requires IntFrac(pllStart, pfd, nMin) == Success(d)
    ensures d.intValue * FRAC_STEPS + d.frac == Round(pllStart / pfd * FRAC_STEPS as real)
  {
    var n := Round(pllStart / pfd * FRAC_STEPS as real);
    IntFracIsNearestStep(pllStart, pfd, nMin);
    assert d == Division(n / FRAC_STEPS, n % FRAC_STEPS);
  }

  /** pfd·(INT + FRAC/2^25) is (INT·2^25 + FRAC) steps of pfd/2^25. */
  lemma SynthesizedFrequencyOfSteps(pfd: real, d: Division)
    ensures SynthesizedFrequency(pfd, d)
         == (d.intValue * FRAC_STEPS + d.frac) as real * (pfd / FRAC_STEPS as real)
  {
    var s := FRAC_STEPS as real;
    var m := d.intValue as real + d.frac as real / s;
    assert (d.intValue * FRAC_STEPS + d.frac) as real == m * s;
    assert m * s * (pfd / s) == pfd * m;
  }

  /** The nearest whole number of pfd/2^25 steps to pll is within half a step of it. */
  lemma NearestStepNear(pllStart: real, pfd: real)
    requires pfd > 0.0
    ensures Near(Round(pllStart / pfd * FRAC_STEPS as real) as real * (pfd / FRAC_STEPS as real),
                 pllStart, pfd / (2 * FRAC_STEPS) as real)
  {
    var s := FRAC_STEPS as real;
    var k := pfd / s;
    assert pllStart / k == pllStart / pfd * s;
    WithinHalfStep(pllStart, k, Round(pllStart / k) as real);
  }

  /** A quotient rounded to c leaves c·k within k/2 of the dividend. */
  lemma WithinHalfStep(x: real, k: real, c: real)
    requires k > 0.0 && c - 0.5 <= x / k <= c + 0.5
    ensures Near(c * k, x, k / 2.0)
  {
    var q := x / k;
    MulBounds(k, c - 0.5, q, c + 0.5);
    assert k * q == x;
    assert k * (c - 0.5) == c * k - k / 2.0;
    assert k * (c + 0.5) == c * k + k / 2.0;
  }

  lemma MulBounds(k: real, lo: real, x: real, hi: real)
    requires k > 0.0 && lo <= x <= hi
    ensures k * lo <= k * x <= k * hi
  {
  }

  // ---------------------------------------------------------------------------
  // CLK1/CLK2: the ramp step lasts CLK1·CLK2 PFD cycles

  /** `round(stepDuration * pfd / CLK2)` for a step of `cycles` PFD cycles. */
  function Clk1For(cycles: real, clk2: int): int
    requires clk2 >= 1
  {
    Round(cycles / clk2 as real)
  }

  /** The CLK2 search from `clk2` upward: the first CLK2 whose CLK1 fits 12
      bits, provided that CLK1 is at least 1. */
  function ClkSearch(cycles: real, clk2: int): (r: Result<(int, int), SynthError>)
    requires 1 <= clk2 <= MAX_12_BIT
    decreases MAX_12_BIT - clk2
    ensures r.Success? ==>
      var (c1, c2) := r.value;
      clk2 <= c2 <= MAX_12_BIT && 1 <= c1 <= MAX_12_BIT && c1 == Clk1For(cycles, c2) &&
      forall c :: clk2 <= c < c2 ==> Clk1For(cycles, c) > MAX_12_BIT
    ensures r == Failure(Clk2OutOfRange) <==>
      forall c :: clk2 <= c <= MAX_12_BIT ==> Clk1For(cycles, c) > MAX_12_BIT
    ensures r.Failure? ==> r.error == Clk2OutOfRange || r.error == Clk1OutOfRange
  {
    var clk1 := Clk1For(cycles, clk2);
    if clk1 > MAX_12_BIT then
      if clk2 == MAX_12_BIT then Failure(Clk2OutOfRange) else ClkSearch(cycles, clk2 + 1)
    else if clk1 < 1 then Failure(Clk1OutOfRange)
    else Success((clk1, clk2))
  }

  /** The `while CLK1 > 4095` loop of the script, from CLK2 = 1. */
  method ClkDividers(cycles: real) returns (r: Result<(int, int), SynthError>)
    ensures r == ClkSearch(cycles, 1)
  {
    var clk2 := 1;
    var clk1 := Round(cycles / clk2 as real);
    while clk1 > MAX_12_BIT
      invariant 1 <= clk2 <= MAX_12_BIT
      invariant clk1 == Clk1For(cycles, clk2)
      invariant ClkSearch(cycles, clk2) == ClkSearch(cycles, 1)
      decreases MAX_12_BIT - clk2
    {
      clk2 := clk2 + 1;
      if !(1 <= clk2 <= MAX_12_BIT) {
        return Failure(Clk2OutOfRange);
      }
      clk1 := Round(cycles / clk2 as real);
    }
    if !(1 <= clk1 <= MAX_12_BIT) {
      return Failure(Clk1OutOfRange);
    }
    return Success((clk1, clk2));
  }

  /** The ramp step the dividers produce, CLK1·CLK2 PFD cycles, is within
      CLK2/2 cycles of the requested step. */
  lemma ClkStepAccuracy(cycles: real, c1: int, c2: int)
    requires ClkSearch(cycles, 1) == Success((c1, c2))
    ensures Near(c1 as real * c2 as real, cycles, c2 as real / 2.0)
  {
    ClkPairNear(cycles, c1, c2);
  }

  lemma ClkPairNear(cycles: real, c1: int, c2: int)
    requires c2 >= 1 && c1 == Clk1For(cycles, c2)
    ensures Near(c1 as real * c2 as real, cycles, c2 as real / 2.0)
  {
    WithinHalfStep(cycles, c2 as real, c1 as real);
  }

  // ---------------------------------------------------------------------------
  // DEV_OFFSET/DEV: the step deviation is DEV·2^DEV_OFFSET resolution steps

  /** `round(pllStepDeviation / (pllResolution * 2**DEV_OFFSET))`. */
  function DevFor(stepDeviation: real, resolution: real, devOffset: int): int
    requires resolution != 0.0
  {
    Round(stepDeviation / (resolution * Pow2Real(devOffset)))
  }

  /** DEV lies in [-32767, 32767], the range the loop accepts. */
  predicate DevFits(stepDeviation: real, resolution: real, devOffset: int)
    requires resolution != 0.0
  {
    -0x7FFF <= DevFor(stepDeviation, resolution, devOffset) <= 0x7FFF
  }

  /** The DEV_OFFSET search from `devOffset` upward: the first offset in [0, 9]
      whose DEV fits. */
  function DevSearch(stepDeviation: real, resolution: real, devOffset: int): (r: Result<(int, int), SynthError>)
    requires resolution != 0.0
    decreases 10 - devOffset
    ensures r.Success? ==>
      var (offset, dev) := r.value;
      0 <= devOffset <= offset <= 9 && dev == DevFor(stepDeviation, resolution, offset) &&
      DevFits(stepDeviation, resolution, offset) &&
      forall o :: devOffset <= o < offset ==> !DevFits(stepDeviation, resolution, o)
    ensures r.Failure? <==>
      !(0 <= devOffset <= 9) || forall o :: devOffset <= o <= 9 ==> !DevFits(stepDeviation, resolution, o)
    ensures r.Failure? ==> r.error == DevOffsetOutOfRange
  {
    if !(0 <= devOffset <= 9) then Failure(DevOffsetOutOfRange)
    else if DevFits(stepDeviation, resolution, devOffset) then
      Success((devOffset, DevFor(stepDeviation, resolution, devOffset)))
    else DevSearch(stepDeviation, resolution, devOffset + 1)
  }

  /** The `while DEV < -32767 or DEV > 32767` loop of the script, from the
      offset `seed` (the script's `round(log2(...))`). */
  method DevDividers(stepDeviation: real, resolution: real, seed: int) returns (r: Result<(int, int), SynthError>)
    requires resolution != 0.0
    ensures r == DevSearch(stepDeviation, resolution, seed)
  {
    var devOffset := seed;
    if !(0 <= devOffset <= 9) {
      return Failure(DevOffsetOutOfRange);
    }
    var dev := Round(stepDeviation / (resolution * Pow2Real(devOffset)));
    while dev < -0x7FFF || dev > 0x7FFF
      invariant 0 <= devOffset <= 9
      invariant dev == DevFor(stepDeviation, resolution, devOffset)
      invariant DevSearch(stepDeviation, resolution, devOffset) == DevSearch(stepDeviation, resolution, seed)
      decreases 9 - devOffset
    {
      devOffset := devOffset + 1;
      if !(0 <= devOffset <= 9) {
        return Failure(DevOffsetOutOfRange);
      }
      dev := Round(stepDeviation / (resolution * Pow2Real(devOffset)));
    }
    return Success((devOffset, dev));
  }

  /** `(pfd / 2**25) * (DEV * DEV_OFFSET)`, the script's per-step deviation. */
  function FrequencyDeviationAsWritten(resolution: real, devOffset: int, dev: int): (fd: real)
    ensures devOffset == 0 || dev == 0 ==> fd == 0.0
    ensures devOffset == 1 ==> fd == FrequencyDeviation(resolution, 0, dev)
  {
    resolution * (dev * devOffset) as real
  }

  /** The per-step deviation the synthesiser produces: DEV·2^DEV_OFFSET
      resolution steps. */
  function FrequencyDeviation(resolution: real, devOffset: int, dev: int): real
  {
    resolution * dev as real * Pow2Real(devOffset)
  }

  /** For a DEV_OFFSET in range, the synthesiser's step is the whole number
      DEV·2^DEV_OFFSET of resolution steps. */
  lemma {:induction false} FrequencyDeviationInSteps(resolution: real, devOffset: nat, dev: int)
    ensures FrequencyDeviation(resolution, devOffset, dev) == (dev * Pow2(devOffset)) as real * resolution
  {
    Pow2RealOfNat(devOffset);
  }

  /** With DEV_OFFSET 0 the script's figure is 0 for any DEV, while the
      synthesiser steps by DEV resolution steps. */
  lemma FrequencyDeviationCounterexample()
    ensures FrequencyDeviationAsWritten(1.0, 0, 1000) == 0.0
    ensures FrequencyDeviation(1.0, 0, 1000) == 1000.0
  {
  }

  /** The per-step deviation that DEV and DEV_OFFSET produce is within half a
      quantum, resolution·2^DEV_OFFSET / 2, of the requested step deviation. */
  lemma DevStepAccuracy(stepDeviation: real, resolution: real, seed: int, offset: int, dev: int)
    requires resolution > 0.0
    requires DevSearch(stepDeviation, resolution, seed) == Success((offset, dev))
    ensures Near(FrequencyDeviation(resolution, offset, dev), stepDeviation, resolution * Pow2Real(offset) / 2.0)
  {
    DevPairNear(stepDeviation, resolution, offset);
  }

  lemma DevPairNear(stepDeviation: real, resolution: real, offset: int)
    requires resolution > 0.0
    ensures Near(FrequencyDeviation(resolution, offset, DevFor(stepDeviation, resolution, offset)),
                 stepDeviation, resolution * Pow2Real(offset) / 2.0)
  {
    var quantum := resolution * Pow2Real(offset);
    var dev := DevFor(stepDeviation, resolution, offset);
    WithinHalfStep(stepDeviation, quantum, dev as real);
    assert FrequencyDeviation(resolution, offset, dev) == dev as real * quantum;
  }
}
