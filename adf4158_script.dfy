/** The ADF4158 configuration script end to end: the chirp request and the
    register settings in, the eight register words (R5 for its first load)
    and the synthesised start frequency and the script's step deviation out,
    or the first `assert` of the script that fails. */
module Adf4158Script {
  import opened Arith
  import opened Adf4158Registers
  import opened Adf4158

  /** The user input of the script: the VCO sweep, the prescaler ratio of the
      VCO output the PLL sees, the up-chirp duration and number of steps, and
      the reference frequency. */
  datatype Chirp = Chirp(vcoStart: real, vcoStop: real, prescalerRatio: real,
                         upchirpTime: real, steps: int, refIn: real)

  /** The register settings of the script. Words are given as 32-bit values,
      flags as booleans. */
  datatype Settings = Settings(
    rdiv2: bool, cycleSlipReduction: bool, doubler: bool, rCounter: int,
    chargePumpLevel: bv32, threeState: bool, muxout: bv32,
    nSel: bool, sdNotReset: bool, ldp: bv32, polarity: bv32, powerDown: bool, counterReset: bool,
    loadEnableSync: bool, sdMode: bv32, bleed: bv32, readback: bv32, clockDividerMode: bv32,
    txRampClk: bv32, rampDelayFastLock: bool, rampDelay: bool, delayClockSelect: bv32,
    delayedStart: bool, delayedStartWord: bv32, rampMode: bv32, psk: bool, fsk: bool,
    parRamp: bool, interrupt: bv32, rampEnabled: bool, fskRamp: bool, ramp2: bool,
    deviationSelectRamp1: bv32, stepSelect: bv32)

  /** Every word within the width its register field declares, and the R
      counter in 1..32. */
  predicate FieldsFit(s: Settings)
  {
    1 <= s.rCounter <= 32 && s.chargePumpLevel < 0x10 && s.muxout < 0x10 &&
    s.ldp < 2 && s.polarity < 2 && s.sdMode < 0x20 && s.bleed < 4 && s.readback < 4 &&
    s.clockDividerMode < 4 && s.txRampClk < 2 && s.delayClockSelect < 2 &&
    s.delayedStartWord < 0x1000 && s.rampMode < 4 && s.interrupt < 4 &&
    s.deviationSelectRamp1 < 2 && s.stepSelect < 2
  }

  /** A chirp the script can divide by: at least one and at most 2^20 − 1
      steps (the STEP field), and a positive reference. */
  predicate ChirpFits(c: Chirp)
  {
    1 <= c.steps < 0x10_0000 && c.refIn > 0.0
  }

  function PllStart(c: Chirp): real { c.vcoStart * c.prescalerRatio }
  function PllStop(c: Chirp): real { c.vcoStop * c.prescalerRatio }

  /** The PLL frequency step of one ramp step. */
  function StepDeviation(c: Chirp): real
    requires ChirpFits(c)
  {
    (c.vcoStop - c.vcoStart) / c.steps as real * c.prescalerRatio
  }

  function Pfd(c: Chirp, s: Settings): (pfd: real)
    requires ChirpFits(c) && FieldsFit(s)
    ensures pfd > 0.0
  {
    PfdFrequency(c.refIn, s.doubler, s.rCounter, s.rdiv2)
  }

  /** `pfd / 2**25`: the frequency of one FRAC step. */
  function Resolution(c: Chirp, s: Settings): (res: real)
    requires ChirpFits(c) && FieldsFit(s)
    ensures res > 0.0
  {
    Pfd(c, s) / FRAC_STEPS as real
  }

  /** `stepDuration * pfd`: the length of one ramp step in PFD cycles. */
  function StepCycles(c: Chirp, s: Settings): real
    requires ChirpFits(c) && FieldsFit(s)
  {
    c.upchirpTime / c.steps as real * Pfd(c, s)
  }

  /** The CLK2 search of the script on this chirp. */
  function ClkPlan(c: Chirp, s: Settings): Result<(int, int), SynthError>
    requires ChirpFits(c) && FieldsFit(s)
  {
    ClkSearch(StepCycles(c, s), 1)
  }

  /** The INT/FRAC division ratio of the start frequency. */
  function DivisionPlan(c: Chirp, s: Settings): Result<Division, SynthError>
    requires ChirpFits(c) && FieldsFit(s)
  {
    IntFracAsWritten(PllStart(c), Pfd(c, s), PrescalerFor(PllStop(c)).nMin)
  }

  /** Where the script's INT/FRAC assertions pass, the synthesised start
      frequency is within pfd/2^26 of the requested PLL start frequency. */
  lemma PlannedFrequencyAccuracy(c: Chirp, s: Settings, d: Division)
    requires ChirpFits(c) && FieldsFit(s)
    requires DivisionPlan(c, s) == Success(d)
    ensures Near(SynthesizedFrequency(Pfd(c, s), d), PllStart(c), Pfd(c, s) / (2 * FRAC_STEPS) as real)
  {
    IntFracExtendsAsWritten(PllStart(c), Pfd(c, s), PrescalerFor(PllStop(c)).nMin);
    IntFracAccuracy(PllStart(c), Pfd(c, s), PrescalerFor(PllStop(c)).nMin, d);
  }

  /** The DEV_OFFSET search of the script from the given seed. The seed is
      `round(log2(...))` of the step deviation, and `log2` raises on a step
      deviation that is not positive. */
  function DevPlan(c: Chirp, s: Settings, devOffsetSeed: int): Result<(int, int), SynthError>
    requires ChirpFits(c) && FieldsFit(s)
  {
    if StepDeviation(c) <= 0.0 then Failure(StepDeviationNotPositive)
    else DevSearch(StepDeviation(c), Resolution(c, s), devOffsetSeed)
  }

  /** The cross-checks of R1, R2 and R4, in the order the script makes them. */
  function SettingsError(c: Chirp, s: Settings, frac: int): (e: Option<SynthError>)
    ensures e.None? <==>
      (s.sdMode == INTEGER_N_MODE ==> frac == 0) && (s.cycleSlipReduction ==> s.rdiv2) &&
      (s.doubler ==> c.refIn <= 30000000.0) && (s.bleed == 3 ==> s.readback == 0)
  {
    if s.sdMode == INTEGER_N_MODE && frac != 0 then Some(IntegerModeNeedsZeroFrac)
    else if s.cycleSlipReduction && !s.rdiv2 then Some(CycleSlipNeedsRdiv2)
    else if s.doubler && c.refIn > 30000000.0 then Some(RefInTooHighForDoubler)
    else if s.bleed == 3 && s.readback != 0 then Some(BleedWithReadback)
    else None
  }

  /** A computed integer as a register field of the given width. */
  function Word4(x: int): (w: bv32)
    requires 0 <= x < 0x10
    ensures w < 0x10
  {
    assert (x as bv32) < 0x10;
    x as bv32
  }

  function Word12(x: int): (w: bv32)
    requires 0 <= x < 0x1000
    ensures w < 0x1000
  {
    assert (x as bv32) < 0x1000;
    x as bv32
  }

  function Word16(x: int): (w: bv32)
    requires 0 <= x < 0x1_0000
    ensures w < 0x1_0000
  {
    assert (x as bv32) < 0x1_0000;
    x as bv32
  }

  function Word20(x: int): (w: bv32)
    requires 0 <= x < 0x10_0000
    ensures w < 0x10_0000
  {
    assert (x as bv32) < 0x10_0000;
    x as bv32
  }

  function Word25(x: int): (w: bv32)
    requires 0 <= x < 0x200_0000
    ensures w < 0x200_0000
  {
    assert (x as bv32) < 0x200_0000;
    x as bv32
  }

  /** The eight register words: each carries its control code in bits 2..0
      and the computed INT, FRAC, CLK1, CLK2, DEV_OFFSET, DEV and STEP words
      in their fields. */
  function Pack(s: Settings, steps: bv32, prescalerBit: bv32, intValue: bv32, frac: bv32,
                clk1: bv32, clk2: bv32, devOffset: bv32, devWord: bv32): (regs: seq<bv32>)
    requires FieldsFit(s) && steps < 0x10_0000 && prescalerBit < 2
    requires intValue < 0x1000 && frac < 0x200_0000 && clk1 < 0x1000 && clk2 < 0x1000
    requires devOffset < 0x10 && devWord < 0x1_0000
    ensures |regs| == 8
    ensures regs[0] & 7 == 0 && regs[1] & 7 == 1 && regs[2] & 7 == 2 && regs[3] & 7 == 3
    ensures regs[4] & 7 == 4 && regs[5] & 7 == 5 && regs[6] & 7 == 6 && regs[7] & 7 == 7
    ensures (regs[0] >> 15) & 0xFFF == intValue
    ensures (((regs[0] >> 3) & 0xFFF) << 13) | ((regs[1] >> 15) & 0x1FFF) == frac
    ensures (regs[2] >> 3) & 0xFFF == clk1 && (regs[4] >> 7) & 0xFFF == clk2
    ensures (regs[2] >> 22) & 1 == prescalerBit
    ensures (regs[5] >> 19) & 0xF == devOffset && (regs[5] >> 3) & 0xFFFF == devWord
    ensures (regs[6] >> 3) & 0xF_FFFF == steps
  {
    FracFromR0AndR1(s.rampEnabled, s.muxout, intValue, frac);
    [ R0(s.rampEnabled, s.muxout, intValue, frac),
      R1(frac),
      R2(s.cycleSlipReduction, s.chargePumpLevel, prescalerBit, s.rdiv2, s.doubler,
         RCounterField(s.rCounter), clk1),
      R3(s.nSel, s.sdNotReset, s.rampMode, s.psk, s.fsk, s.ldp, s.polarity, s.powerDown,
         s.threeState, s.counterReset),
      R4(s.loadEnableSync, s.sdMode, s.bleed, s.readback, s.clockDividerMode, clk2),
      R5(s.txRampClk, s.parRamp, s.interrupt, s.fskRamp, s.ramp2, s.deviationSelectRamp1,
         devOffset, devWord),
      R6(s.stepSelect, steps),
      R7(s.rampDelayFastLock, s.rampDelay, s.delayClockSelect, s.delayedStart, s.delayedStartWord) ]
  }

  /** What the script computes when none of its assertions fails.
      `frequencyDeviation` is the script's own figure, `resolution·(DEV·DEV_OFFSET)`. */
  datatype Synthesis = Synthesis(
    registers: seq<bv32>,
    division: Division, clk1: int, clk2: int, devOffset: int, dev: int,
    pllFrequency: real,        // the synthesised PLL start frequency
    frequencyDeviation: real)  // the script's PLL frequency step per ramp step

  /** The script from top to bottom, as written. `devOffsetSeed` is the
      script's `round(log2(pllStepDeviation / (pllResolution * 2**15)))`,
      which is only computed for a positive step deviation. */
  method Synthesize(c: Chirp, s: Settings, devOffsetSeed: int) returns (r: Result<Synthesis, SynthError>)
    requires ChirpFits(c) && FieldsFit(s)
    ensures ClkPlan(c, s).Failure? ==> r == Failure(ClkPlan(c, s).error)
    ensures ClkPlan(c, s).Success? && DivisionPlan(c, s).Failure? ==> r == Failure(DivisionPlan(c, s).error)
    ensures ClkPlan(c, s).Success? && DivisionPlan(c, s).Success? && DevPlan(c, s, devOffsetSeed).Failure? ==>
              r == Failure(DevPlan(c, s, devOffsetSeed).error)
    ensures ClkPlan(c, s).Success? && DivisionPlan(c, s).Success? && DevPlan(c, s, devOffsetSeed).Success? ==>
              var e := SettingsError(c, s, DivisionPlan(c, s).value.frac);
              (r.Failure? <==> e.Some?) && (r.Failure? ==> r.error == e.value)
    ensures r.Success? ==>
              var p := r.value;
              ClkPlan(c, s) == Success((p.clk1, p.clk2)) &&
              DivisionPlan(c, s) == Success(p.division) &&
              DevPlan(c, s, devOffsetSeed) == Success((p.devOffset, p.dev)) &&
              p.registers == Pack(s, Word20(c.steps), PrescalerFor(PllStop(c)).bit,
                                  Word12(p.division.intValue), Word25(p.division.frac),
                                  Word12(p.clk1), Word12(p.clk2), Word4(p.devOffset),
                                  Word16(DevWord(p.dev))) &&
              p.pllFrequency == SynthesizedFrequency(Pfd(c, s), p.division) &&
              p.frequencyDeviation == FrequencyDeviationAsWritten(Resolution(c, s), p.devOffset, p.dev)
  {
    var pfd := Pfd(c, s);
    var resolution := Resolution(c, s);
    var clk := ClkDividers(StepCycles(c, s));
    if clk.Failure? {
      return Failure(clk.error);
    }
    var prescaler := PrescalerFor(PllStop(c));
    var division := IntFracAsWritten(PllStart(c), pfd, prescaler.nMin);
    if division.Failure? {
      return Failure(division.error);
    }
    var pllFrequency := SynthesizedFrequency(pfd, division.value);
    if StepDeviation(c) <= 0.0 {
      return Failure(StepDeviationNotPositive);
    }
    var deviation := DevDividers(StepDeviation(c), resolution, devOffsetSeed);
    if deviation.Failure? {
      return Failure(deviation.error);
    }
    var (devOffset, dev) := deviation.value;
    var frequencyDeviation := FrequencyDeviationAsWritten(resolution, devOffset, dev);
    var e := SettingsError(c, s, division.value.frac);
    if e.Some? {
      return Failure(e.value);
    }
    var (clk1, clk2) := clk.value;
    var registers := Pack(s, Word20(c.steps), prescaler.bit, Word12(division.value.intValue),
                          Word25(division.value.frac), Word12(clk1), Word12(clk2),
                          Word4(devOffset), Word16(DevWord(dev)));
    return Success(Synthesis(registers, division.value, clk1, clk2, devOffset, dev, pllFrequency, frequencyDeviation));
  }
}
