/** The eight 32-bit registers R0–R7 of the ADF4158 FMCW frequency synthesiser
    as the configuration script packs them: each field shifted to its bit
    position, the fields OR-ed together, and the register's control code in
    bits 2..0. Every field is given within its declared width; each register
    function states that every field can be read back from the word, which
    also means that no two fields overlap. */
module Adf4158Registers {

  /** A flag as a register bit. */
  function Bit(b: bool): (w: bv32)
    ensures w < 2
  {
    if b then 1 else 0
  }

  /** `FRAC >> 13`: the 12 most significant bits of the 25-bit FRAC word. */
  function FracMsb(frac: bv32): (msb: bv32)
    requires frac < 0x200_0000
    ensures msb < 0x1000
  {
    frac >> 13
  }

  /** `FRAC & 0x1FFF`: the 13 least significant bits of FRAC. */
  function FracLsb(frac: bv32): (lsb: bv32)
    requires frac < 0x200_0000
    ensures lsb < 0x2000
  {
    frac & 0x1FFF
  }

  /** Splitting FRAC into its two parts and joining them again gives FRAC back. */
  lemma FracSplitRoundTrip(frac: bv32)
    requires frac < 0x200_0000
    ensures (FracMsb(frac) << 13) | FracLsb(frac) == frac
  {
  }

  /** R0: ramp on (bit 31), MUXOUT (30..27), INT (26..15), FRAC MSBs (14..3), code 0. */
  function R0(rampEnabled: bool, muxout: bv32, intValue: bv32, frac: bv32): (w: bv32)
    requires muxout < 0x10 && intValue < 0x1000 && frac < 0x200_0000
    ensures w & 7 == 0
    ensures (w >> 3) & 0xFFF == FracMsb(frac)
    ensures (w >> 15) & 0xFFF == intValue
    ensures (w >> 27) & 0xF == muxout
    ensures w >> 31 == Bit(rampEnabled)
  {
    (Bit(rampEnabled) << 31) | (muxout << 27) | (intValue << 15)
      | (FracMsb(frac) << 3) | 0
  }

  /** R1: FRAC LSBs (27..15), code 1. */
  function R1(frac: bv32): (w: bv32)
    requires frac < 0x200_0000
    ensures w & 7 == 1
    ensures (w >> 15) & 0x1FFF == FracLsb(frac)
    ensures w & 0x7FF8 == 0 && w >> 28 == 0
  {
    (FracLsb(frac) << 15) | 1
  }

  /** INT and FRAC read back from R0 and R1 together. */
  lemma FracFromR0AndR1(rampEnabled: bool, muxout: bv32, intValue: bv32, frac: bv32)
    requires muxout < 0x10 && intValue < 0x1000 && frac < 0x200_0000
    ensures var r0 := R0(rampEnabled, muxout, intValue, frac);
      var r1 := R1(frac);
      (((r0 >> 3) & 0xFFF) << 13) | ((r1 >> 15) & 0x1FFF) == frac
  {
    FracSplitRoundTrip(frac);
  }

  /** R2: cycle slip reduction (28), charge pump level (27..24), prescaler (22),
      RDIV2 (21), reference doubler (20), R counter mod 32 (19..15), CLK1 (14..3), code 2. */
  function R2(cycleSlipReduction: bool, chargePumpLevel: bv32, prescalerBit: bv32, rdiv2: bool,
              doubler: bool, rCounter: bv32, clk1: bv32): (w: bv32)
    requires chargePumpLevel < 0x10 && prescalerBit < 2 && rCounter < 0x20 && clk1 < 0x1000
    ensures w & 7 == 2
    ensures (w >> 3) & 0xFFF == clk1
    ensures (w >> 15) & 0x1F == rCounter
    ensures (w >> 20) & 1 == Bit(doubler)
    ensures (w >> 21) & 1 == Bit(rdiv2)
    ensures (w >> 22) & 1 == prescalerBit
    ensures (w >> 24) & 0xF == chargePumpLevel
    ensures (w >> 28) == Bit(cycleSlipReduction)
  {
    (Bit(cycleSlipReduction) << 28) | (chargePumpLevel << 24) | (prescalerBit << 22)
      | (Bit(rdiv2) << 21) | (Bit(doubler) << 20) | (rCounter << 15)
      | (clk1 << 3) | 2
  }

  /** `R_COUNTER % 32`: the 5-bit R counter field. Python's `%` with a positive
      divisor is never negative, like Dafny's. */
  function RCounterField(rCounter: int): (f: bv32)
    ensures f < 0x20
  {
    var m := rCounter % 32;
    assert (m as bv32) < 0x20;
    m as bv32
  }

  /** A divider of 32 is written as 0, and the dividers 1..31 as themselves. */
  lemma RCounterWraps(rCounter: int)
    requires 1 <= rCounter <= 32
    ensures RCounterField(rCounter) == if rCounter == 32 then 0 else rCounter as bv32
  {
  }

  /** R3: N SEL (15), SD reset (14), ramp mode (11..10), PSK (9), FSK (8),
      lock detect precision (7), phase detector polarity (6), power-down (5),
      charge pump three-state (4), counter reset (3), code 3. */
  function R3(nSel: bool, sdNotReset: bool, rampMode: bv32, psk: bool, fsk: bool, ldp: bv32,
              polarity: bv32, powerDown: bool, threeState: bool, counterReset: bool): (w: bv32)
    requires rampMode < 4 && ldp < 2 && polarity < 2
    ensures w & 7 == 3
    ensures (w >> 3) & 1 == Bit(counterReset)
    ensures (w >> 4) & 1 == Bit(threeState)
    ensures (w >> 5) & 1 == Bit(powerDown)
    ensures (w >> 6) & 1 == polarity
    ensures (w >> 7) & 1 == ldp
    ensures (w >> 8) & 1 == Bit(fsk)
    ensures (w >> 9) & 1 == Bit(psk)
    ensures (w >> 10) & 3 == rampMode
    ensures (w >> 14) & 1 == Bit(sdNotReset)
    ensures (w >> 15) == Bit(nSel)
  {
    (Bit(nSel) << 15) | (Bit(sdNotReset) << 14) | (rampMode << 10) | (Bit(psk) << 9)
      | (Bit(fsk) << 8) | (ldp << 7) | (polarity << 6) | (Bit(powerDown) << 5)
      | (Bit(threeState) << 4) | (Bit(counterReset) << 3) | 3
  }

  /** R4: load enable sync (31), sigma-delta mode (30..26), negative bleed
      current (24..23), readback to MUXOUT (22..21), clock divider mode (20..19),
      CLK2 (18..7), code 4. */
  function R4(loadEnableSync: bool, sdMode: bv32, bleed: bv32, readback: bv32, clockDividerMode: bv32,
              clk2: bv32): (w: bv32)
    requires sdMode < 0x20 && bleed < 4 && readback < 4 && clockDividerMode < 4 && clk2 < 0x1000
    ensures w & 7 == 4
    ensures (w >> 3) & 0xF == 0
    ensures (w >> 7) & 0xFFF == clk2
    ensures (w >> 19) & 3 == clockDividerMode
    ensures (w >> 21) & 3 == readback
    ensures (w >> 23) & 3 == bleed
    ensures (w >> 26) & 0x1F == sdMode
    ensures w >> 31 == Bit(loadEnableSync)
  {
    (Bit(loadEnableSync) << 31) | (sdMode << 26) | (bleed << 23)
      | (readback << 21) | (clockDividerMode << 19) | (clk2 << 7) | 4
  }

  /** R5 (first load): TX ramp clock (29), parabolic ramp (28), interrupt (27..26),
      FSK ramp (25), ramp 2 (24), deviation select (23), DEV_OFFSET (22..19),
      DEV word (18..3), code 5. */
  function R5(txRampClk: bv32, parRamp: bool, interrupt: bv32, fskRamp: bool, ramp2: bool,
              deviationSelect: bv32, devOffset: bv32, devWord: bv32): (w: bv32)
    requires txRampClk < 2 && interrupt < 4 && deviationSelect < 2 && devOffset < 0x10
    requires devWord < 0x1_0000
    ensures w & 7 == 5
    ensures (w >> 3) & 0xFFFF == devWord
    ensures (w >> 19) & 0xF == devOffset
    ensures (w >> 23) & 1 == deviationSelect
    ensures (w >> 24) & 1 == Bit(ramp2)
    ensures (w >> 25) & 1 == Bit(fskRamp)
    ensures (w >> 26) & 3 == interrupt
    ensures (w >> 28) & 1 == Bit(parRamp)
    ensures (w >> 29) == txRampClk
  {
    (txRampClk << 29) | (Bit(parRamp) << 28) | (interrupt << 26) | (Bit(fskRamp) << 25)
      | (Bit(ramp2) << 24) | (deviationSelect << 23) | (devOffset << 19)
      | (devWord << 3) | 5
  }

  /** R6: step select (23), STEP (22..3), code 6. */
  function R6(stepSelect: bv32, step: bv32): (w: bv32)
    requires stepSelect < 2 && step < 0x10_0000
    ensures w & 7 == 6
    ensures (w >> 3) & 0xF_FFFF == step
    ensures (w >> 23) == stepSelect
  {
    (stepSelect << 23) | (step << 3) | 6
  }

  /** R7: ramp delay fast lock (18), ramp delay (17), delay clock select (16),
      delayed start (15), delayed start word (14..3), code 7. */
  function R7(rampDelayFastLock: bool, rampDelay: bool, delayClockSelect: bv32, delayedStart: bool,
              delayedStartWord: bv32): (w: bv32)
    requires delayClockSelect < 2 && delayedStartWord < 0x1000
    ensures w & 7 == 7
    ensures (w >> 3) & 0xFFF == delayedStartWord
    ensures (w >> 15) & 1 == Bit(delayedStart)
    ensures (w >> 16) & 1 == delayClockSelect
    ensures (w >> 17) & 1 == Bit(rampDelay)
    ensures (w >> 18) == Bit(rampDelayFastLock)
  {
    (Bit(rampDelayFastLock) << 18) | (Bit(rampDelay) << 17) | (delayClockSelect << 16)
      | (Bit(delayedStart) << 15) | (delayedStartWord << 3) | 7
  }
}
