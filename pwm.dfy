/** The TIM1 PWM driver of the PWM demo (task 3).

    Registers the driver only stores numbers into are integers of their
    width: `PSC`, `ATRLR` and `CNT` of the 16-bit type `U16`, the 32-bit
    compare register `CH1CVR` of type `U32`; the control registers
    it updates bit by bit (`CHCTLR1`, `CCER`, `BDTR`, `CTLR1`) are 16-bit
    words. The driver's own static `uint16_t pwm_arr` is kept, as a `U16`,
    with the timer it shadows. The C expressions on the 16-bit registers
    are evaluated in `int` and stored back, which for these constant masks
    is the same as the 16-bit operations used here.
 */
module Pwm {
  import Bits
  import Rcc

  const Word16: int := 0x1_0000
  const Word32: int := 0x1_0000_0000

  /** A value a 16-bit register or a `uint16_t` can hold. */
  type U16 = x: int | 0 <= x < 0x1_0000

  /** A value a 32-bit register can hold. */
  type U32 = x: int | 0 <= x < 0x1_0000_0000

  /** Control-register bits the driver touches. */
  const Cen: bv16 := 0x0001       // CTLR1: counter enable
  const Arpe: bv16 := 0x0080      // CTLR1: auto-reload preload
  const Oc1pe: bv16 := 0x0008     // CHCTLR1: compare preload
  const Oc1m: bv16 := 0x0070      // CHCTLR1: output-compare mode field, bits 4-6
  const Oc1mPwm1: bv16 := 0x0060  // CHCTLR1: OC1M = 6, PWM mode 1
  const Cc1e: bv16 := 0x0001      // CCER: channel 1 output enable
  const Moe: bv16 := 0x8000       // BDTR: main output enable

  function Set16(w: bv16, m: bv16): bv16
  {
    w | m
  }

  function Clear16(w: bv16, m: bv16): bv16
  {
    w & !m
  }

  // ---------------------------------------------------------------------
  // Timer base arithmetic

  /** `pwm_arr = resolution - 1` stored into a `uint16_t`. */
  function ArrFor(resolution: int): (arr: int)
    requires 0 <= resolution < Word16
    ensures 0 <= arr < Word16
    ensures resolution >= 1 ==> arr + 1 == resolution
    ensures resolution == 0 ==> arr == Word16 - 1
  {
    (resolution - 1) % Word16
  }

  /** `freq_hz * resolution` as `uint32_t` multiplication. */
  function Product(freqHz: int, resolution: int): (p: int)
    requires 0 <= freqHz < Word32 && 0 <= resolution < Word16
    ensures 0 <= p < Word32
    ensures freqHz * resolution < Word32 ==> p == freqHz * resolution
  {
    (freqHz * resolution) % Word32
  }

  /** `(timer_clk / (freq_hz * resolution)) - 1` in `uint32_t`, stored into
      the 16-bit `PSC`. A zero product would divide by zero. */
  function PrescalerFor(clk: int, freqHz: int, resolution: int): (psc: int)
    requires 0 <= clk < Word32 && 0 <= freqHz < Word32 && 0 <= resolution < Word16
    requires Product(freqHz, resolution) != 0
    ensures 0 <= psc < Word16
  {
    ((clk / Product(freqHz, resolution) - 1) % Word32) % Word16
  }

  /** The duty written to the compare register: `duty`, cut to `arr`. */
  function Clamp(duty: int, arr: int): (d: int)
    ensures d <= duty && d <= arr
    ensures d == duty || d == arr
  {
    if duty > arr then arr else duty
  }

  /** `CHCTLR1` after `HAL_PWM_Init`: OC1M cleared, PWM mode 1 and OC1PE set. */
  function ModeConfigured(w: bv16): bv16
  {
    Set16(Set16(Clear16(w, Oc1m), Oc1mPwm1), Oc1pe)
  }

  // ---------------------------------------------------------------------
  // The timer

  class Timer1 {
    var pwmArr: U16
    var psc: U16
    var atrlr: U16
    var cnt: U16
    var ch1cvr: U32
    var chctlr1: bv16
    var ccer: bv16
    var bdtr: bv16
    var ctlr1: bv16

    /** `HAL_PWM_Init(freq_hz, resolution)` with `SystemCoreClock` = `clk`. */
    method Init(freqHz: int, resolution: int, clk: int, rcc: Rcc.ClockControl)
      requires 0 <= clk < Word32 && 0 <= freqHz < Word32 && 0 <= resolution < Word16
      requires Product(freqHz, resolution) != 0
      modifies this, rcc`apb2pcenr
      ensures rcc.apb2pcenr == Bits.Set(old(rcc.apb2pcenr), Rcc.Tim1)
      ensures pwmArr == ArrFor(resolution) && atrlr == pwmArr
      ensures psc == PrescalerFor(clk, freqHz, resolution)
      ensures cnt == 0 && ch1cvr == 0
      ensures chctlr1 == ModeConfigured(old(chctlr1))
      ensures ccer == Set16(old(ccer), Cc1e)
      ensures bdtr == Set16(old(bdtr), Moe)
      ensures ctlr1 == Set16(old(ctlr1), Arpe)
    {
      rcc.apb2pcenr := rcc.apb2pcenr | Rcc.Tim1;
      pwmArr := (resolution - 1) % Word16;
      var prescaler := (clk / ((freqHz * resolution) % Word32) - 1) % Word32;
      psc := prescaler % Word16;
      atrlr := pwmArr;
      cnt := 0;
      chctlr1 := chctlr1 & !Oc1m;
      chctlr1 := chctlr1 | Oc1mPwm1;
      chctlr1 := chctlr1 | Oc1pe;
      ccer := ccer | Cc1e;
      ch1cvr := 0;
      bdtr := bdtr | Moe;
      ctlr1 := ctlr1 | Arpe;
    }

    /** `HAL_PWM_SetDuty(duty)`. */
    method SetDuty(duty: int)
      requires 0 <= duty < Word16
      modifies this`ch1cvr
      ensures ch1cvr == Clamp(duty, pwmArr)
    {
      var d := duty;
      if d > pwmArr {
        d := pwmArr;
      }
      ch1cvr := d;
    }

    /** `HAL_PWM_Start()`. */
    method Start()
      modifies this`ctlr1
      ensures ctlr1 == Set16(old(ctlr1), Cen)
    {
      ctlr1 := ctlr1 | Cen;
    }

    /** `HAL_PWM_Stop()`. */
    method Stop()
      modifies this`ctlr1
      ensures ctlr1 == Clear16(old(ctlr1), Cen)
    {
      ctlr1 := ctlr1 & !Cen;
    }
  }

  // ---------------------------------------------------------------------
  // Properties

  /** When neither the product nor the prescaler overflows, the timer period
      `(PSC + 1) * (ARR + 1)` clock ticks is the longest whole number of
      reload periods that fits in one period of the requested frequency:
      the achieved frequency is at or above `freq_hz`, by less than one
      reload period's worth. */
  lemma PeriodBracket(clk: int, freqHz: int, resolution: int)
    requires 0 <= clk < Word32 && 0 < freqHz < Word32 && 0 < resolution < Word16
    requires freqHz * resolution < Word32
    requires 1 <= clk / (freqHz * resolution) <= Word16
    ensures var ticks := (PrescalerFor(clk, freqHz, resolution) + 1) * (ArrFor(resolution) + 1);
      ticks * freqHz <= clk < (ticks + resolution) * freqHz
  {
    var p := freqHz * resolution;
    var q := clk / p;
    assert Product(freqHz, resolution) == p;
    assert PrescalerFor(clk, freqHz, resolution) + 1 == q;
    assert ArrFor(resolution) + 1 == resolution;
    var ticks := q * resolution;
    assert q * p <= clk < (q + 1) * p;
    calc {
      ticks * freqHz;
      q * resolution * freqHz;
      { MulAssoc(q, resolution, freqHz); }
      q * p;
    }
    calc {
      (ticks + resolution) * freqHz;
      (q + 1) * resolution * freqHz;
      { MulAssoc(q + 1, resolution, freqHz); }
      (q + 1) * p;
    }
  }

  lemma MulAssoc(a: int, b: int, c: int)
    ensures a * b * c == a * (c * b)
  {
  }

  /** A zero resolution wraps `pwm_arr` to 65535; the prescaler's `- 1`
      wraps to 0xFFFFFFFF when the product exceeds the clock, which `PSC`
      keeps as 65535. */
  lemma WrapSamples()
    ensures ArrFor(0) == 65535
    ensures PrescalerFor(1000, 1000, 1000) == 65535
  {
  }

  /** The demo's `HAL_PWM_Init(1000, 1000)` on the 24 MHz system clock
      loads `PSC` = 23 and `ARR` = 999: 24 MHz / (24 * 1000) = 1 kHz. */
  lemma DemoTiming()
    ensures PrescalerFor(24_000_000, 1000, 1000) == 23
    ensures ArrFor(1000) == 999
    ensures (23 + 1) * (999 + 1) * 1000 == 24_000_000
  {
  }

  /** The compare value never exceeds `pwm_arr`, and duties up to `pwm_arr`
      pass through. */
  lemma ClampWithin(duty: int, arr: int)
    requires 0 <= duty && 0 <= arr
    ensures 0 <= Clamp(duty, arr) <= arr
    ensures duty <= arr ==> Clamp(duty, arr) == duty
    ensures duty > arr ==> Clamp(duty, arr) == arr
  {
  }

  /** Init selects PWM mode 1 with compare preload and keeps the other
      channel-control bits. */
  lemma ModeFields(w: bv16)
    ensures ModeConfigured(w) & Oc1m == Oc1mPwm1
    ensures ModeConfigured(w) & Oc1pe == Oc1pe
    ensures ModeConfigured(w) & !(Oc1m | Oc1pe) == w & !(Oc1m | Oc1pe)
  {
    ModeSelected(w);
    ModePreloaded(w);
    ModeKeepsOthers(w);
  }

  lemma ModeSelected(w: bv16)
    ensures ModeConfigured(w) & Oc1m == Oc1mPwm1
  {
    assert (((w & !0x0070) | 0x0060) | 0x0008) & 0x0070 == 0x0060;
  }

  lemma ModePreloaded(w: bv16)
    ensures ModeConfigured(w) & Oc1pe == Oc1pe
  {
    assert (((w & !0x0070) | 0x0060) | 0x0008) & 0x0008 == 0x0008;
  }

  lemma ModeKeepsOthers(w: bv16)
    ensures ModeConfigured(w) & !(Oc1m | Oc1pe) == w & !(Oc1m | Oc1pe)
  {
    assert (((w & !0x0070) | 0x0060) | 0x0008) & !0x0078 == w & !0x0078;
  }

  /** Setting a control bit turns it on and keeps the others. */
  lemma SetBitEffect(w: bv16, m: bv16)
    ensures Set16(w, m) & m == m
    ensures Set16(w, m) & !m == w & !m
  {
    SetTurnsOn(w, m);
    SetKeepsOthers(w, m);
  }

  lemma SetTurnsOn(w: bv16, m: bv16)
    ensures Set16(w, m) & m == m
  {
    assert (w | m) & m == m;
  }

  lemma SetKeepsOthers(w: bv16, m: bv16)
    ensures Set16(w, m) & !m == w & !m
  {
    assert (w | m) & !m == w & !m;
  }

  /** Clearing a control bit turns it off and keeps the others. */
  lemma ClearBitEffect(w: bv16, m: bv16)
    ensures Clear16(w, m) & m == 0
    ensures Clear16(w, m) & !m == w & !m
  {
    ClearTurnsOff(w, m);
    ClearKeepsOthers(w, m);
  }

  lemma ClearTurnsOff(w: bv16, m: bv16)
    ensures Clear16(w, m) & m == 0
  {
    assert (w & !m) & m == 0;
  }

  lemma ClearKeepsOthers(w: bv16, m: bv16)
    ensures Clear16(w, m) & !m == w & !m
  {
    assert (w & !m) & !m == w & !m;
  }

  /** Stop after Start leaves the counter disabled and every other bit of
      `CTLR1` as it was before Start. */
  lemma StopAfterStart(w: bv16)
    ensures Clear16(Set16(w, Cen), Cen) == Clear16(w, Cen)
  {
    assert (w | 0x0001) & !0x0001 == w & !0x0001;
  }

  /** Start after Stop is Start. */
  lemma StartAfterStop(w: bv16)
    ensures Set16(Clear16(w, Cen), Cen) == Set16(w, Cen)
  {
    assert (w & !0x0001) | 0x0001 == w | 0x0001;
  }
}
