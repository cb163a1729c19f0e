/** The clock-enable part of the console's RCC driver (task 4), and the
    millisecond delay as a log of requested waits.

    `APB2PCENR` is a 32-bit word with one clock-enable bit per APB2
    peripheral; the driver's two operations set or clear a mask of them.
 */
module Rcc {
  import Bits

  /** `RCC_APB2Periph_t`: the clock-enable bits the header names. */
  const Afio: bv32 := 0x0000_0001
  const GpioA: bv32 := 0x0000_0004
  const GpioC: bv32 := 0x0000_0010
  const GpioD: bv32 := 0x0000_0020
  /** TIM1EN, bit 11, which the PWM driver sets directly. */
  const Tim1: bv32 := 0x0000_0800

  class ClockControl {
    var apb2pcenr: bv32

    /** `HAL_RCC_APB2_Enable(periph)`. */
    method Enable(periph: bv32)
      modifies this`apb2pcenr
      ensures apb2pcenr == Bits.Set(old(apb2pcenr), periph)
    {
      apb2pcenr := apb2pcenr | periph;
    }

    /** `HAL_RCC_APB2_Disable(periph)`. */
    method Disable(periph: bv32)
      modifies this`apb2pcenr
      ensures apb2pcenr == Bits.Clear(old(apb2pcenr), periph)
    {
      apb2pcenr := apb2pcenr & !periph;
    }
  }

  /** `HAL_Delay_ms` as an observable effect: each call appends the
      requested duration to a log. */
  class DelayTimer {
    var log: seq<int>

    method DelayMs(ms: int)
      modifies this
      ensures log == old(log) + [ms]
    {
      log := log + [ms];
    }
  }

  // ---------------------------------------------------------------------
  // Properties of the two register updates

  /** Enabling turns on every bit of the mask and keeps every other bit. */
  lemma EnableEffect(w: bv32, periph: bv32)
    ensures Bits.Set(w, periph) & periph == periph
    ensures Bits.Set(w, periph) & !periph == w & !periph
  {
    Bits.SetSetsMask(w, periph);
    Bits.SetKeepsOthers(w, periph);
  }

  /** Disabling turns off every bit of the mask and keeps every other bit. */
  lemma DisableEffect(w: bv32, periph: bv32)
    ensures Bits.Clear(w, periph) & periph == 0
    ensures Bits.Clear(w, periph) & !periph == w & !periph
  {
    Bits.ClearClearsMask(w, periph);
    Bits.ClearKeepsOthers(w, periph);
  }

  /** Enabling the same peripherals twice is enabling them once. */
  lemma EnableIdempotent(w: bv32, periph: bv32)
    ensures Bits.Set(Bits.Set(w, periph), periph) == Bits.Set(w, periph)
  {
    Bits.SetAfterSet(w, periph);
  }

  /** Disabling the same peripherals twice is disabling them once. */
  lemma DisableIdempotent(w: bv32, periph: bv32)
    ensures Bits.Clear(Bits.Clear(w, periph), periph) == Bits.Clear(w, periph)
  {
    Bits.ClearAfterClear(w, periph);
  }

  /** Enable then Disable of one mask leaves its bits clear and the rest as
      they were before the Enable. */
  lemma EnableThenDisable(w: bv32, periph: bv32)
    ensures Bits.Clear(Bits.Set(w, periph), periph) == Bits.Clear(w, periph)
  {
    Bits.ClearAfterSet(w, periph);
  }

  /** The enumerated peripherals have distinct clock bits, so enabling one
      never switches on another. */
  lemma PeripheralsDistinct(w: bv32)
    ensures Bits.Set(w, GpioD) & GpioC == w & GpioC
    ensures Bits.Set(w, GpioD) & GpioA == w & GpioA
    ensures Bits.Set(w, GpioD) & Afio == w & Afio
    ensures Bits.Set(w, Tim1) & GpioD == w & GpioD
  {
    Bits.SetOutside(w, GpioD, GpioC);
    Bits.SetOutside(w, GpioD, GpioA);
    Bits.SetOutside(w, GpioD, Afio);
    Bits.SetOutside(w, Tim1, GpioD);
  }
}
