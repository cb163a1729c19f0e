/** The duty sweep of the PWM demo's main loop (task 3).

    Each pass of the loop writes `duty` to the compare register, prints it
    and its percentage, then adds `step` to `duty` and reverses `step` at
    either end of the range. `duty` is a `uint16_t` and `step` an `int16_t`,
    so the update wraps as C's conversions do.
 */
module PwmDemo {
  import Bits
  import CText
  import NumberFormat
  import Gpio
  import Rcc
  import Pwm
  import UartDebugTask3

  datatype Sweep = Sweep(duty: int, step: int)

  /** `uint16_t duty = 0; int16_t step = 25;` */
  const Start: Sweep := Sweep(0, 25)

  /** Conversion to `uint16_t`: arithmetic modulo 2^16. */
  function ToU16(x: int): (r: int)
    ensures 0 <= r < 0x1_0000
  {
    x % 0x1_0000
  }

  /** Conversion to `int16_t` (modulo 2^16 into -32768 .. 32767). */
  function ToI16(x: int): (r: int)
    ensures -0x8000 <= r < 0x8000
  {
    (x + 0x8000) % 0x1_0000 - 0x8000
  }

  predicate InRange(s: Sweep)
  {
    0 <= s.duty < 0x1_0000 && -0x8000 <= s.step < 0x8000
  }

  /** `duty += step; if (duty >= 1000 || duty == 0) step = -step;` */
  function Next(s: Sweep): (t: Sweep)
    requires InRange(s)
    ensures InRange(t)
  {
    var duty := ToU16(s.duty + s.step);
    Sweep(duty, if duty >= 1000 || duty == 0 then ToI16(-s.step) else s.step)
  }

  /** The state at the start of pass `n` of the loop. */
  function Iterate(n: nat): (s: Sweep)
    ensures InRange(s)
  {
    if n == 0 then Start else Next(Iterate(n - 1))
  }

  /** The sweep stays on the 25-step grid of [0, 1000] and is never about to
      leave it: at 0 it climbs, at 1000 it falls. */
  predicate Inv(s: Sweep)
  {
    && 0 <= s.duty <= 1000 && s.duty % 25 == 0
    && (s.step == 25 || s.step == -25)
    && (s.duty == 0 ==> s.step == 25)
    && (s.duty == 1000 ==> s.step == -25)
  }

  /** The numbers one pass prints: `"Duty = "`, the raw duty, `" ("`, the
      percentage `duty / 10`, `"%)\r\n"`. */
  function Report(duty: int): string
  {
    "Duty = " + NumberFormat.NumberText(duty, 10) + " ("
      + NumberFormat.NumberText(duty / 10, 10) + "%)\r\n"
  }

  /** Everything passes `0 .. n - 1` print. */
  function Reports(n: nat): string
  {
    if n == 0 then "" else Reports(n - 1) + Report(Iterate(n - 1).duty)
  }

  /** The waits `n` passes request, 40 ms each. */
  function Waits(n: nat): (r: seq<int>)
    ensures |r| == n && forall k :: 0 <= k < n ==> r[k] == 40
  {
    if n == 0 then [] else Waits(n - 1) + [40]
  }

  // ---------------------------------------------------------------------
  // Properties of the sweep

  /** The step is reversed exactly when the new duty reaches 1000 or more,
      or 0; otherwise it is kept. */
  lemma NextReverses(s: Sweep)
    requires InRange(s) && s.step != 0 && s.step != -0x8000
    ensures Next(s).step == -s.step <==> (Next(s).duty >= 1000 || Next(s).duty == 0)
    ensures !(Next(s).duty >= 1000 || Next(s).duty == 0) ==> Next(s).step == s.step
  {
    var d := ToU16(s.duty + s.step);
    if d >= 1000 || d == 0 {
      assert ToI16(-s.step) == -s.step;
    }
  }

  /** One pass keeps the invariant. */
  lemma NextKeepsInv(s: Sweep)
    requires Inv(s)
    ensures Inv(Next(s))
  {
    var d := s.duty + s.step;
    assert 0 <= d <= 1000;
    assert ToU16(d) == d;
    assert d % 25 == 0 by {
      assert s.duty == 25 * (s.duty / 25);
      assert d == 25 * (s.duty / 25 + s.step / 25);
    }
    if d >= 1000 || d == 0 {
      assert ToI16(-s.step) == -s.step;
    }
  }

  /** Every pass starts in the invariant. */
  lemma {:induction false} AlwaysInv(n: nat)
    ensures Inv(Iterate(n))
  {
    if n > 0 {
      AlwaysInv(n - 1);
      NextKeepsInv(Iterate(n - 1));
    }
  }

  /** The first 40 passes climb from 0 by 25; the step turns at 1000. */
  lemma {:induction false} Rising(k: nat)
    requires k <= 40
    ensures Iterate(k) == Sweep(25 * k, if k == 40 then -25 else 25)
  {
    if k > 0 {
      Rising(k - 1);
      assert ToU16(25 * (k - 1) + 25) == 25 * k;
    }
  }

  /** The next 40 fall back to 0, where the step turns again. */
  lemma {:induction false} Falling(k: nat)
    requires 40 <= k <= 80
    ensures Iterate(k) == Sweep(1000 - 25 * (k - 40), if k == 80 then 25 else -25)
  {
    if k == 40 {
      Rising(40);
    } else {
      Falling(k - 1);
      assert ToU16(1000 - 25 * (k - 41) - 25) == 1000 - 25 * (k - 40);
      if k == 80 {
        assert ToI16(25) == 25;
      }
    }
  }

  lemma IterateStep(n: nat)
    ensures Iterate(n + 1) == Next(Iterate(n))
  {
  }

  lemma {:induction false} IterateFrom(a: nat, b: nat)
    requires Iterate(a) == Start
    ensures Iterate(a + b) == Iterate(b)
  {
    if b > 0 {
      IterateFrom(a, b - 1);
    }
  }

  /** The sweep repeats every 80 passes (3.2 s at 40 ms per pass). */
  lemma Periodic(n: nat)
    ensures Iterate(n + 80) == Iterate(n)
  {
    Falling(80);
    IterateFrom(80, n);
  }

  /** The printed percentage is always within 0 .. 100. */
  lemma PercentInRange(n: nat)
    ensures 0 <= Iterate(n).duty / 10 <= 100
  {
    AlwaysInv(n);
  }

  /** With `pwm_arr` = 999, the compare register receives the duty itself,
      except at 1000, which is cut to 999. */
  lemma DutyWritten(n: nat)
    ensures var d := Iterate(n).duty;
      Pwm.Clamp(d, 999) == if d == 1000 then 999 else d
  {
    AlwaysInv(n);
  }

  // ---------------------------------------------------------------------
  // The demo program

  /** The start-up banner and the frequency line `main` prints. */
  const Banner: string := "\r\nPWM Demo (GPIO in main)\r\n"
  const FrequencyLine: string := "Frequency is 1kHz"

  /** The literals the loop prints have no NUL, so each goes out whole. */
  lemma LiteralsWhole()
    ensures CText.Str("Duty = ") == "Duty = "
    ensures CText.Str(" (") == " (" && CText.Str("%)\r\n") == "%)\r\n"
    ensures CText.Str("") == ""
  {
    CText.StrOfNulFree("Duty = ", "");
    CText.StrOfNulFree(" (", "");
    CText.StrOfNulFree("%)\r\n", "");
  }

  /** So do the start-up lines. */
  lemma BannersWhole()
    ensures CText.NulFree(Banner) && CText.NulFree(FrequencyLine) && CText.NulFree("\r\n")
  {
  }

  /** `main` of the PWM demo after the system, delay and UART set-up: clock
      and pin set-up, the banners, the timer started at 1 kHz with 1000
      steps, then the first `passes` passes of the endless loop. */
  method RunDemo(clk: int, passes: nat, rcc: Rcc.ClockControl, portD: Gpio.GpioPort,
                 timer: Pwm.Timer1, uart: UartDebugTask3.Usart, delay: Rcc.DelayTimer)
    requires 0 <= clk < Pwm.Word32
    modifies rcc, portD`cfglr, timer, uart, delay
    ensures rcc.apb2pcenr == Bits.Set(Bits.Set(old(rcc.apb2pcenr), Rcc.GpioD), Rcc.Tim1)
    ensures portD.cfglr == Gpio.ConfigInserted(old(portD.cfglr), 2,
      Gpio.PinConfig(Gpio.ModeOutput50MHz, Gpio.CnfAfPushPull))
    ensures timer.pwmArr == 999 && timer.atrlr == 999 && timer.cnt == 0
    ensures timer.psc == Pwm.PrescalerFor(clk, 1000, 1000)
    ensures timer.chctlr1 == Pwm.ModeConfigured(old(timer.chctlr1))
    ensures timer.ccer == Pwm.Set16(old(timer.ccer), Pwm.Cc1e)
    ensures timer.bdtr == Pwm.Set16(old(timer.bdtr), Pwm.Moe)
    ensures timer.ctlr1 == Pwm.Set16(Pwm.Set16(old(timer.ctlr1), Pwm.Arpe), Pwm.Cen)
    ensures timer.ctlr1 & Pwm.Cen == Pwm.Cen
    ensures timer.ch1cvr == Pwm.Clamp(if passes == 0 then 0 else Iterate(passes - 1).duty, 999)
    ensures uart.tx == old(uart.tx) + Banner + FrequencyLine + "\r\n" + Reports(passes)
    ensures delay.log == old(delay.log) + Waits(passes)
  {
    rcc.Enable(Rcc.GpioD);
    PrintBanner(uart);
    portD.Init(2, Gpio.ModeOutput50MHz, Gpio.CnfAfPushPull);
    timer.Init(1000, 1000, clk, rcc);
    ghost var control := timer.ctlr1;
    timer.Start();
    Pwm.SetTurnsOn(control, Pwm.Cen);
    PrintFrequency(uart);
    Loop(passes, timer, uart, delay);
  }

  /** The start-up banner. */
  method PrintBanner(uart: UartDebugTask3.Usart)
    modifies uart
    ensures uart.tx == old(uart.tx) + Banner
  {
    BannersWhole();
    CText.StrOfNulFree(Banner, "");
    PrintText(uart, Banner);
  }

  /** The frequency line and its line break, printed after the timer starts. */
  method PrintFrequency(uart: UartDebugTask3.Usart)
    modifies uart
    ensures uart.tx == old(uart.tx) + FrequencyLine + "\r\n"
  {
    BannersWhole();
    CText.StrOfNulFree(FrequencyLine, "");
    PrintText(uart, FrequencyLine);
    CText.StrOfNulFree("\r\n", "");
    PrintText(uart, "\r\n");
  }

  /** The first `passes` passes of the loop, from the initial sweep state. */
  method Loop(passes: nat, timer: Pwm.Timer1, uart: UartDebugTask3.Usart, delay: Rcc.DelayTimer)
    requires timer.pwmArr == 999
    modifies timer`ch1cvr, uart, delay
    ensures timer.ch1cvr == if passes == 0 then old(timer.ch1cvr) else Pwm.Clamp(Iterate(passes - 1).duty, 999)
    ensures uart.tx == old(uart.tx) + Reports(passes)
    ensures delay.log == old(delay.log) + Waits(passes)
  {
    var duty, step := 0, 25;
    var i := 0;
    while i < passes
      invariant i <= passes && timer.pwmArr == 999
      invariant Sweep(duty, step) == Iterate(i)
      invariant timer.ch1cvr == if i == 0 then old(timer.ch1cvr) else Pwm.Clamp(Iterate(i - 1).duty, 999)
      invariant uart.tx == old(uart.tx) + Reports(i)
      invariant delay.log == old(delay.log) + Waits(i)
    {
      duty, step := Step(i, duty, step, old(uart.tx), old(delay.log), timer, uart, delay);
      i := i + 1;
    }
  }

  /** One pass of the loop, taking the sweep from the start of pass `i` to
      the start of pass `i + 1`. */
  method Step(i: nat, duty: int, step: int, ghost printed: string, ghost waited: seq<int>,
              timer: Pwm.Timer1, uart: UartDebugTask3.Usart, delay: Rcc.DelayTimer)
      returns (duty': int, step': int)
    requires Sweep(duty, step) == Iterate(i) && timer.pwmArr == 999
    requires uart.tx == printed + Reports(i) && delay.log == waited + Waits(i)
    modifies timer`ch1cvr, uart, delay
    ensures Sweep(duty', step') == Iterate(i + 1)
    ensures timer.ch1cvr == Pwm.Clamp(Iterate(i).duty, 999)
    ensures uart.tx == printed + Reports(i + 1)
    ensures delay.log == waited + Waits(i + 1)
  {
    AlwaysInv(i);
    Pass(duty, timer, uart);
    ReportsGrow(printed, i);
    duty', step' := Advance(duty, step);
    IterateStep(i);
    delay.DelayMs(40);
    WaitsGrow(waited, i);
  }

  /** `duty += step; if (duty >= 1000 || duty == 0) step = -step;` */
  method Advance(duty: int, step: int) returns (duty': int, step': int)
    requires InRange(Sweep(duty, step))
    ensures Sweep(duty', step') == Next(Sweep(duty, step))
  {
    duty' := ToU16(duty + step);
    step' := step;
    if duty' >= 1000 || duty' == 0 {
      step' := ToI16(-step);
    }
  }

  lemma ReportsGrow(printed: string, i: nat)
    ensures printed + Reports(i) + Report(Iterate(i).duty) == printed + Reports(i + 1)
  {
    Append(printed, Reports(i), Report(Iterate(i).duty));
  }

  lemma WaitsGrow(waited: seq<int>, i: nat)
    ensures waited + Waits(i) + [40] == waited + Waits(i + 1)
  {
    assert Waits(i + 1) == Waits(i) + [40];
  }

  /** The compare write and the prints of one pass. */
  method Pass(duty: int, timer: Pwm.Timer1, uart: UartDebugTask3.Usart)
    requires 0 <= duty <= 1000
    modifies timer`ch1cvr, uart
    ensures timer.ch1cvr == Pwm.Clamp(duty, timer.pwmArr)
    ensures uart.tx == old(uart.tx) + Report(duty)
  {
    timer.SetDuty(duty);
    var percent := duty / 10;
    LiteralsWhole();
    ghost var t0 := uart.tx;
    PrintText(uart, "Duty = ");
    ghost var out: string := "Duty = ";
    PrintNumber(uart, duty);
    Append(t0, out, NumberFormat.NumberText(duty, 10));
    out := out + NumberFormat.NumberText(duty, 10);
    PrintText(uart, " (");
    Append(t0, out, " (");
    out := out + " (";
    PrintNumber(uart, percent);
    Append(t0, out, NumberFormat.NumberText(percent, 10));
    out := out + NumberFormat.NumberText(percent, 10);
    PrintText(uart, "%)\r\n");
    Append(t0, out, "%)\r\n");
  }

  /** `HAL_UART_Print(s, UART_NO_NUMBER, 0)` for a literal `s`. */
  method PrintText(uart: UartDebugTask3.Usart, s: string)
    requires CText.Str(s) == s
    modifies uart
    ensures uart.tx == old(uart.tx) + s
  {
    assert NumberFormat.NumberText(NumberFormat.NoNumber, 0) == "";
    uart.Print(s, NumberFormat.NoNumber, 0);
  }

  /** `HAL_UART_Print("", v, 10)`. */
  method PrintNumber(uart: UartDebugTask3.Usart, v: int)
    requires 0 <= v <= 1000
    modifies uart
    ensures uart.tx == old(uart.tx) + NumberFormat.NumberText(v, 10)
  {
    assert CText.Str("") == "";
    uart.Print("", v, 10);
  }

  lemma Append(a: string, b: string, c: string)
    ensures a + b + c == a + (b + c)
  {
  }
}
