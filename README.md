# vsd_riscv_fw console and drivers in Dafny

This project models the firmware of a small RISC-V board (CH32V00x class).
It covers:

- the text console of task 4: the UART line reader with echo and
  backspace editing, the integer printer, and the command dispatcher
  `CLI_Process`, which lowers its line and then runs `help`, `led on`,
  `led off`, `blink <ms> <count>` and `read <pin>`;
- the register drivers under the console: GPIO, and the APB2 clock
  gating of the RCC driver;
- the TIM1 PWM driver of task 3 and its demo loop, which sweeps the duty
  up and down, plus the copy of the printer in `task3`.

Hardware registers are fields of classes:

- `Gpio.GpioPort` has `cfglr`, `indr` and `outdr`;
- `Rcc.ClockControl` has `apb2pcenr`;
- `Pwm.Timer1` has the TIM1 registers and the driver's static `pwm_arr`.

The GPIO and RCC registers are `bv32` words. The PWM control registers are
`bv16` words. `pwm_arr` and the 16-bit value registers `PSC`, `ATRLR` and
`CNT` are integers of the type `Pwm.U16`, 0 .. 65535. The compare register
`CH1CVR` is declared `uint32_t` in task3/include/driver_pwm_tim.h:56, so it
has the type `Pwm.U32`, 0 .. 2^32 - 1. Each stays within its width in every
state.

The USART becomes two byte sequences. `rx` is what the operator will still
type. `tx` is everything written to the data register.
`HAL_Delay_ms` appends its argument to a log.

Each method is proved against a specification function:

- `LineEdit.Read` is the line editor as a value over the input stream;
- `NumberFormat.NumberText` is the printer's output;
- `Cli.Answer`, `Cli.LedAfter` and `Cli.Waits` give the console's reply,
  latch and waits for a command;
- `PwmDemo.Iterate` and `PwmDemo.Reports` give the sweep state and the text
  printed after `n` passes.

The lemmas relate these functions to independent readings:

- `NumberFormat.ParseText` reads the printed digits back;
- `Cli.ScanInt` reads numbers as `sscanf`/`atoi` do;
- `LineEdit.Show` models a terminal that displays the echo.

C integer semantics are written out where they matter:

- `/` and `%` truncate toward zero (`NumberFormat.CDiv`, `CRem`);
- the digit is stored into a `uint8_t`, and the digit `char` wraps mod 256;
- the `uint16_t` duty and `int16_t` step wrap (`PwmDemo.ToU16`, `ToI16`);
- `uint32_t` arithmetic and 16-bit register stores apply in
  `HAL_PWM_Init` (`Pwm.ArrFor`, `Product`, `PrescalerFor`).

The printer has three edge cases:

- A negative value in base 16 goes through the digit loop with C's
  truncating `%`. The negative remainder is stored into a `uint8_t` and the
  digit character into a `char`, so the text contains no `A-F` but digits
  `0-6` and punctuation; `-10`, for example, prints as `-`
  (`NumberFormat.NegativeHexText`, `NegativeHexSamples`).
- -1 is `UART_NO_NUMBER` (its definition is at
  task2/include/driver_usart_debug.h:45; the headers of task 3 and task 4
  that repeat it are not part of this model) and prints nothing, so the
  round-trip lemmas exclude it.
- `INT32_MIN` in base 10 is excluded from `Print`, because `-val`
  overflows there. `NumberText` still gives it the text "-2147483648", and
  the read-back lemmas (`NumberFormat.DecimalRoundTrip`, `Cli.ScanPrinted`,
  `Cli.AtoiPrinted`, `Cli.BlinkArgsPrinted`, `Cli.ReadPrinted`) are facts
  about `NumberText` for every value but -1 (`DecimalRoundTrip` for every
  32-bit value but -1). For `INT32_MIN` they describe a text the C printer
  never writes.

## Model

| member | source | states |
|---|---|---|
| UartDebug.Uart.SendChar | task4/submission/src/driver_uart_debug.c:48-52 | exactly one byte, `c`, is appended to the output log; the input is untouched |
| UartDebug.Uart.ReadChar | task4/submission/src/driver_uart_debug.c:64-68 | the next input byte is taken and returned; on an exhausted input it returns `None`, where the source would still be waiting |
| UartDebug.Uart.SendString | task4/submission/src/driver_uart_debug.c:82-86 | the bytes of the C string, up to the first NUL, are sent in order |
| UartDebug.Uart.ReadLine | task4/submission/src/driver_uart_debug.c:104-139 | the result and the state match `LineEdit.Read` on the input: echo sent, bytes consumed, line stored in `buf[..n]` with `n <= maxLen - 1`, and NUL at `buf[n]` when a CR/LF arrived; no cell at or past `maxLen - 1` is written except that terminator |
| UartDebug.Uart.EditLoop | task4/submission/src/driver_uart_debug.c:109-138 | the loop takes keys with no terminator among them, keeps their edit in the buffer and echoes it; it stops after the first CR/LF (echo "\r\n", NUL stored) or when the input runs out |
| UartDebug.Uart.Receive | task4/submission/src/driver_uart_debug.c:111-137 | one pass: a byte is taken; a CR/LF echoes "\r\n" and stores NUL at the write index; any other key is edited in as `LineEdit.Key` says |
| UartDebug.Uart.EditKey | task4/submission/src/driver_uart_debug.c:121-137 | one non-terminator key updates the buffer prefix and the echo as `LineEdit.Key` says; no cell at or past `maxLen - 1` is written |
| UartDebug.Uart.SendNewLine | task4/submission/src/driver_uart_debug.c:116 | a terminator echoes exactly "\r\n" |
| UartDebug.Uart.SendErase | task4/submission/src/driver_uart_debug.c:127 | an erase echoes exactly "\b \b" |
| UartDebug.Uart.Print | task4/submission/src/driver_uart_debug.c:157-198 | output is the C string `str` followed by `NumberFormat.NumberText(val, base)` |
| UartDebug.Uart.SendDigits | task4/submission/src/driver_uart_debug.c:184-197 | the digits of `v`, as `NumberFormat.Digits` lists them, are sent in reverse |
| UartDebug.Uart.SendReversed | task4/submission/src/driver_uart_debug.c:196-197 | the drain loop sends `buf[..n]` last slot first |
| NumberFormat.FillDigits | task4/submission/src/driver_uart_debug.c:184-193 | the conversion loop fills a 16-byte buffer with exactly `Digits(v, base)`, least significant first, and never overflows it |
| UartDebugTask3.Usart.SendChar | task3/src/driver_uart_debug.c:43-47 | exactly one byte is appended to the output log |
| UartDebugTask3.Usart.Print | task3/src/driver_uart_debug.c:64-105 | the `task3` printer emits the same text as the console one: `str` up to its NUL, then `NumberFormat.NumberText(val, base)` |
| UartDebugTask3.Usart.SendDigits | task3/src/driver_uart_debug.c:91-104 | the same: the digits of `v` are sent in reverse |
| UartDebugTask3.Usart.SendReversed | task3/src/driver_uart_debug.c:103-104 | the drain loop sends `buf[..n]` last slot first |
| CText.Length | task4/submission/src/driver_uart_debug.c:84-85 | `strlen`: no NUL before the result, and a NUL at the result unless the buffer ends there |
| CText.StrOfNulFree | task4/submission/src/driver_uart_debug.c:84-85 | a NUL-free literal is its own C string, and a terminator after it ends the string |
| LineEdit.Key | task4/submission/src/driver_uart_debug.c:121-137 | a key other than CR/LF keeps the kept text within `maxLen - 1` characters |
| LineEdit.Read | task4/submission/src/driver_uart_debug.c:104-139 | the line editor over the input stream, key by key: CR/LF ends the line with echo "\r\n", BS/DEL erases one kept character, any other key is kept while fewer than `maxLen - 1` are; it never consumes more than the input |
| LineEdit.Keys | task4/submission/src/driver_uart_debug.c:109-138 | keys applied in order keep the text within `maxLen - 1` |
| LineEdit.ReadBounds | task4/submission/src/driver_uart_debug.c:109-138 | the line stays within `maxLen - 1`; a read that ended took bytes up to and including the first CR/LF and no terminator before it; one that did not end took the whole input, which has no terminator |
| LineEdit.KeysSnoc | task4/submission/src/driver_uart_debug.c:109-138 | the edit of one more key follows the edit of the keys before it |
| LineEdit.ReadEnter | task4/submission/src/driver_uart_debug.c:114-119 | a CR or LF ends the line at once with echo "\r\n"; the line is the text so far, possibly empty |
| LineEdit.ReadKey | task4/submission/src/driver_uart_debug.c:121-137 | one other key is applied, then reading continues |
| LineEdit.ReadUpToEnter | task4/submission/src/driver_uart_debug.c:109-138 | the line is the edit of the keys before the first terminator; nothing after it is consumed |
| LineEdit.ReadWithoutEnter | task4/submission/src/driver_uart_debug.c:109-138 | without a terminator, the whole input is consumed and the line stays open |
| LineEdit.TypedTruncates | task4/submission/src/driver_uart_debug.c:133-137 | plain characters are kept and echoed up to `maxLen - 1`; later ones are dropped without echo |
| LineEdit.RuboutsOnEmpty | task4/submission/src/driver_uart_debug.c:122-130 | backspace/DEL on an empty line changes nothing and echoes nothing |
| LineEdit.EditSample | task4/submission/src/driver_uart_debug.c:109-138 | `a b DEL c CR` yields "ac", echo "ab\b \bc\r\n", 5 bytes used |
| LineEdit.ShowAppend | task4/submission/src/driver_uart_debug.c:127-136 | the terminal shows a concatenated echo as the two parts in turn |
| LineEdit.KeyKeepsDisplay | task4/submission/src/driver_uart_debug.c:121-137 | after any key's echo, the terminal still shows the prompt and exactly the buffered text, cursor at its end |
| LineEdit.KeysKeepDisplay | task4/submission/src/driver_uart_debug.c:109-138 | the same after a whole key sequence |
| LineEdit.EchoShowsLine | task4/submission/src/driver_uart_debug.c:109-138 | an erase at the start of the line never reaches into the prompt; the screen always equals prompt + buffer |
| NumberFormat.CDiv | task4/submission/src/driver_uart_debug.c:192 | C's truncating `/`: magnitude `abs(a) / b`, the sign of `a`, and it shrinks toward 0 |
| NumberFormat.DigitChar | task4/submission/src/driver_uart_debug.c:190-191 | the digit character stored into a `char`: it stays below 256, and a digit 0 .. 15 becomes the character `DigitValue` reads back as that digit |
| NumberFormat.Digits | task4/submission/src/driver_uart_debug.c:184-193 | the buffer the conversion loop fills, least significant digit first, with C's truncating `%` and `/` and the `uint8_t` digit; it is empty exactly for zero |
| NumberFormat.NumberText | task4/submission/src/driver_uart_debug.c:163-198 | what follows the string: nothing for `UART_NO_NUMBER` or a base other than 10 and 16, otherwise at least one character, led by '-' for a negative value in base 10 |
| NumberFormat.CRem | task4/submission/src/driver_uart_debug.c:190 | C's `%`: `a == q * b + r`, with `r` in `[0, b)` for `a >= 0` and in `(-b, 0]` for `a < 0` |
| NumberFormat.CDivAbs | task4/submission/src/driver_uart_debug.c:192 | the quotient's magnitude is `abs(a) / base` for both bases |
| NumberFormat.Reverse | task4/submission/src/driver_uart_debug.c:196-197 | draining keeps the length |
| NumberFormat.ReverseAt | task4/submission/src/driver_uart_debug.c:196-197 | drained position `k` holds buffer slot `n - 1 - k` |
| NumberFormat.ReverseDigits | task4/submission/src/driver_uart_debug.c:188-197 | the lowest digit is sent last |
| NumberFormat.LowDigit | task4/submission/src/driver_uart_debug.c:188-197 | for a positive value, the last character sent is the digit of the remainder, which lies in `0 .. base - 1`, and the quotient is smaller than the value |
| NumberFormat.PositiveDigits | task4/submission/src/driver_uart_debug.c:188-197 | a positive value prints only digits of its base (`0-9`, `A-F`), at least one, with no leading zero |
| NumberFormat.ParseDigitsOfValue | task4/submission/src/driver_uart_debug.c:188-197 | the digits of a non-negative value read back, most significant first, as the value |
| NumberFormat.DigitsBelow | task4/submission/src/driver_uart_debug.c:188-193 | a magnitude below `base^k` fills at most `k` slots |
| NumberFormat.DigitsFit | task4/submission/src/driver_uart_debug.c:184-193 | any 32-bit magnitude needs at most 10 decimal or 8 hexadecimal slots of the 16 |
| NumberFormat.DecimalRoundTrip | task4/submission/src/driver_uart_debug.c:171-197 | for every 32-bit value except -1, the base-10 `NumberText` reads back as the value and is at most 11 characters long; for `INT32_MIN` this is a fact about `NumberText` only, since `Print` excludes that value |
| NumberFormat.HexRoundTrip | task4/submission/src/driver_uart_debug.c:171-197 | every non-negative 32-bit value prints in base 16 using `0-9`/`A-F` only, at most 8 digits, and reads back |
| NumberFormat.NegativeDecimal | task4/submission/src/driver_uart_debug.c:164-182 | -1 prints nothing (it is `UART_NO_NUMBER`); any other negative value prints '-' and then the text of its magnitude |
| NumberFormat.NegativeHexDigits | task4/submission/src/driver_uart_debug.c:190-191 | a negative value in base 16 fills only slots '0' or '(' .. '6' |
| NumberFormat.NegativeHexText | task4/submission/src/driver_uart_debug.c:178-197 | so its base-16 text is non-empty and has none of `A-F` |
| NumberFormat.ZeroSample | task4/submission/src/driver_uart_debug.c:171-175 | zero prints "0" in either base |
| NumberFormat.SignAndHexSamples | task4/submission/src/driver_uart_debug.c:178-197 | -5 prints "-5" and 255 prints "FF" in base 16 |
| NumberFormat.NegativeHexSamples | task4/submission/src/driver_uart_debug.c:188-197 | -2 prints "5" and -10 prints "-" in base 16 |
| Gpio.PinConfig | task4/submission/src/driver_gpio.c:23 | `((cnf << 2) \| mode) & 0xF` is a 4-bit value |
| Gpio.ConfigInserted | task4/submission/src/driver_gpio.c:20-26 | defines `CFGLR` with the field of `pin` cleared and the 4-bit value inserted; `Gpio.ConfigFields` states what that does to each pin's nibble |
| Gpio.PinWritten | task4/submission/src/driver_gpio.c:42-45 | defines `OUTDR` with bit `pin` set for a high state and cleared otherwise; `Gpio.WrittenBits` states its effect bit by bit |
| Gpio.PinToggled | task4/submission/src/driver_gpio.c:60 | defines `OUTDR` with bit `pin` xor-ed; `Gpio.ToggledBits` states its effect bit by bit |
| Gpio.PinConfigParts | task4/submission/src/driver_gpio.c:23 | the mode sits in bits 0-1 and `cnf` in bits 2-3 |
| Gpio.GpioPort.Init | task4/submission/src/driver_gpio.c:17-27 | the config register becomes the old one with nibble `pin` replaced by `PinConfig(mode, cnf)` |
| Gpio.GpioPort.WritePin | task4/submission/src/driver_gpio.c:40-46 | the output latch gets bit `pin` set for a nonzero `state` and cleared for zero |
| Gpio.GpioPort.TogglePin | task4/submission/src/driver_gpio.c:58-61 | the output latch gets bit `pin` inverted |
| Gpio.GpioPort.ReadPin | task4/submission/src/driver_gpio.c:73-76 | returns 0 or 1, and 1 exactly when bit `pin` of the input register is set; no state changes |
| Gpio.ConfigFields | task4/submission/src/driver_gpio.c:17-27 | after Init, nibble `pin` holds the value and every other nibble is unchanged |
| Gpio.InsertSetsField | task4/submission/src/driver_gpio.c:20-26 | the inserted nibble reads back |
| Gpio.ValueInField | task4/submission/src/driver_gpio.c:26 | the shifted 4-bit value lies inside the cleared field |
| Gpio.InsertKeepsField | task4/submission/src/driver_gpio.c:20-26 | another pin's nibble is unchanged |
| Gpio.WrittenBits | task4/submission/src/driver_gpio.c:40-46 | the written bit equals `state != 0` and every other bit is unchanged |
| Gpio.ToggledBits | task4/submission/src/driver_gpio.c:58-61 | the toggled bit is inverted and every other bit is unchanged |
| Gpio.ConfigOverwrites | task4/submission/src/driver_gpio.c:17-27 | configuring a pin twice keeps only the second setting |
| Gpio.ConfigCommutes | task4/submission/src/driver_gpio.c:17-27 | configuring two different pins gives the same register in either order |
| Gpio.ToggleTwice | task4/submission/src/driver_gpio.c:58-61 | toggling twice restores the latch |
| Gpio.ToggleIsWrite | task4/submission/src/driver_gpio.c:40-61 | a toggle is a write of the inverted level |
| Gpio.WriteOverridesWrite | task4/submission/src/driver_gpio.c:40-46 | a second write forgets the first, so repeating a write changes nothing |
| Gpio.WriteOverridesToggle | task4/submission/src/driver_gpio.c:40-61 | a write after a toggle forgets the toggle |
| Bits.NibbleOfField | task4/submission/src/driver_gpio.c:20-26 | a nibble depends only on the bits of its field |
| Bits.MasksDisjoint | task4/submission/src/driver_gpio.c:43-60 | `1 << j` and `1 << k` share no bit for `j != k` |
| Bits.FieldsDisjoint | task4/submission/src/driver_gpio.c:20 | distinct pins' config fields share no bit |
| Bits.MaskBitWhole | task4/submission/src/driver_gpio.c:75 | masking one bit gives 0 or the mask |
| Bits.SetOutside | task4/submission/src/driver_rcc.c:14 | `w \| m` keeps every bit outside `m` |
| Bits.ClearOutside | task4/submission/src/driver_rcc.c:28 | `w & ~m` keeps every bit outside `m` |
| Bits.FlipOutside | task4/submission/src/driver_gpio.c:60 | `w ^ m` keeps every bit outside `m` |
| Bits.InsertOutside | task4/submission/src/driver_gpio.c:20-26 | a field insert keeps a disjoint field |
| Bits.SetSetsMask | task4/submission/src/driver_rcc.c:14 | `w \| m` turns on all of `m` |
| Bits.SetKeepsOthers | task4/submission/src/driver_rcc.c:14 | `w \| m` agrees with `w` outside `m` |
| Bits.ClearClearsMask | task4/submission/src/driver_rcc.c:28 | `w & ~m` turns off all of `m` |
| Bits.ClearKeepsOthers | task4/submission/src/driver_rcc.c:28 | `w & ~m` agrees with `w` outside `m` |
| Bits.SetKeepsBit | task4/submission/src/driver_gpio.c:43 | setting bit `j` keeps bit `k` |
| Bits.ClearKeepsBit | task4/submission/src/driver_gpio.c:45 | clearing bit `j` keeps bit `k` |
| Bits.FlipKeepsBit | task4/submission/src/driver_gpio.c:60 | flipping bit `j` keeps bit `k` |
| Bits.SetSetsBit | task4/submission/src/driver_gpio.c:43 | setting bit `k` turns it on |
| Bits.ClearClearsBit | task4/submission/src/driver_gpio.c:45 | clearing bit `k` turns it off |
| Bits.FlipFlipsBit | task4/submission/src/driver_gpio.c:60 | flipping bit `k` inverts it |
| Bits.InsertCommutes | task4/submission/src/driver_gpio.c:20-26 | inserts into disjoint fields commute |
| Bits.InsertOverwrites | task4/submission/src/driver_gpio.c:20-26 | a second insert into a field replaces the first |
| Bits.SetAfterSet | task4/submission/src/driver_rcc.c:14 | setting `m` twice is setting it once |
| Bits.SetAfterClear | task4/submission/src/driver_gpio.c:43-45 | a set forgets an earlier clear of the same bits |
| Bits.SetAfterFlip | task4/submission/src/driver_gpio.c:43-60 | a set forgets an earlier flip |
| Bits.ClearAfterSet | task4/submission/src/driver_rcc.c:14-28 | a clear forgets an earlier set |
| Bits.ClearAfterClear | task4/submission/src/driver_rcc.c:28 | clearing twice is clearing once |
| Bits.ClearAfterFlip | task4/submission/src/driver_gpio.c:45-60 | a clear forgets an earlier flip |
| Bits.FlipTwice | task4/submission/src/driver_gpio.c:60 | two flips cancel |
| Bits.FlipSetBit | task4/submission/src/driver_gpio.c:60 | flipping a set bit clears it |
| Bits.FlipClearBit | task4/submission/src/driver_gpio.c:60 | flipping a clear bit sets it |
| Bits.FlipOfSet | task4/submission/src/driver_gpio.c:60 | flipping bits that are all set clears them |
| Bits.FlipOfClear | task4/submission/src/driver_gpio.c:60 | flipping bits that are all clear sets them |
| Rcc.ClockControl.Enable | task4/submission/src/driver_rcc.c:12-15 | `APB2PCENR` becomes the old value with the mask or-ed in |
| Rcc.ClockControl.Disable | task4/submission/src/driver_rcc.c:26-29 | `APB2PCENR` becomes the old value with the mask cleared |
| Rcc.DelayTimer.DelayMs | task4/submission/src/driver_rcc.c:84-95 | the requested wait is appended to the log |
| Rcc.EnableEffect | task4/submission/src/driver_rcc.c:12-15 | Enable turns on every bit of the mask and keeps every other bit |
| Rcc.DisableEffect | task4/submission/src/driver_rcc.c:26-29 | Disable turns off every bit of the mask and keeps every other bit |
| Rcc.EnableIdempotent | task4/submission/src/driver_rcc.c:12-15 | enabling twice is enabling once |
| Rcc.DisableIdempotent | task4/submission/src/driver_rcc.c:26-29 | disabling twice is disabling once |
| Rcc.EnableThenDisable | task4/submission/src/driver_rcc.c:12-29 | Enable then Disable of one mask leaves its bits clear and the rest as before |
| Rcc.PeripheralsDistinct | task4/submission/include/driver_rcc.h:27-33 | enabling GPIOD does not enable GPIOC, GPIOA or AFIO, and TIM1EN does not enable GPIOD |
| Pwm.ArrFor | task3/src/driver_pwm_tim.c:59 | `resolution - 1` in 16 bits: one less than the resolution, and 65535 for a zero resolution |
| Pwm.Product | task3/src/driver_pwm_tim.c:60 | `freq_hz * resolution` in 32 bits, exact when it does not overflow |
| Pwm.PrescalerFor | task3/src/driver_pwm_tim.c:60-63 | the prescaler stored in the 16-bit `PSC` lies in 0 .. 65535 |
| Pwm.Clamp | task3/src/driver_pwm_tim.c:106-107 | the written duty is the smaller of `duty` and `pwm_arr` |
| Pwm.ModeConfigured | task3/src/driver_pwm_tim.c:68-70 | defines `CHCTLR1` after the three mode updates; `Pwm.ModeFields` states which bits they set and keep |
| Pwm.Timer1.Init | task3/src/driver_pwm_tim.c:50-83 | TIM1's clock bit is set; `pwm_arr` = `ATRLR` = `ArrFor(resolution)`; `PSC` = `PrescalerFor`; `CNT` = `CH1CVR` = 0; OC1M is set to PWM mode 1 with OC1PE; CC1E, MOE and ARPE are set |
| Pwm.Timer1.SetDuty | task3/src/driver_pwm_tim.c:104-110 | `CH1CVR` = `min(duty, pwm_arr)` |
| Pwm.Timer1.Start | task3/src/driver_pwm_tim.c:122-125 | CEN is or-ed into `CTLR1` |
| Pwm.Timer1.Stop | task3/src/driver_pwm_tim.c:137-140 | CEN is cleared from `CTLR1` |
| Pwm.PeriodBracket | task3/src/driver_pwm_tim.c:59-64 | without overflow, the timer period `(PSC+1)*(ARR+1)` is the largest whole number of reload periods that fits in one period at `freq_hz`: the achieved rate is at or just above `freq_hz` |
| Pwm.WrapSamples | task3/src/driver_pwm_tim.c:59-63 | resolution 0 wraps `pwm_arr` to 65535; a product above the clock wraps the prescaler to 65535 |
| Pwm.DemoTiming | task3/src/main.c:25 | `HAL_PWM_Init(1000, 1000)` at 24 MHz gives PSC 23 and ARR 999, which is exactly 1 kHz |
| Pwm.ClampWithin | task3/src/driver_pwm_tim.c:106-109 | the compare value never exceeds `pwm_arr`; duties up to `pwm_arr` pass unchanged |
| Pwm.ModeFields | task3/src/driver_pwm_tim.c:68-70 | after Init, OC1M holds 6 (PWM 1), OC1PE is set and the other channel-control bits are kept |
| Pwm.ModeSelected | task3/src/driver_pwm_tim.c:68-69 | OC1M holds 6 |
| Pwm.ModePreloaded | task3/src/driver_pwm_tim.c:70 | OC1PE is set |
| Pwm.ModeKeepsOthers | task3/src/driver_pwm_tim.c:68-70 | the other channel-control bits are kept |
| Pwm.SetBitEffect | task3/src/driver_pwm_tim.c:122-125 | or-ing a control bit sets it and keeps the others |
| Pwm.SetTurnsOn | task3/src/driver_pwm_tim.c:124 | or-ing sets the bit |
| Pwm.SetKeepsOthers | task3/src/driver_pwm_tim.c:124 | or-ing keeps the other bits |
| Pwm.ClearBitEffect | task3/src/driver_pwm_tim.c:139 | clearing a control bit turns it off and keeps the others |
| Pwm.ClearTurnsOff | task3/src/driver_pwm_tim.c:139 | the bit is off |
| Pwm.ClearKeepsOthers | task3/src/driver_pwm_tim.c:139 | the other bits are kept |
| Pwm.StopAfterStart | task3/src/driver_pwm_tim.c:122-140 | Stop after Start leaves CEN clear and `CTLR1` otherwise as before Start |
| Pwm.StartAfterStop | task3/src/driver_pwm_tim.c:122-140 | Start after Stop is Start |
| PwmDemo.ToU16 | task3/src/main.c:42 | the `uint16_t` store lies in 0 .. 65535 |
| PwmDemo.ToI16 | task3/src/main.c:44 | the `int16_t` store lies in -32768 .. 32767 |
| PwmDemo.Next | task3/src/main.c:42-44 | one update keeps `duty` and `step` within their C types |
| PwmDemo.Iterate | task3/src/main.c:30-47 | every pass starts within the C types |
| PwmDemo.NextReverses | task3/src/main.c:43-44 | the step is negated exactly when the new duty is >= 1000 or 0, and kept otherwise |
| PwmDemo.NextKeepsInv | task3/src/main.c:42-44 | one update keeps the duty on the 25-grid of [0, 1000], with step ±25, climbing at 0 and falling at 1000 |
| PwmDemo.AlwaysInv | task3/src/main.c:30-47 | every pass starts in that invariant |
| PwmDemo.Rising | task3/src/main.c:30-47 | pass `k <= 40` starts at duty `25k`; the step turns at 1000 |
| PwmDemo.Falling | task3/src/main.c:42-44 | passes 40 .. 80 fall back to 0, where the step turns again |
| PwmDemo.IterateStep | task3/src/main.c:30-47 | each pass follows from the one before it by one update |
| PwmDemo.IterateFrom | task3/src/main.c:30-47 | from a return to the start, the sweep repeats |
| PwmDemo.Periodic | task3/src/main.c:30-47 | the sweep repeats every 80 passes |
| PwmDemo.PercentInRange | task3/src/main.c:34 | the printed percentage `duty / 10` lies in 0 .. 100 |
| PwmDemo.DutyWritten | task3/src/main.c:25-32 | with `pwm_arr` = 999, the compare register gets the duty itself, except 1000, which is clamped to 999 |
| PwmDemo.Waits | task3/src/main.c:46 | `n` passes request `n` waits of 40 ms |
| PwmDemo.LiteralsWhole | task3/src/main.c:36-40 | the printed literals hold no NUL, so each is sent whole |
| PwmDemo.RunDemo | task3/src/main.c:17-47 | after set-up and `passes` passes: GPIOD and TIM1 clocks are on; PD2 is configured as 50 MHz alternate-function push-pull; `pwm_arr` and `ATRLR` are 999, `PSC` is the prescaler for 1 kHz × 1000 steps and `CNT` is 0; `CHCTLR1` is in PWM mode 1 with preload, CC1E and MOE are set, and `CTLR1` has ARPE and CEN set with its other bits kept; `CH1CVR` is 0 when no pass ran and otherwise the last pass's clamped duty; the output is the banner, the frequency line, then `Reports(passes)`; the log is `passes` waits of 40 ms |
| PwmDemo.PrintBanner | task3/src/main.c:19 | the start-up banner is sent whole |
| PwmDemo.PrintFrequency | task3/src/main.c:27-28 | "Frequency is 1kHz" and "\r\n" are sent whole |
| PwmDemo.BannersWhole | task3/src/main.c:19-28 | the start-up literals hold no NUL |
| PwmDemo.Loop | task3/src/main.c:30-47 | the first `passes` passes from the initial state print `Reports(passes)`, log `Waits(passes)` and leave `CH1CVR` at the last pass's clamped duty, or unchanged when `passes` is 0 |
| PwmDemo.Step | task3/src/main.c:31-46 | one pass from state `Iterate(i)` reaches `Iterate(i+1)`, writes the clamped duty, prints one report and waits 40 ms |
| PwmDemo.Advance | task3/src/main.c:42-44 | the C update computes `Next` |
| PwmDemo.Pass | task3/src/main.c:32-40 | the compare write and the five prints of one pass give `Report(duty)`: "Duty = ", the duty, " (", the percentage, "%)\r\n" |
| PwmDemo.PrintText | task3/src/main.c:36 | a string-only print sends the string |
| PwmDemo.PrintNumber | task3/src/main.c:37-39 | a `("", v, 10)` print sends the decimal text of `v` |
| PwmDemo.ReportsGrow | task3/src/main.c:36-40 | one more pass adds one report |
| PwmDemo.WaitsGrow | task3/src/main.c:46 | one more pass adds one wait |
| Cli.LoweredShape | task4/submission/src/cli.c:19-26 | lowering keeps the buffer length and the terminator position, and maps each character before it by `tolower` |
| Cli.Lower | task4/submission/src/cli.c:23 | `tolower`: an upper-case letter becomes the letter 32 codes above it, nothing else changes, and no upper-case letter is left |
| Cli.Lowered | task4/submission/src/cli.c:19-26 | the buffer after `str_to_lower` keeps its length; `Cli.LoweredShape` states the rest |
| Cli.Classify | task4/submission/src/cli.c:55-110 | the `strcmp`/`strncmp` chain: help, led on and led off exactly when the whole line is that text; blink exactly when the line starts with "blink ", and read exactly when it starts with "read ", the rest of the line being the argument |
| Cli.ScanInt | task4/submission/src/cli.c:86 | one `%d` conversion; when it reads a number, the text left over is shorter than the input and does not start with a digit |
| Cli.Atoi | task4/submission/src/cli.c:112 | `atoi`: 0 for text that does not start with white space, a sign or a digit |
| Cli.ScanTwo | task4/submission/src/cli.c:86 | `sscanf("%d %d") == 2` fails when the first conversion fails; when both succeed, `ms` and `count` are `atoi` of the text and of what the first conversion leaves |
| Cli.BlinkAnswer | task4/submission/src/cli.c:86-106 | each reply to blink is a whole line ending in "\r\n" |
| Cli.Answer | task4/submission/src/cli.c:55-131 | each reply of the console, for every command, ends in "\r\n" |
| Cli.LedAfter | task4/submission/src/cli.c:66-107 | the latch after a command differs from the one before at most in the LED bit |
| Cli.LedWritten | task4/submission/src/cli.c:68-75 | `led on` and `led off` change no pin but the LED |
| Cli.BlinkLatch | task4/submission/src/cli.c:92-104 | a blink changes no pin but the LED |
| Cli.ToggledKeepsOthers | task4/submission/src/cli.c:100-102 | any number of LED toggles leaves every other pin of the latch as it was |
| Cli.Waits | task4/submission/src/cli.c:92-104 | only blink waits, and every wait is positive, since `ms <= 0` is rejected first |
| Cli.LoweredTwice | task4/submission/src/cli.c:19-26 | lowering twice is lowering once |
| Cli.StrToLower | task4/submission/src/cli.c:19-26 | the buffer becomes `Lowered` of its old contents, in place |
| Cli.LowerAll | task4/submission/src/cli.c:23 | each character goes through `tolower` |
| Cli.StrOfLowered | task4/submission/src/cli.c:52-55 | the C string matched after the lowering pass is the old C string with every letter lowered, so matching ignores case |
| Cli.SkipSpace | task4/submission/src/cli.c:86-112 | the text left after skipping white space does not start with white space |
| Cli.DigitRun | task4/submission/src/cli.c:86-112 | the run covers exactly the leading decimal digits |
| Cli.PinIndex | task4/submission/src/cli.c:120 | a pin number 0 .. 15 is a bit index below 16 |
| Cli.Repeat | task4/submission/src/cli.c:100-104 | `n` waits, each of `ms` |
| Cli.Process | task4/submission/src/cli.c:49-132 | the buffer is lowered; the reply is `Answer`, the latch becomes `LedAfter` and the waits logged are `Waits` of the command the lowered line spells; nothing is read from the UART |
| Cli.Send | task4/submission/src/cli.c:57-130 | a NUL-free literal is sent whole |
| Cli.Messages | task4/submission/src/cli.c:69-130 | none of the console's replies holds a NUL |
| Cli.HelpLines | task4/submission/src/cli.c:57-62 | none of the help lines holds a NUL |
| Cli.SendHelp | task4/submission/src/cli.c:55-63 | `help` sends the six help lines in order |
| Cli.BlinkCommand | task4/submission/src/cli.c:80-107 | arguments that do not scan give the usage reply; non-positive values give "Error: invalid values"; otherwise the reply is "Blinking...\r\nDone\r\n", with `count` toggles and `count` waits of `ms`, and nothing else changes |
| Cli.BlinkLoop | task4/submission/src/cli.c:100-104 | the latch is toggled `count` times and `count` waits of `ms` are logged |
| Cli.ReadCommand | task4/submission/src/cli.c:110-125 | the reply is "Pin value: 0/1\r\n" with the GPIOD input bit for pins 0 .. 15, and "Error: invalid pin\r\n" otherwise |
| Cli.PrintBit | task4/submission/src/cli.c:123 | `HAL_UART_Print("", val, 10)` of a level sends "0" or "1" |
| Cli.BitText | task4/submission/src/cli.c:123 | 0 and 1 print as "0" and "1" |
| Cli.BlinkParity | task4/submission/src/cli.c:100-104 | after `count` toggles the latch is unchanged for an even count, and has the LED bit inverted for an odd one |
| Cli.DecimalDigitChars | task4/submission/src/cli.c:86-112 | the printer's decimal digits are digits to `sscanf` |
| Cli.DigitRunOf | task4/submission/src/cli.c:86-112 | `%d` takes digits up to the first non-digit |
| Cli.DigitsRead | task4/submission/src/cli.c:86-112 | a run of digits scans as its value, leaving what follows |
| Cli.ScanUnsigned | task4/submission/src/cli.c:86-112 | text that starts with a digit scans without sign or skip |
| Cli.ScanMinus | task4/submission/src/cli.c:86-112 | a leading '-' negates the number |
| Cli.ScanSkipsSpace | task4/submission/src/cli.c:86 | leading white space is skipped |
| Cli.ScanPrinted | task4/submission/src/cli.c:86-112 | `sscanf`/`atoi` read back the base-10 `NumberText` of every integer but -1, leaving the text after it; for 32-bit values this is the text `HAL_UART_Print` writes, except for `INT32_MIN`, which `Print` excludes |
| Cli.ScanPositive | task4/submission/src/cli.c:86-112 | the same for positive values |
| Cli.ScanNegativeText | task4/submission/src/cli.c:86-112 | the same for negative values |
| Cli.AtoiPrinted | task4/submission/src/cli.c:112 | `atoi` of the base-10 `NumberText` of any integer other than -1 is that integer (for `INT32_MIN`, a text `Print` never writes) |
| Cli.BlinkArgsPrinted | task4/submission/src/cli.c:86-96 | "blink <ms> <count>" with the base-10 `NumberText` of two integers other than -1 scans both, and blinks exactly when both are positive |
| Cli.ReadPrinted | task4/submission/src/cli.c:110-125 | "read <n>" with `n` as base-10 `NumberText`: pins 0 .. 15 answer with their input bit; any other number gives "Error: invalid pin" |
| Cli.LedCommandsEffect | task4/submission/src/cli.c:66-77 | `led on` sets and `led off` clears bit 4 of the GPIOD latch, and no other bit changes |
| Cli.QuietCommands | task4/submission/src/cli.c:55-131 | help, read and unknown lines leave the latch alone and request no wait |
| Cli.ClassifySamples | task4/submission/src/cli.c:52-80 | "LED On" is `led on`; "Blink 100 5" is blink with arguments "100 5"; "led  on" and "blink" are unknown |
| Cli.ScanSamples | task4/submission/src/cli.c:86-112 | "100" lacks the count; "100 5x" scans as 100 and 5; `atoi("x")` is 0 |
| Cli.MissingCount | task4/submission/src/cli.c:86-90 | "100" lacks the count |
| Cli.TrailingText | task4/submission/src/cli.c:86 | text after the count is ignored |
| Cli.ScanFive | task4/submission/src/cli.c:86 | " 5x" scans as 5, leaving "x" |
| Cli.NotANumber | task4/submission/src/cli.c:112 | `atoi` of a non-number is 0, so "read x" reads pin 0 |
| Cli.ScanHundred | task4/submission/src/cli.c:86 | "100" followed by a non-digit scans as 100 |

## Left out

- The TXE/RXNE polling loops and `HAL_UART_Init`: sending always completes, and receiving from an exhausted input returns `None` where the source would keep waiting.
- `HAL_Delay_ms`: the wait is only recorded in a log. `HAL_Delay_us`, `HAL_Delay_Init`, `SysTick_Handler` and `ms_ticks` are timing and interrupt state, not modelled.
- `SystemInit`, `HAL_Delay_Init` and `HAL_UART_Init` in task 3's `main` are hardware set-up with no modelled effect. Task 3's endless loop is modelled for its first `passes` passes. Task 4's `main` (its banners and its read-and-process loop) is not modelled; `Cli.Process` models one call of `CLI_Process` on a line.
- `SystemCoreClock` is a parameter (`clk`) of `Pwm.Timer1.Init` and `PwmDemo.RunDemo`.
- Register layouts and base addresses: each register is a field of its class.
- Task 3's `main` calls task 3's own `HAL_RCC_APB2_Enable` and `HAL_GPIO_Init` (task3/src/main.c:17, 22). Their headers `driver_rcc.h` and `driver_gpio.h` of task 3 and their sources are not part of this model. PwmDemo.RunDemo uses task 4's `Rcc.ClockControl.Enable` and `Gpio.GpioPort.Init` in their place, so it assumes task 3's drivers act like task 4's.
- UartDebug.Uart.Print and UartDebugTask3.Usart.Print exclude `INT32_MIN` in base 10, where `-val` overflows.
- Cli.ScanInt uses exact integers, so `sscanf`/`atoi` overflow, which is undefined or implementation-defined in C, is not modelled.
- Gpio.GpioPort.Init requires `pin < 8`, since `CFGLR` covers pins 0-7 and a larger pin shifts by 32 or more. For pin 7, `0xF << (pin * 4)` shifts a signed `int` to 0xF0000000, which overflows and is undefined in C; the model computes that mask as an unsigned 32-bit shift and does not model the overflow apart.
- Gpio.GpioPort.WritePin, TogglePin and ReadPin require `pin < 32` and compute `1 << pin` as an unsigned 32-bit shift. In C, `1 << 31` on a signed `int` is undefined; that case is not modelled apart.
- Pwm.Timer1.Init requires the wrapped product `freq_hz * resolution` to be nonzero, since C divides by it.
- `ReadLine`'s `uint8_t maxLen` must be 1 .. 255. With 0, `maxLen - 1` is -1 and every character is dropped, but `buf[0]` still receives the terminator. The model requires at least 1.
- Several C functions are split into helper methods so each proof stays small. `ReadLine` uses `EditLoop`, `Receive` and `EditKey`. `Print` uses `SendDigits`, which uses `FillDigits` and `SendReversed`. `CLI_Process` uses `SendHelp`, `BlinkCommand`, `BlinkLoop` and `ReadCommand`. The demo uses `PrintBanner`, `PrintFrequency`, `Loop`, `Step`, `Pass` and `Advance`. The order of effects is unchanged.
- `Dafny char` stands for the 8-bit C `char`, and `tolower` is that of the C locale. Nothing bounds the characters of `rx`, of a `ReadLine` buffer or of a `StrToLower` buffer to 255: that a `char` holds 8 bits is an assumption of the model, not a checked condition. Characters above 255 are treated as ordinary non-letter, non-digit, non-space characters.
