/** The command console of task 4: `str_to_lower` and `CLI_Process`.

    A command line is a NUL-terminated buffer. It is lowered in place, then
    matched against a fixed grammar; each command answers on the UART and
    may drive the LED (pin 4 of GPIOD) or read a pin of GPIOD. Delays are
    recorded as log entries.
 */
module Cli {
  import Bits
  import CText
  import NumberFormat
  import Gpio
  import Rcc
  import UartDebug

  /** `LED_PIN` on `LED_PORT` = GPIOD. */
  const LedPin: bv32 := 4

  // ---------------------------------------------------------------------
  // str_to_lower

  /** `tolower` in the C locale: only 'A' .. 'Z' change, each to its
      lower-case letter, and no upper-case letter is left. */
  function Lower(c: char): (l: char)
    ensures !('A' <= l <= 'Z')
    ensures l == c || ('A' <= c <= 'Z' && l as int == c as int + 32)
  {
    if 'A' <= c <= 'Z' then (c as int - 'A' as int + 'a' as int) as char else c
  }

  /** The buffer after `str_to_lower`: every character before the first NUL
      lowered, the NUL and everything after it untouched. */
  function Lowered(s: string): (r: string)
    ensures |r| == |s|
  {
    if s == [] || s[0] == CText.Nul then s else [Lower(s[0])] + Lowered(s[1..])
  }

  /** Lowering keeps the length of the buffer and the place of its
      terminator, and maps each character of the C string by `tolower`. */
  lemma {:induction false} LoweredShape(s: string)
    ensures |Lowered(s)| == |s|
    ensures CText.Length(Lowered(s)) == CText.Length(s)
    ensures forall k :: 0 <= k < |s| ==>
      Lowered(s)[k] == if k < CText.Length(s) then Lower(s[k]) else s[k]
  {
    if s != [] && s[0] != CText.Nul {
      LoweredShape(s[1..]);
      assert Lowered(s)[1..] == Lowered(s[1..]);
    }
  }

  /** The lowered C string has no upper-case letter, so lowering twice is
      lowering once. */
  lemma {:induction false} LoweredTwice(s: string)
    ensures Lowered(Lowered(s)) == Lowered(s)
  {
    if s != [] && s[0] != CText.Nul {
      LoweredTwice(s[1..]);
      assert Lowered(s)[1..] == Lowered(s[1..]);
    }
  }

  /** `str_to_lower(s)`, in place. */
  method StrToLower(s: array<char>)
    modifies s
    ensures s[..] == Lowered(old(s[..]))
  {
    ghost var before := s[..];
    var i := 0;
    while i < s.Length && s[i] != CText.Nul
      invariant 0 <= i <= CText.Length(before)
      invariant forall k :: 0 <= k < i ==> s[k] == Lower(before[k])
      invariant forall k :: i <= k < s.Length ==> s[k] == before[k]
    {
      s[i] := Lower(s[i]);
      i := i + 1;
    }
    LoweredShape(before);
    assert s[..] == Lowered(before);
  }

  // ---------------------------------------------------------------------
  // The command grammar

  datatype Command = Help | LedOn | LedOff | Blink(args: string) | ReadPin(arg: string) | Unknown

  /** The `strcmp` / `strncmp` chain of `CLI_Process` on the lowered line:
      whole-line matches first, then the prefixes `"blink "` and `"read "`,
      whose remainder is the argument text. */
  function Classify(line: string): (c: Command)
    ensures (c == Help) == (line == "help")
    ensures (c == LedOn) == (line == "led on")
    ensures (c == LedOff) == (line == "led off")
    ensures c.Blink? == ("blink " <= line) && (c.Blink? ==> line == "blink " + c.args)
    ensures c.ReadPin? == ("read " <= line) && (c.ReadPin? ==> line == "read " + c.arg)
  {
    if line == "help" then assert line[0] == 'h'; Help
    else if line == "led on" then assert line[0] == 'l'; LedOn
    else if line == "led off" then assert line[0] == 'l'; LedOff
    else if |line| >= 6 && line[..6] == "blink " then assert line[0] == 'b'; Blink(line[6..])
    else if |line| >= 5 && line[..5] == "read " then ReadPin(line[5..])
    else Unknown
  }

  /** `isspace` in the C locale. */
  predicate IsSpace(c: char)
  {
    c == ' ' || c == '\t' || c == '\n' || c == 11 as char || c == 12 as char || c == '\r'
  }

  predicate IsDecimal(c: char)
  {
    '0' <= c <= '9'
  }

  /** The text after any leading white space. */
  function SkipSpace(s: string): (r: string)
    ensures r == [] || !IsSpace(r[0])
    ensures |r| <= |s|
  {
    if s != [] && IsSpace(s[0]) then SkipSpace(s[1..]) else s
  }

  /** The length of the run of decimal digits that starts `s`. */
  function DigitRun(s: string): (n: nat)
    ensures n <= |s|
    ensures forall k :: 0 <= k < n ==> IsDecimal(s[k])
    ensures n < |s| ==> !IsDecimal(s[n])
  {
    if s != [] && IsDecimal(s[0]) then 1 + DigitRun(s[1..]) else 0
  }

  datatype Scanned = NoInt | Int(value: int, rest: string)

  /** What a conversion leaves over: shorter than its text, and not
      starting with a digit. */
  predicate Leftover(s: string, rest: string)
  {
    |rest| < |s| && (rest == [] || !IsDecimal(rest[0]))
  }

  /** One `%d` conversion, read as `sscanf` and `strtol` read it: white
      space, an optional sign, then at least one decimal digit; the text
      after the digits is left over. */
  function ScanInt(s: string): (r: Scanned)
    ensures r.Int? ==> Leftover(s, r.rest)
  {
    ScanSigned(SkipSpace(s))
  }

  /** An optional sign, then the digits. */
  function ScanSigned(u: string): (r: Scanned)
    ensures r.Int? ==> Leftover(u, r.rest)
  {
    if |u| > 0 && u[0] == '-' then Negated(ScanDigits(u[1..]))
    else if |u| > 0 && u[0] == '+' then ScanDigits(u[1..])
    else ScanDigits(u)
  }

  function Negated(r: Scanned): (n: Scanned)
    ensures n.Int? == r.Int? && (n.Int? ==> n.rest == r.rest)
  {
    match r
    case NoInt => NoInt
    case Int(v, rest) => Int(-v, rest)
  }

  /** At least one decimal digit, read as a magnitude. */
  function ScanDigits(body: string): (r: Scanned)
    ensures r.Int? ==> Leftover(body, r.rest)
  {
    var n := DigitRun(body);
    if n == 0 then NoInt else Int(NumberFormat.ParseDigits(body[..n], 10), body[n..])
  }

  /** `atoi`: the leading integer, or 0 when the text does not start with
      white space, a sign or a digit. */
  function Atoi(s: string): (v: int)
    ensures s == [] || !(IsSpace(s[0]) || IsDecimal(s[0]) || s[0] == '-' || s[0] == '+') ==> v == 0
  {
    match ScanInt(s)
    case NoInt => 0
    case Int(v, _) => v
  }

  datatype BlinkArgs = Malformed | Args(ms: int, count: int)

  /** `sscanf(s, "%d %d", &ms, &count) == 2`: two conversions in a row (the
      blank of the format skips white space, as `%d` does anyway). */
  function ScanTwo(s: string): (b: BlinkArgs)
    ensures ScanInt(s).NoInt? ==> b.Malformed?
    ensures b.Args? ==> b.ms == Atoi(s) && b.count == Atoi(ScanInt(s).rest)
  {
    match ScanInt(s)
    case NoInt => Malformed
    case Int(ms, rest) =>
      match ScanInt(rest)
      case NoInt => Malformed
      case Int(count, _) => Args(ms, count)
  }

  // ---------------------------------------------------------------------
  // What a command does

  const HelpText: string :=
    "Commands:\r\n" + "help\r\n" + "led on\r\n" + "led off\r\n"
    + "blink <ms> <count>\r\n" + "read <pin>\r\n"

  /** The toggles and the wait of a blink command that passes validation. */
  datatype Blinking = NoBlink | Blinks(ms: int, count: nat)

  function BlinkPlan(b: BlinkArgs): Blinking
  {
    match b
    case Malformed => NoBlink
    case Args(ms, count) => if ms <= 0 || count <= 0 then NoBlink else Blinks(ms, count)
  }

  /** A pin number of the port as a bit index. */
  function PinIndex(pin: int): (k: bv32)
    requires 0 <= pin < 16
    ensures k < 16
  {
    pin as bv32
  }

  /** The answer to `blink` with the arguments read as `b`. */
  function BlinkAnswer(b: BlinkArgs): (a: string)
    ensures EndsLine(a)
  {
    match b
    case Malformed => "Usage: blink <ms> <count>\r\n"
    case Args(ms, count) =>
      if ms <= 0 || count <= 0 then "Error: invalid values\r\n"
      else "Blinking...\r\n" + "Done\r\n"
  }

  /** A reply is a whole line: it ends with "\r\n". */
  predicate EndsLine(a: string)
  {
    |a| >= 2 && a[|a| - 2..] == "\r\n"
  }

  /** What the console answers to `c`, the input register being `indr`:
      every answer ends its line. */
  function Answer(c: Command, indr: bv32): (a: string)
    ensures EndsLine(a)
  {
    match c
    case Help => HelpText
    case LedOn => "LED ON\r\n"
    case LedOff => "LED OFF\r\n"
    case Blink(args) => BlinkAnswer(ScanTwo(args))
    case ReadPin(arg) =>
      var pin := Atoi(arg);
      if pin < 0 || pin > 15 then "Error: invalid pin\r\n"
      else "Pin value: " + (if Bits.Bit(indr, PinIndex(pin)) then "1" else "0") + "\r\n"
    case Unknown => "Error: Unknown command\r\n"
  }

  /** The output latches `a` and `b` agree on every pin but the LED's. */
  predicate SameOtherPins(a: bv32, b: bv32)
  {
    a & !Bits.Mask(LedPin) == b & !Bits.Mask(LedPin)
  }

  /** The output latch toggled `n` times at the LED pin. */
  function ToggledTimes(w: bv32, n: nat): bv32
  {
    if n == 0 then w else Gpio.PinToggled(ToggledTimes(w, n - 1), LedPin)
  }

  /** Toggling the LED any number of times leaves every other pin alone. */
  lemma {:induction false} ToggledKeepsOthers(w: bv32, n: nat)
    ensures SameOtherPins(ToggledTimes(w, n), w)
  {
    if n > 0 {
      var t := ToggledTimes(w, n - 1);
      ToggledKeepsOthers(w, n - 1);
      Bits.FlipOutside(t, Bits.Mask(LedPin), !Bits.Mask(LedPin));
    }
  }

  /** The output latch after `c`: only the LED pin can change. */
  function LedAfter(c: Command, outdr: bv32): (w: bv32)
    ensures SameOtherPins(w, outdr)
  {
    match c
    case LedOn => LedWritten(outdr, true)
    case LedOff => LedWritten(outdr, false)
    case Blink(args) => BlinkLatch(args, outdr)
    case _ => outdr
  }

  /** The latch with the LED driven high or low. */
  function LedWritten(w: bv32, high: bool): (r: bv32)
    ensures SameOtherPins(r, w)
  {
    var m := Bits.Mask(LedPin);
    var r := Gpio.PinWritten(w, LedPin, high);
    if high then
      assert r == Bits.Set(w, m);
      Bits.SetKeepsOthers(w, m);
      r
    else
      assert r == Bits.Clear(w, m);
      Bits.ClearKeepsOthers(w, m);
      r
  }

  /** The latch after `blink` with argument text `args`. */
  function BlinkLatch(args: string, w: bv32): (r: bv32)
    ensures SameOtherPins(r, w)
  {
    match BlinkPlan(ScanTwo(args))
    case NoBlink => w
    case Blinks(_, count) =>
      ToggledKeepsOthers(w, count);
      ToggledTimes(w, count)
  }

  /** `n` waits of `ms`. */
  function Repeat(ms: int, n: nat): (r: seq<int>)
    ensures |r| == n && forall k :: 0 <= k < n ==> r[k] == ms
  {
    if n == 0 then [] else Repeat(ms, n - 1) + [ms]
  }

  /** The waits `c` requests: only a blink waits, and every wait is positive. */
  function Waits(c: Command): (r: seq<int>)
    ensures !c.Blink? ==> r == []
    ensures forall k :: 0 <= k < |r| ==> r[k] > 0
  {
    match c
    case Blink(args) =>
      (match BlinkPlan(ScanTwo(args))
       case NoBlink => []
       case Blinks(ms, count) => Repeat(ms, count))
    case _ => []
  }

  // ---------------------------------------------------------------------
  // CLI_Process

  /** `CLI_Process(cmd)`. */
  method Process(cmd: array<char>, uart: UartDebug.Uart, portD: Gpio.GpioPort, delay: Rcc.DelayTimer)
    modifies cmd, uart, portD`outdr, delay
    ensures cmd[..] == Lowered(old(cmd[..]))
    ensures uart.tx == old(uart.tx) + Answer(Classify(CText.Str(cmd[..])), portD.indr)
    ensures uart.rx == old(uart.rx)
    ensures portD.outdr == LedAfter(Classify(CText.Str(cmd[..])), old(portD.outdr))
    ensures delay.log == old(delay.log) + Waits(Classify(CText.Str(cmd[..])))
  {
    StrToLower(cmd);
    Messages();
    var command := Classify(CText.Str(cmd[..]));
    match command
    case Help =>
      SendHelp(uart);
    case LedOn =>
      portD.WritePin(LedPin, 1);
      Send(uart, "LED ON\r\n");
    case LedOff =>
      portD.WritePin(LedPin, 0);
      Send(uart, "LED OFF\r\n");
    case Blink(args) =>
      BlinkCommand(ScanTwo(args), uart, portD, delay);
    case ReadPin(arg) =>
      ReadCommand(arg, uart, portD);
    case Unknown =>
      Send(uart, "Error: Unknown command\r\n");
  }

  /** `HAL_UART_SendString` of a literal: it has no NUL, so all of it goes out. */
  method Send(uart: UartDebug.Uart, s: string)
    requires CText.NulFree(s)
    modifies uart
    ensures uart.tx == old(uart.tx) + s && uart.rx == old(uart.rx)
  {
    CText.StrOfNulFree(s, "");
    uart.SendString(s);
  }

  /** None of the console's messages holds a NUL, so each goes out whole. */
  lemma Messages()
    ensures CText.NulFree("LED ON\r\n") && CText.NulFree("LED OFF\r\n")
    ensures CText.NulFree("Error: Unknown command\r\n")
    ensures CText.NulFree("Usage: blink <ms> <count>\r\n")
    ensures CText.NulFree("Error: invalid values\r\n")
    ensures CText.NulFree("Blinking...\r\n") && CText.NulFree("Done\r\n")
    ensures CText.NulFree("Error: invalid pin\r\n")
    ensures CText.NulFree("Pin value: ") && CText.NulFree("\r\n")
  {
  }

  /** The lines of the help text hold no NUL. */
  lemma HelpLines()
    ensures CText.NulFree("Commands:\r\n") && CText.NulFree("help\r\n")
    ensures CText.NulFree("led on\r\n") && CText.NulFree("led off\r\n")
    ensures CText.NulFree("blink <ms> <count>\r\n") && CText.NulFree("read <pin>\r\n")
  {
  }

  lemma Append(a: string, b: string, c: string)
    ensures a + b + c == a + (b + c)
  {
  }

  /** The `help` branch: six lines. */
  method SendHelp(uart: UartDebug.Uart)
    modifies uart
    ensures uart.tx == old(uart.tx) + HelpText && uart.rx == old(uart.rx)
  {
    HelpLines();
    ghost var t0 := uart.tx;
    Send(uart, "Commands:\r\n");
    ghost var out := "Commands:\r\n";
    Send(uart, "help\r\n");
    Append(t0, out, "help\r\n");
    out := out + "help\r\n";
    Send(uart, "led on\r\n");
    Append(t0, out, "led on\r\n");
    out := out + "led on\r\n";
    Send(uart, "led off\r\n");
    Append(t0, out, "led off\r\n");
    out := out + "led off\r\n";
    Send(uart, "blink <ms> <count>\r\n");
    Append(t0, out, "blink <ms> <count>\r\n");
    out := out + "blink <ms> <count>\r\n";
    Send(uart, "read <pin>\r\n");
    Append(t0, out, "read <pin>\r\n");
  }

  /** The `blink ` branch: validation, then `count` toggles of the LED,
      each followed by a wait of `ms`. */
  method BlinkCommand(parsed: BlinkArgs, uart: UartDebug.Uart, portD: Gpio.GpioPort, delay: Rcc.DelayTimer)
    modifies uart, portD`outdr, delay
    ensures uart.tx == old(uart.tx) + BlinkAnswer(parsed) && uart.rx == old(uart.rx)
    ensures BlinkPlan(parsed).NoBlink? ==> portD.outdr == old(portD.outdr) && delay.log == old(delay.log)
    ensures BlinkPlan(parsed).Blinks? ==>
      portD.outdr == ToggledTimes(old(portD.outdr), BlinkPlan(parsed).count) &&
      delay.log == old(delay.log) + Repeat(BlinkPlan(parsed).ms, BlinkPlan(parsed).count)
  {
    Messages();
    if parsed.Malformed? {
      Send(uart, "Usage: blink <ms> <count>\r\n");
      return;
    }
    var ms, count := parsed.ms, parsed.count;
    if ms <= 0 || count <= 0 {
      Send(uart, "Error: invalid values\r\n");
      return;
    }
    Send(uart, "Blinking...\r\n");
    BlinkLoop(ms, count, portD, delay);
    Send(uart, "Done\r\n");
  }

  /** The `for` loop of the blink branch. */
  method BlinkLoop(ms: int, count: nat, portD: Gpio.GpioPort, delay: Rcc.DelayTimer)
    modifies portD`outdr, delay
    ensures portD.outdr == ToggledTimes(old(portD.outdr), count)
    ensures delay.log == old(delay.log) + Repeat(ms, count)
  {
    var i := 0;
    while i < count
      invariant 0 <= i <= count
      invariant portD.outdr == ToggledTimes(old(portD.outdr), i)
      invariant delay.log == old(delay.log) + Repeat(ms, i)
    {
      portD.TogglePin(LedPin);
      delay.DelayMs(ms);
      i := i + 1;
    }
  }

  /** The `read ` branch. */
  method ReadCommand(arg: string, uart: UartDebug.Uart, portD: Gpio.GpioPort)
    modifies uart
    ensures uart.tx == old(uart.tx) + Answer(ReadPin(arg), portD.indr) && uart.rx == old(uart.rx)
  {
    Messages();
    var pin := Atoi(arg);
    if pin < 0 || pin > 15 {
      Send(uart, "Error: invalid pin\r\n");
      return;
    }
    var val := portD.ReadPin(PinIndex(pin));
    ghost var t0 := uart.tx;
    Send(uart, "Pin value: ");
    PrintBit(uart, val);
    ghost var shown := if val == 1 then "1" else "0";
    Append(t0, "Pin value: ", shown);
    ghost var out := "Pin value: " + shown;
    Send(uart, "\r\n");
    Append(t0, out, "\r\n");
  }

  /** `HAL_UART_Print("", val, 10)` of a pin level. */
  method PrintBit(uart: UartDebug.Uart, val: bv8)
    requires val == 0 || val == 1
    modifies uart
    ensures uart.tx == old(uart.tx) + (if val == 1 then "1" else "0") && uart.rx == old(uart.rx)
  {
    BitText();
    assert CText.Str("") == "";
    uart.Print("", val as int, 10);
  }

  lemma BitText()
    ensures NumberFormat.NumberText(0, 10) == "0"
    ensures NumberFormat.NumberText(1, 10) == "1"
  {
    assert NumberFormat.Digits(1, 10) == ['1'];
  }
  // ---------------------------------------------------------------------
  // Properties of the console

  /** Every character of `t` through `tolower`. */
  function LowerAll(t: string): (r: string)
    ensures |r| == |t| && forall k :: 0 <= k < |t| ==> r[k] == Lower(t[k])
  {
    seq(|t|, k requires 0 <= k < |t| => Lower(t[k]))
  }

  /** The command `CLI_Process` matches is the C string of its buffer with
      every letter lowered: commands are case-insensitive. */
  lemma StrOfLowered(s: string)
    ensures CText.Str(Lowered(s)) == LowerAll(CText.Str(s))
  {
    LoweredShape(s);
    var n := CText.Length(s);
    assert CText.Length(Lowered(s)) == n;
    assert forall k :: 0 <= k < n ==> CText.Str(Lowered(s))[k] == Lowered(s)[k];
  }

  /** Blinking toggles the LED `count` times: an even count leaves the
      latch as it was, an odd count leaves the LED inverted. */
  lemma {:induction false} BlinkParity(w: bv32, n: nat)
    ensures ToggledTimes(w, n) == if n % 2 == 0 then w else Gpio.PinToggled(w, LedPin)
  {
    if n >= 2 {
      BlinkParity(w, n - 2);
      assert ToggledTimes(w, n) == Gpio.PinToggled(Gpio.PinToggled(ToggledTimes(w, n - 2), LedPin), LedPin);
      Gpio.ToggleTwice(ToggledTimes(w, n - 2), LedPin);
    }
  }

  /** The digits `HAL_UART_Print` emits are decimal digits. */
  lemma DecimalDigitChars(v: int)
    requires v > 0
    ensures var t := NumberFormat.Reverse(NumberFormat.Digits(v, 10));
      |t| > 0 && forall k :: 0 <= k < |t| ==> IsDecimal(t[k])
  {
    NumberFormat.PositiveDigits(v, 10);
    var t := NumberFormat.Reverse(NumberFormat.Digits(v, 10));
    forall k | 0 <= k < |t|
      ensures IsDecimal(t[k])
    {
      assert NumberFormat.IsDigitIn(t[k], 10);
    }
  }

  /** A run of decimal digits followed by a non-digit: the run is all of the digits. */
  lemma {:induction false} DigitRunOf(d: string, rest: string)
    requires forall k :: 0 <= k < |d| ==> IsDecimal(d[k])
    requires rest == [] || !IsDecimal(rest[0])
    ensures DigitRun(d + rest) == |d|
  {
    if d != [] {
      assert (d + rest)[1..] == d[1..] + rest;
      DigitRunOf(d[1..], rest);
    } else {
      assert d + rest == rest;
    }
  }

  /** Decimal digits read back as their value, leaving what follows. */
  lemma DigitsRead(d: string, v: int, rest: string)
    requires |d| > 0 && forall k :: 0 <= k < |d| ==> IsDecimal(d[k])
    requires NumberFormat.ParseDigits(d, 10) == v
    requires rest == [] || !IsDecimal(rest[0])
    ensures ScanDigits(d + rest) == Int(v, rest)
  {
    DigitRunOf(d, rest);
    assert (d + rest)[..|d|] == d && (d + rest)[|d|..] == rest;
  }

  /** Text that starts with a digit has no sign and no leading space. */
  lemma ScanUnsigned(t: string)
    requires t != [] && IsDecimal(t[0])
    ensures ScanInt(t) == ScanDigits(t)
  {
    assert SkipSpace(t) == t;
  }

  /** A minus sign negates the digits after it. */
  lemma ScanMinus(t: string)
    ensures ScanInt("-" + t) == Negated(ScanDigits(t))
  {
    assert ("-" + t)[1..] == t;
  }

  /** `atoi` and `sscanf` read back the decimal text `HAL_UART_Print` writes
      for any value but `UART_NO_NUMBER`, which prints nothing; a following
      non-digit is left over. */
  lemma ScanPrinted(v: int, rest: string)
    requires v != NumberFormat.NoNumber
    requires rest == [] || !IsDecimal(rest[0])
    ensures ScanInt(NumberFormat.NumberText(v, 10) + rest) == Int(v, rest)
  {
    if v > 0 {
      ScanPositive(v, rest);
    } else if v < 0 {
      ScanNegativeText(v, rest);
    } else {
      assert NumberFormat.ParseDigits("0", 10) == 0 by {
        assert "0"[..0] == [];
      }
      DigitsRead("0", 0, rest);
      ScanUnsigned("0" + rest);
    }
  }

  lemma ScanPositive(v: int, rest: string)
    requires v > 0
    requires rest == [] || !IsDecimal(rest[0])
    ensures ScanInt(NumberFormat.Reverse(NumberFormat.Digits(v, 10)) + rest) == Int(v, rest)
  {
    var d := NumberFormat.Reverse(NumberFormat.Digits(v, 10));
    DecimalDigitChars(v);
    NumberFormat.ParseDigitsOfValue(v, 10);
    DigitsRead(d, v, rest);
    ScanUnsigned(d + rest);
  }

  lemma ScanNegativeText(v: int, rest: string)
    requires v < 0 && v != NumberFormat.NoNumber
    requires rest == [] || !IsDecimal(rest[0])
    ensures ScanInt(NumberFormat.NumberText(v, 10) + rest) == Int(v, rest)
  {
    var d := NumberFormat.Reverse(NumberFormat.Digits(-v, 10));
    assert NumberFormat.NumberText(v, 10) == "-" + d;
    DecimalDigitChars(-v);
    NumberFormat.ParseDigitsOfValue(-v, 10);
    DigitsRead(d, -v, rest);
    ScanMinus(d + rest);
    Append("-", d, rest);
  }

  lemma AtoiPrinted(v: int)
    requires v != NumberFormat.NoNumber
    ensures Atoi(NumberFormat.NumberText(v, 10)) == v
  {
    ScanPrinted(v, []);
    assert NumberFormat.NumberText(v, 10) + [] == NumberFormat.NumberText(v, 10);
  }

  /** `blink <ms> <count>` with both numbers printed in decimal reads both
      back, and blinks exactly when both are positive. */
  lemma BlinkArgsPrinted(ms: int, count: int)
    requires ms != NumberFormat.NoNumber && count != NumberFormat.NoNumber
    ensures ScanTwo(NumberFormat.NumberText(ms, 10) + " " + NumberFormat.NumberText(count, 10)) == Args(ms, count)
    ensures BlinkPlan(Args(ms, count)).Blinks? <==> ms > 0 && count > 0
  {
    var second := NumberFormat.NumberText(count, 10);
    ScanPrinted(ms, " " + second);
    Append(NumberFormat.NumberText(ms, 10), " ", second);
    ScanPrinted(count, []);
    assert second + [] == second;
    ScanSkipsSpace(second);
  }

  /** Leading white space is skipped. */
  lemma ScanSkipsSpace(t: string)
    ensures ScanInt(" " + t) == ScanInt(t)
  {
    assert (" " + t)[1..] == t;
  }

  /** `read <pin>` answers with the level of the pin for pins 0 .. 15 and
      with an error for any other number. */
  lemma ReadPrinted(pin: int, indr: bv32)
    requires pin != NumberFormat.NoNumber
    ensures 0 <= pin <= 15 ==>
      Answer(ReadPin(NumberFormat.NumberText(pin, 10)), indr)
      == "Pin value: " + (if Bits.Bit(indr, PinIndex(pin)) then "1" else "0") + "\r\n"
    ensures !(0 <= pin <= 15) ==>
      Answer(ReadPin(NumberFormat.NumberText(pin, 10)), indr) == "Error: invalid pin\r\n"
  {
    AtoiPrinted(pin);
  }

  /** `led on` / `led off` drive the LED pin and no other bit of the latch. */
  lemma LedCommandsEffect(w: bv32)
    ensures Bits.Bit(LedAfter(LedOn, w), LedPin) && !Bits.Bit(LedAfter(LedOff, w), LedPin)
    ensures forall k: bv32 :: k < 32 && k != LedPin ==>
      Bits.Bit(LedAfter(LedOn, w), k) == Bits.Bit(w, k) && Bits.Bit(LedAfter(LedOff, w), k) == Bits.Bit(w, k)
  {
    Gpio.WrittenBits(w, LedPin, true);
    Gpio.WrittenBits(w, LedPin, false);
  }

  /** Commands other than `blink` wait for nothing, and only `led on`,
      `led off` and a valid `blink` touch the latch. */
  lemma QuietCommands(c: Command, w: bv32)
    requires c.Help? || c.ReadPin? || c.Unknown?
    ensures Waits(c) == [] && LedAfter(c, w) == w
  {
  }

  /** Sample lines: matching happens after lowering, and a command word
      must be followed by its single space. */
  lemma ClassifySamples()
    ensures Classify(LowerAll("LED On")) == LedOn
    ensures Classify(LowerAll("Blink 100 5")) == Blink("100 5")
    ensures Classify("led  on") == Unknown && Classify("blink") == Unknown
  {
    assert LowerAll("LED On") == "led on";
    assert LowerAll("Blink 100 5") == "blink 100 5";
    assert "blink 100 5"[..6] == "blink " && "blink 100 5"[6..] == "100 5";
    assert "led  on"[..6][0] != "blink "[0] && "led  on"[..5][0] != "read "[0];
  }

  /** Sample arguments: a missing count is malformed, text after the count
      is ignored, and an argument that is not a number reads as 0. */
  lemma ScanSamples()
    ensures ScanTwo("100") == Malformed
    ensures ScanTwo("100 5x") == Args(100, 5)
    ensures Atoi("x") == 0
  {
    MissingCount();
    TrailingText();
    NotANumber();
  }

  lemma MissingCount()
    ensures ScanTwo("100") == Malformed
  {
    ScanHundred("");
    assert "100" + [] == "100";
    assert ScanInt("") == NoInt;
  }

  lemma TrailingText()
    ensures ScanTwo("100 5x") == Args(100, 5)
  {
    ScanHundred(" 5x");
    ScanFive();
    assert "100" + " 5x" == "100 5x";
  }

  lemma ScanFive()
    ensures ScanInt(" 5x") == Int(5, "x")
  {
    assert NumberFormat.ParseDigits("5", 10) == 5 by {
      assert "5"[..0] == [];
    }
    DigitsRead("5", 5, "x");
    ScanUnsigned("5" + "x");
    ScanSkipsSpace("5x");
    assert " " + "5x" == " 5x" && "5" + "x" == "5x";
  }

  lemma NotANumber()
    ensures Atoi("x") == 0
  {
    assert SkipSpace("x") == "x";
    assert DigitRun("x") == 0;
  }

  lemma ScanHundred(rest: string)
    requires rest == [] || !IsDecimal(rest[0])
    ensures ScanInt("100" + rest) == Int(100, rest)
  {
    assert NumberFormat.ParseDigits("100", 10) == 100 by {
      assert "100"[..2] == "10" && "10"[..1] == "1" && "1"[..0] == [];
    }
    DigitsRead("100", 100, rest);
    ScanUnsigned("100" + rest);
  }
}
