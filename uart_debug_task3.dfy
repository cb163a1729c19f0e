/** The transmit-only debug UART of the PWM demo (task 3).

    Its `HAL_UART_Print` is the same encoder as the console's; it is proved
    here against the same reference text, `NumberFormat.NumberText`.
 */
module UartDebugTask3 {
  import CText
  import NumberFormat

  class Usart {
    /** Bytes transmitted so far. */
    var tx: string

    /** `HAL_UART_SendChar`: one byte out. */
    method SendChar(c: char)
      modifies this
      ensures tx == old(tx) + [c]
    {
      tx := tx + [c];
    }

    /** `HAL_UART_Print(str, val, base)`: the bytes of `str` up to its
        terminator, then `val` in `base` unless it is `UART_NO_NUMBER` or the
        base is neither 10 nor 16. */
    method Print(str: string, val: int, base: int)
      requires NumberFormat.IsInt32(val) && 0 <= base < 256
      requires !(val == NumberFormat.Int32Min && base == 10)
      modifies this
      ensures tx == old(tx) + CText.Str(str) + NumberFormat.NumberText(val, base)
    {
      var k := 0;
      while k < |str| && str[k] != CText.Nul
        invariant 0 <= k <= CText.Length(str)
        invariant tx == old(tx) + str[..k]
      {
        SendChar(str[k]);
        k := k + 1;
      }
      ghost var text := tx;
      assert text == old(tx) + CText.Str(str);
      if val == NumberFormat.NoNumber || (base != 10 && base != 16) {
        assert NumberFormat.NumberText(val, base) == "";
        return;
      }
      if val == 0 {
        SendChar('0');
        return;
      }
      var v := val;
      if v < 0 && base == 10 {
        SendChar('-');
        v := -v;
      }
      SendDigits(v, base);
    }

    /** The digit loops of `HAL_UART_Print`: the digits of `v0`, least
        significant first, into a 16-byte buffer, then sent in reverse. */
    method SendDigits(v0: int, base: int)
      requires NumberFormat.IsBase(base) && NumberFormat.Abs(v0) <= 0x8000_0000
      modifies this
      ensures tx == old(tx) + NumberFormat.Reverse(NumberFormat.Digits(v0, base))
    {
      var buf, n := NumberFormat.FillDigits(v0, base);
      SendReversed(buf, n);
    }

    /** The drain loop: `buf[n - 1]` down to `buf[0]`. */
    method SendReversed(buf: array<char>, n: nat)
      requires n <= buf.Length
      modifies this
      ensures tx == old(tx) + NumberFormat.Reverse(buf[..n])
    {
      var i := n;
      while i > 0
        invariant 0 <= i <= n
        invariant tx == old(tx) + NumberFormat.Reverse(buf[i..n])
      {
        assert buf[i - 1..n][1..] == buf[i..n];
        i := i - 1;
        SendChar(buf[i]);
      }
      assert buf[0..n] == buf[..n];
    }
  }
}
