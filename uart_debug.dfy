/** The console's UART driver (task 4): byte transport, line reader, printer.

    The USART is an ideal serial line: `rx` holds the bytes the operator will
    still type, in arrival order, and `tx` every byte written to the data
    register, in order. Polling the TXE and RXNE flags is not modelled: a
    send always completes, and a receive with no byte left reports that the
    source would still be waiting.
 */
module UartDebug {
  import CText
  import NumberFormat
  import LineEdit

  datatype Option<T> = None | Some(value: T)

  /** `input` is `keys`, then the terminator `last`, then `rest`. */
  ghost predicate IsEnterEnd(input: string, keys: string, last: char, rest: string)
  {
    LineEdit.IsEnter(last) && input == keys + [last] + rest
  }

  class Uart {
    /** Bytes transmitted so far. */
    var tx: string
    /** Bytes still to be received. */
    var rx: string

    /** `HAL_UART_SendChar`: one byte out. */
    method SendChar(c: char)
      modifies this
      ensures tx == old(tx) + [c] && rx == old(rx)
    {
      tx := tx + [c];
    }

    /** `HAL_UART_ReadChar`: the next byte in; `None` when the input is
        exhausted, where the source keeps polling RXNE forever. */
    method ReadChar() returns (c: Option<char>)
      modifies this
      ensures old(rx) == [] ==> c == None && rx == old(rx)
      ensures old(rx) != [] ==> c == Some(old(rx)[0]) && rx == old(rx)[1..]
      ensures tx == old(tx)
    {
      if rx == [] {
        c := None;
      } else {
        c := Some(rx[0]);
        rx := rx[1..];
      }
    }

    /** `HAL_UART_SendString`: the bytes of `s` up to its terminator. */
    method SendString(s: string)
      modifies this
      ensures tx == old(tx) + CText.Str(s) && rx == old(rx)
    {
      var i := 0;
      while i < |s| && s[i] != CText.Nul
        invariant 0 <= i <= CText.Length(s)
        invariant tx == old(tx) + s[..i] && rx == old(rx)
      {
        SendChar(s[i]);
        i := i + 1;
      }
    }

    /** `HAL_UART_ReadLine(buf, maxLen)`: reads and edits one line into `buf`,
        echoing as it goes. The result tells whether a CR or LF arrived;
        without one the source would still be reading. */
    method ReadLine(buf: array<char>, maxLen: nat) returns (ended: bool)
      requires 1 <= maxLen <= buf.Length && maxLen < 256
      modifies this, buf
      ensures var r := LineEdit.Read(old(rx), maxLen, "");
        && ended == r.ended
        && |r.line| <= maxLen - 1
        && tx == old(tx) + r.echo
        && rx == old(rx)[r.used..]
        && buf[..|r.line|] == r.line
        && (ended ==> buf[|r.line|] == CText.Nul)
      ensures var r := LineEdit.Read(old(rx), maxLen, "");
        forall k :: maxLen - 1 <= k < buf.Length && !(ended && k == |r.line|) ==> buf[k] == old(buf[k])
    {
      ghost var input := rx;
      ghost var keys, last;
      ended, keys, last := EditLoop(buf, maxLen);
      if ended {
        LineEdit.ReadUpToEnter(keys, last, rx, maxLen, "");
        assert input[|keys| + 1..] == rx;
      } else {
        LineEdit.ReadWithoutEnter(keys, maxLen, "");
      }
    }

    /** The loop of `HAL_UART_ReadLine`. It returns, as ghost results, the
        keys it took before the terminator and the terminator itself. */
    method EditLoop(buf: array<char>, maxLen: nat) returns (ended: bool, ghost keys: string, ghost last: char)
      requires 1 <= maxLen <= buf.Length
      modifies this, buf
      ensures LineEdit.NoEnter(keys)
      ensures var e := LineEdit.Keys(keys, maxLen, "");
        && |e.text| <= maxLen - 1 && buf[..|e.text|] == e.text
        && (ended ==> IsEnterEnd(old(rx), keys, last, rx) && tx == old(tx) + e.echo + LineEdit.NewLine
                      && buf[|e.text|] == CText.Nul)
        && (!ended ==> old(rx) == keys && rx == [] && tx == old(tx) + e.echo)
        && forall k :: maxLen - 1 <= k < buf.Length && !(ended && k == |e.text|) ==> buf[k] == old(buf[k])
    {
      ghost var input := rx;
      keys, last := [], ' ';
      ghost var text: string := [];
      ghost var echo: string := [];
      var i: nat := 0;
      while true
        invariant i == |text| <= maxLen - 1
        invariant buf[..i] == text
        invariant input == keys + rx && LineEdit.NoEnter(keys)
        invariant LineEdit.Keys(keys, maxLen, "") == LineEdit.Edit(text, echo)
        invariant tx == old(tx) + echo
        invariant forall k :: maxLen - 1 <= k < buf.Length ==> buf[k] == old(buf[k])
        decreases |rx|
      {
        var got, ch;
        got, ch, i := Receive(buf, i, maxLen);
        if !got {
          return false, keys, last;
        }
        if LineEdit.IsEnter(ch) {
          return true, keys, ch;
        }
        LineEdit.KeysSnoc(keys, ch, maxLen, "");
        ghost var e := LineEdit.Key(text, ch, maxLen);
        keys := keys + [ch];
        text := e.text;
        echo := echo + e.echo;
      }
    }

    /** One pass of the loop of `HAL_UART_ReadLine` at write index `i`: a
        byte is taken, then a CR or LF ends the line with "\r\n" and a NUL
        at `buf[i]`, and any other key is edited into the buffer. */
    method Receive(buf: array<char>, i: nat, maxLen: nat) returns (got: bool, ch: char, j: nat)
      requires i <= maxLen - 1 && maxLen <= buf.Length
      modifies this, buf
      ensures got <==> old(rx) != []
      ensures !got ==> tx == old(tx) && rx == old(rx) && buf[..] == old(buf[..]) && j == i
      ensures got ==> old(rx) == [ch] + rx
      ensures got && LineEdit.IsEnter(ch) ==>
        && tx == old(tx) + LineEdit.NewLine && j == i
        && buf[..i] == old(buf[..i]) && buf[i] == CText.Nul
        && forall k :: maxLen - 1 <= k < buf.Length && k != i ==> buf[k] == old(buf[k])
      ensures got && !LineEdit.IsEnter(ch) ==>
        && var e := LineEdit.Key(old(buf[..i]), ch, maxLen);
        && j == |e.text| && buf[..j] == e.text && tx == old(tx) + e.echo
        && forall k :: maxLen - 1 <= k < buf.Length ==> buf[k] == old(buf[k])
    {
      var c := ReadChar();
      if c.None? {
        return false, ' ', i;
      }
      got, ch := true, c.value;
      assert old(rx) == [ch] + rx;
      if LineEdit.IsEnter(ch) {
        SendNewLine();
        buf[i] := CText.Nul;
        j := i;
      } else {
        j := EditKey(buf, i, ch, maxLen);
      }
    }

    /** One key other than CR or LF in `HAL_UART_ReadLine`, at write index `i`:
        an erase key steps back and wipes the echoed character, any other key
        is stored and echoed while there is room. */
    method EditKey(buf: array<char>, i: nat, ch: char, maxLen: nat) returns (j: nat)
      requires i <= maxLen - 1 && maxLen <= buf.Length && !LineEdit.IsEnter(ch)
      modifies this, buf
      ensures var e := LineEdit.Key(old(buf[..i]), ch, maxLen);
        j == |e.text| && buf[..j] == e.text && tx == old(tx) + e.echo
      ensures rx == old(rx)
      ensures forall k :: maxLen - 1 <= k < buf.Length ==> buf[k] == old(buf[k])
    {
      j := i;
      if LineEdit.IsRubout(ch) {
        if i > 0 {
          j := i - 1;
          SendErase();
        }
      } else if i < maxLen - 1 {
        buf[i] := ch;
        j := i + 1;
        SendChar(ch);
      }
    }

    /** The "\r\n" that ends an echoed line. */
    method SendNewLine()
      modifies this
      ensures tx == old(tx) + LineEdit.NewLine && rx == old(rx)
    {
      assert CText.Str(LineEdit.NewLine) == LineEdit.NewLine;
      SendString(LineEdit.NewLine);
    }

    /** The "\b \b" that wipes the last echoed character. */
    method SendErase()
      modifies this
      ensures tx == old(tx) + LineEdit.Erase && rx == old(rx)
    {
      assert CText.Str(LineEdit.Erase) == LineEdit.Erase;
      SendString(LineEdit.Erase);
    }

    /** `HAL_UART_Print(str, val, base)`: the string, then `val` in `base`
        unless it is `UART_NO_NUMBER` or the base is neither 10 nor 16. */
    method Print(str: string, val: int, base: int)
      requires NumberFormat.IsInt32(val) && 0 <= base < 256
      requires !(val == NumberFormat.Int32Min && base == 10)
      modifies this
      ensures tx == old(tx) + CText.Str(str) + NumberFormat.NumberText(val, base)
      ensures rx == old(rx)
    {
      SendString(str);
      if val == NumberFormat.NoNumber {
        return;
      }
      if base != 10 && base != 16 {
        return;
      }
      if val == 0 {
        SendChar('0');
        return;
      }
      var v := val;
      if v < 0 && base == 10 {
        SendChar('-');
        v := -v;
      }
      SendDigits(v, base);
    }

    /** The digit loops of `HAL_UART_Print`: the digits of `v0`, least
        significant first, into a 16-byte buffer, then sent in reverse. */
    method SendDigits(v0: int, base: int)
      requires NumberFormat.IsBase(base) && NumberFormat.Abs(v0) <= 0x8000_0000
      modifies this
      ensures tx == old(tx) + NumberFormat.Reverse(NumberFormat.Digits(v0, base))
      ensures rx == old(rx)
    {
      var buf, n := NumberFormat.FillDigits(v0, base);
      SendReversed(buf, n);
    }

    /** The drain loop: `buf[n - 1]` down to `buf[0]`. */
    method SendReversed(buf: array<char>, n: nat)
      requires n <= buf.Length
      modifies this
      ensures tx == old(tx) + NumberFormat.Reverse(buf[..n])
      ensures rx == old(rx)
    {
      var i := n;
      while i > 0
        invariant 0 <= i <= n
        invariant tx == old(tx) + NumberFormat.Reverse(buf[i..n]) && rx == old(rx)
      {
        assert buf[i - 1..n][1..] == buf[i..n];
        i := i - 1;
        SendChar(buf[i]);
      }
      assert buf[0..n] == buf[..n];
    }
  }
}
