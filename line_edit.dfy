/** The line editor behind `HAL_UART_ReadLine`, as values.

    `Key` is the effect of one keystroke other than Enter on the text kept
    so far (the buffer up to the write index) and the bytes echoed back;
    `Read` runs the editor over an input stream until the first CR or LF.
    `Show` is a small model of the operator's terminal, used to state that
    the echo always leaves the line on screen exactly as it is buffered.
 */
module LineEdit {

  const Backspace: char := 8 as char
  const Delete: char := 127 as char

  /** `"\b \b"`: step back, blank the cell, step back again. */
  const Erase: string := [Backspace, ' ', Backspace]
  const NewLine: string := "\r\n"

  predicate IsEnter(c: char)
  {
    c == '\r' || c == '\n'
  }

  predicate IsRubout(c: char)
  {
    c == Backspace || c == Delete
  }

  /** An ordinary character: neither a terminator nor an erase key. */
  predicate IsPlain(c: char)
  {
    !IsEnter(c) && !IsRubout(c)
  }

  predicate NoEnter(s: string)
  {
    forall k :: 0 <= k < |s| ==> !IsEnter(s[k])
  }

  datatype Edit = Edit(text: string, echo: string)

  /** One keystroke other than Enter: erase keys remove the last character
      when there is one, other characters are stored while the write index
      is below `maxLen - 1` and dropped silently after that. */
  function Key(text: string, c: char, maxLen: nat): (e: Edit)
    requires !IsEnter(c)
    ensures |text| <= maxLen - 1 ==> |e.text| <= maxLen - 1
  {
    if IsRubout(c) then
      if |text| > 0 then Edit(text[..|text| - 1], Erase) else Edit(text, "")
    else if |text| < maxLen - 1 then Edit(text + [c], [c])
    else Edit(text, "")
  }

  /** Keystrokes `keys` (no terminator among them) applied in order. */
  function Keys(keys: string, maxLen: nat, text: string): (e: Edit)
    requires NoEnter(keys)
    ensures |text| <= maxLen - 1 ==> |e.text| <= maxLen - 1
  {
    if keys == [] then Edit(text, "")
    else
      var first := Key(text, keys[0], maxLen);
      var rest := Keys(keys[1..], maxLen, first.text);
      Edit(rest.text, first.echo + rest.echo)
  }

  /** What reading a line leaves: the text, the bytes echoed, how many input
      bytes were taken, and whether a terminator was reached. */
  datatype Outcome = Outcome(line: string, echo: string, used: nat, ended: bool)

  /** The editor run over `input`, starting from `text`. */
  function Read(input: string, maxLen: nat, text: string): (r: Outcome)
    ensures r.used <= |input|
  {
    if input == [] then Outcome(text, "", 0, false)
    else if IsEnter(input[0]) then Outcome(text, NewLine, 1, true)
    else
      var e := Key(text, input[0], maxLen);
      var r := Read(input[1..], maxLen, e.text);
      Outcome(r.line, e.echo + r.echo, r.used + 1, r.ended)
  }

  /** The line stays within `maxLen - 1` characters, and reading takes the
      input up to and including its first CR or LF, or all of an input
      without one. */
  lemma {:induction false} ReadBounds(input: string, maxLen: nat, text: string)
    ensures var r := Read(input, maxLen, text);
      && (|text| <= maxLen - 1 ==> |r.line| <= maxLen - 1)
      && (r.ended ==> 0 < r.used && IsEnter(input[r.used - 1]) && NoEnter(input[..r.used - 1]))
      && (!r.ended ==> r.used == |input| && NoEnter(input))
  {
    if input != [] && !IsEnter(input[0]) {
      var e := Key(text, input[0], maxLen);
      var r := Read(input[1..], maxLen, e.text);
      ReadBounds(input[1..], maxLen, e.text);
      assert input[1..][..r.used] == input[1..r.used + 1];
    }
  }

  /** One step of `Read` on a terminator. */
  lemma ReadEnter(c: char, rest: string, maxLen: nat, text: string)
    requires IsEnter(c)
    ensures Read([c] + rest, maxLen, text) == Outcome(text, NewLine, 1, true)
  {
  }

  /** One step of `Read` on any other key. */
  lemma ReadKey(c: char, rest: string, maxLen: nat, text: string)
    requires !IsEnter(c)
    ensures var e := Key(text, c, maxLen); var r := Read(rest, maxLen, e.text);
      Read([c] + rest, maxLen, text) == Outcome(r.line, e.echo + r.echo, r.used + 1, r.ended)
  {
    assert ([c] + rest)[1..] == rest;
  }

  // ---------------------------------------------------------------------
  // The line a stream yields

  /** Reading stops at the first terminator: the line and the echo are the
      keystrokes before it, then "\r\n"; nothing after it is consumed. */
  lemma {:induction false} ReadUpToEnter(keys: string, c: char, rest: string, maxLen: nat, text: string)
    requires NoEnter(keys) && IsEnter(c)
    ensures var e := Keys(keys, maxLen, text);
      Read(keys + [c] + rest, maxLen, text) == Outcome(e.text, e.echo + NewLine, |keys| + 1, true)
  {
    if keys == [] {
      assert (keys + [c] + rest)[0] == c;
    } else {
      var input := keys + [c] + rest;
      assert input[0] == keys[0];
      assert input[1..] == keys[1..] + [c] + rest;
      ReadUpToEnter(keys[1..], c, rest, maxLen, Key(text, keys[0], maxLen).text);
    }
  }

  /** One more keystroke after `keys`: its edit follows theirs. */
  lemma {:induction false} KeysSnoc(keys: string, c: char, maxLen: nat, text: string)
    requires NoEnter(keys) && !IsEnter(c)
    ensures NoEnter(keys + [c])
    ensures var e := Keys(keys, maxLen, text); var k := Key(e.text, c, maxLen);
      Keys(keys + [c], maxLen, text) == Edit(k.text, e.echo + k.echo)
  {
    var all := keys + [c];
    assert forall j :: 0 <= j < |all| ==> all[j] == if j < |keys| then keys[j] else c;
    if keys == [] {
      assert all == [c];
      assert all[1..] == [];
    } else {
      assert all[0] == keys[0];
      assert all[1..] == keys[1..] + [c];
      var first := Key(text, keys[0], maxLen);
      KeysSnoc(keys[1..], c, maxLen, first.text);
      var e := Keys(keys[1..], maxLen, first.text);
      var k := Key(e.text, c, maxLen);
      assert first.echo + (e.echo + k.echo) == (first.echo + e.echo) + k.echo;
    }
  }

  /** A stream without a terminator is consumed whole and the line stays open. */
  lemma {:induction false} ReadWithoutEnter(keys: string, maxLen: nat, text: string)
    requires NoEnter(keys)
    ensures var e := Keys(keys, maxLen, text);
      Read(keys, maxLen, text) == Outcome(e.text, e.echo, |keys|, false)
  {
    if keys != [] {
      ReadWithoutEnter(keys[1..], maxLen, Key(text, keys[0], maxLen).text);
    }
  }

  /** Ordinary characters only: the first `maxLen - 1` are kept and echoed,
      the rest are dropped without echo. */
  lemma {:induction false} TypedTruncates(keys: string, maxLen: nat, text: string)
    requires NoEnter(keys) && forall k :: 0 <= k < |keys| ==> !IsRubout(keys[k])
    requires |text| <= maxLen - 1
    ensures var n := if |text| + |keys| <= maxLen - 1 then |keys| else maxLen - 1 - |text|;
      0 <= n <= |keys| && Keys(keys, maxLen, text) == Edit(text + keys[..n], keys[..n])
  {
    if keys != [] {
      var e := Key(text, keys[0], maxLen);
      TypedTruncates(keys[1..], maxLen, e.text);
      if |text| < maxLen - 1 {
        assert e == Edit(text + [keys[0]], [keys[0]]);
        var n := if |text| + |keys| <= maxLen - 1 then |keys| else maxLen - 1 - |text|;
        assert [keys[0]] + keys[1..][..n - 1] == keys[..n];
        assert text + [keys[0]] + keys[1..][..n - 1] == text + keys[..n];
      } else {
        assert e == Edit(text, "");
        assert keys[1..][..0] == keys[..0];
      }
    }
  }

  /** Erase keys on an empty line change nothing and echo nothing. */
  lemma {:induction false} RuboutsOnEmpty(keys: string, maxLen: nat)
    requires forall k :: 0 <= k < |keys| ==> keys[k] == Backspace || keys[k] == Delete
    ensures NoEnter(keys) && Keys(keys, maxLen, "") == Edit("", "")
  {
    if keys != [] {
      RuboutsOnEmpty(keys[1..], maxLen);
    }
  }

  /** 'a', 'b', DEL, 'c', CR reads the line "ac" once the buffer holds at
      least three bytes (two characters and the terminator). */
  lemma EditSample(maxLen: nat)
    requires maxLen >= 3
    ensures Read(['a', 'b', Delete, 'c', '\r'], maxLen, "")
         == Outcome("ac", "ab" + Erase + "c" + NewLine, 5, true)
  {
    assert Key("", 'a', maxLen) == Edit("a", "a");
    assert Key("a", 'b', maxLen) == Edit("ab", "b");
    assert Key("ab", Delete, maxLen) == Edit("a", Erase) by {
      assert "ab"[..1] == "a";
    }
    assert Key("a", 'c', maxLen) == Edit("ac", "c");
    ReadEnter('\r', [], maxLen, "ac");
    assert ['\r'] + [] == ['\r'];
    ReadKey('c', ['\r'], maxLen, "a");
    assert ['c'] + ['\r'] == ['c', '\r'];
    ReadKey(Delete, ['c', '\r'], maxLen, "ab");
    assert [Delete] + ['c', '\r'] == [Delete, 'c', '\r'];
    ReadKey('b', [Delete, 'c', '\r'], maxLen, "a");
    assert ['b'] + [Delete, 'c', '\r'] == ['b', Delete, 'c', '\r'];
    ReadKey('a', ['b', Delete, 'c', '\r'], maxLen, "");
    assert ['a'] + ['b', Delete, 'c', '\r'] == ['a', 'b', Delete, 'c', '\r'];
    assert "a" + ("b" + (Erase + ("c" + NewLine))) == "ab" + Erase + "c" + NewLine;
  }

  // ---------------------------------------------------------------------
  // What the operator sees

  /** A terminal line: its cells and the cursor column. */
  datatype Screen = Screen(cells: string, col: nat)

  /** One echoed byte on the terminal: backspace moves left (never past the
      margin); any other byte overwrites the cell under the cursor, or
      extends the line, and moves right. */
  function Put(s: Screen, c: char): Screen
  {
    if c == Backspace then Screen(s.cells, if s.col > 0 then s.col - 1 else 0)
    else if s.col < |s.cells| then Screen(s.cells[s.col := c], s.col + 1)
    else Screen(s.cells + [c], s.col + 1)
  }

  function Show(s: Screen, out: string): Screen
    decreases |out|
  {
    if out == [] then s else Show(Put(s, out[0]), out[1..])
  }

  /** The screen holds `prompt`, then `text`, then blanks, and the cursor sits
      just after `text`. */
  predicate Displays(s: Screen, prompt: string, text: string)
  {
    var n := |prompt| + |text|;
    && s.col == n <= |s.cells|
    && s.cells[..n] == prompt + text
    && forall i :: n <= i < |s.cells| ==> s.cells[i] == ' '
  }

  lemma {:induction false} ShowAppend(s: Screen, a: string, b: string)
    ensures Show(s, a + b) == Show(Show(s, a), b)
    decreases |a|
  {
    if a != [] {
      assert (a + b)[0] == a[0];
      assert (a + b)[1..] == a[1..] + b;
      ShowAppend(Put(s, a[0]), a[1..], b);
    } else {
      assert a + b == b;
    }
  }

  lemma KeyKeepsDisplay(s: Screen, prompt: string, text: string, c: char, maxLen: nat)
    requires !IsEnter(c) && Displays(s, prompt, text)
    ensures var e := Key(text, c, maxLen); Displays(Show(s, e.echo), prompt, e.text)
  {
    var n := |prompt| + |text|;
    var e := Key(text, c, maxLen);
    if IsRubout(c) {
      if |text| > 0 {
        var s1 := Put(s, Backspace);
        var s2 := Put(s1, ' ');
        var s3 := Put(s2, Backspace);
        assert Show(s, e.echo) == s3 by {
          assert e.echo == Erase;
          assert Erase[0] == Backspace && Erase[1..] == [' ', Backspace];
          assert Erase[1..][1..] == [Backspace];
          assert Erase[1..][1..][1..] == [];
          assert Show(s3, []) == s3;
          assert Show(s2, [Backspace]) == s3;
          assert Show(s1, [' ', Backspace]) == s3;
        }
        assert s2.cells == s.cells[n - 1 := ' '];
        assert s3.col == n - 1;
        assert s3.cells[..n - 1] == s.cells[..n - 1];
        assert s.cells[..n - 1] == prompt + text[..|text| - 1];
      }
    } else if |text| < maxLen - 1 {
      assert Show(s, [c]) == Put(s, c);
      var s1 := Put(s, c);
      assert s1.cells[..n + 1] == prompt + text + [c];
    }
  }

  lemma {:induction false} KeysKeepDisplay(s: Screen, prompt: string, keys: string, text: string, maxLen: nat)
    requires NoEnter(keys) && Displays(s, prompt, text)
    ensures var e := Keys(keys, maxLen, text); Displays(Show(s, e.echo), prompt, e.text)
    decreases |keys|
  {
    if keys != [] {
      var first := Key(text, keys[0], maxLen);
      var rest := Keys(keys[1..], maxLen, first.text);
      KeyKeepsDisplay(s, prompt, text, keys[0], maxLen);
      KeysKeepDisplay(Show(s, first.echo), prompt, keys[1..], first.text, maxLen);
      ShowAppend(s, first.echo, rest.echo);
    }
  }

  /** Whatever is typed after a prompt, the echo leaves the prompt intact and
      shows exactly the buffered line after it, with the cursor at its end:
      an erase key at the start of the line never reaches into the prompt. */
  lemma EchoShowsLine(prompt: string, keys: string, maxLen: nat)
    requires NoEnter(keys)
    ensures var e := Keys(keys, maxLen, "");
      Displays(Show(Screen(prompt, |prompt|), e.echo), prompt, e.text)
  {
    assert prompt + "" == prompt;
    KeysKeepDisplay(Screen(prompt, |prompt|), prompt, keys, "", maxLen);
  }
}
