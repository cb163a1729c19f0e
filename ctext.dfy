/** NUL-terminated character strings, as the firmware's `char *` arguments.

    A `string` stands for the bytes of a C character buffer; the C string it
    holds runs up to (not including) the first NUL, or to the end of the
    buffer when it has none.
 */
module CText {

  const Nul: char := '\0'

  /** `strlen`: the index of the first NUL in `s`, or `|s|` when there is none. */
  function Length(s: string): (n: nat)
    ensures n <= |s|
    ensures forall k :: 0 <= k < n ==> s[k] != Nul
    ensures n < |s| ==> s[n] == Nul
  {
    if s == [] || s[0] == Nul then 0 else 1 + Length(s[1..])
  }

  /** The C string held by the buffer `s`. */
  function Str(s: string): string
  {
    s[..Length(s)]
  }

  /** `s` has no NUL byte, as every string literal of the firmware. */
  predicate NulFree(s: string)
  {
    forall k :: 0 <= k < |s| ==> s[k] != Nul
  }

  /** A NUL-free buffer holds itself as its C string; a terminator ends it. */
  lemma {:induction false} StrOfNulFree(s: string, rest: string)
    requires NulFree(s)
    ensures Str(s) == s
    ensures Str(s + [Nul] + rest) == s
  {
    if s != [] {
      assert (s + [Nul] + rest)[1..] == s[1..] + [Nul] + rest;
      StrOfNulFree(s[1..], rest);
    }
  }
}
