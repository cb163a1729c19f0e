/** Bit-level views of 32-bit and 16-bit register words.

    Bit indexes are bit-vectors themselves, so that the single-bit masks
    `1 << k` are built without converting an integer to a bit-vector.
 */
module Bits {

  /** The single-bit mask `1 << k` of a 32-bit register. */
  function Mask(k: bv32): bv32
    requires k < 32
  {
    1 << k
  }

  /** Bit `k` of the 32-bit word `w` is set. */
  predicate Bit(w: bv32, k: bv32)
    requires k < 32
  {
    w & Mask(k) != 0
  }

  /** The 4-bit field `0xF << (j * 4)` of a 32-bit configuration register. */
  function Field(j: bv32): bv32
    requires j < 8
  {
    0xF << (j * 4)
  }

  /** Nibble `j` (bits 4j .. 4j+3) of the 32-bit word `w`. */
  function Nibble(w: bv32, j: bv32): bv32
    requires j < 8
  {
    (w >> (j * 4)) & 0xF
  }

  /** The 4-bit value `v` moved into field `j`: `v << (j * 4)`. */
  function Placed(v: bv32, j: bv32): bv32
    requires j < 8
  {
    v << (j * 4)
  }

  /** The nibble of a word only depends on the bits of its field. */
  lemma NibbleOfField(w: bv32, j: bv32)
    requires j < 8
    ensures Nibble(w, j) == Nibble(w & Field(j), j)
  {
  }

  /** Distinct single-bit masks share no bit. */
  lemma MasksDisjoint(j: bv32, k: bv32)
    requires j < 32 && k < 32 && j != k
    ensures Mask(j) & Mask(k) == 0
  {
  }

  /** Distinct nibble fields share no bit. */
  lemma FieldsDisjoint(i: bv32, j: bv32)
    requires i < 8 && j < 8 && i != j
    ensures Field(i) & Field(j) == 0
  {
  }

  /** A single-bit mask picks either nothing or its whole bit. */
  lemma MaskBitWhole(w: bv32, k: bv32)
    requires k < 32
    ensures w & Mask(k) == 0 || w & Mask(k) == Mask(k)
  {
  }

  // ---------------------------------------------------------------------
  // Read-modify-write updates of a register through a mask

  /** `w | m`: the bits of `m` set. */
  function Set(w: bv32, m: bv32): bv32
  {
    w | m
  }

  /** `w & ~m`: the bits of `m` cleared. */
  function Clear(w: bv32, m: bv32): bv32
  {
    w & !m
  }

  /** `w ^ m`: the bits of `m` inverted. */
  function Flip(w: bv32, m: bv32): bv32
  {
    w ^ m
  }

  /** `(w & ~x) | a`: field `x` cleared, then `a` or-ed in. */
  function Insert(w: bv32, x: bv32, a: bv32): bv32
  {
    (w & !x) | a
  }

  // ---------------------------------------------------------------------
  // An update through a mask leaves the bits outside it alone

  lemma SetOutside(w: bv32, m: bv32, n: bv32)
    requires m & n == 0
    ensures Set(w, m) & n == w & n
  {
    assert (w | m) & n == w & n;
  }

  lemma ClearOutside(w: bv32, m: bv32, n: bv32)
    requires m & n == 0
    ensures Clear(w, m) & n == w & n
  {
    assert (w & !m) & n == w & n;
  }

  lemma FlipOutside(w: bv32, m: bv32, n: bv32)
    requires m & n == 0
    ensures Flip(w, m) & n == w & n
  {
    assert (w ^ m) & n == w & n;
  }

  /** Inserting `a`, which lies inside field `x`, keeps a disjoint field `y`. */
  lemma InsertOutside(w: bv32, x: bv32, a: bv32, y: bv32)
    requires a & !x == 0 && x & y == 0
    ensures Insert(w, x, a) & y == w & y
  {
    assert ((w & !x) | a) & y == w & y;
  }

  /** Setting through `m` turns on all of `m`. */
  lemma SetSetsMask(w: bv32, m: bv32)
    ensures Set(w, m) & m == m
  {
    assert (w | m) & m == m;
  }

  /** Setting through `m` keeps every bit outside `m`. */
  lemma SetKeepsOthers(w: bv32, m: bv32)
    ensures Set(w, m) & !m == w & !m
  {
    assert (w | m) & !m == w & !m;
  }

  /** Clearing through `m` turns off all of `m`. */
  lemma ClearClearsMask(w: bv32, m: bv32)
    ensures Clear(w, m) & m == 0
  {
    assert (w & !m) & m == 0;
  }

  /** Clearing through `m` keeps every bit outside `m`. */
  lemma ClearKeepsOthers(w: bv32, m: bv32)
    ensures Clear(w, m) & !m == w & !m
  {
    assert (w & !m) & !m == w & !m;
  }

  lemma SetKeepsBit(w: bv32, j: bv32, k: bv32)
    requires j < 32 && k < 32 && j != k
    ensures Bit(Set(w, Mask(j)), k) == Bit(w, k)
  {
    MasksDisjoint(j, k);
    SetOutside(w, Mask(j), Mask(k));
  }

  lemma ClearKeepsBit(w: bv32, j: bv32, k: bv32)
    requires j < 32 && k < 32 && j != k
    ensures Bit(Clear(w, Mask(j)), k) == Bit(w, k)
  {
    MasksDisjoint(j, k);
    ClearOutside(w, Mask(j), Mask(k));
  }

  lemma FlipKeepsBit(w: bv32, j: bv32, k: bv32)
    requires j < 32 && k < 32 && j != k
    ensures Bit(Flip(w, Mask(j)), k) == Bit(w, k)
  {
    MasksDisjoint(j, k);
    FlipOutside(w, Mask(j), Mask(k));
  }

  // ---------------------------------------------------------------------
  // What an update does to the bits of its mask

  lemma SetSetsBit(w: bv32, k: bv32)
    requires k < 32
    ensures Bit(Set(w, Mask(k)), k)
  {
  }

  lemma ClearClearsBit(w: bv32, k: bv32)
    requires k < 32
    ensures !Bit(Clear(w, Mask(k)), k)
  {
  }

  lemma FlipFlipsBit(w: bv32, k: bv32)
    requires k < 32
    ensures Bit(Flip(w, Mask(k)), k) == !Bit(w, k)
  {
  }

  // ---------------------------------------------------------------------
  // Algebra of masked updates

  /** Inserting into disjoint fields `x` and `y` (values `a` and `b` that stay
      inside them) gives the same word in either order. */
  lemma InsertCommutes(w: bv32, x: bv32, a: bv32, y: bv32, b: bv32)
    requires a & !x == 0 && b & !y == 0 && x & y == 0
    ensures Insert(Insert(w, x, a), y, b) == Insert(Insert(w, y, b), x, a)
  {
    assert (((w & !x) | a) & !y) | b == (((w & !y) | b) & !x) | a;
  }

  /** Inserting into the same field twice keeps the second value only. */
  lemma InsertOverwrites(w: bv32, x: bv32, a: bv32, b: bv32)
    requires a & !x == 0
    ensures Insert(Insert(w, x, a), x, b) == Insert(w, x, b)
  {
    calc {
      Insert(Insert(w, x, a), x, b);
      (Insert(w, x, a) & !x) | b;
      { InsertThenClear(w, x, a); }
      (w & !x) | b;
    }
  }

  lemma InsertThenClear(w: bv32, x: bv32, a: bv32)
    requires a & !x == 0
    ensures ((w & !x) | a) & !x == w & !x
  {
  }

  /** Setting the bits of `m` forgets how they were before. */
  lemma SetAfterSet(w: bv32, m: bv32)
    ensures Set(Set(w, m), m) == Set(w, m)
  {
    assert (w | m) | m == w | m;
  }

  lemma SetAfterClear(w: bv32, m: bv32)
    ensures Set(Clear(w, m), m) == Set(w, m)
  {
    assert (w & !m) | m == w | m;
  }

  lemma SetAfterFlip(w: bv32, m: bv32)
    ensures Set(Flip(w, m), m) == Set(w, m)
  {
    assert (w ^ m) | m == w | m;
  }

  /** Clearing the bits of `m` forgets how they were before. */
  lemma ClearAfterSet(w: bv32, m: bv32)
    ensures Clear(Set(w, m), m) == Clear(w, m)
  {
    assert (w | m) & !m == w & !m;
  }

  lemma ClearAfterClear(w: bv32, m: bv32)
    ensures Clear(Clear(w, m), m) == Clear(w, m)
  {
    assert (w & !m) & !m == w & !m;
  }

  lemma ClearAfterFlip(w: bv32, m: bv32)
    ensures Clear(Flip(w, m), m) == Clear(w, m)
  {
    calc {
      Clear(Flip(w, m), m);
      (w ^ m) & !m;
      { FlipThenClear(w, m); }
      w & !m;
    }
  }

  lemma FlipThenClear(w: bv32, m: bv32)
    ensures (w ^ m) & !m == w & !m
  {
  }

  lemma FlipTwice(w: bv32, m: bv32)
    ensures Flip(Flip(w, m), m) == w
  {
    assert (w ^ m) ^ m == w;
  }

  /** Flipping a set bit clears it. */
  lemma FlipSetBit(w: bv32, k: bv32)
    requires k < 32 && Bit(w, k)
    ensures Flip(w, Mask(k)) == Clear(w, Mask(k))
  {
    MaskBitWhole(w, k);
    FlipOfSet(w, Mask(k));
  }

  /** Flipping a clear bit sets it. */
  lemma FlipClearBit(w: bv32, k: bv32)
    requires k < 32 && !Bit(w, k)
    ensures Flip(w, Mask(k)) == Set(w, Mask(k))
  {
    FlipOfClear(w, Mask(k));
  }

  /** Flipping bits that are all set clears them. */
  lemma FlipOfSet(w: bv32, m: bv32)
    requires w & m == m
    ensures Flip(w, m) == Clear(w, m)
  {
    assert w ^ m == w & !m;
  }

  /** Flipping bits that are all clear sets them. */
  lemma FlipOfClear(w: bv32, m: bv32)
    requires w & m == 0
    ensures Flip(w, m) == Set(w, m)
  {
    assert w ^ m == w | m;
  }
}
