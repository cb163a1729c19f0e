/** The GPIO driver of the console (task 4).

    A port's registers are 32-bit words. `CFGLR` holds a 4-bit configuration
    per pin (MODE in the low two bits, CNF in the high two); `OUTDR` drives
    the output latch, one bit per pin; `INDR` reflects the pin levels and is
    written by the hardware alone.
 */
module Gpio {
  import Bits

  /** `GPIO_Mode_t` and `GPIO_CNF_t`, as the header enumerates them. */
  const ModeInput: bv32 := 0
  const ModeOutput10MHz: bv32 := 1
  const ModeOutput2MHz: bv32 := 2
  const ModeOutput50MHz: bv32 := 3
  const CnfPushPull: bv32 := 0
  const CnfOpenDrain: bv32 := 1
  const CnfAfPushPull: bv32 := 2
  const CnfAfOpenDrain: bv32 := 3

  /** The 4-bit pin configuration built from `cnf` and `mode`. Out-of-range
      enumerators are not rejected: they are cut to four bits after combining,
      so a `mode` above 3 leaks into the CNF bits. */
  function PinConfig(mode: bv32, cnf: bv32): (v: bv32)
    ensures v < 16
  {
    ((cnf << 2) | mode) & 0xF
  }

  /** For enumerators in range, the low two bits of the configuration are the
      mode and the high two the CNF value. */
  lemma PinConfigParts(mode: bv32, cnf: bv32)
    requires mode < 4 && cnf < 4
    ensures PinConfig(mode, cnf) & 3 == mode && PinConfig(mode, cnf) >> 2 == cnf
  {
  }

  /** `CFGLR` with the field of `pin` cleared and `val` put into it. */
  function ConfigInserted(w: bv32, pin: bv32, val: bv32): bv32
    requires pin < 8 && val < 16
  {
    Bits.Insert(w, Bits.Field(pin), Bits.Placed(val, pin))
  }

  /** `OUTDR` with bit `pin` set when `high` and cleared otherwise. */
  function PinWritten(w: bv32, pin: bv32, high: bool): bv32
    requires pin < 32
  {
    if high then Bits.Set(w, Bits.Mask(pin)) else Bits.Clear(w, Bits.Mask(pin))
  }

  /** `OUTDR` with bit `pin` flipped. */
  function PinToggled(w: bv32, pin: bv32): bv32
    requires pin < 32
  {
    Bits.Flip(w, Bits.Mask(pin))
  }

  /** A GPIO port's registers. */
  class GpioPort {
    var cfglr: bv32
    var indr: bv32
    var outdr: bv32

    /** `HAL_GPIO_Init(GPIOx, pin, mode, cnf)`. */
    method Init(pin: bv32, mode: bv32, cnf: bv32)
      requires pin < 8
      modifies this`cfglr
      ensures cfglr == ConfigInserted(old(cfglr), pin, PinConfig(mode, cnf))
    {
      cfglr := cfglr & !Bits.Field(pin);
      var val := ((cnf << 2) | mode) & 0xF;
      cfglr := cfglr | Bits.Placed(val, pin);
    }

    /** `HAL_GPIO_WritePin(GPIOx, pin, state)`: any nonzero state drives high. */
    method WritePin(pin: bv32, state: bv8)
      requires pin < 32
      modifies this`outdr
      ensures outdr == PinWritten(old(outdr), pin, state != 0)
    {
      if state != 0 {
        outdr := outdr | Bits.Mask(pin);
      } else {
        outdr := outdr & !Bits.Mask(pin);
      }
    }

    /** `HAL_GPIO_TogglePin(GPIOx, pin)`. */
    method TogglePin(pin: bv32)
      requires pin < 32
      modifies this`outdr
      ensures outdr == PinToggled(old(outdr), pin)
    {
      outdr := outdr ^ Bits.Mask(pin);
    }

    /** `HAL_GPIO_ReadPin(GPIOx, pin)`: the level of `pin`, as 0 or 1. */
    method ReadPin(pin: bv32) returns (level: bv8)
      requires pin < 32
      ensures level == 0 || level == 1
      ensures level == 1 <==> Bits.Bit(indr, pin)
    {
      level := ((indr >> pin) & 1) as bv8;
    }
  }

  // ---------------------------------------------------------------------
  // What the register updates do, pin by pin

  /** Configuring `pin` gives its field the new value and keeps every other
      pin's field. */
  lemma ConfigFields(w: bv32, pin: bv32, val: bv32)
    requires pin < 8 && val < 16
    ensures Bits.Nibble(ConfigInserted(w, pin, val), pin) == val
    ensures forall j: bv32 :: j < 8 && j != pin ==>
      Bits.Nibble(ConfigInserted(w, pin, val), j) == Bits.Nibble(w, j)
  {
    InsertSetsField(w, pin, val);
    forall j: bv32 | j < 8 && j != pin
      ensures Bits.Nibble(ConfigInserted(w, pin, val), j) == Bits.Nibble(w, j)
    {
      InsertKeepsField(w, pin, val, j);
    }
  }

  lemma InsertSetsField(w: bv32, pin: bv32, val: bv32)
    requires pin < 8 && val < 16
    ensures Bits.Nibble(ConfigInserted(w, pin, val), pin) == val
  {
  }

  /** The shifted configuration stays inside its pin's field. */
  lemma ValueInField(pin: bv32, val: bv32)
    requires pin < 8 && val < 16
    ensures Bits.Placed(val, pin) & !Bits.Field(pin) == 0
  {
  }

  lemma InsertKeepsField(w: bv32, pin: bv32, val: bv32, j: bv32)
    requires pin < 8 && val < 16 && j < 8 && j != pin
    ensures Bits.Nibble(ConfigInserted(w, pin, val), j) == Bits.Nibble(w, j)
  {
    Bits.FieldsDisjoint(pin, j);
    ValueInField(pin, val);
    Bits.InsertOutside(w, Bits.Field(pin), Bits.Placed(val, pin), Bits.Field(j));
    Bits.NibbleOfField(ConfigInserted(w, pin, val), j);
    Bits.NibbleOfField(w, j);
  }

  /** A write drives `pin` to the requested level and keeps every other pin. */
  lemma WrittenBits(w: bv32, pin: bv32, high: bool)
    requires pin < 32
    ensures Bits.Bit(PinWritten(w, pin, high), pin) == high
    ensures forall k: bv32 :: k < 32 && k != pin ==>
      Bits.Bit(PinWritten(w, pin, high), k) == Bits.Bit(w, k)
  {
    if high {
      Bits.SetSetsBit(w, pin);
      forall k: bv32 | k < 32 && k != pin
        ensures Bits.Bit(PinWritten(w, pin, high), k) == Bits.Bit(w, k)
      {
        Bits.SetKeepsBit(w, pin, k);
      }
    } else {
      Bits.ClearClearsBit(w, pin);
      forall k: bv32 | k < 32 && k != pin
        ensures Bits.Bit(PinWritten(w, pin, high), k) == Bits.Bit(w, k)
      {
        Bits.ClearKeepsBit(w, pin, k);
      }
    }
  }

  /** A toggle inverts `pin` and keeps every other pin. */
  lemma ToggledBits(w: bv32, pin: bv32)
    requires pin < 32
    ensures Bits.Bit(PinToggled(w, pin), pin) == !Bits.Bit(w, pin)
    ensures forall k: bv32 :: k < 32 && k != pin ==>
      Bits.Bit(PinToggled(w, pin), k) == Bits.Bit(w, k)
  {
    Bits.FlipFlipsBit(w, pin);
    forall k: bv32 | k < 32 && k != pin
      ensures Bits.Bit(PinToggled(w, pin), k) == Bits.Bit(w, k)
    {
      Bits.FlipKeepsBit(w, pin, k);
    }
  }

  // ---------------------------------------------------------------------
  // Laws of the register updates

  /** Configuring one pin twice keeps only the second configuration. */
  lemma ConfigOverwrites(w: bv32, pin: bv32, a: bv32, b: bv32)
    requires pin < 8 && a < 16 && b < 16
    ensures ConfigInserted(ConfigInserted(w, pin, a), pin, b) == ConfigInserted(w, pin, b)
  {
    ValueInField(pin, a);
    Bits.InsertOverwrites(w, Bits.Field(pin), Bits.Placed(a, pin), Bits.Placed(b, pin));
  }

  /** Configuring two different pins gives the same register in either order. */
  lemma ConfigCommutes(w: bv32, p: bv32, q: bv32, a: bv32, b: bv32)
    requires p < 8 && q < 8 && p != q && a < 16 && b < 16
    ensures ConfigInserted(ConfigInserted(w, p, a), q, b) == ConfigInserted(ConfigInserted(w, q, b), p, a)
  {
    Bits.FieldsDisjoint(p, q);
    ValueInField(p, a);
    ValueInField(q, b);
    Bits.InsertCommutes(w, Bits.Field(p), Bits.Placed(a, p), Bits.Field(q), Bits.Placed(b, q));
  }

  /** Toggling a pin twice restores the latch. */
  lemma ToggleTwice(w: bv32, pin: bv32)
    requires pin < 32
    ensures PinToggled(PinToggled(w, pin), pin) == w
  {
    Bits.FlipTwice(w, Bits.Mask(pin));
  }

  /** Toggling is writing the opposite of the present level. */
  lemma ToggleIsWrite(w: bv32, pin: bv32)
    requires pin < 32
    ensures PinToggled(w, pin) == PinWritten(w, pin, !Bits.Bit(w, pin))
  {
    if Bits.Bit(w, pin) {
      Bits.FlipSetBit(w, pin);
    } else {
      Bits.FlipClearBit(w, pin);
    }
  }

  /** A write overrides an earlier write of the same pin. */
  lemma WriteOverridesWrite(w: bv32, pin: bv32, first: bool, high: bool)
    requires pin < 32
    ensures PinWritten(PinWritten(w, pin, first), pin, high) == PinWritten(w, pin, high)
  {
    var m := Bits.Mask(pin);
    if first && high {
      Bits.SetAfterSet(w, m);
    } else if first {
      Bits.ClearAfterSet(w, m);
    } else if high {
      Bits.SetAfterClear(w, m);
    } else {
      Bits.ClearAfterClear(w, m);
    }
  }

  /** A write overrides an earlier toggle of the same pin. */
  lemma WriteOverridesToggle(w: bv32, pin: bv32, high: bool)
    requires pin < 32
    ensures PinWritten(PinToggled(w, pin), pin, high) == PinWritten(w, pin, high)
  {
    if high {
      Bits.SetAfterFlip(w, Bits.Mask(pin));
    } else {
      Bits.ClearAfterFlip(w, Bits.Mask(pin));
    }
  }
}
