/** The bit fields of the GPIO data registers that the LED, the buzzer
    and the button use, and what setting or clearing one of them keeps. */
module Registers {

  /** The LED channels PD0-PD1. */
  function Leds(d: bv32): bv32
  {
    d & 0x03
  }

  /** The bits of port D other than the LED channels. */
  function OtherD(d: bv32): bv32
  {
    d & !0x03
  }

  /** The bits of port F other than the buzzer (PF1) and the button (PF4). */
  function OtherF(f: bv32): bv32
  {
    f & !0x12
  }

  /** PF1, the buzzer. */
  predicate Buzzing(f: bv32)
  {
    f & 0x02 != 0
  }

  /** The button pulls PF4 low while pressed; the pull-up holds it high
      otherwise. */
  predicate ButtonDown(f: bv32)
  {
    f & 0x10 == 0
  }

  // One fact per lemma: the bit-vector solver slows down sharply when
  // several masked equalities are proved together.

  lemma LedsSetMasked(d: bv32, bits: bv32)
    requires bits <= 0x03
    ensures ((d & !0x03) | bits) & !0x03 == d & !0x03
  {
  }

  lemma LedsSetKeeps(d: bv32, bits: bv32)
    requires bits <= 0x03
    ensures OtherD((d & !0x03) | bits) == OtherD(d)
  {
    LedsSetMasked(d, bits);
  }

  lemma LedsSetLow(d: bv32, bits: bv32)
    requires bits <= 0x03
    ensures ((d & !0x03) | bits) & 0x03 == bits
  {
  }

  lemma LedsSetShows(d: bv32, bits: bv32)
    requires bits <= 0x03
    ensures Leds((d & !0x03) | bits) == bits
  {
    LedsSetLow(d, bits);
  }

  lemma LedsClearKeeps(d: bv32)
    ensures OtherD(d & !0x03) == OtherD(d)
  {
  }

  lemma BuzzerSetKeeps(f: bv32)
    ensures OtherF(f | 0x02) == OtherF(f) && ButtonDown(f | 0x02) == ButtonDown(f)
  {
  }

  lemma BuzzerClearKeeps(f: bv32)
    ensures OtherF(f & !0x02) == OtherF(f) && ButtonDown(f & !0x02) == ButtonDown(f)
  {
  }

  lemma ButtonLowKeeps(f: bv32)
    ensures OtherF(f & !0x10) == OtherF(f)
  {
  }

  lemma ButtonHighKeeps(f: bv32)
    ensures OtherF(f | 0x10) == OtherF(f)
  {
  }
}
