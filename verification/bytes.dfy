/**
 * Byte and word helpers shared by every component. The 6502 is an 8-bit machine
 * with a 16-bit address space; the source computes with Rust `u8`/`u16` and
 * `wrapping_add`/`wrapping_sub`, which Dafny's `bv8`/`bv16` give natively
 * (their `+` and `-` wrap). Casts that truncate (`as u8` of a `u16`) are
 * written out with masks and shifts.
 */
module Bytes {
  /** The low byte of a word, `(data & 0xff) as u8`. */
  function Lo(w: bv16): bv8 {
    (w & 0xFF) as bv8
  }

  /** The high byte of a word, `(data >> 8) as u8`. */
  function Hi(w: bv16): bv8 {
    (w >> 8) as bv8
  }

  /** The little-endian word `(hi as u16) << 8 | (lo as u16)`. */
  function Word(lo: bv8, hi: bv8): (w: bv16)
    ensures Lo(w) == lo && Hi(w) == hi
  {
    ((hi as bv16) << 8) | lo as bv16
  }

  lemma WordOfBytes(w: bv16)
    ensures Word(Lo(w), Hi(w)) == w
  {
  }

  /** Bit 7, the sign bit of a byte read as a two's-complement number. */
  predicate Negative(b: bv8) {
    b & 0x80 != 0
  }

  /** `(b as i8) as u16`: the byte read as a signed number, widened to a word. */
  function SignExtend(b: bv8): (w: bv16)
    ensures Lo(w) == b
    ensures Hi(w) == if Negative(b) then 0xFF else 0x00
  {
    if Negative(b) then 0xFF00 | b as bv16 else b as bv16
  }

  /** The 0/1 value of a carry flag, as a byte and as a word. */
  function CarryBit(c: bool): bv8 {
    if c then 1 else 0
  }

  function CarryWord(c: bool): bv16 {
    if c then 1 else 0
  }

  /** Distinct addresses index distinct cells. */
  lemma IndexInjective(a: bv16, b: bv16)
    ensures a != b ==> a as int != b as int
  {
    if a as int == b as int {
      assert a == (a as int) as bv16 && b == (b as int) as bv16;
    }
  }
}
