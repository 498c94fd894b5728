/**
 * The arithmetic shared by the two CPU engines: add with carry (and subtract,
 * which the source performs as an addition of the complemented operand), the
 * shifts and rotates, compare, and the status byte pushed and pulled by
 * PHP/PLP. Everything is on bytes, so every property is stated without
 * leaving bit-vector arithmetic: "the exact 9-bit sum" is a `bv16` sum, "the
 * signed value" is the sign-extended `bv16`.
 */
module Alu {
  import opened Bytes
  import opened Registers

  /** The accumulator, carry and overflow produced by `add_to_register_a`. */
  datatype Sum = Sum(result: bv8, carry: bool, overflow: bool)

  /**
   * `add_to_register_a`: sum in 16 bits, carry when it exceeds 0xFF, result
   * truncated to a byte, overflow from `(m ^ r) & (r ^ a) & 0x80`.
   */
  function AddWithCarry(a: bv8, m: bv8, carryIn: bool): (s: Sum)
    // carry and result together are the exact unsigned 9-bit sum
    ensures (if s.carry then 0x100 else 0) + s.result as bv16 == a as bv16 + m as bv16 + CarryWord(carryIn)
    // overflow: both operands have one sign and the result the other
    ensures s.overflow <==> Negative(a) == Negative(m) && Negative(s.result) != Negative(a)
  {
    var sum: bv16 := a as bv16 + m as bv16 + CarryWord(carryIn);
    var result := (sum & 0xFF) as bv8;
    Sum(result, sum > 0xFF, (m ^ result) & (result ^ a) & 0x80 != 0)
  }

  lemma SumIsExact(a: bv8, m: bv8, c: bool)
    ensures (if AddWithCarry(a, m, c).carry then 0x100 else 0) + AddWithCarry(a, m, c).result as bv16 == a as bv16 + m as bv16 + CarryWord(c)
  {
  }

  lemma OverflowSameSign(a: bv8, m: bv8, c: bool)
    requires Negative(a) == Negative(m)
    ensures !AddWithCarry(a, m, c).overflow <==>
      SignExtend(AddWithCarry(a, m, c).result) == SignExtend(a) + SignExtend(m) + CarryWord(c)
  {
  }

  lemma OverflowMixedSign(a: bv8, m: bv8, c: bool)
    requires Negative(a) != Negative(m)
    ensures !AddWithCarry(a, m, c).overflow <==>
      SignExtend(AddWithCarry(a, m, c).result) == SignExtend(a) + SignExtend(m) + CarryWord(c)
  {
  }

  /**
   * The overflow flag of ADC is set exactly when the result byte, read as a
   * signed number, is not the true signed sum of the operands and the carry.
   */
  lemma OverflowIsSignedError(a: bv8, m: bv8, c: bool)
    ensures !AddWithCarry(a, m, c).overflow <==>
      SignExtend(AddWithCarry(a, m, c).result) == SignExtend(a) + SignExtend(m) + CarryWord(c)
  {
    if Negative(a) == Negative(m) {
      OverflowSameSign(a, m, c);
    } else {
      OverflowMixedSign(a, m, c);
    }
  }

  /** `((data as i8).wrapping_neg().wrapping_sub(1)) as u8`, the operand SBC passes to the adder. */
  function SbcOperand(m: bv8): (r: bv8)
    ensures r == !m
    ensures Negative(r) == !Negative(m)
  {
    -m - 1
  }

  /** The adder's result is the byte sum A + M + C, wrapping. */
  lemma ResultWraps(a: bv8, m: bv8, carryIn: bool)
    ensures AddWithCarry(a, m, carryIn).result == a + m + CarryBit(carryIn)
  {
  }

  /** SBC is ADC of the complemented operand, and its result is A - M - (1 - C). */
  lemma SubtractResult(a: bv8, m: bv8, carryIn: bool)
    ensures AddWithCarry(a, SbcOperand(m), carryIn).result == a - m - CarryBit(!carryIn)
  {
    ResultWraps(a, SbcOperand(m), carryIn);
    assert a + !m + CarryBit(carryIn) == a - m - CarryBit(!carryIn);
  }

  /** After SBC the carry means "no borrow": A was at least M + (1 - C). */
  lemma SubtractCarry(a: bv8, m: bv8, carryIn: bool)
    ensures AddWithCarry(a, SbcOperand(m), carryIn).carry <==> a as bv16 >= m as bv16 + CarryWord(!carryIn)
  {
  }

  /** After SBC, overflow means the operands differ in sign and the result lost A's sign. */
  lemma SubtractOverflow(a: bv8, m: bv8, carryIn: bool)
    ensures AddWithCarry(a, SbcOperand(m), carryIn).overflow <==>
      Negative(a) != Negative(m) && Negative(a - m - CarryBit(!carryIn)) != Negative(a)
  {
    SubtractResult(a, m, carryIn);
  }

  /** A shifted or rotated byte and the bit shifted out into the carry. */
  datatype Shifted = Shifted(value: bv8, carry: bool)

  /** ASL: bit 7 goes to the carry, 0 enters bit 0. */
  function ShiftLeft(v: bv8): (s: Shifted)
    ensures (if s.carry then 0x100 else 0) + s.value as bv16 == 2 * v as bv16
  {
    Shifted(v << 1, v >> 7 == 1)
  }

  /** LSR: bit 0 goes to the carry, 0 enters bit 7. */
  function ShiftRight(v: bv8): (s: Shifted)
    ensures 2 * s.value + CarryBit(s.carry) == v
    ensures !Negative(s.value)
  {
    Shifted(v >> 1, v & 1 == 1)
  }

  /** ROL: a 9-bit rotation of carry:byte one place left. */
  function RotateLeft(v: bv8, carryIn: bool): (s: Shifted)
    ensures (if s.carry then 0x100 else 0) + s.value as bv16 == 2 * v as bv16 + CarryWord(carryIn)
  {
    var shifted := v << 1;
    Shifted(if carryIn then shifted | 1 else shifted, v >> 7 == 1)
  }

  /** ROR: a 9-bit rotation of carry:byte one place right. */
  function RotateRight(v: bv8, carryIn: bool): (s: Shifted)
    ensures (if carryIn then 0x100 else 0) + v as bv16 == 2 * s.value as bv16 + CarryWord(s.carry)
  {
    var shifted := v >> 1;
    Shifted(if carryIn then shifted | 0x80 else shifted, v & 1 == 1)
  }

  /** ROR undoes ROL and ROL undoes ROR, carry included. */
  lemma RotateRoundTrip(v: bv8, c: bool)
    ensures RotateRight(RotateLeft(v, c).value, RotateLeft(v, c).carry) == Shifted(v, c)
    ensures RotateLeft(RotateRight(v, c).value, RotateRight(v, c).carry) == Shifted(v, c)
  {
  }

  /** `compare`: C iff the register is at least the operand, Z iff they are equal, N from their difference. */
  function Compare(p: bv8, reg: bv8, m: bv8): (q: bv8)
    ensures Has(q, CARRY) <==> reg >= m
    ensures Has(q, ZERO) <==> reg == m
    ensures Has(q, NEGATIVE) <==> Negative(reg - m)
    ensures q & !(CARRY | ZERO | NEGATIVE) == p & !(CARRY | ZERO | NEGATIVE)
  {
    WithZN(With(p, CARRY, m <= reg), reg - m)
  }

  /** `php`: the status is pushed with BREAK and bit 5 set. */
  function PhpStatus(p: bv8): (q: bv8)
    ensures Has(q, BREAK) && Has(q, BREAK2)
    ensures q & !(BREAK | BREAK2) == p & !(BREAK | BREAK2)
  {
    With(With(p, BREAK, true), BREAK2, true)
  }

  /** `push_interrupt_state`: the status is pushed with BREAK as given and bit 5 set. */
  function InterruptStatus(p: bv8, breakFlag: bool): (q: bv8)
    ensures Has(q, BREAK) == breakFlag && Has(q, BREAK2)
    ensures q & !(BREAK | BREAK2) == p & !(BREAK | BREAK2)
  {
    With(With(p, BREAK, breakFlag), BREAK2, true)
  }

  /** `plp` and RTI: the pulled byte becomes the status with BREAK cleared and bit 5 set. */
  function PulledStatus(b: bv8): (q: bv8)
    ensures !Has(q, BREAK) && Has(q, BREAK2)
    ensures q & !(BREAK | BREAK2) == b & !(BREAK | BREAK2)
  {
    With(With(b, BREAK, false), BREAK2, true)
  }

  /** PHP followed by PLP restores every flag except BREAK, which PLP clears. */
  lemma PhpPlpRoundTrip(p: bv8)
    requires Has(p, BREAK2)
    ensures PulledStatus(PhpStatus(p)) == With(p, BREAK, false)
  {
  }
}
