/**
 * The 6502 register file and the status register `CpuFlags`
 * (crates/res-core/src/cpu.rs and src/cpu.rs, the `bitflags!` block). The status
 * register is a byte; each flag is one bit of it.
 */
module Registers {
  import opened Bytes

  const CARRY: bv8 := 0x01
  const ZERO: bv8 := 0x02
  const INTERRUPT_DISABLE: bv8 := 0x04
  const DECIMAL_MODE: bv8 := 0x08
  const BREAK: bv8 := 0x10
  /** Bit 5, which is pushed set and never cleared by PLP. */
  const BREAK2: bv8 := 0x20
  const OVERFLOW: bv8 := 0x40
  const NEGATIVE: bv8 := 0x80

  /** The stack page is 0x0100-0x01FF; the stack pointer starts at 0xFD. */
  const STACK: bv16 := 0x0100
  const STACK_RESET: bv8 := 0xFD
  /** `CpuFlags::from_bits_truncate(0b100100)`: I and bit 5 set. */
  const STATUS_RESET: bv8 := 0x24

  predicate IsFlag(f: bv8) {
    f == CARRY || f == ZERO || f == INTERRUPT_DISABLE || f == DECIMAL_MODE ||
    f == BREAK || f == BREAK2 || f == OVERFLOW || f == NEGATIVE
  }

  /** `status.contains(f)`. */
  predicate Has(p: bv8, f: bv8) {
    p & f != 0
  }

  /** `status.set(f, on)` (also `insert` and `remove`): one flag changes, every other bit stays. */
  function With(p: bv8, f: bv8, on: bool): (q: bv8)
    requires IsFlag(f)
    ensures Has(q, f) == on
    ensures q & !f == p & !f
  {
    if on then p | f else p & !f
  }

  /** `update_zero_and_negative_flags`: Z iff the byte is zero, N is its bit 7, nothing else changes. */
  function WithZN(p: bv8, v: bv8): (q: bv8)
    ensures Has(q, ZERO) <==> v == 0
    ensures Has(q, NEGATIVE) <==> Negative(v)
    ensures q & !(ZERO | NEGATIVE) == p & !(ZERO | NEGATIVE)
  {
    With(With(p, ZERO, v == 0), NEGATIVE, v >> 7 == 1)
  }

  /** `update_negative_flags`: only N follows the byte. */
  function WithN(p: bv8, v: bv8): (q: bv8)
    ensures Has(q, NEGATIVE) <==> Negative(v)
    ensures q & !NEGATIVE == p & !NEGATIVE
  {
    With(p, NEGATIVE, v >> 7 == 1)
  }

  /** The CPU registers: accumulator, index registers, status, program counter, stack pointer. */
  datatype Regs = Regs(a: bv8, x: bv8, y: bv8, status: bv8, pc: bv16, sp: bv8)

  /** The registers after `CPU::new()` and after `reset()` (before the reset vector is read). */
  const PowerOn: Regs := Regs(0, 0, 0, STATUS_RESET, 0, STACK_RESET)
}
