/**
 * Operand-address resolution, shared by both CPU engines. The resolution of a
 * mode only ever looks at the operand bytes following the opcode and, for the
 * indirect modes, at a pointer held in the zero page, so it is stated over
 * those bytes: `lo` is the byte at the program counter, `hi` the byte after
 * it, `zeroPage` the 256 bytes at 0x0000-0x00FF.
 */
module Addressing {
  import opened Bytes

  datatype AddressingMode =
    | Immediate
    | ZeroPage
    | ZeroPageX
    | ZeroPageY
    | Absolute
    | AbsoluteX
    | AbsoluteY
    | IndirectX
    | IndirectY
    | NoneAddressing

  /** The modes whose address is an 8-bit zero-page address. */
  predicate IsZeroPageMode(mode: AddressingMode) {
    mode.ZeroPage? || mode.ZeroPageX? || mode.ZeroPageY?
  }

  /** The modes that add an index register to a 16-bit base (the ones `did_page_cross` inspects). */
  predicate IsIndexedMode(mode: AddressingMode) {
    mode.AbsoluteX? || mode.AbsoluteY? || mode.IndirectY?
  }

  /** The two bytes of a zero-page pointer at `p`; the second one wraps to 0x00 after 0xFF. */
  function ZeroPagePointer(zeroPage: seq<bv8>, p: bv8): (w: bv16)
    requires |zeroPage| == 256
    ensures Lo(w) == zeroPage[p] && Hi(w) == zeroPage[p + 1]
  {
    Word(zeroPage[p], zeroPage[p + 1])
  }

  /** `get_operand_address`: the effective address of the operand. */
  function OperandAddress(mode: AddressingMode, pc: bv16, lo: bv8, hi: bv8, x: bv8, y: bv8, zeroPage: seq<bv8>): (r: bv16)
    requires |zeroPage| == 256 && mode != NoneAddressing
    // an immediate operand is the byte at the program counter
    ensures mode.Immediate? ==> r == pc
    // zero-page modes, indexed ones included, never leave the zero page
    ensures IsZeroPageMode(mode) ==> r < 0x100
  {
    match mode
    case Immediate => pc
    case ZeroPage => lo as bv16
    case Absolute => Word(lo, hi)
    case ZeroPageX => (lo + x) as bv16
    case ZeroPageY => (lo + y) as bv16
    case AbsoluteX => Word(lo, hi) + x as bv16
    case AbsoluteY => Word(lo, hi) + y as bv16
    case IndirectX => ZeroPagePointer(zeroPage, lo + x)
    case IndirectY => ZeroPagePointer(zeroPage, lo) + y as bv16
  }

  /** Zero-page indexing wraps around inside page zero: the address is the operand plus the index, modulo 0x100. */
  lemma ZeroPageWraps(mode: AddressingMode, pc: bv16, lo: bv8, hi: bv8, x: bv8, y: bv8, zeroPage: seq<bv8>)
    requires |zeroPage| == 256 && IsZeroPageMode(mode)
    ensures var r := OperandAddress(mode, pc, lo, hi, x, y, zeroPage);
      Hi(r) == 0 && Lo(r) == lo + (if mode.ZeroPageX? then x else if mode.ZeroPageY? then y else 0)
  {
    match mode
    case ZeroPage => ZeroExtend(lo);
    case ZeroPageX => ZeroExtend(lo + x);
    case ZeroPageY => ZeroExtend(lo + y);
  }

  lemma ZeroExtend(b: bv8)
    ensures Hi(b as bv16) == 0 && Lo(b as bv16) == b
  {
  }

  /** An absolute operand is little-endian: the byte after the opcode is the low byte of the address. */
  lemma AbsoluteIsLittleEndian(pc: bv16, lo: bv8, hi: bv8, x: bv8, y: bv8, zeroPage: seq<bv8>)
    requires |zeroPage| == 256
    ensures var r := OperandAddress(Absolute, pc, lo, hi, x, y, zeroPage);
      Lo(r) == lo && Hi(r) == hi
  {
  }

  /**
   * Pre-indexed indirect reads its pointer at operand + X in the zero page,
   * and its second pointer byte wraps to 0x00 after 0xFF.
   */
  lemma IndirectXPointer(pc: bv16, lo: bv8, hi: bv8, x: bv8, y: bv8, zeroPage: seq<bv8>)
    requires |zeroPage| == 256
    ensures var r := OperandAddress(IndirectX, pc, lo, hi, x, y, zeroPage);
      Lo(r) == zeroPage[lo + x] && Hi(r) == zeroPage[lo + x + 1]
  {
  }

  /** The base and base + index lie in different 256-byte pages. */
  predicate Crosses(base: bv16, index: bv8) {
    (base & 0xFF00) != ((base + index as bv16) & 0xFF00)
  }

  /** `did_page_cross`: an indexed mode whose base and effective address lie in different pages. */
  function DidPageCross(mode: AddressingMode, lo: bv8, hi: bv8, x: bv8, y: bv8, zeroPage: seq<bv8>): (crossed: bool)
    requires |zeroPage| == 256
    ensures crossed ==> IsIndexedMode(mode)
  {
    match mode
    case AbsoluteX => Crosses(Word(lo, hi), x)
    case AbsoluteY => Crosses(Word(lo, hi), y)
    case IndirectY => Crosses(ZeroPagePointer(zeroPage, lo), y)
    case _ => false
  }

  /**
   * Adding an index to a base crosses a page exactly when the low-byte
   * addition carries; the sum then lies in the next page, and otherwise in
   * the base's own page. Its low byte is always the base's plus the index.
   */
  lemma CrossesIsCarry(base: bv16, index: bv8)
    ensures Crosses(base, index) <==> Lo(base) as bv16 + index as bv16 > 0xFF
    ensures Hi(base + index as bv16) == if Crosses(base, index) then Hi(base) + 1 else Hi(base)
    ensures Lo(base + index as bv16) == Lo(base) + index
  {
    CrossesIffCarry(base, index);
    CrossesHighByte(base, index);
    IndexedLowByte(base, index);
  }

  lemma CrossesIffCarry(base: bv16, index: bv8)
    ensures Crosses(base, index) <==> Lo(base) as bv16 + index as bv16 > 0xFF
  {
  }

  lemma CrossesHighByte(base: bv16, index: bv8)
    ensures Hi(base + index as bv16) == if Crosses(base, index) then Hi(base) + 1 else Hi(base)
  {
  }

  lemma IndexedLowByte(base: bv16, index: bv8)
    ensures Lo(base + index as bv16) == Lo(base) + index
  {
  }

  /**
   * The indexed modes add X or Y to a 16-bit base, modulo 0x10000, and
   * `did_page_cross` compares that base with the sum; so every indexed mode
   * inherits `CrossesIsCarry`.
   */
  lemma AbsoluteXIsIndexed(pc: bv16, lo: bv8, hi: bv8, x: bv8, y: bv8, zeroPage: seq<bv8>)
    requires |zeroPage| == 256
    ensures OperandAddress(AbsoluteX, pc, lo, hi, x, y, zeroPage) == Word(lo, hi) + x as bv16
    ensures DidPageCross(AbsoluteX, lo, hi, x, y, zeroPage) == Crosses(Word(lo, hi), x)
  {
  }

  lemma AbsoluteYIsIndexed(pc: bv16, lo: bv8, hi: bv8, x: bv8, y: bv8, zeroPage: seq<bv8>)
    requires |zeroPage| == 256
    ensures OperandAddress(AbsoluteY, pc, lo, hi, x, y, zeroPage) == Word(lo, hi) + y as bv16
    ensures DidPageCross(AbsoluteY, lo, hi, x, y, zeroPage) == Crosses(Word(lo, hi), y)
  {
  }

  lemma IndirectYIsIndexed(pc: bv16, lo: bv8, hi: bv8, x: bv8, y: bv8, zeroPage: seq<bv8>)
    requires |zeroPage| == 256
    ensures OperandAddress(IndirectY, pc, lo, hi, x, y, zeroPage) == ZeroPagePointer(zeroPage, lo) + y as bv16
    ensures DidPageCross(IndirectY, lo, hi, x, y, zeroPage) == Crosses(ZeroPagePointer(zeroPage, lo), y)
  {
  }

  /** `opcode_has_page_cross_penalty`: the read instructions that pay a cycle for a crossed page. */
  predicate HasPageCrossPenalty(code: bv8): (b: bool)
    ensures b ==> code & 0x10 == 0x10
    ensures b ==> code & 0xE0 != 0x80
  {
    code in {0xbd, 0xb9, 0xb1, 0x7d, 0x79, 0x71, 0xfd, 0xf9, 0xf1, 0x3d, 0x39, 0x31,
             0x5d, 0x59, 0x51, 0x1d, 0x19, 0x11, 0xdd, 0xd9, 0xd1, 0xbe, 0xbc}
  }
}
