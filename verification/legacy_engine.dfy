/**
 * The older CPU engine of src/cpu.rs as functions on a machine value. Its
 * registers, decoding and most handlers are those of the current engine;
 * what differs is the memory, a plain array of 0xFFFF bytes with no
 * devices behind it, the missing cycle count, BIT (V is copied from bit 7)
 * and memory ROL/ROR (which also set Z).
 *
 * The array has one cell fewer than the address space, so indexing it at
 * 0xFFFF panics; so does a byte missing from the opcode table, and a byte
 * the table lists but the `match` does not handle. A function whose Rust
 * counterpart can panic returns `None` where it would; the run loop turns
 * that into a `Panicked` outcome.
 */
module LegacyEngine {
  import opened Wrappers
  import opened Bytes
  import opened Registers
  import opened Addressing
  import opened Opcodes
  import opened Decoding
  import Alu
  import Engine
  import EngineStep

  /** `memory: [u8; 0xffff]`. */
  const MEMORY_SIZE: nat := 0xFFFF
  /** `load` copies the program to 0x8000 and stores that address in the reset vector at 0xFFFC. */
  const PROGRAM_START: bv16 := 0x8000
  const RESET_VECTOR: bv16 := 0xFFFC

  /** The registers and the memory array. */
  datatype Machine = Machine(regs: Regs, mem: seq<bv8>)
  {
    predicate Valid() {
      |mem| == MEMORY_SIZE
    }
  }

  // ---------------------------------------------------------------- memory

  /** An address the array has a cell for: every address but 0xFFFF. */
  predicate InBounds(addr: bv16) {
    addr != 0xFFFF
  }

  /** The cell an address in bounds indexes. */
  lemma CellIndex(addr: bv16)
    requires InBounds(addr)
    ensures addr as int < MEMORY_SIZE
  {
    IndexInjective(addr, 0xFFFF);
  }

  /** `mem_read`: the byte, or `None` where indexing the array panics. */
  function Read(m: Machine, addr: bv16): (r: Option<bv8>)
    requires m.Valid()
    ensures r.Some? <==> InBounds(addr)
  {
    if InBounds(addr) then CellIndex(addr); Some(m.mem[addr as int]) else None
  }

  /** `mem_write`: one cell changes, or `None` where indexing the array panics. */
  function Write(m: Machine, addr: bv16, data: bv8): (r: Option<Machine>)
    requires m.Valid()
    ensures r.Some? <==> InBounds(addr)
    ensures r.Some? ==> r.value.Valid() && r.value.regs == m.regs
  {
    if !InBounds(addr) then None else Some(Store(m, addr, data))
  }

  /** The array with one cell replaced. */
  function Store(m: Machine, addr: bv16, data: bv8): (r: Machine)
    requires m.Valid() && InBounds(addr)
    ensures r.Valid() && r.regs == m.regs
  {
    CellIndex(addr);
    m.(mem := m.mem[addr as int := data])
  }

  /**
   * `mem_read_u16`: little-endian. The second byte is at `pos + 1`, so the
   * word at 0xFFFE panics on its high byte and the one at 0xFFFF on its low
   * byte; no read wraps to 0x0000.
   */
  function ReadWord(m: Machine, pos: bv16): (r: Option<bv16>)
    requires m.Valid()
    ensures r.Some? <==> pos < 0xFFFE
  {
    match (Read(m, pos), Read(m, pos + 1))
    case (Some(lo), Some(hi)) => Some(Word(lo, hi))
    case _ => None
  }

  /** `mem_write_u16`: the low byte at `pos`, then the high byte at `pos + 1`. */
  function WriteWord(m: Machine, pos: bv16, data: bv16): (r: Option<Machine>)
    requires m.Valid()
    ensures r.Some? <==> pos < 0xFFFE
    ensures r.Some? ==> r.value.Valid() && r.value.regs == m.regs
  {
    match Write(m, pos, Lo(data))
    case None => None
    case Some(m1) => Write(m1, pos + 1, Hi(data))
  }

  /** The 256 bytes of page zero, where the indirect modes find their pointers. */
  function ZeroPage(m: Machine): (z: seq<bv8>)
    requires m.Valid()
    ensures |z| == 256
  {
    m.mem[..256]
  }

  // ------------------------------------------------------------ addressing

  /** The modes whose operand is a two-byte address (`mem_read_u16` at PC). */
  predicate IsAbsoluteMode(mode: AddressingMode) {
    mode.Absolute? || mode.AbsoluteX? || mode.AbsoluteY?
  }

  /**
   * `get_operand_address`: an immediate operand is at PC; every other mode
   * reads the byte at PC, and the absolute modes the one after it too. The
   * zero-page pointers of the indirect modes are always inside the array.
   */
  function Address(m: Machine, mode: AddressingMode): (r: Option<bv16>)
    requires m.Valid() && mode != NoneAddressing
    ensures r.Some? <==> mode.Immediate? || (if IsAbsoluteMode(mode) then m.regs.pc < 0xFFFE else InBounds(m.regs.pc))
  {
    var pc := m.regs.pc;
    if mode.Immediate? then Some(pc)
    else
      var lo :- Read(m, pc);
      if IsAbsoluteMode(mode) then
        var hi :- Read(m, pc + 1);
        Some(OperandAddress(mode, pc, lo, hi, m.regs.x, m.regs.y, ZeroPage(m)))
      else
        Some(OperandAddress(mode, pc, lo, 0, m.regs.x, m.regs.y, ZeroPage(m)))
  }

  /** The byte at the operand address: what `lda`, `adc`, `cmp` and the others read. */
  function Operand(m: Machine, mode: AddressingMode): (r: Option<bv8>)
    requires m.Valid() && mode != NoneAddressing
    ensures r.Some? <==> Address(m, mode).Some? && InBounds(Address(m, mode).value)
  {
    var addr :- Address(m, mode);
    Read(m, addr)
  }

  // ------------------------------------------------------------- registers

  /** `register = v; update_zero_and_negative_flags(v)`, and `set_register_a`. */
  function WithRegister(regs: Regs, reg: Reg, v: bv8): (r: Regs)
    ensures Engine.Register(r, reg) == v && r.pc == regs.pc && r.sp == regs.sp
    ensures r.status == WithZN(regs.status, v)
  {
    var r := match reg
      case RegA => regs.(a := v)
      case RegX => regs.(x := v)
      case RegY => regs.(y := v);
    r.(status := WithZN(regs.status, v))
  }

  function SetRegs(m: Machine, regs: Regs): (r: Machine)
    requires m.Valid()
    ensures r.Valid() && r.mem == m.mem
  {
    m.(regs := regs)
  }

  function SetPc(m: Machine, pc: bv16): (r: Machine)
    requires m.Valid()
    ensures r.Valid() && r.mem == m.mem
  {
    m.(regs := m.regs.(pc := pc))
  }

  // ----------------------------------------------------------------- stack

  /** The stack page lies inside the array. */
  lemma StackInBounds(sp: bv8)
    ensures InBounds(Engine.StackAddress(sp))
    ensures Engine.StackAddress(sp) as int == 0x100 + sp as int
  {
  }

  /** `stack_push`: write at 0x0100 + SP, then decrement SP (wrapping). It never panics. */
  function Push(m: Machine, v: bv8): (r: Machine)
    requires m.Valid()
    ensures r.Valid() && r.regs == m.regs.(sp := m.regs.sp - 1)
  {
    StackInBounds(m.regs.sp);
    m.(mem := m.mem[Engine.StackAddress(m.regs.sp) as int := v], regs := m.regs.(sp := m.regs.sp - 1))
  }

  /** `stack_pop`: increment SP (wrapping), then read at 0x0100 + SP. */
  function Pop(m: Machine): (r: (bv8, Machine))
    requires m.Valid()
    ensures r.1.Valid() && r.1.mem == m.mem && r.1.regs == m.regs.(sp := m.regs.sp + 1)
    ensures Read(m, Engine.StackAddress(m.regs.sp + 1)) == Some(r.0)
  {
    var sp := m.regs.sp + 1;
    StackInBounds(sp);
    (m.mem[Engine.StackAddress(sp) as int], m.(regs := m.regs.(sp := sp)))
  }

  /** `stack_push_u16`: the high byte first, so the low byte ends on top. */
  function PushWord(m: Machine, w: bv16): (r: Machine)
    requires m.Valid()
    ensures r.Valid() && r.regs == m.regs.(sp := m.regs.sp - 2)
  {
    Push(Push(m, Hi(w)), Lo(w))
  }

  /** `stack_pop_u16`: the low byte first. */
  function PopWord(m: Machine): (r: (bv16, Machine))
    requires m.Valid()
    ensures r.1.Valid() && r.1.mem == m.mem && r.1.regs == m.regs.(sp := m.regs.sp + 2)
  {
    var (lo, m1) := Pop(m);
    var (hi, m2) := Pop(m1);
    (Word(lo, hi), m2)
  }

  // -------------------------------------------------------------- handlers

  /** LDA, LDX, LDY. */
  function LoadRegister(m: Machine, mode: AddressingMode, reg: Reg): (r: Option<Machine>)
    requires m.Valid() && mode != NoneAddressing
    ensures r.Some? <==> Operand(m, mode).Some?
    ensures r.Some? ==> r.value == SetRegs(m, WithRegister(m.regs, reg, Operand(m, mode).value))
  {
    var v :- Operand(m, mode);
    Some(SetRegs(m, WithRegister(m.regs, reg, v)))
  }

  /** STA, STX, STY: the register to the operand address; no flag changes. */
  function StoreRegister(m: Machine, mode: AddressingMode, reg: Reg): (r: Option<Machine>)
    requires m.Valid() && mode != NoneAddressing
    ensures r.Some? ==> r.value.Valid() && r.value.regs == m.regs
  {
    var addr :- Address(m, mode);
    Write(m, addr, Engine.Register(m.regs, reg))
  }

  /** ADC: `add_to_refister_a` with the operand, the same adder as the current engine's. */
  function AddOperand(m: Machine, mode: AddressingMode): (r: Option<Machine>)
    requires m.Valid() && mode != NoneAddressing
    ensures r.Some? <==> Operand(m, mode).Some?
    ensures r.Some? ==> r.value == SetRegs(m, Engine.Adder(m.regs, Operand(m, mode).value))
  {
    var v :- Operand(m, mode);
    Some(SetRegs(m, Engine.Adder(m.regs, v)))
  }

  /** SBC: the adder with `((data as i8).wrapping_neg().wrapping_sub(1)) as u8`, the complement of M. */
  function SubtractOperand(m: Machine, mode: AddressingMode): (r: Option<Machine>)
    requires m.Valid() && mode != NoneAddressing
    ensures r.Some? <==> Operand(m, mode).Some?
    ensures r.Some? ==> r.value == SetRegs(m, Engine.Adder(m.regs, Alu.SbcOperand(Operand(m, mode).value)))
  {
    var v :- Operand(m, mode);
    Some(SetRegs(m, Engine.Adder(m.regs, Alu.SbcOperand(v))))
  }

  /** AND, EOR, ORA. */
  function LogicOperand(m: Machine, mode: AddressingMode, ins: Instr): (r: Option<Machine>)
    requires m.Valid() && mode != NoneAddressing && (ins.And? || ins.Eor? || ins.Ora?)
    ensures r.Some? ==> r.value.Valid() && r.value.regs.pc == m.regs.pc
    ensures r.Some? <==> Operand(m, mode).Some?
    // A becomes the combination of A and the operand, Z and N from it; memory is kept
    ensures r.Some? ==> var a := Engine.Logic(ins, m.regs.a, Operand(m, mode).value);
      r.value.mem == m.mem && r.value.regs == m.regs.(a := a, status := WithZN(m.regs.status, a))
  {
    var v :- Operand(m, mode);
    Some(SetRegs(m, WithRegister(m.regs, RegA, Engine.Logic(ins, m.regs.a, v))))
  }

  /** `asl_accumulator`, `lsr_accumulator`, `rol_accumulator`, `ror_accumulator`: C, then A with Z and N. */
  function ShiftAccumulator(regs: Regs, ins: Instr): (r: Regs)
    requires ins.AslAcc? || ins.LsrAcc? || ins.RolAcc? || ins.RorAcc?
    ensures r.pc == regs.pc
    // A is the shifted byte, C the bit shifted out, Z and N from the new A
    ensures var s := Engine.ShiftOf(ins, regs.a, Has(regs.status, CARRY));
      r == regs.(a := s.value, status := WithZN(With(regs.status, CARRY, s.carry), s.value))
  {
    var s := Engine.ShiftOf(ins, regs.a, Has(regs.status, CARRY));
    WithRegister(regs.(status := With(regs.status, CARRY, s.carry)), RegA, s.value)
  }

  /** The status after a shift or rotate in memory: C from the bit shifted out, then Z and N from the result. */
  function ShiftStatus(p: bv8, s: Alu.Shifted): bv8 {
    WithZN(With(p, CARRY, s.carry), s.value)
  }

  /**
   * `asl`, `lsr`, `rol`, `ror` on memory: read, shift, write back. All four
   * set Z and N from the result here (the current engine's ROL and ROR set
   * only N).
   */
  function ShiftMemory(m: Machine, mode: AddressingMode, ins: Instr): (r: Option<Machine>)
    requires m.Valid() && mode != NoneAddressing && (ins.Asl? || ins.Lsr? || ins.Rol? || ins.Ror?)
    ensures r.Some? ==> r.value.Valid() && r.value.regs.pc == m.regs.pc
  {
    var addr :- Address(m, mode);
    var v :- Read(m, addr);
    var s := Engine.ShiftOf(ins, v, Has(m.regs.status, CARRY));
    var m1 := Store(m, addr, s.value);
    Some(SetRegs(m1, m.regs.(status := ShiftStatus(m.regs.status, s))))
  }

  /** INC and DEC: the byte in memory plus `delta` (wrapping), written back, Z and N from it. */
  function StepMemory(m: Machine, mode: AddressingMode, delta: bv8): (r: Option<Machine>)
    requires m.Valid() && mode != NoneAddressing
    ensures r.Some? ==> r.value.Valid() && r.value.regs.pc == m.regs.pc
  {
    var addr :- Address(m, mode);
    var v :- Read(m, addr);
    var m1 := Store(m, addr, v + delta);
    Some(SetRegs(m1, m.regs.(status := WithZN(m.regs.status, v + delta))))
  }

  /** CMP, CPX, CPY. */
  function CompareOperand(m: Machine, mode: AddressingMode, reg: Reg): (r: Option<Machine>)
    requires m.Valid() && mode != NoneAddressing
    ensures r.Some? ==> r.value.Valid() && r.value.regs.pc == m.regs.pc
    ensures r.Some? <==> Operand(m, mode).Some?
    // only P changes, to the comparison of the register with the operand
    ensures r.Some? ==> (r.value.mem == m.mem &&
      r.value.regs == m.regs.(status := Alu.Compare(m.regs.status, Engine.Register(m.regs, reg), Operand(m, mode).value)))
  {
    var v :- Operand(m, mode);
    Some(SetRegs(m, m.regs.(status := Alu.Compare(m.regs.status, Engine.Register(m.regs, reg), v))))
  }

  /** The status after `bit` here: Z from A AND M, and both N and V from bit 7 of M. */
  function BitStatus(p: bv8, a: bv8, v: bv8): (q: bv8)
    ensures q & !(ZERO | NEGATIVE | OVERFLOW) == p & !(ZERO | NEGATIVE | OVERFLOW)
  {
    With(With(With(p, ZERO, a & v == 0), NEGATIVE, v & 0x80 > 0), OVERFLOW, v & 0x80 > 0)
  }

  /** BIT. */
  function BitTest(m: Machine, mode: AddressingMode): (r: Option<Machine>)
    requires m.Valid() && mode != NoneAddressing
    ensures r.Some? <==> Operand(m, mode).Some?
    ensures r.Some? ==> r.value == SetRegs(m, m.regs.(status := BitStatus(m.regs.status, m.regs.a, Operand(m, mode).value)))
  {
    var v :- Operand(m, mode);
    Some(SetRegs(m, m.regs.(status := BitStatus(m.regs.status, m.regs.a, v))))
  }

  /** PLA. */
  function PullA(m: Machine): (r: Machine)
    requires m.Valid()
    ensures r.Valid() && r.regs.pc == m.regs.pc
    ensures r.mem == m.mem && r.regs == WithRegister(m.regs.(sp := m.regs.sp + 1), RegA, Pop(m).0)
  {
    var (v, m1) := Pop(m);
    SetRegs(m1, WithRegister(m1.regs, RegA, v))
  }

  /** PLP: B cleared, bit 5 set. */
  function PullStatus(m: Machine): (r: Machine)
    requires m.Valid()
    ensures r.Valid() && r.regs.pc == m.regs.pc
    ensures r.mem == m.mem && r.regs == m.regs.(sp := m.regs.sp + 1, status := Alu.PulledStatus(Pop(m).0))
  {
    var (v, m1) := Pop(m);
    SetRegs(m1, m1.regs.(status := Alu.PulledStatus(v)))
  }

  /** JMP absolute. */
  function Jump(m: Machine): (r: Option<Machine>)
    requires m.Valid()
    ensures r.Some? ==> r.value.Valid()
    ensures r.Some? <==> m.regs.pc < 0xFFFE
    ensures r.Some? ==> r.value == m.(regs := m.regs.(pc := ReadWord(m, m.regs.pc).value))
  {
    var target :- ReadWord(m, m.regs.pc);
    Some(SetPc(m, target))
  }

  /** JMP indirect, with the 6502's page bug: a pointer at xxFF takes its high byte from xx00. */
  function JumpIndirect(m: Machine): (r: Option<Machine>)
    requires m.Valid()
    ensures r.Some? ==> r.value.Valid()
    ensures m.regs.pc >= 0xFFFE ==> r.None?
    ensures r.Some? ==> r.value.mem == m.mem && r.value.regs == m.regs.(pc := r.value.regs.pc)
    // a pointer at xxFF reads its low byte there and its high byte from xx00; it panics only at 0xFFFF
    ensures m.regs.pc < 0xFFFE && Lo(ReadWord(m, m.regs.pc).value) == 0xFF ==>
      var ptr := ReadWord(m, m.regs.pc).value;
      (r.Some? <==> ptr != 0xFFFF) &&
      (r.Some? ==> r.value.regs.pc == Word(Read(m, ptr).value, Read(m, ptr - 0xFF).value))
    // any other pointer reads the word there, which panics from 0xFFFE on
    ensures m.regs.pc < 0xFFFE && Lo(ReadWord(m, m.regs.pc).value) != 0xFF ==>
      var ptr := ReadWord(m, m.regs.pc).value;
      (r.Some? <==> ptr < 0xFFFE) && (r.Some? ==> r.value.regs.pc == ReadWord(m, ptr).value)
  {
    var ptr :- ReadWord(m, m.regs.pc);
    var target :- if ptr & 0x00FF == 0x00FF then
        var lo :- Read(m, ptr);
        var hi := Read(m, ptr & 0xFF00).value;
        Some(Word(lo, hi))
      else ReadWord(m, ptr);
    Some(SetPc(m, target))
  }

  /** JSR: push the address of its own last byte, then jump to the operand, read after the push. */
  function JumpToSubroutine(m: Machine): (r: Option<Machine>)
    requires m.Valid()
    ensures r.Some? ==> r.value.Valid()
    ensures r.Some? ==> r.value.regs.(pc := m.regs.pc) == m.regs.(sp := m.regs.sp - 2)
    ensures r.Some? <==> m.regs.pc < 0xFFFE
    // the memory holds the pushed return address, and PC is the operand word as read after the push
    ensures r.Some? ==> r.value.mem == PushWord(m, m.regs.pc + 2 - 1).mem && r.value.regs.pc == ReadWord(r.value, m.regs.pc).value
  {
    var m1 := PushWord(m, m.regs.pc + 2 - 1);
    var target :- ReadWord(m1, m.regs.pc);
    Some(SetPc(m1, target))
  }

  /** RTS: pull the return address and continue after it. */
  function ReturnFromSubroutine(m: Machine): (r: Machine)
    requires m.Valid()
    ensures r.Valid()
    ensures r.mem == m.mem && r.regs == m.regs.(sp := m.regs.sp + 2, pc := PopWord(m).0 + 1)
  {
    var (w, m1) := PopWord(m);
    SetPc(m1, w + 1)
  }

  /** RTI: pull the status (B cleared, bit 5 set), then the program counter. */
  function ReturnFromInterrupt(m: Machine): (r: Machine)
    requires m.Valid()
    ensures r.Valid()
    ensures r.mem == m.mem && r.regs.(pc := m.regs.pc) == m.regs.(sp := m.regs.sp + 3, status := Alu.PulledStatus(Pop(m).0))
    // PC is the word in the second and third slots above SP, the status being in the first
    ensures r.regs.pc == Word(Read(m, Engine.StackAddress(m.regs.sp + 2)).value, Read(m, Engine.StackAddress(m.regs.sp + 3)).value)
  {
    var (p, m1) := Pop(m);
    var (w, m2) := PopWord(SetRegs(m1, m1.regs.(status := Alu.PulledStatus(p))));
    SetPc(m2, w)
  }

  /**
   * `branch`: when the condition holds, PC moves by the signed offset at PC,
   * counted from the byte after it; otherwise nothing is read or changed.
   */
  function TakeBranch(m: Machine, condition: bool): (r: Option<Machine>)
    requires m.Valid()
    ensures !condition ==> r == Some(m)
    ensures condition ==> (r.Some? <==> InBounds(m.regs.pc))
    ensures condition && r.Some? ==> r.value == SetPc(m, Engine.BranchTarget(m.regs.pc, Read(m, m.regs.pc).value))
  {
    if !condition then Some(m)
    else
      var offset :- Read(m, m.regs.pc);
      Some(SetPc(m, Engine.BranchTarget(m.regs.pc, offset)))
  }

  // -------------------------------------------------------------- dispatch

  /** The flag, transfer, increment and decrement instructions, on the registers alone. */
  function RegisterOp(ins: Instr, regs: Regs): (r: Regs)
    requires Engine.IsRegisterOp(ins)
    ensures r.pc == regs.pc
  {
    match ins
    case ClearFlag(f) => regs.(status := With(regs.status, FlagBit(f), false))
    case SetFlag(f) => regs.(status := With(regs.status, FlagBit(f), true))
    case Tax => WithRegister(regs, RegX, regs.a)
    case Tay => WithRegister(regs, RegY, regs.a)
    case Tsx => WithRegister(regs, RegX, regs.sp)
    case Txa => WithRegister(regs, RegA, regs.x)
    case Txs => regs.(sp := regs.x)
    case Tya => WithRegister(regs, RegA, regs.y)
    case Inx => WithRegister(regs, RegX, regs.x + 1)
    case Iny => WithRegister(regs, RegY, regs.y + 1)
    case Dex => WithRegister(regs, RegX, regs.x - 1)
    case Dey => WithRegister(regs, RegY, regs.y - 1)
  }

  /** The loads and stores. */
  function LoadStore(ins: Instr, mode: AddressingMode, m: Machine): (r: Option<Machine>)
    requires m.Valid() && Engine.IsLoadStore(ins) && mode != NoneAddressing
    ensures r.Some? ==> r.value.Valid() && r.value.regs.pc == m.regs.pc
  {
    match ins
    case Lda => LoadRegister(m, mode, RegA)
    case Ldx => LoadRegister(m, mode, RegX)
    case Ldy => LoadRegister(m, mode, RegY)
    case Sta => StoreRegister(m, mode, RegA)
    case Stx => StoreRegister(m, mode, RegX)
    case Sty => StoreRegister(m, mode, RegY)
  }

  /** The ALU instructions. */
  function Arithmetic(ins: Instr, mode: AddressingMode, m: Machine): (r: Option<Machine>)
    requires m.Valid() && Engine.IsArithmetic(ins) && (NeedsAddress(ins) ==> mode != NoneAddressing)
    ensures r.Some? ==> r.value.Valid() && r.value.regs.pc == m.regs.pc
  {
    match ins
    case Inc => StepMemory(m, mode, 1)
    case Dec => StepMemory(m, mode, 0xFF)
    case Adc => AddOperand(m, mode)
    case Sbc => SubtractOperand(m, mode)
    case And | Eor | Ora => LogicOperand(m, mode, ins)
    case AslAcc | LsrAcc | RolAcc | RorAcc => Some(SetRegs(m, ShiftAccumulator(m.regs, ins)))
    case Asl | Lsr | Rol | Ror => ShiftMemory(m, mode, ins)
    case Compare(reg) => CompareOperand(m, mode, reg)
    case Bit => BitTest(m, mode)
  }

  /** PHA, PLA, PHP, PLP; the stack page is always inside the array. */
  function StackOp(ins: Instr, m: Machine): (r: Machine)
    requires m.Valid() && Engine.IsStackOp(ins)
    ensures r.Valid() && r.regs.pc == m.regs.pc
  {
    match ins
    case Pha => Push(m, m.regs.a)
    case Pla => PullA(m)
    case Php => Push(m, Alu.PhpStatus(m.regs.status))
    case Plp => PullStatus(m)
  }

  /** JMP, JSR, RTS, RTI. */
  function JumpOp(ins: Instr, m: Machine): (r: Option<Machine>)
    requires m.Valid() && Engine.IsJump(ins)
    ensures r.Some? ==> r.value.Valid()
    ensures ins.Rts? || ins.Rti? ==> r.Some?
  {
    match ins
    case Jmp => Jump(m)
    case JmpIndirect => JumpIndirect(m)
    case Jsr => JumpToSubroutine(m)
    case Rts => Some(ReturnFromSubroutine(m))
    case Rti => Some(ReturnFromInterrupt(m))
  }

  /** The handler families the `match code` of the run loop falls into. */
  datatype Family = RegisterFamily | LoadStoreFamily | ArithmeticFamily | StackFamily | JumpFamily | BranchFamily | NoHandler

  /** The family of an instruction's handler. */
  function FamilyOf(ins: Instr): Family {
    if Engine.IsRegisterOp(ins) then RegisterFamily
    else if Engine.IsLoadStore(ins) then LoadStoreFamily
    else if Engine.IsArithmetic(ins) then ArithmeticFamily
    else if Engine.IsStackOp(ins) then StackFamily
    else if Engine.IsJump(ins) then JumpFamily
    else if ins.Branch? then BranchFamily
    // BRK, whose turn ends before the handlers, and NOP
    else NoHandler
  }

  /**
   * The handler the `match code` of `run_with_callback` calls, on a machine
   * whose PC is past the opcode. Only the jumps, calls, returns and branches
   * move PC; and only a handler that reads an operand, a jump target or a
   * branch offset can panic (the stack page is always inside the array).
   */
  function Execute(ins: Instr, mode: AddressingMode, m: Machine): (r: Option<Machine>)
    requires m.Valid() && (NeedsAddress(ins) ==> mode != NoneAddressing)
    ensures r.Some? ==> r.value.Valid()
    ensures r.Some? && !Engine.IsControlFlow(ins) ==> r.value.regs.pc == m.regs.pc
    ensures r.None? ==> NeedsAddress(ins) || ins.Jmp? || ins.JmpIndirect? || ins.Jsr? || ins.Branch?
  {
    match FamilyOf(ins)
    case RegisterFamily => Some(SetRegs(m, RegisterOp(ins, m.regs)))
    case LoadStoreFamily => LoadStore(ins, mode, m)
    case ArithmeticFamily => Arithmetic(ins, mode, m)
    case StackFamily => Some(StackOp(ins, m))
    case JumpFamily => JumpOp(ins, m)
    case BranchFamily => TakeBranch(m, Has(m.regs.status, FlagBit(ins.flag)) == ins.whenSet)
    case NoHandler => Some(m)
  }

  /** `Execute` hands the flag, transfer, increment and decrement instructions to `RegisterOp`. */
  lemma ExecuteRegisterOp(ins: Instr, mode: AddressingMode, m: Machine)
    requires m.Valid() && FamilyOf(ins) == RegisterFamily && (NeedsAddress(ins) ==> mode != NoneAddressing)
    ensures Execute(ins, mode, m) == Some(SetRegs(m, RegisterOp(ins, m.regs)))
  {
  }

  /** `Execute` hands the loads and stores to `LoadStore`. */
  lemma ExecuteLoadStore(ins: Instr, mode: AddressingMode, m: Machine)
    requires m.Valid() && FamilyOf(ins) == LoadStoreFamily && mode != NoneAddressing
    ensures Execute(ins, mode, m) == LoadStore(ins, mode, m)
  {
  }

  /** `Execute` hands the ALU instructions to `Arithmetic`. */
  lemma ExecuteArithmetic(ins: Instr, mode: AddressingMode, m: Machine)
    requires m.Valid() && FamilyOf(ins) == ArithmeticFamily && (NeedsAddress(ins) ==> mode != NoneAddressing)
    ensures Execute(ins, mode, m) == Arithmetic(ins, mode, m)
  {
  }

  /** `Execute` hands the stack instructions to `StackOp`. */
  lemma ExecuteStackOp(ins: Instr, mode: AddressingMode, m: Machine)
    requires m.Valid() && FamilyOf(ins) == StackFamily
    ensures Execute(ins, mode, m) == Some(StackOp(ins, m))
  {
  }

  /** `Execute` hands the jumps to `JumpOp`. */
  lemma ExecuteJump(ins: Instr, mode: AddressingMode, m: Machine)
    requires m.Valid() && FamilyOf(ins) == JumpFamily
    ensures Execute(ins, mode, m) == JumpOp(ins, m)
  {
  }

  /** INC or DEC once the address, the byte there and the machine after the write-back are known. */
  lemma StepMemoryBy(m: Machine, mode: AddressingMode, delta: bv8, addr: bv16, v: bv8, w: bv8, m2: Machine)
    requires m.Valid() && mode != NoneAddressing
    requires Address(m, mode) == Some(addr) && Read(m, addr) == Some(v)
    requires w == v + delta && Write(m, addr, w) == Some(m2)
    ensures StepMemory(m, mode, delta) == Some(SetRegs(m2, m.regs.(status := WithZN(m.regs.status, w))))
  {
  }

  /** JSR once the machine after the push and the operand word read from it are known. */
  lemma JumpToSubroutineBy(m: Machine, m1: Machine, target: Option<bv16>)
    requires m.Valid() && m1 == PushWord(m, m.regs.pc + 2 - 1) && target == ReadWord(m1, m.regs.pc)
    ensures JumpToSubroutine(m) == if target.None? then None else Some(SetPc(m1, target.value))
  {
  }

  // ------------------------------------------------------------------ step

  /** Why the Rust code panics: an index past the array, an unknown opcode, or `todo!()`. */
  datatype Panic = IndexOutOfBounds | OpcodeNotRecognized(code: bv8) | NotImplemented(code: bv8)

  /** How one turn of the loop ends: it goes round again, BRK returns, or the program panics. */
  datatype Outcome = Running(m: Machine) | Halted(m: Machine) | Panicked(reason: Panic)
  {
    predicate Valid() {
      !Panicked? ==> m.Valid()
    }
  }

  /**
   * One turn of `run_with_callback`: read the opcode at PC (which panics at
   * 0xFFFF), step PC past it, look the byte up in the table and in the
   * `match`, run the handler, and move PC past the operands if the handler
   * left it alone.
   */
  function Step(table: bv8 -> Option<OpCode>, m: Machine): (r: Outcome)
    requires WellFormed(table) && m.Valid()
    ensures r.Valid()
  {
    match Read(m, m.regs.pc)
    case None => Panicked(IndexOutOfBounds)
    case Some(code) => Turn(table(code), Decode(code), code, SetPc(m, m.regs.pc + 1))
  }

  /**
   * The rest of a turn once the opcode byte is known: a byte missing from
   * the table panics, one the `match` lacks reaches `todo!()`, BRK returns,
   * and any other instruction runs.
   */
  function Turn(entry: Option<OpCode>, decoded: Option<Instr>, code: bv8, m1: Machine): (r: Outcome)
    requires m1.Valid()
    requires entry.Some? ==> entry.value.len >= 1
    requires entry.Some? && decoded.Some? && NeedsAddress(decoded.value) ==> entry.value.mode != NoneAddressing
    ensures r.Valid()
  {
    if entry.None? then Panicked(OpcodeNotRecognized(code))
    else if decoded.None? then Panicked(NotImplemented(code))
    else if decoded.value.Brk? then Halted(m1)
    else
      match Execute(decoded.value, entry.value.mode, m1)
      case None => Panicked(IndexOutOfBounds)
      case Some(m2) => Running(SetPc(m2, EngineStep.SettledPc(m2.regs.pc, m1.regs.pc, entry.value.len)))
  }

  /** The loop: at most `fuel` turns, stopping at the first that does not go round again. */
  function Run(table: bv8 -> Option<OpCode>, m: Machine, fuel: nat): (r: Outcome)
    requires WellFormed(table) && m.Valid()
    ensures r.Valid()
    decreases fuel, 0
  {
    if fuel == 0 then Running(m) else Resume(table, Step(table, m), fuel - 1)
  }

  /** `fuel` more turns after an outcome, if the machine is still going. */
  function Resume(table: bv8 -> Option<OpCode>, o: Outcome, fuel: nat): (r: Outcome)
    requires WellFormed(table) && o.Valid()
    ensures r.Valid()
    ensures !o.Running? ==> r == o
    decreases fuel, 1
  {
    match o
    case Running(m') => Run(table, m', fuel)
    case _ => o
  }

  /** `fuel` turns from `m0` end where `left` more turns after `o` end. */
  predicate RunsAs(table: bv8 -> Option<OpCode>, m0: Machine, fuel: nat, o: Outcome, left: nat)
    requires WellFormed(table) && m0.Valid() && o.Valid()
  {
    Run(table, m0, fuel) == Resume(table, o, left)
  }

  /** Before the first turn, the run is all still ahead. */
  lemma RunsAsStart(table: bv8 -> Option<OpCode>, m0: Machine, fuel: nat)
    requires WellFormed(table) && m0.Valid()
    ensures RunsAs(table, m0, fuel, Running(m0), fuel)
  {
  }

  /** A turn taken from a running machine uses up one turn of the run. */
  lemma RunsAsStep(table: bv8 -> Option<OpCode>, m0: Machine, fuel: nat, o0: Outcome, left: nat, o: Outcome)
    requires WellFormed(table) && m0.Valid() && o0.Valid() && o0.Running? && left > 0
    requires RunsAs(table, m0, fuel, o0, left) && o == Step(table, o0.m)
    ensures o.Valid() && RunsAs(table, m0, fuel, o, left - 1)
  {
    assert Resume(table, o0, left) == Run(table, o0.m, left);
  }

  /** With no turns left, or once the machine stopped, the run's outcome is at hand. */
  lemma RunsAsEnd(table: bv8 -> Option<OpCode>, m0: Machine, fuel: nat, o: Outcome, left: nat)
    requires WellFormed(table) && m0.Valid() && o.Valid() && (left == 0 || !o.Running?)
    requires RunsAs(table, m0, fuel, o, left)
    ensures Run(table, m0, fuel) == o
  {
  }

  // --------------------------------------------------------------- loaders

  /** `CPU::new`: power-on registers and zeroed memory. */
  function NewMachine(): (m: Machine)
    ensures m.Valid() && m.regs == PowerOn
  {
    Machine(PowerOn, seq(MEMORY_SIZE, _ => 0))
  }

  /** The memory with `program` copied over the cells from 0x8000 on. */
  function Placed(mem: seq<bv8>, program: seq<bv8>): (r: seq<bv8>)
    requires |mem| == MEMORY_SIZE && PROGRAM_START as int + |program| <= MEMORY_SIZE
    ensures |r| == MEMORY_SIZE
  {
    mem[..PROGRAM_START] + program + mem[PROGRAM_START as int + |program|..]
  }

  /**
   * `load`: copy the program to 0x8000, which panics when it runs past the
   * array, then write 0x8000 into the reset vector.
   */
  function Load(m: Machine, program: seq<bv8>): (r: Option<Machine>)
    requires m.Valid()
    ensures r.Some? <==> PROGRAM_START as int + |program| <= MEMORY_SIZE
    ensures r.Some? ==> r.value.Valid() && r.value.regs == m.regs
  {
    if PROGRAM_START as int + |program| > MEMORY_SIZE then None
    else WriteWord(m.(mem := Placed(m.mem, program)), RESET_VECTOR, PROGRAM_START)
  }

  /** `reset`: power-on registers, and PC from the reset vector (which is inside the array). */
  function Reset(m: Machine): (r: Machine)
    requires m.Valid()
    ensures r.Valid() && r.mem == m.mem
    ensures r.regs == PowerOn.(pc := r.regs.pc)
  {
    SetRegs(m, PowerOn.(pc := ReadWord(m, RESET_VECTOR).value))
  }

  /** `load_and_run` with at most `fuel` turns. */
  function LoadAndRun(table: bv8 -> Option<OpCode>, m: Machine, program: seq<bv8>, fuel: nat): (r: Outcome)
    requires WellFormed(table) && m.Valid()
    ensures r.Valid()
    ensures PROGRAM_START as int + |program| > MEMORY_SIZE ==> r == Panicked(IndexOutOfBounds)
  {
    match Load(m, program)
    case None => Panicked(IndexOutOfBounds)
    case Some(m1) => Run(table, Reset(m1), fuel)
  }
}
