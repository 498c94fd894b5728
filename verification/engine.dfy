/**
 * The instruction handlers of the current CPU engine (crates/res-core/src/cpu.rs)
 * as functions on a whole machine: registers, cycle counter and bus. The
 * engine's step, interrupts and loaders are in `EngineStep`; the class whose
 * methods perform these updates in place is `Cpu`.
 *
 * The run loop fetches the opcode and operand bytes, resolves operand
 * addresses and reads vectors through `Fetch`, the byte a read returns; the
 * handlers' own data reads and writes go through `Read` and `Write`, which
 * carry the side effects of the PPU registers.
 */
module Engine {
  import opened Bytes
  import opened Registers
  import opened Addressing
  import opened Decoding
  import Alu
  import CpuBus

  /** The CPU's registers, its cycle count and everything behind its address lines. */
  datatype Machine = Machine(regs: Regs, cycles: nat, bus: CpuBus.Bus)
  {
    predicate Valid() {
      bus.Valid()
    }
  }

  // ---------------------------------------------------------------- memory

  /** The byte at `addr` as the fetch and address-resolution code sees it. */
  function Fetch(m: Machine, addr: bv16): bv8
    requires m.Valid()
  {
    CpuBus.Peek(m.bus, addr)
  }

  /** `mem_read_u16` at `addr`. */
  function FetchWord(m: Machine, addr: bv16): bv16
    requires m.Valid()
  {
    CpuBus.ReadWord(m.bus, addr)
  }

  /** `mem_read` in a handler: the byte, and the machine with the bus after the read. */
  function Read(m: Machine, addr: bv16): (r: (bv8, Machine))
    requires m.Valid()
    ensures r.1.Valid() && r.1 == m.(bus := r.1.bus)
    ensures r.0 == Fetch(m, addr)
  {
    var (v, b) := CpuBus.Read(m.bus, addr);
    (v, m.(bus := b))
  }

  /** `mem_write`. */
  function Write(m: Machine, addr: bv16, data: bv8): (r: Machine)
    requires m.Valid()
    ensures r.Valid() && r == m.(bus := r.bus)
  {
    m.(bus := CpuBus.Write(m.bus, addr, data))
  }

  /** The 256 bytes of page zero, where the indirect modes find their pointers. */
  function ZeroPage(m: Machine): (z: seq<bv8>)
    requires m.Valid()
    ensures |z| == 256
  {
    m.bus.ram[..256]
  }

  /** Page zero is plain RAM: the bytes the indirect modes read as pointers are the bytes a read returns. */
  lemma ZeroPageIsRam(m: Machine, p: bv8)
    requires m.Valid()
    ensures Fetch(m, p as bv16) == ZeroPage(m)[p]
  {
    assert (p as bv16) as int == p as int;
    CpuBus.ReadMemory(m.bus, p as bv16);
  }

  /** `get_operand_address` with the operand bytes at the program counter. */
  function Address(m: Machine, mode: AddressingMode): bv16
    requires m.Valid() && mode != NoneAddressing
  {
    OperandAddress(mode, m.regs.pc, Fetch(m, m.regs.pc), Fetch(m, m.regs.pc + 1), m.regs.x, m.regs.y, ZeroPage(m))
  }

  /**
   * What `get_operand_address` resolves, mode by mode: an immediate operand
   * is the byte at PC, the zero-page modes stay in page zero, and Absolute
   * is the little-endian word at PC.
   */
  lemma AddressModes(m: Machine, mode: AddressingMode)
    requires m.Valid() && mode != NoneAddressing
    ensures mode.Immediate? ==> Address(m, mode) == m.regs.pc
    ensures IsZeroPageMode(mode) ==> Address(m, mode) < 0x100
    ensures mode.Absolute? ==> Address(m, mode) == FetchWord(m, m.regs.pc)
  {
  }

  /** `did_page_cross` with the operand bytes at the program counter. */
  function PageCrossed(m: Machine, mode: AddressingMode): (crossed: bool)
    requires m.Valid()
    ensures crossed ==> IsIndexedMode(mode)
  {
    DidPageCross(mode, Fetch(m, m.regs.pc), Fetch(m, m.regs.pc + 1), m.regs.x, m.regs.y, ZeroPage(m))
  }

  /** `PageCrossed` in terms of the operand bytes and the zero page, once they are known. */
  lemma PageCrossedBy(m: Machine, mode: AddressingMode, lo: bv8, hi: bv8, zp: seq<bv8>)
    requires m.Valid() && lo == Fetch(m, m.regs.pc) && hi == Fetch(m, m.regs.pc + 1) && zp == m.bus.ram[..256]
    ensures PageCrossed(m, mode) == DidPageCross(mode, lo, hi, m.regs.x, m.regs.y, zp)
  {
  }

  // ------------------------------------------------------------- registers

  function Register(regs: Regs, reg: Reg): bv8 {
    match reg
    case RegA => regs.a
    case RegX => regs.x
    case RegY => regs.y
  }

  function SetStatus(m: Machine, p: bv8): (r: Machine)
    requires m.Valid()
    ensures r.Valid() && r.cycles == m.cycles && r.regs.pc == m.regs.pc
    ensures r.regs.status == p && r.regs.(status := m.regs.status) == m.regs && r.bus == m.bus
  {
    m.(regs := m.regs.(status := p))
  }

  /**
   * `set_register_a`, and the `register_x = …; update_zero_and_negative_flags`
   * pattern of the other loads, transfers and increments.
   */
  function SetRegister(m: Machine, reg: Reg, v: bv8): (r: Machine)
    requires m.Valid()
    ensures r.Valid() && r.cycles == m.cycles && r.regs.pc == m.regs.pc
    ensures Register(r.regs, reg) == v && r.regs.status == WithZN(m.regs.status, v)
    ensures r.regs.sp == m.regs.sp && r.bus == m.bus
  {
    var regs := match reg
      case RegA => m.regs.(a := v)
      case RegX => m.regs.(x := v)
      case RegY => m.regs.(y := v);
    m.(regs := regs.(status := WithZN(m.regs.status, v)))
  }

  // ----------------------------------------------------------------- stack

  /** The stack lives in page one, at 0x0100 + SP. */
  function StackAddress(sp: bv8): (addr: bv16) {
    STACK + sp as bv16
  }

  lemma StackIsMemory(b: CpuBus.Bus, sp: bv8)
    ensures CpuBus.IsMemory(b, StackAddress(sp))
  {
  }

  /** `stack_push`: write at 0x0100 + SP, then decrement SP (wrapping). */
  function Push(m: Machine, v: bv8): (r: Machine)
    requires m.Valid()
    ensures r.Valid() && r.cycles == m.cycles && r.regs.pc == m.regs.pc
    ensures r.regs == m.regs.(sp := m.regs.sp - 1)
  {
    var m1 := Write(m, StackAddress(m.regs.sp), v);
    m1.(regs := m1.regs.(sp := m.regs.sp - 1))
  }

  /** `stack_pop`: increment SP (wrapping), then read at 0x0100 + SP. */
  function Pop(m: Machine): (r: (bv8, Machine))
    requires m.Valid()
    ensures r.1.Valid() && r.1.cycles == m.cycles && r.1.regs.pc == m.regs.pc
    ensures r.1.regs == m.regs.(sp := m.regs.sp + 1)
    ensures r.0 == Fetch(m, StackAddress(m.regs.sp + 1))
  {
    var sp := m.regs.sp + 1;
    Read(m.(regs := m.regs.(sp := sp)), StackAddress(sp))
  }

  /** `stack_push_u16`: the high byte first, so the low byte ends on top. */
  function PushWord(m: Machine, w: bv16): (r: Machine)
    requires m.Valid()
    ensures r.Valid() && r.cycles == m.cycles && r.regs.pc == m.regs.pc
    ensures r.regs == m.regs.(sp := m.regs.sp - 2)
  {
    Push(Push(m, Hi(w)), Lo(w))
  }

  /** `stack_pop_u16`: the low byte first. */
  function PopWord(m: Machine): (r: (bv16, Machine))
    requires m.Valid()
    ensures r.1.Valid() && r.1.cycles == m.cycles && r.1.regs.pc == m.regs.pc
    ensures r.1.regs == m.regs.(sp := m.regs.sp + 2)
  {
    var (lo, m1) := Pop(m);
    var (hi, m2) := Pop(m1);
    (Word(lo, hi), m2)
  }

  /** A pushed byte pops back, and the registers (SP included) are as before the push. */
  lemma PushThenPop(m: Machine, v: bv8)
    requires m.Valid()
    ensures Pop(Push(m, v)) == (v, Push(m, v).(regs := m.regs))
  {
    var addr := StackAddress(m.regs.sp);
    StackIsMemory(m.bus, m.regs.sp);
    CpuBus.MemoryWriteThenRead(m.bus, addr, addr, v);
    var b := CpuBus.Write(m.bus, addr, v);
    assert CpuBus.IsMemory(b, addr);
    CpuBus.ReadMemory(b, addr);
  }

  /** A pushed word pops back, and the registers are as before the push. */
  lemma PushWordThenPopWord(m: Machine, w: bv16)
    requires m.Valid()
    ensures PopWord(PushWord(m, w)).0 == w
    ensures PopWord(PushWord(m, w)).1.regs == m.regs
  {
    var m1 := Push(m, Hi(w));
    var m2 := Push(m1, Lo(w));
    PushThenPop(m1, Lo(w));
    var m3 := m2.(regs := m1.regs);
    assert Pop(m2) == (Lo(w), m3);
    // the high byte is still where the first push put it
    var hiAddr := StackAddress(m.regs.sp);
    var loAddr := StackAddress(m1.regs.sp);
    StackIsMemory(m1.bus, m1.regs.sp);
    StackIsMemory(m1.bus, m.regs.sp);
    assert loAddr != hiAddr;
    CpuBus.MemoryWriteThenRead(m1.bus, loAddr, hiAddr, Lo(w));
    PushThenPop(m, Hi(w));
    assert Fetch(m3, hiAddr) == Fetch(m1, hiAddr) == Hi(w);
    StackIsMemory(m3.bus, m.regs.sp);
    CpuBus.ReadMemory(m3.bus, hiAddr);
    WordOfBytes(w);
  }

  /** Pushing 0x55 and then 0x66 makes `stack_pop_u16` return 0x5566. */
  lemma PushedBytesPopAsWord(m: Machine)
    requires m.Valid()
    ensures PopWord(Push(Push(m, 0x55), 0x66)).0 == 0x5566
  {
    assert Hi(0x5566) == 0x55 && Lo(0x5566) == 0x66;
    PushWordThenPopWord(m, 0x5566);
  }

  // -------------------------------------------------------------- handlers

  /** LDA, LDX, LDY: load the operand, Z and N from it. */
  function LoadRegister(m: Machine, mode: AddressingMode, reg: Reg): (r: Machine)
    requires m.Valid() && mode != NoneAddressing
    ensures r.Valid() && r.cycles == m.cycles && r.regs.pc == m.regs.pc
    ensures Register(r.regs, reg) == Fetch(m, Address(m, mode))
    ensures r.regs.status == WithZN(m.regs.status, Register(r.regs, reg)) && r.regs.sp == m.regs.sp
  {
    var (v, m1) := Read(m, Address(m, mode));
    SetRegister(m1, reg, v)
  }

  /** STA, STX, STY: store the register at the operand address; no flag changes. */
  function StoreRegister(m: Machine, mode: AddressingMode, reg: Reg): (r: Machine)
    requires m.Valid() && mode != NoneAddressing
    ensures r.Valid() && r.cycles == m.cycles && r.regs.pc == m.regs.pc
    ensures r.regs == m.regs
  {
    Write(m, Address(m, mode), Register(m.regs, reg))
  }

  /** `add_to_register_a`: carry and overflow from the 9-bit sum, then Z and N from the result. */
  function AddToA(m: Machine, v: bv8): (r: Machine)
    requires m.Valid()
    ensures r.Valid() && r.cycles == m.cycles && r.regs.pc == m.regs.pc
    ensures r.regs == Adder(m.regs, v) && r.bus == m.bus
  {
    m.(regs := Adder(m.regs, v))
  }

  /** The registers after `add_to_register_a`: only A and the status change. */
  function Adder(regs: Regs, v: bv8): (r: Regs)
    ensures r == regs.(a := r.a, status := r.status)
  {
    var s := Alu.AddWithCarry(regs.a, v, Has(regs.status, CARRY));
    regs.(a := s.result, status := AdderStatus(regs.status, s))
  }

  /** The status after `add_to_register_a`: C and V from the sum, then Z and N from the result. */
  function AdderStatus(p: bv8, s: Alu.Sum): bv8 {
    WithZN(With(With(p, CARRY, s.carry), OVERFLOW, s.overflow), s.result)
  }

  /** ADC: the adder with the operand the addressing mode selects. */
  function AddOperand(m: Machine, mode: AddressingMode): (r: Machine)
    requires m.Valid() && mode != NoneAddressing
    ensures r.Valid() && r.cycles == m.cycles && r.regs.pc == m.regs.pc
    ensures r.regs == Adder(m.regs, Fetch(m, Address(m, mode)))
  {
    var (v, m1) := Read(m, Address(m, mode));
    AddToA(m1, v)
  }

  /** SBC: the adder with the operand's complement. */
  function SubtractOperand(m: Machine, mode: AddressingMode): (r: Machine)
    requires m.Valid() && mode != NoneAddressing
    ensures r.Valid() && r.cycles == m.cycles && r.regs.pc == m.regs.pc
    ensures r.regs == Adder(m.regs, Alu.SbcOperand(Fetch(m, Address(m, mode))))
  {
    var (v, m1) := Read(m, Address(m, mode));
    AddToA(m1, Alu.SbcOperand(v))
  }

  /** The byte AND, EOR and ORA compute from A and the operand. */
  function Logic(ins: Instr, a: bv8, v: bv8): bv8
    requires ins.And? || ins.Eor? || ins.Ora?
  {
    if ins.And? then v & a else if ins.Eor? then v ^ a else v | a
  }

  /** AND, EOR, ORA: A becomes the combination, Z and N from it. */
  function LogicOperand(m: Machine, mode: AddressingMode, ins: Instr): (r: Machine)
    requires m.Valid() && mode != NoneAddressing && (ins.And? || ins.Eor? || ins.Ora?)
    ensures r.Valid() && r.cycles == m.cycles && r.regs.pc == m.regs.pc
    ensures r.regs.a == Logic(ins, m.regs.a, Fetch(m, Address(m, mode)))
    ensures r.regs == m.regs.(a := r.regs.a, status := WithZN(m.regs.status, r.regs.a))
  {
    var (v, m1) := Read(m, Address(m, mode));
    SetRegister(m1, RegA, Logic(ins, m.regs.a, v))
  }

  predicate IsShift(ins: Instr) {
    ins.AslAcc? || ins.Asl? || ins.LsrAcc? || ins.Lsr? || ins.RolAcc? || ins.Rol? || ins.RorAcc? || ins.Ror?
  }

  /** The shift or rotate a shift instruction applies, with the carry before it. */
  function ShiftOf(ins: Instr, v: bv8, carry: bool): Alu.Shifted
    requires IsShift(ins)
  {
    match ins
    case AslAcc | Asl => Alu.ShiftLeft(v)
    case LsrAcc | Lsr => Alu.ShiftRight(v)
    case RolAcc | Rol => Alu.RotateLeft(v, carry)
    case RorAcc | Ror => Alu.RotateRight(v, carry)
  }

  /** `asl_accumulator`, `lsr_accumulator`, `rol_accumulator`, `ror_accumulator`: C, then A with Z and N. */
  function ShiftAccumulator(m: Machine, ins: Instr): (r: Machine)
    requires m.Valid() && (ins.AslAcc? || ins.LsrAcc? || ins.RolAcc? || ins.RorAcc?)
    ensures r.Valid() && r.cycles == m.cycles && r.regs.pc == m.regs.pc
    ensures r.regs == m.regs.(a := r.regs.a, status := r.regs.status) && r.bus == m.bus
    // A is the shifted byte, C the bit shifted out, Z and N from the new A
    ensures var s := ShiftOf(ins, m.regs.a, Has(m.regs.status, CARRY));
      r.regs.a == s.value && r.regs.status == WithZN(With(m.regs.status, CARRY, s.carry), s.value)
  {
    var s := ShiftOf(ins, m.regs.a, Has(m.regs.status, CARRY));
    SetRegister(SetStatus(m, With(m.regs.status, CARRY, s.carry)), RegA, s.value)
  }

  /**
   * `asl`, `lsr`, `rol`, `ror` on memory: read, shift, write back, C from
   * the bit shifted out. ASL and LSR then set Z and N; ROL and ROR set N only.
   */
  function ShiftMemory(m: Machine, mode: AddressingMode, ins: Instr): (r: Machine)
    requires m.Valid() && mode != NoneAddressing && (ins.Asl? || ins.Lsr? || ins.Rol? || ins.Ror?)
    ensures r.Valid() && r.cycles == m.cycles && r.regs.pc == m.regs.pc
    ensures r.regs == m.regs.(status := r.regs.status)
  {
    var addr := Address(m, mode);
    var (v, m1) := Read(m, addr);
    var s := ShiftOf(ins, v, Has(m.regs.status, CARRY));
    var m2 := Write(m1, addr, s.value);
    var p := With(m.regs.status, CARRY, s.carry);
    SetStatus(m2, if ins.Rol? || ins.Ror? then WithN(p, s.value) else WithZN(p, s.value))
  }

  /** INC and DEC: add `delta` to the byte in memory (wrapping), write it back, Z and N from it. */
  function StepMemory(m: Machine, mode: AddressingMode, delta: bv8): (r: Machine)
    requires m.Valid() && mode != NoneAddressing
    ensures r.Valid() && r.cycles == m.cycles && r.regs.pc == m.regs.pc
    ensures r.regs == m.regs.(status := r.regs.status)
  {
    var addr := Address(m, mode);
    var (v, m1) := Read(m, addr);
    var m2 := Write(m1, addr, v + delta);
    SetStatus(m2, WithZN(m.regs.status, v + delta))
  }

  /** CMP, CPX, CPY. */
  function CompareOperand(m: Machine, mode: AddressingMode, reg: Reg): (r: Machine)
    requires m.Valid() && mode != NoneAddressing
    ensures r.Valid() && r.cycles == m.cycles && r.regs.pc == m.regs.pc
    ensures r.regs == m.regs.(status := Alu.Compare(m.regs.status, Register(m.regs, reg), Fetch(m, Address(m, mode))))
  {
    var (v, m1) := Read(m, Address(m, mode));
    SetStatus(m1, Alu.Compare(m.regs.status, Register(m.regs, reg), v))
  }

  /** The status after `bit`: Z from A AND M, N from bit 7 of M, V from bit 6 of M. */
  function BitStatus(p: bv8, a: bv8, v: bv8): (q: bv8)
    ensures q & !(ZERO | NEGATIVE | OVERFLOW) == p & !(ZERO | NEGATIVE | OVERFLOW)
  {
    With(With(With(p, ZERO, a & v == 0), NEGATIVE, v & 0x80 > 0), OVERFLOW, v & 0x40 > 0)
  }

  /** BIT. */
  function BitTest(m: Machine, mode: AddressingMode): (r: Machine)
    requires m.Valid() && mode != NoneAddressing
    ensures r.Valid() && r.cycles == m.cycles && r.regs.pc == m.regs.pc
    ensures r.regs == m.regs.(status := BitStatus(m.regs.status, m.regs.a, Fetch(m, Address(m, mode))))
  {
    var (v, m1) := Read(m, Address(m, mode));
    SetStatus(m1, BitStatus(m.regs.status, m.regs.a, v))
  }

  /** PLA. */
  function PullA(m: Machine): (r: Machine)
    requires m.Valid()
    ensures r.Valid() && r.cycles == m.cycles && r.regs.pc == m.regs.pc
    ensures r.regs.a == Fetch(m, StackAddress(m.regs.sp + 1))
    ensures r.regs == m.regs.(a := r.regs.a, sp := m.regs.sp + 1, status := WithZN(m.regs.status, r.regs.a))
  {
    var (v, m1) := Pop(m);
    SetRegister(m1, RegA, v)
  }

  /** PLP. */
  function PullStatus(m: Machine): (r: Machine)
    requires m.Valid()
    ensures r.Valid() && r.cycles == m.cycles && r.regs.pc == m.regs.pc
    ensures r.regs == m.regs.(sp := m.regs.sp + 1, status := Alu.PulledStatus(Fetch(m, StackAddress(m.regs.sp + 1))))
  {
    var (v, m1) := Pop(m);
    SetStatus(m1, Alu.PulledStatus(v))
  }

  function SetPc(m: Machine, pc: bv16): (r: Machine)
    requires m.Valid()
    ensures r.Valid() && r.cycles == m.cycles
    ensures r.regs.pc == pc && r.regs.(pc := m.regs.pc) == m.regs && r.bus == m.bus
  {
    m.(regs := m.regs.(pc := pc))
  }

  /** JMP absolute. */
  function Jump(m: Machine): (r: Machine)
    requires m.Valid()
    ensures r.Valid() && r.cycles == m.cycles
    ensures r.regs == m.regs.(pc := FetchWord(m, m.regs.pc)) && r.bus == m.bus
  {
    SetPc(m, FetchWord(m, m.regs.pc))
  }

  /**
   * JMP indirect, with the 6502's page bug: a pointer at xxFF takes its high
   * byte from xx00 instead of crossing into the next page.
   */
  function JumpIndirect(m: Machine): (r: Machine)
    requires m.Valid()
    ensures r.Valid() && r.cycles == m.cycles
    ensures r.regs.(pc := m.regs.pc) == m.regs && r.bus == m.bus
    ensures var ptr := FetchWord(m, m.regs.pc);
      r.regs.pc == if Lo(ptr) == 0xFF then Word(Fetch(m, ptr), Fetch(m, ptr - 0xFF)) else FetchWord(m, ptr)
  {
    var ptr := FetchWord(m, m.regs.pc);
    var target := if ptr & 0x00FF == 0x00FF then Word(Fetch(m, ptr), Fetch(m, ptr & 0xFF00)) else FetchWord(m, ptr);
    SetPc(m, target)
  }

  /** JSR: push the address of its own last byte, then jump to the operand (read after the push). */
  function JumpToSubroutine(m: Machine): (r: Machine)
    requires m.Valid()
    ensures r.Valid() && r.cycles == m.cycles
    ensures r.regs.(pc := m.regs.pc) == m.regs.(sp := m.regs.sp - 2)
    // the bus holds the pushed return address, and PC is the operand word as read after the push
    ensures r.bus == PushWord(m, m.regs.pc + 2 - 1).bus && r.regs.pc == FetchWord(r, m.regs.pc)
  {
    var m1 := PushWord(m, m.regs.pc + 2 - 1);
    SetPc(m1, FetchWord(m1, m.regs.pc))
  }

  /** RTS: pull the return address and continue after it. */
  function ReturnFromSubroutine(m: Machine): (r: Machine)
    requires m.Valid()
    ensures r.Valid() && r.cycles == m.cycles
    ensures r.regs == m.regs.(sp := m.regs.sp + 2, pc := PopWord(m).0 + 1)
  {
    var (w, m1) := PopWord(m);
    SetPc(m1, w + 1)
  }

  /** RTI: pull the status (B cleared, bit 5 set), then the program counter. */
  function ReturnFromInterrupt(m: Machine): (r: Machine)
    requires m.Valid()
    ensures r.Valid() && r.cycles == m.cycles
    ensures r.regs.(pc := m.regs.pc) == m.regs.(sp := m.regs.sp + 3, status := Alu.PulledStatus(Fetch(m, StackAddress(m.regs.sp + 1))))
  {
    var (p, m1) := Pop(m);
    var (w, m2) := PopWord(SetStatus(m1, Alu.PulledStatus(p)));
    SetPc(m2, w)
  }

  /** What `branch` returns besides the new machine: taken, and page crossed. */
  datatype Branched = Branched(m: Machine, taken: bool, crossed: bool)

  /**
   * `branch`: when the condition holds, the program counter moves by the
   * signed offset at PC, counted from the byte after it.
   */
  function TakeBranch(m: Machine, condition: bool): (r: Branched)
    requires m.Valid()
    ensures r.m.Valid() && r.m.cycles == m.cycles
    ensures !condition ==> r == Branched(m, false, false)
  {
    if !condition then Branched(m, false, false) else BranchBy(m, Fetch(m, m.regs.pc))
  }

  /** A taken branch by `offset`, counted from the byte after the offset. */
  function BranchBy(m: Machine, offset: bv8): (r: Branched)
    requires m.Valid()
    ensures r.m.Valid() && r.m.cycles == m.cycles
    ensures r.m.regs == m.regs.(pc := r.m.regs.pc) && r.m.bus == m.bus && r.taken
    ensures r.m.regs.pc == BranchTarget(m.regs.pc, offset)
  {
    Branched(SetPc(m, BranchTarget(m.regs.pc, offset)), true, BranchCrossesPage(m.regs.pc, offset))
  }

  /** Where a branch whose offset byte is at `pc` lands: the signed offset from the byte after it. */
  function BranchTarget(pc: bv16, offset: bv8): bv16 {
    pc + 1 + SignExtend(offset)
  }

  /** Whether that landing place is in another page than the byte after the offset. */
  predicate BranchCrossesPage(pc: bv16, offset: bv8) {
    PageChanged(pc + 1, BranchTarget(pc, offset))
  }

  /** `base & 0xFF00 != target & 0xFF00`: the two addresses lie in different pages. */
  predicate PageChanged(base: bv16, target: bv16) {
    base & 0xFF00 != target & 0xFF00
  }

  /** What a handler leaves: the machine, and the cycles a branch adds. */
  datatype Executed = Executed(m: Machine, extra: nat)

  /** The instructions that set the program counter themselves. */
  predicate IsControlFlow(ins: Instr) {
    ins.Jmp? || ins.JmpIndirect? || ins.Jsr? || ins.Rts? || ins.Rti? || ins.Branch?
  }

  /** Flag, transfer, increment and decrement instructions: registers only. */
  predicate IsRegisterOp(ins: Instr) {
    ins.ClearFlag? || ins.SetFlag? || ins.Tax? || ins.Tay? || ins.Tsx? || ins.Txa? || ins.Txs? || ins.Tya? ||
    ins.Inx? || ins.Iny? || ins.Dex? || ins.Dey?
  }

  /** The loads and stores. */
  predicate IsLoadStore(ins: Instr) {
    ins.Lda? || ins.Ldx? || ins.Ldy? || ins.Sta? || ins.Stx? || ins.Sty?
  }

  /** The instructions that combine a register or memory byte with the ALU. */
  predicate IsArithmetic(ins: Instr) {
    ins.Inc? || ins.Dec? || ins.Adc? || ins.Sbc? || ins.And? || ins.Eor? || ins.Ora? ||
    IsShift(ins) || ins.Compare? || ins.Bit?
  }

  /** The pushes and pulls. */
  predicate IsStackOp(ins: Instr) {
    ins.Pha? || ins.Pla? || ins.Php? || ins.Plp?
  }

  /** The jumps, calls and returns. */
  predicate IsJump(ins: Instr) {
    ins.Jmp? || ins.JmpIndirect? || ins.Jsr? || ins.Rts? || ins.Rti?
  }

  /**
   * The handler the run loop calls for an instruction, on a machine whose
   * PC is past the opcode. No handler touches the cycle count; only a
   * branch asks for extra cycles, at most two; and every instruction but
   * the jumps, calls, returns and branches leaves the program counter where
   * the run loop put it.
   */
  function Execute(ins: Instr, mode: AddressingMode, m: Machine): (r: Executed)
    requires m.Valid() && (NeedsAddress(ins) ==> mode != NoneAddressing)
    ensures r.m.Valid() && r.m.cycles == m.cycles
    ensures r.extra <= 2 && (!ins.Branch? ==> r.extra == 0)
    ensures !IsControlFlow(ins) ==> r.m.regs.pc == m.regs.pc
  {
    match ins
    case Lda => Executed(LoadRegister(m, mode, RegA), 0)
    case Ldx => Executed(LoadRegister(m, mode, RegX), 0)
    case Ldy => Executed(LoadRegister(m, mode, RegY), 0)
    case Sta => Executed(StoreRegister(m, mode, RegA), 0)
    case Stx => Executed(StoreRegister(m, mode, RegX), 0)
    case Sty => Executed(StoreRegister(m, mode, RegY), 0)
    case ClearFlag(f) => Executed(SetStatus(m, With(m.regs.status, FlagBit(f), false)), 0)
    case SetFlag(f) => Executed(SetStatus(m, With(m.regs.status, FlagBit(f), true)), 0)
    case Tax => Executed(SetRegister(m, RegX, m.regs.a), 0)
    case Tay => Executed(SetRegister(m, RegY, m.regs.a), 0)
    case Tsx => Executed(SetRegister(m, RegX, m.regs.sp), 0)
    case Txa => Executed(SetRegister(m, RegA, m.regs.x), 0)
    case Txs => Executed(m.(regs := m.regs.(sp := m.regs.x)), 0)
    case Tya => Executed(SetRegister(m, RegA, m.regs.y), 0)
    case Inx => Executed(SetRegister(m, RegX, m.regs.x + 1), 0)
    case Iny => Executed(SetRegister(m, RegY, m.regs.y + 1), 0)
    case Dex => Executed(SetRegister(m, RegX, m.regs.x - 1), 0)
    case Dey => Executed(SetRegister(m, RegY, m.regs.y - 1), 0)
    case Inc => Executed(StepMemory(m, mode, 1), 0)
    case Dec => Executed(StepMemory(m, mode, 0xFF), 0)
    // the run loop returns before BRK reaches a handler
    case Brk => Executed(m, 0)
    case Nop => Executed(m, 0)
    case Pha => Executed(Push(m, m.regs.a), 0)
    case Pla => Executed(PullA(m), 0)
    case Php => Executed(Push(m, Alu.PhpStatus(m.regs.status)), 0)
    case Plp => Executed(PullStatus(m), 0)
    case Adc => Executed(AddOperand(m, mode), 0)
    case Sbc => Executed(SubtractOperand(m, mode), 0)
    case And | Eor | Ora => Executed(LogicOperand(m, mode, ins), 0)
    case AslAcc | LsrAcc | RolAcc | RorAcc => Executed(ShiftAccumulator(m, ins), 0)
    case Asl | Lsr | Rol | Ror => Executed(ShiftMemory(m, mode, ins), 0)
    case Compare(reg) => Executed(CompareOperand(m, mode, reg), 0)
    case Jmp => Executed(Jump(m), 0)
    case JmpIndirect => Executed(JumpIndirect(m), 0)
    case Jsr => Executed(JumpToSubroutine(m), 0)
    case Rts => Executed(ReturnFromSubroutine(m), 0)
    case Rti => Executed(ReturnFromInterrupt(m), 0)
    case Branch(f, whenSet) =>
      var b := TakeBranch(m, Has(m.regs.status, FlagBit(f)) == whenSet);
      Executed(b.m, (if b.taken then 1 else 0) + (if b.crossed then 1 else 0))
    case Bit => Executed(BitTest(m, mode), 0)
  }

  // ------------------------------------------------------------ properties


  // The handler `Execute` picks, one instruction (or one shared arm) at a time.

  lemma ExecuteClearFlag(m: Machine, mode: AddressingMode, f: Flag)
    requires m.Valid()
    ensures Execute(ClearFlag(f), mode, m) == Executed(SetStatus(m, With(m.regs.status, FlagBit(f), false)), 0)
  {}
  lemma ExecuteSetFlag(m: Machine, mode: AddressingMode, f: Flag)
    requires m.Valid()
    ensures Execute(SetFlag(f), mode, m) == Executed(SetStatus(m, With(m.regs.status, FlagBit(f), true)), 0)
  {}
  lemma ExecuteTax(m: Machine, mode: AddressingMode)
    requires m.Valid()
    ensures Execute(Tax, mode, m) == Executed(SetRegister(m, RegX, m.regs.a), 0)
  {}
  lemma ExecuteTay(m: Machine, mode: AddressingMode)
    requires m.Valid()
    ensures Execute(Tay, mode, m) == Executed(SetRegister(m, RegY, m.regs.a), 0)
  {}
  lemma ExecuteTsx(m: Machine, mode: AddressingMode)
    requires m.Valid()
    ensures Execute(Tsx, mode, m) == Executed(SetRegister(m, RegX, m.regs.sp), 0)
  {}
  lemma ExecuteTxa(m: Machine, mode: AddressingMode)
    requires m.Valid()
    ensures Execute(Txa, mode, m) == Executed(SetRegister(m, RegA, m.regs.x), 0)
  {}
  lemma ExecuteTxs(m: Machine, mode: AddressingMode)
    requires m.Valid()
    ensures Execute(Txs, mode, m) == Executed(m.(regs := m.regs.(sp := m.regs.x)), 0)
  {}
  lemma ExecuteTya(m: Machine, mode: AddressingMode)
    requires m.Valid()
    ensures Execute(Tya, mode, m) == Executed(SetRegister(m, RegA, m.regs.y), 0)
  {}
  lemma ExecuteInx(m: Machine, mode: AddressingMode)
    requires m.Valid()
    ensures Execute(Inx, mode, m) == Executed(SetRegister(m, RegX, m.regs.x + 1), 0)
  {}
  lemma ExecuteIny(m: Machine, mode: AddressingMode)
    requires m.Valid()
    ensures Execute(Iny, mode, m) == Executed(SetRegister(m, RegY, m.regs.y + 1), 0)
  {}
  lemma ExecuteDex(m: Machine, mode: AddressingMode)
    requires m.Valid()
    ensures Execute(Dex, mode, m) == Executed(SetRegister(m, RegX, m.regs.x - 1), 0)
  {}
  lemma ExecuteDey(m: Machine, mode: AddressingMode)
    requires m.Valid()
    ensures Execute(Dey, mode, m) == Executed(SetRegister(m, RegY, m.regs.y - 1), 0)
  {}
  lemma ExecuteInc(m: Machine, mode: AddressingMode)
    requires m.Valid() && mode != NoneAddressing
    ensures Execute(Inc, mode, m) == Executed(StepMemory(m, mode, 1), 0)
  {}
  lemma ExecuteDec(m: Machine, mode: AddressingMode)
    requires m.Valid() && mode != NoneAddressing
    ensures Execute(Dec, mode, m) == Executed(StepMemory(m, mode, 0xFF), 0)
  {}
  lemma ExecuteAdc(m: Machine, mode: AddressingMode)
    requires m.Valid() && mode != NoneAddressing
    ensures Execute(Adc, mode, m) == Executed(AddOperand(m, mode), 0)
  {}
  lemma ExecuteSbc(m: Machine, mode: AddressingMode)
    requires m.Valid() && mode != NoneAddressing
    ensures Execute(Sbc, mode, m) == Executed(SubtractOperand(m, mode), 0)
  {}
  lemma ExecuteLogic(m: Machine, mode: AddressingMode, ins: Instr)
    requires m.Valid() && mode != NoneAddressing && (ins.And? || ins.Eor? || ins.Ora?)
    ensures Execute(ins, mode, m) == Executed(LogicOperand(m, mode, ins), 0)
  {}
  lemma ExecuteAslAcc(m: Machine, mode: AddressingMode)
    requires m.Valid()
    ensures Execute(AslAcc, mode, m) == Executed(ShiftAccumulator(m, AslAcc), 0)
  {}
  lemma ExecuteLsrAcc(m: Machine, mode: AddressingMode)
    requires m.Valid()
    ensures Execute(LsrAcc, mode, m) == Executed(ShiftAccumulator(m, LsrAcc), 0)
  {}
  lemma ExecuteRolAcc(m: Machine, mode: AddressingMode)
    requires m.Valid()
    ensures Execute(RolAcc, mode, m) == Executed(ShiftAccumulator(m, RolAcc), 0)
  {}
  lemma ExecuteRorAcc(m: Machine, mode: AddressingMode)
    requires m.Valid()
    ensures Execute(RorAcc, mode, m) == Executed(ShiftAccumulator(m, RorAcc), 0)
  {}
  lemma ExecuteShiftAccumulator(m: Machine, mode: AddressingMode, ins: Instr)
    requires m.Valid() && (ins.AslAcc? || ins.LsrAcc? || ins.RolAcc? || ins.RorAcc?)
    ensures Execute(ins, mode, m) == Executed(ShiftAccumulator(m, ins), 0)
  {
    match ins
    case AslAcc => ExecuteAslAcc(m, mode);
    case LsrAcc => ExecuteLsrAcc(m, mode);
    case RolAcc => ExecuteRolAcc(m, mode);
    case RorAcc => ExecuteRorAcc(m, mode);
  }
  lemma ExecuteAsl(m: Machine, mode: AddressingMode)
    requires m.Valid() && mode != NoneAddressing
    ensures Execute(Asl, mode, m) == Executed(ShiftMemory(m, mode, Asl), 0)
  {}
  lemma ExecuteLsr(m: Machine, mode: AddressingMode)
    requires m.Valid() && mode != NoneAddressing
    ensures Execute(Lsr, mode, m) == Executed(ShiftMemory(m, mode, Lsr), 0)
  {}
  lemma ExecuteRol(m: Machine, mode: AddressingMode)
    requires m.Valid() && mode != NoneAddressing
    ensures Execute(Rol, mode, m) == Executed(ShiftMemory(m, mode, Rol), 0)
  {}
  lemma ExecuteRor(m: Machine, mode: AddressingMode)
    requires m.Valid() && mode != NoneAddressing
    ensures Execute(Ror, mode, m) == Executed(ShiftMemory(m, mode, Ror), 0)
  {}
  lemma ExecuteCmp(m: Machine, mode: AddressingMode)
    requires m.Valid() && mode != NoneAddressing
    ensures Execute(Compare(RegA), mode, m) == Executed(CompareOperand(m, mode, RegA), 0)
  {}
  lemma ExecuteCpx(m: Machine, mode: AddressingMode)
    requires m.Valid() && mode != NoneAddressing
    ensures Execute(Compare(RegX), mode, m) == Executed(CompareOperand(m, mode, RegX), 0)
  {}
  lemma ExecuteCpy(m: Machine, mode: AddressingMode)
    requires m.Valid() && mode != NoneAddressing
    ensures Execute(Compare(RegY), mode, m) == Executed(CompareOperand(m, mode, RegY), 0)
  {}
  lemma ExecuteCompare(m: Machine, mode: AddressingMode, reg: Reg)
    requires m.Valid() && mode != NoneAddressing
    ensures Execute(Compare(reg), mode, m) == Executed(CompareOperand(m, mode, reg), 0)
  {
    match reg
    case RegA => ExecuteCmp(m, mode);
    case RegX => ExecuteCpx(m, mode);
    case RegY => ExecuteCpy(m, mode);
  }
  lemma ExecuteBit(m: Machine, mode: AddressingMode)
    requires m.Valid() && mode != NoneAddressing
    ensures Execute(Bit, mode, m) == Executed(BitTest(m, mode), 0)
  {}
  lemma ExecutePha(m: Machine, mode: AddressingMode)
    requires m.Valid()
    ensures Execute(Pha, mode, m) == Executed(Push(m, m.regs.a), 0)
  {}
  lemma ExecutePla(m: Machine, mode: AddressingMode)
    requires m.Valid()
    ensures Execute(Pla, mode, m) == Executed(PullA(m), 0)
  {}
  lemma ExecutePhp(m: Machine, mode: AddressingMode)
    requires m.Valid()
    ensures Execute(Php, mode, m) == Executed(Push(m, Alu.PhpStatus(m.regs.status)), 0)
  {}
  lemma ExecutePlp(m: Machine, mode: AddressingMode)
    requires m.Valid()
    ensures Execute(Plp, mode, m) == Executed(PullStatus(m), 0)
  {}
  lemma ExecuteJmp(m: Machine, mode: AddressingMode)
    requires m.Valid()
    ensures Execute(Jmp, mode, m) == Executed(Jump(m), 0)
  {}
  lemma ExecuteJmpIndirect(m: Machine, mode: AddressingMode)
    requires m.Valid()
    ensures Execute(JmpIndirect, mode, m) == Executed(JumpIndirect(m), 0)
  {}
  lemma ExecuteJsr(m: Machine, mode: AddressingMode)
    requires m.Valid()
    ensures Execute(Jsr, mode, m) == Executed(JumpToSubroutine(m), 0)
  {}
  lemma ExecuteRts(m: Machine, mode: AddressingMode)
    requires m.Valid()
    ensures Execute(Rts, mode, m) == Executed(ReturnFromSubroutine(m), 0)
  {}
  lemma ExecuteRti(m: Machine, mode: AddressingMode)
    requires m.Valid()
    ensures Execute(Rti, mode, m) == Executed(ReturnFromInterrupt(m), 0)
  {}

  lemma AdderCarry(p: bv8, s: Alu.Sum)
    ensures Has(AdderStatus(p, s), CARRY) == s.carry
  {
    assert Has(With(With(p, CARRY, s.carry), OVERFLOW, s.overflow), CARRY) == s.carry;
  }

  lemma AdderOverflow(p: bv8, s: Alu.Sum)
    ensures Has(AdderStatus(p, s), OVERFLOW) == s.overflow
  {
  }

  lemma AdderOverflowFormula(a: bv8, v: bv8, c: bool)
    ensures var r := Alu.AddWithCarry(a, v, c).result;
      Alu.AddWithCarry(a, v, c).overflow <==> (v ^ r) & (r ^ a) & 0x80 != 0
  {
  }

  /**
   * Registers holding the adder's result in A and its carry in C hold the
   * exact 9-bit sum A + M + C.
   */
  lemma AdderSum(regs: Regs, v: bv8, r: Regs)
    requires r.a == Alu.AddWithCarry(regs.a, v, Has(regs.status, CARRY)).result
    requires Has(r.status, CARRY) == Alu.AddWithCarry(regs.a, v, Has(regs.status, CARRY)).carry
    ensures (if Has(r.status, CARRY) then 0x100 else 0) + r.a as bv16
      == regs.a as bv16 + v as bv16 + CarryWord(Has(regs.status, CARRY))
  {
    Alu.SumIsExact(regs.a, v, Has(regs.status, CARRY));
  }

  /** ADC: with A' = A + M + C (mod 256), the carry and A' together are the exact 9-bit sum. */
  lemma AdderCarrySum(regs: Regs, v: bv8)
    ensures var r := Adder(regs, v);
      (if Has(r.status, CARRY) then 0x100 else 0) + r.a as bv16
        == regs.a as bv16 + v as bv16 + CarryWord(Has(regs.status, CARRY))
  {
    var s := Alu.AddWithCarry(regs.a, v, Has(regs.status, CARRY));
    AdderCarry(regs.status, s);
    AdderSum(regs, v, Adder(regs, v));
  }

  /** ADC: V is ((M ^ A') & (A' ^ A) & 0x80) != 0, and Z and N come from A'. */
  lemma AdderFlags(regs: Regs, v: bv8)
    ensures var r := Adder(regs, v);
      && (Has(r.status, OVERFLOW) <==> (v ^ r.a) & (r.a ^ regs.a) & 0x80 != 0)
      && (Has(r.status, ZERO) <==> r.a == 0)
      && (Has(r.status, NEGATIVE) <==> Bytes.Negative(r.a))
  {
    var c := Has(regs.status, CARRY);
    var s := Alu.AddWithCarry(regs.a, v, c);
    AdderOverflow(regs.status, s);
    AdderOverflowFormula(regs.a, v, c);
  }

  /** Registers holding the adder's output for A + !M + C hold A - M - borrow. */
  lemma BorrowResult(regs: Regs, v: bv8, r: Regs)
    requires r.a == Alu.AddWithCarry(regs.a, Alu.SbcOperand(v), Has(regs.status, CARRY)).result
    ensures r.a == regs.a - v - CarryBit(!Has(regs.status, CARRY))
  {
    Alu.SubtractResult(regs.a, v, Has(regs.status, CARRY));
  }

  /** Registers holding the adder's carry for A + !M + C have C set exactly when no borrow was needed. */
  lemma BorrowCarry(regs: Regs, v: bv8, r: Regs)
    requires Has(r.status, CARRY) == Alu.AddWithCarry(regs.a, Alu.SbcOperand(v), Has(regs.status, CARRY)).carry
    ensures Has(r.status, CARRY) <==> regs.a as bv16 >= v as bv16 + CarryWord(!Has(regs.status, CARRY))
  {
    Alu.SubtractCarry(regs.a, v, Has(regs.status, CARRY));
  }

  /**
   * SBC is subtraction with borrow: A' = A - M - (1 - C), and the carry
   * afterwards means no borrow was needed.
   */
  lemma SubtractFlags(regs: Regs, v: bv8)
    ensures var r := Adder(regs, Alu.SbcOperand(v));
      var borrow := !Has(regs.status, CARRY);
      && r.a == regs.a - v - CarryBit(borrow)
      && (Has(r.status, CARRY) <==> regs.a as bv16 >= v as bv16 + CarryWord(borrow))
  {
    var s := Alu.AddWithCarry(regs.a, Alu.SbcOperand(v), Has(regs.status, CARRY));
    AdderCarry(regs.status, s);
    BorrowResult(regs, v, Adder(regs, Alu.SbcOperand(v)));
    BorrowCarry(regs, v, Adder(regs, Alu.SbcOperand(v)));
  }

  /** BIT: Z iff A AND M is zero, N is bit 7 of M and V is bit 6 of M. */
  lemma BitStatusFlags(p: bv8, a: bv8, v: bv8)
    ensures var q := BitStatus(p, a, v);
      && (Has(q, ZERO) <==> a & v == 0)
      && (Has(q, NEGATIVE) <==> v & 0x80 != 0)
      && (Has(q, OVERFLOW) <==> v & 0x40 != 0)
  {
    var q1 := With(p, ZERO, a & v == 0);
    var q2 := With(q1, NEGATIVE, v & 0x80 > 0);
    assert Has(q2, ZERO) == Has(q1, ZERO);
  }

  lemma RotateStatus(p: bv8, c: bool, v: bv8)
    ensures var q := WithN(With(p, CARRY, c), v);
      Has(q, CARRY) == c && Has(q, ZERO) == Has(p, ZERO)
  {
  }

  lemma ShiftStatus(p: bv8, c: bool, v: bv8)
    ensures Has(WithZN(With(p, CARRY, c), v), CARRY) == c
  {
  }

  /**
   * ROL and ROR on memory: C takes the bit rotated out and N follows the
   * result, but Z keeps its old value (`update_negative_flags`).
   */
  lemma RotateMemoryFlags(m: Machine, mode: AddressingMode, ins: Instr)
    requires m.Valid() && mode != NoneAddressing && (ins.Rol? || ins.Ror?)
    ensures var s := ShiftOf(ins, Fetch(m, Address(m, mode)), Has(m.regs.status, CARRY));
      var q := ShiftMemory(m, mode, ins).regs.status;
      && Has(q, CARRY) == s.carry
      && (Has(q, NEGATIVE) <==> Bytes.Negative(s.value))
      && Has(q, ZERO) == Has(m.regs.status, ZERO)
  {
    var s := ShiftOf(ins, Fetch(m, Address(m, mode)), Has(m.regs.status, CARRY));
    RotateStatus(m.regs.status, s.carry, s.value);
  }

  /** ASL and LSR on memory: C takes the bit shifted out, Z and N follow the result. */
  lemma ShiftMemoryFlags(m: Machine, mode: AddressingMode, ins: Instr)
    requires m.Valid() && mode != NoneAddressing && (ins.Asl? || ins.Lsr?)
    ensures var s := ShiftOf(ins, Fetch(m, Address(m, mode)), Has(m.regs.status, CARRY));
      var q := ShiftMemory(m, mode, ins).regs.status;
      && Has(q, CARRY) == s.carry
      && (Has(q, NEGATIVE) <==> Bytes.Negative(s.value))
      && (Has(q, ZERO) <==> s.value == 0)
  {
    var s := ShiftOf(ins, Fetch(m, Address(m, mode)), Has(m.regs.status, CARRY));
    ShiftStatus(m.regs.status, s.carry, s.value);
  }

  /**
   * STA, STX, STY to an address backed by RAM: the register's byte reads
   * back there, and every other address reads what it read before.
   */
  lemma StoreRegisterStores(m: Machine, mode: AddressingMode, reg: Reg, a: bv16, r: Machine, other: bv16)
    requires m.Valid() && mode != NoneAddressing && a == Address(m, mode) && CpuBus.IsMemory(m.bus, a)
    requires r == StoreRegister(m, mode, reg)
    ensures Fetch(r, a) == Register(m.regs, reg)
    ensures other != a ==> Fetch(r, other) == Fetch(m, other)
  {
    WrittenAt(m, r, a, Register(m.regs, reg), other);
  }

  /**
   * INC and DEC on an address backed by RAM: the old byte plus `delta`
   * (wrapping) reads back there, Z and N come from it, and every other
   * address reads what it read before.
   */
  lemma StepMemoryStores(m: Machine, mode: AddressingMode, delta: bv8, a: bv16, r: Machine, other: bv16)
    requires m.Valid() && mode != NoneAddressing && a == Address(m, mode) && CpuBus.IsMemory(m.bus, a)
    requires r == StepMemory(m, mode, delta)
    ensures Fetch(r, a) == Fetch(m, a) + delta
    ensures r.regs.status == WithZN(m.regs.status, Fetch(m, a) + delta)
    ensures other != a ==> Fetch(r, other) == Fetch(m, other)
  {
    var v := Fetch(m, a);
    CpuBus.ReadMemory(m.bus, a);
    StepMemoryWrites(m, mode, delta, a, v, r);
    WrittenAt(m, r, a, v + delta, other);
  }

  /** INC and DEC on a RAM address: the bus is the write of the incremented byte, and Z and N come from it. */
  lemma StepMemoryWrites(m: Machine, mode: AddressingMode, delta: bv8, a: bv16, v: bv8, r: Machine)
    requires m.Valid() && mode != NoneAddressing && a == Address(m, mode) && Read(m, a) == (v, m)
    requires r == StepMemory(m, mode, delta)
    ensures r.bus == CpuBus.Write(m.bus, a, v + delta) && r.regs.status == WithZN(m.regs.status, v + delta)
  {
    SteppedMemory(m, mode, delta, a, v, m, v + delta, Write(m, a, v + delta));
  }

  /** A machine whose bus is a RAM write of `w` at `a` reads `w` there and the old byte everywhere else. */
  lemma WrittenAt(m: Machine, r: Machine, a: bv16, w: bv8, other: bv16)
    requires m.Valid() && CpuBus.IsMemory(m.bus, a) && r.bus == CpuBus.Write(m.bus, a, w)
    ensures Fetch(r, a) == w
    ensures other != a ==> Fetch(r, other) == Fetch(m, other)
  {
    CpuBus.MemoryWriteThenRead(m.bus, a, a, w);
    if other != a {
      CpuBus.MemoryWriteKeepsOthers(m.bus, a, other, w);
    }
  }

  /**
   * ASL, LSR, ROL, ROR on an address backed by RAM: the shifted or rotated
   * byte reads back there, and every other address reads what it read before.
   */
  lemma ShiftMemoryStores(m: Machine, mode: AddressingMode, ins: Instr, a: bv16, r: Machine, other: bv16)
    requires m.Valid() && mode != NoneAddressing && (ins.Asl? || ins.Lsr? || ins.Rol? || ins.Ror?)
    requires a == Address(m, mode) && CpuBus.IsMemory(m.bus, a) && r == ShiftMemory(m, mode, ins)
    ensures Fetch(r, a) == ShiftOf(ins, Fetch(m, a), Has(m.regs.status, CARRY)).value
    ensures other != a ==> Fetch(r, other) == Fetch(m, other)
  {
    var w := ShiftOf(ins, Fetch(m, a), Has(m.regs.status, CARRY)).value;
    CpuBus.ReadMemory(m.bus, a);
    WrittenAt(m, r, a, w, other);
  }

  /** Two addresses lie in different pages exactly when their high bytes differ. */
  lemma PageChangedIsHighByte(a: bv16, b: bv16)
    ensures PageChanged(a, b) <==> Hi(a) != Hi(b)
  {
  }

  /** A taken branch moves by the offset byte at PC. */
  lemma TakenBranch(m: Machine, offset: bv8)
    requires m.Valid() && offset == Fetch(m, m.regs.pc)
    ensures TakeBranch(m, true) == BranchBy(m, offset)
  {
  }

  /**
   * RTS after JSR continues past the JSR's two operand bytes (the handler's
   * PC is at the operand), with SP and every other register as before the call.
   */
  lemma JsrThenRts(m: Machine, j: Machine, r: Machine)
    requires m.Valid() && j == JumpToSubroutine(m) && r == ReturnFromSubroutine(j)
    ensures r.regs == m.regs.(pc := m.regs.pc + 2)
  {
    JsrPushesReturn(m, j);
  }

  /** JSR leaves on top of the stack the address of its own last byte. */
  lemma JsrPushesReturn(m: Machine, j: Machine)
    requires m.Valid() && j == JumpToSubroutine(m)
    ensures PopWord(j).0 == m.regs.pc + 1
  {
    var w := m.regs.pc + 2 - 1;
    PushWordThenPopWord(m, w);
    PopWordReadsStack(j, PushWord(m, w));
  }

  /** What a word pop reads depends only on the bus and SP. */
  lemma PopWordReadsStack(a: Machine, b: Machine)
    requires a.Valid() && b.Valid() && a.bus == b.bus && a.regs.sp == b.regs.sp
    ensures PopWord(a).0 == PopWord(b).0
  {
  }

  /** INC and DEC, given the byte read and the machine after each access, in the terms the handler computes them. */
  lemma SteppedMemory(m: Machine, mode: AddressingMode, delta: bv8, addr: bv16, v: bv8, m1: Machine, w: bv8, m2: Machine)
    requires m.Valid() && mode != NoneAddressing && addr == Address(m, mode)
    requires (v, m1) == Read(m, addr) && w == v + delta && m2 == Write(m1, addr, w)
    ensures StepMemory(m, mode, delta) == SetStatus(m2, WithZN(m.regs.status, w))
  {
  }
}
