/**
 * What the older engine of src/cpu.rs promises: its memory array keeps
 * what is written to it, except at the missing last address; the stack and
 * the subroutine calls undo each other; BIT and the memory rotates set
 * their flags in their own way; `load` followed by `reset` starts at
 * 0x8000; and the INX-overflow program of its tests halts with X = 1.
 */
module LegacyProperties {
  import opened Wrappers
  import opened Bytes
  import opened Registers
  import opened Addressing
  import opened Opcodes
  import opened Decoding
  import Alu
  import Engine
  import EngineStep
  import opened LegacyEngine

  // ---------------------------------------------------------------- memory

  /** A byte written to the array reads back, and every other address keeps its byte. */
  lemma WriteThenRead(m: Machine, addr: bv16, other: bv16, data: bv8)
    requires m.Valid() && InBounds(addr) && InBounds(other)
    ensures Read(Write(m, addr, data).value, addr) == Some(data)
    ensures other != addr ==> Read(Write(m, addr, data).value, other) == Read(m, other)
  {
    CellIndex(addr);
    CellIndex(other);
    IndexInjective(addr, other);
  }

  /** A word written below 0xFFFE reads back, low byte first. */
  lemma WordRoundTrip(m: Machine, pos: bv16, data: bv16)
    requires m.Valid() && pos < 0xFFFE
    ensures ReadWord(WriteWord(m, pos, data).value, pos) == Some(data)
  {
    var m1 := Write(m, pos, Lo(data)).value;
    WriteThenRead(m, pos, pos, Lo(data));
    WriteThenRead(m1, pos + 1, pos, Hi(data));
    WriteThenRead(m1, pos + 1, pos + 1, Hi(data));
    WordOfBytes(data);
  }

  /**
   * The last address has no cell: reading or writing it panics, and so does
   * a word access that starts at 0xFFFE or 0xFFFF; the one before is fine.
   */
  lemma TopAddressPanics(m: Machine, data: bv8, word: bv16)
    requires m.Valid()
    ensures Read(m, 0xFFFF).None? && Write(m, 0xFFFF, data).None?
    ensures ReadWord(m, 0xFFFE).None? && ReadWord(m, 0xFFFF).None? && ReadWord(m, 0xFFFD).Some?
    ensures WriteWord(m, 0xFFFE, word).None? && WriteWord(m, 0xFFFD, word).Some?
  {
  }

  // ----------------------------------------------------------------- stack

  /** A pushed byte pops back, and the registers (SP included) are as before the push. */
  lemma PushThenPop(m: Machine, v: bv8)
    requires m.Valid()
    ensures Pop(Push(m, v)) == (v, Push(m, v).(regs := m.regs))
  {
    StackInBounds(m.regs.sp);
  }

  /** A push stores its byte at 0x0100 + SP and leaves every other address as it was. */
  lemma PushStores(m: Machine, v: bv8, other: bv16)
    requires m.Valid() && InBounds(other)
    ensures Read(Push(m, v), Engine.StackAddress(m.regs.sp)) == Some(v)
    ensures other != Engine.StackAddress(m.regs.sp) ==> Read(Push(m, v), other) == Read(m, other)
  {
    StackInBounds(m.regs.sp);
    WriteThenRead(m, Engine.StackAddress(m.regs.sp), other, v);
    assert Push(m, v) == Write(m, Engine.StackAddress(m.regs.sp), v).value.(regs := Push(m, v).regs);
  }

  /** A pop returns the byte at 0x0100 + SP + 1. */
  lemma PopReads(m: Machine)
    requires m.Valid()
    ensures Read(m, Engine.StackAddress(m.regs.sp + 1)) == Some(Pop(m).0)
  {
    StackInBounds(m.regs.sp + 1);
  }

  /** Two pushes use two different cells. */
  lemma StackSlotsDiffer(sp: bv8)
    ensures Engine.StackAddress(sp - 1) != Engine.StackAddress(sp)
  {
  }

  /** `stack_push_u16` leaves the high byte at 0x0100 + SP and the low byte just below it. */
  lemma PushWordStores(m: Machine, w: bv16)
    requires m.Valid()
    ensures Read(PushWord(m, w), Engine.StackAddress(m.regs.sp)) == Some(Hi(w))
    ensures Read(PushWord(m, w), Engine.StackAddress(m.regs.sp - 1)) == Some(Lo(w))
  {
    var m1 := Push(m, Hi(w));
    PushStores(m, Hi(w), Engine.StackAddress(m.regs.sp));
    StackInBounds(m.regs.sp);
    StackSlotsDiffer(m.regs.sp);
    PushStores(m1, Lo(w), Engine.StackAddress(m.regs.sp));
  }

  /** `stack_pop_u16` reads the low byte at 0x0100 + SP + 1 and the high byte above it. */
  lemma PopWordReads(m: Machine, lo: bv8, hi: bv8)
    requires m.Valid()
    requires Read(m, Engine.StackAddress(m.regs.sp + 1)) == Some(lo)
    requires Read(m, Engine.StackAddress(m.regs.sp + 2)) == Some(hi)
    ensures PopWord(m).0 == Word(lo, hi)
  {
    PopReads(m);
    var m1 := Pop(m).1;
    assert m1.regs.sp + 1 == m.regs.sp + 2;
    PopReads(m1);
  }

  /** A pushed word pops back, and the registers are as before the push. */
  lemma PushWordThenPopWord(m: Machine, w: bv16)
    requires m.Valid()
    ensures PopWord(PushWord(m, w)).0 == w
    ensures PopWord(PushWord(m, w)).1.regs == m.regs
  {
    var m2 := PushWord(m, w);
    PushWordStores(m, w);
    assert m2.regs.sp + 1 == m.regs.sp - 1 && m2.regs.sp + 2 == m.regs.sp;
    PopWordReads(m2, Lo(w), Hi(w));
    WordOfBytes(w);
  }

  /** Pushing 0x55 and then 0x66 makes `stack_pop_u16` return 0x5566. */
  lemma PushedBytesPopAsWord(m: Machine)
    requires m.Valid()
    ensures PopWord(Push(Push(m, 0x55), 0x66)).0 == 0x5566
  {
    assert Hi(0x5566) == 0x55 && Lo(0x5566) == 0x66;
    PushWordThenPopWord(m, 0x5566);
  }

  /** `stack_pop_u16` depends only on the memory and SP. */
  lemma PopWordOnlyReadsStack(m: Machine, n: Machine)
    requires m.Valid() && n.Valid() && m.mem == n.mem && m.regs.sp == n.regs.sp
    ensures PopWord(m).0 == PopWord(n).0
    ensures PopWord(n).1 == n.(regs := n.regs.(sp := n.regs.sp + 2))
  {
  }

  /**
   * JSR followed by RTS lands on the byte after JSR's two operand bytes,
   * with SP back where it was and every other register untouched.
   */
  lemma CallThenReturn(m: Machine)
    requires m.Valid() && JumpToSubroutine(m).Some?
    ensures ReturnFromSubroutine(JumpToSubroutine(m).value).regs == m.regs.(pc := m.regs.pc + 2)
  {
    var pushed := PushWord(m, m.regs.pc + 2 - 1);
    PushWordThenPopWord(m, m.regs.pc + 2 - 1);
    ReturnAfterCall(m, pushed, JumpToSubroutine(m).value);
  }

  /** `CallThenReturn` with the machine after the push named. */
  lemma ReturnAfterCall(m: Machine, pushed: Machine, called: Machine)
    requires m.Valid() && pushed.Valid() && called.Valid()
    requires PopWord(pushed).0 == m.regs.pc + 1 && PopWord(pushed).1.regs == m.regs
    requires called.mem == pushed.mem && called.regs == pushed.regs.(pc := called.regs.pc)
    ensures ReturnFromSubroutine(called).regs == m.regs.(pc := m.regs.pc + 2)
  {
    PopWordOnlyReadsStack(pushed, called);
  }

  // ----------------------------------------------------------------- flags

  /** BIT here: Z iff A AND M is zero, and N and V are both bit 7 of M. */
  lemma BitFlags(p: bv8, a: bv8, v: bv8)
    ensures var q := BitStatus(p, a, v);
      && (Has(q, ZERO) <==> a & v == 0)
      && (Has(q, NEGATIVE) <==> v & 0x80 != 0)
      && (Has(q, OVERFLOW) <==> v & 0x80 != 0)
  {
    var q1 := With(p, ZERO, a & v == 0);
    var q2 := With(q1, NEGATIVE, v & 0x80 > 0);
    assert Has(q2, ZERO) == Has(q1, ZERO);
  }

  /** After a shift or rotate in memory, C is the bit shifted out and Z and N follow the result. */
  lemma ShiftFlags(p: bv8, s: Alu.Shifted)
    ensures var q := ShiftStatus(p, s);
      && Has(q, CARRY) == s.carry
      && (Has(q, ZERO) <==> s.value == 0)
      && (Has(q, NEGATIVE) <==> Bytes.Negative(s.value))
  {
    Engine.ShiftStatus(p, s.carry, s.value);
  }

  /**
   * A shift or rotate in memory panics only where its operand address does;
   * otherwise it stores the shifted byte back, keeps every other cell and
   * changes only the status.
   */
  lemma ShiftMemoryStores(m: Machine, mode: AddressingMode, ins: Instr, other: bv16)
    requires m.Valid() && mode != NoneAddressing && (ins.Asl? || ins.Lsr? || ins.Rol? || ins.Ror?)
    ensures ShiftMemory(m, mode, ins).Some? <==> Operand(m, mode).Some?
    ensures ShiftMemory(m, mode, ins).Some? ==>
      var addr := Address(m, mode).value;
      var s := Engine.ShiftOf(ins, Operand(m, mode).value, Has(m.regs.status, CARRY));
      && ShiftMemory(m, mode, ins).value.regs == m.regs.(status := ShiftStatus(m.regs.status, s))
      && Read(ShiftMemory(m, mode, ins).value, addr) == Some(s.value)
    // every other cell keeps its byte
    ensures ShiftMemory(m, mode, ins).Some? && InBounds(other) && other != Address(m, mode).value ==>
      Read(ShiftMemory(m, mode, ins).value, other) == Read(m, other)
  {
    if Operand(m, mode).Some? {
      var addr := Address(m, mode).value;
      var s := Engine.ShiftOf(ins, Operand(m, mode).value, Has(m.regs.status, CARRY));
      StoredBack(m, addr, s.value, ShiftMemory(m, mode, ins).value);
      if InBounds(other) {
        WriteThenRead(m, addr, other, s.value);
      }
    }
  }

  /** INC and DEC panic only where their operand address does. */
  lemma StepMemoryPanics(m: Machine, mode: AddressingMode, delta: bv8)
    requires m.Valid() && mode != NoneAddressing
    ensures StepMemory(m, mode, delta).Some? <==> Operand(m, mode).Some?
  {
  }

  /** INC and DEC change only the status among the registers: Z and N from the stepped byte. */
  lemma StepMemoryStatus(m: Machine, mode: AddressingMode, delta: bv8)
    requires m.Valid() && mode != NoneAddressing && Operand(m, mode).Some?
    ensures StepMemory(m, mode, delta).Some?
    ensures StepMemory(m, mode, delta).value.regs ==
      m.regs.(status := WithZN(m.regs.status, Operand(m, mode).value + delta))
  {
  }

  /** INC and DEC store the operand plus `delta` (wrapping) back where they read it. */
  lemma StepMemoryStores(m: Machine, mode: AddressingMode, delta: bv8)
    requires m.Valid() && mode != NoneAddressing && Operand(m, mode).Some?
    ensures StepMemory(m, mode, delta).Some?
    ensures Read(StepMemory(m, mode, delta).value, Address(m, mode).value) == Some(Operand(m, mode).value + delta)
  {
    var addr := Address(m, mode).value;
    var v := Operand(m, mode).value + delta;
    StepMemoryMem(m, mode, delta);
    StoredBack(m, addr, v, StepMemory(m, mode, delta).value);
  }

  /** The array after INC or DEC is the array with the stepped byte stored. */
  lemma StepMemoryMem(m: Machine, mode: AddressingMode, delta: bv8)
    requires m.Valid() && mode != NoneAddressing && Operand(m, mode).Some?
    ensures StepMemory(m, mode, delta).Some?
    ensures StepMemory(m, mode, delta).value.mem == Store(m, Address(m, mode).value, Operand(m, mode).value + delta).mem
  {
  }

  /** A machine whose memory is the array after a store reads the stored byte there. */
  lemma StoredBack(m: Machine, addr: bv16, v: bv8, r: Machine)
    requires m.Valid() && InBounds(addr) && r.mem == Store(m, addr, v).mem
    ensures Read(r, addr) == Some(v)
  {
    WriteThenRead(m, addr, addr, v);
  }

  /**
   * STA, STX, STY store the register at the operand address and keep every
   * other cell, or panic where the address is 0xFFFF.
   */
  lemma StoreRegisterStores(m: Machine, mode: AddressingMode, reg: Reg, other: bv16)
    requires m.Valid() && mode != NoneAddressing
    ensures StoreRegister(m, mode, reg).Some? <==> Address(m, mode).Some? && InBounds(Address(m, mode).value)
    ensures StoreRegister(m, mode, reg).Some? ==>
      Read(StoreRegister(m, mode, reg).value, Address(m, mode).value) == Some(Engine.Register(m.regs, reg))
    // every other cell keeps its byte
    ensures StoreRegister(m, mode, reg).Some? && InBounds(other) && other != Address(m, mode).value ==>
      Read(StoreRegister(m, mode, reg).value, other) == Read(m, other)
  {
    if Address(m, mode).Some? && InBounds(Address(m, mode).value) {
      var addr := Address(m, mode).value;
      WriteThenRead(m, addr, addr, Engine.Register(m.regs, reg));
      if InBounds(other) {
        WriteThenRead(m, addr, other, Engine.Register(m.regs, reg));
      }
    }
  }

  // ------------------------------------------------------------------ turn

  /**
   * A turn panics exactly when the byte has no table entry, no handler, or
   * a handler that indexes past the array; BRK ends the run and leaves PC
   * one past it.
   */
  lemma TurnOutcome(entry: Option<OpCode>, decoded: Option<Instr>, code: bv8, m1: Machine)
    requires m1.Valid()
    requires entry.Some? ==> entry.value.len >= 1
    requires entry.Some? && decoded.Some? && NeedsAddress(decoded.value) ==> entry.value.mode != NoneAddressing
    ensures entry.None? ==> Turn(entry, decoded, code, m1) == Panicked(OpcodeNotRecognized(code))
    ensures entry.Some? && decoded.None? ==> Turn(entry, decoded, code, m1) == Panicked(NotImplemented(code))
    ensures entry.Some? && decoded == Some(Brk) ==> Turn(entry, decoded, code, m1) == Halted(m1)
    ensures entry.Some? && decoded.Some? && decoded != Some(Brk) ==>
      (Turn(entry, decoded, code, m1) == Panicked(IndexOutOfBounds) <==> Execute(decoded.value, entry.value.mode, m1).None?)
  {
  }

  /** An instruction that does not set PC itself leaves it `len` bytes past the opcode. */
  lemma TurnAdvancesPc(op: OpCode, ins: Instr, code: bv8, m1: Machine, pc: bv16)
    requires m1.Valid() && op.len >= 1 && (NeedsAddress(ins) ==> op.mode != NoneAddressing)
    requires !ins.Brk? && !Engine.IsControlFlow(ins) && m1.regs.pc == pc + 1
    requires Execute(ins, op.mode, m1).Some?
    ensures Turn(Some(op), Some(ins), code, m1).Running?
    ensures Turn(Some(op), Some(ins), code, m1).m.regs.pc == pc + op.len as bv16
  {
    EngineStep.PastOperands(pc, op.len);
  }

  /** Fetching an opcode at 0xFFFF panics before anything else happens. */
  lemma StepAtTopPanics(table: bv8 -> Option<OpCode>, m: Machine)
    requires WellFormed(table) && m.Valid() && m.regs.pc == 0xFFFF
    ensures Step(table, m) == Panicked(IndexOutOfBounds)
  {
  }

  /** Below 0xFFFF, a turn is `Turn` on the opcode byte, with PC one past it. */
  lemma StepIsTurn(table: bv8 -> Option<OpCode>, m: Machine, code: bv8)
    requires WellFormed(table) && m.Valid() && Read(m, m.regs.pc) == Some(code)
    ensures Step(table, m) == Turn(table(code), Decode(code), code, SetPc(m, m.regs.pc + 1))
  {
  }

  // --------------------------------------------------------------- loaders

  /** `load` leaves 0x8000 in the reset vector, so `reset` starts the program there. */
  lemma LoadThenReset(m: Machine, program: seq<bv8>)
    requires m.Valid() && Load(m, program).Some?
    ensures Reset(Load(m, program).value).regs == PowerOn.(pc := PROGRAM_START)
  {
    WordRoundTrip(m.(mem := Placed(m.mem, program)), RESET_VECTOR, PROGRAM_START);
  }

  /** The copy puts program byte `i` at 0x8000 + i. */
  lemma PlacedCell(mem: seq<bv8>, program: seq<bv8>, i: int)
    requires |mem| == MEMORY_SIZE && PROGRAM_START as int + |program| <= MEMORY_SIZE && 0 <= i < |program|
    ensures Placed(mem, program)[PROGRAM_START as int + i] == program[i]
  {
  }

  /** An address below the top whose index is `k`. */
  lemma IndexedAddress(a: bv16, k: int)
    requires a as int == k && k < 0xFFFC
    ensures InBounds(a) && a != RESET_VECTOR && a != RESET_VECTOR + 1
  {
  }

  /**
   * The program's bytes are at 0x8000 on, up to the reset vector, which
   * `load` writes after copying and so wins over a program long enough to
   * reach it.
   */
  lemma LoadPlaces(m: Machine, program: seq<bv8>, a: bv16, i: int)
    requires m.Valid() && Load(m, program).Some?
    requires 0 <= i < |program| && a as int == PROGRAM_START as int + i && a as int < RESET_VECTOR as int
    ensures Read(Load(m, program).value, a) == Some(program[i])
  {
    var placed := m.(mem := Placed(m.mem, program));
    PlacedCell(m.mem, program, i);
    IndexedAddress(a, PROGRAM_START as int + i);
    assert Read(placed, a) == Some(program[i]);
    var m1 := Write(placed, RESET_VECTOR, Lo(PROGRAM_START)).value;
    WriteThenRead(placed, RESET_VECTOR, a, Lo(PROGRAM_START));
    WriteThenRead(m1, RESET_VECTOR + 1, a, Hi(PROGRAM_START));
  }

  /** `load` writes 0x8000 into the reset vector, little-endian, after the copy. */
  lemma LoadWritesVector(m: Machine, program: seq<bv8>)
    requires m.Valid() && Load(m, program).Some?
    ensures Read(Load(m, program).value, RESET_VECTOR) == Some(0x00)
    ensures Read(Load(m, program).value, RESET_VECTOR + 1) == Some(0x80)
  {
    var placed := m.(mem := Placed(m.mem, program));
    var m1 := Write(placed, RESET_VECTOR, Lo(PROGRAM_START)).value;
    WriteThenRead(placed, RESET_VECTOR, RESET_VECTOR, Lo(PROGRAM_START));
    WriteThenRead(m1, RESET_VECTOR + 1, RESET_VECTOR, Hi(PROGRAM_START));
    WriteThenRead(m1, RESET_VECTOR + 1, RESET_VECTOR + 1, Hi(PROGRAM_START));
  }

  // ------------------------------------------------------ example programs

  const INX_IMPLIED := OpCode(0xe8, "INX", 1, 2, NoneAddressing)

  /** A table that knows LDA #imm, TAX, INX and BRK as `CPU_OPS_CODES` lists them. */
  predicate KnowsInxProgram(table: bv8 -> Option<OpCode>) {
    && table(0xa9) == Some(EngineStep.LDA_IMMEDIATE) && table(0xaa) == Some(EngineStep.TAX_IMPLIED)
    && table(0xe8) == Some(INX_IMPLIED) && table(0x00) == Some(EngineStep.BRK_IMPLIED)
  }

  /** The handlers the `match` picks for the bytes of the program. */
  lemma DecodesInxProgram()
    ensures Decode(0xa9) == Some(Lda) && Decode(0xaa) == Some(Tax)
    ensures Decode(0xe8) == Some(Inx) && Decode(0x00) == Some(Brk)
  {
  }

  /** A one-byte register instruction runs its handler and leaves PC after the opcode. */
  lemma RegisterTurn(op: OpCode, ins: Instr, code: bv8, m1: Machine)
    requires m1.Valid() && op.len == 1 && op.mode == NoneAddressing && Engine.IsRegisterOp(ins)
    ensures Turn(Some(op), Some(ins), code, m1) == Running(SetRegs(m1, RegisterOp(ins, m1.regs)))
  {
    LegacyEngine.ExecuteRegisterOp(ins, op.mode, m1);
  }

  /** LDA #v at 0x8000. */
  lemma LdaStep(table: bv8 -> Option<OpCode>, m: Machine, v: bv8)
    requires WellFormed(table) && KnowsInxProgram(table) && m.Valid()
    requires m.regs.pc == 0x8000 && Read(m, 0x8000) == Some(0xa9) && Read(m, 0x8001) == Some(v)
    ensures Step(table, m) == Running(m.(regs := m.regs.(a := v, status := WithZN(m.regs.status, v), pc := 0x8002)))
  {
    StepIsTurn(table, m, 0xa9);
    DecodesInxProgram();
  }

  /** TAX at 0x8002. */
  lemma TaxStep(table: bv8 -> Option<OpCode>, m: Machine)
    requires WellFormed(table) && KnowsInxProgram(table) && m.Valid()
    requires m.regs.pc == 0x8002 && Read(m, 0x8002) == Some(0xaa)
    ensures Step(table, m) ==
      Running(m.(regs := m.regs.(x := m.regs.a, status := WithZN(m.regs.status, m.regs.a), pc := 0x8003)))
  {
    StepIsTurn(table, m, 0xaa);
    DecodesInxProgram();
    RegisterTurn(EngineStep.TAX_IMPLIED, Tax, 0xaa, SetPc(m, 0x8003));
  }

  /** INX at `pc`: X goes up by one, wrapping from 0xFF to 0x00. */
  lemma InxStep(table: bv8 -> Option<OpCode>, m: Machine, pc: bv16)
    requires WellFormed(table) && KnowsInxProgram(table) && m.Valid()
    requires m.regs.pc == pc && Read(m, pc) == Some(0xe8)
    ensures Step(table, m) ==
      Running(m.(regs := m.regs.(x := m.regs.x + 1, status := WithZN(m.regs.status, m.regs.x + 1), pc := pc + 1)))
  {
    StepIsTurn(table, m, 0xe8);
    DecodesInxProgram();
    RegisterTurn(INX_IMPLIED, Inx, 0xe8, SetPc(m, pc + 1));
  }

  /** BRK at `pc` returns, with PC one past it. */
  lemma BrkStep(table: bv8 -> Option<OpCode>, m: Machine, pc: bv16)
    requires WellFormed(table) && KnowsInxProgram(table) && m.Valid()
    requires m.regs.pc == pc && Read(m, pc) == Some(0x00)
    ensures Step(table, m) == Halted(m.(regs := m.regs.(pc := pc + 1)))
  {
    StepIsTurn(table, m, 0x00);
    DecodesInxProgram();
    TurnOutcome(table(0x00), Decode(0x00), 0x00, SetPc(m, pc + 1));
  }

  /** The program of the INX-overflow test. */
  const INX_OVERFLOW_PROGRAM: seq<bv8> := [0xa9, 0xff, 0xaa, 0xe8, 0xe8, 0x00]

  /** The program's bytes at 0x8000 to 0x8005. */
  predicate HoldsInxProgram(m: Machine)
    requires m.Valid()
  {
    && Read(m, 0x8000) == Some(0xa9) && Read(m, 0x8001) == Some(0xff) && Read(m, 0x8002) == Some(0xaa)
    && Read(m, 0x8003) == Some(0xe8) && Read(m, 0x8004) == Some(0xe8) && Read(m, 0x8005) == Some(0x00)
  }

  /** LDA #$FF; TAX; INX; INX; BRK from 0x8000 halts after five turns with X wrapped round to 1. */
  lemma InxOverflowRuns(table: bv8 -> Option<OpCode>, m: Machine)
    requires WellFormed(table) && KnowsInxProgram(table) && m.Valid() && m.regs.pc == 0x8000 && HoldsInxProgram(m)
    ensures var r := Run(table, m, 5);
      r.Halted? && r.m.regs.x == 1 && r.m.regs.a == 0xff && r.m.regs.pc == 0x8006
  {
    LdaStep(table, m, 0xff);
    var m1 := m.(regs := m.regs.(a := 0xff, status := WithZN(m.regs.status, 0xff), pc := 0x8002));
    TaxStep(table, m1);
    var m2 := m1.(regs := m1.regs.(x := 0xff, status := WithZN(m1.regs.status, 0xff), pc := 0x8003));
    InxStep(table, m2, 0x8003);
    var m3 := m2.(regs := m2.regs.(x := 0x00, status := WithZN(m2.regs.status, 0x00), pc := 0x8004));
    InxStep(table, m3, 0x8004);
    var m4 := m3.(regs := m3.regs.(x := 0x01, status := WithZN(m3.regs.status, 0x01), pc := 0x8005));
    BrkStep(table, m4, 0x8005);
    assert Run(table, m, 5) == Run(table, m1, 4) == Run(table, m2, 3) == Run(table, m3, 2) == Run(table, m4, 1);
  }

  /** The INX entry of `CPU_OPS_CODES`. */
  lemma OpcodesMapKnowsInx()
    ensures OpcodesMap(0xe8) == Some(INX_IMPLIED)
  {
    OpcodesMapFindsEveryEntry(2);
  }

  /** `load` of the program puts it at 0x8000. */
  lemma LoadsInxProgram(m: Machine)
    requires m.Valid()
    ensures Load(m, INX_OVERFLOW_PROGRAM).Some?
    ensures HoldsInxProgram(Load(m, INX_OVERFLOW_PROGRAM).value)
  {
    var p := INX_OVERFLOW_PROGRAM;
    LoadPlaces(m, p, 0x8000, 0);
    LoadPlaces(m, p, 0x8001, 1);
    LoadPlaces(m, p, 0x8002, 2);
    LoadPlaces(m, p, 0x8003, 3);
    LoadPlaces(m, p, 0x8004, 4);
    LoadPlaces(m, p, 0x8005, 5);
  }

  /**
   * With the engine's own opcode table, `load_and_run` of the INX-overflow
   * test program on a new CPU halts with X = 1.
   */
  lemma InxOverflowProgram()
    ensures WellFormed(OpcodesMap)
    ensures var r := LoadAndRun(OpcodesMap, NewMachine(), INX_OVERFLOW_PROGRAM, 5);
      r.Halted? && r.m.regs.x == 1
  {
    OpcodesMapWellFormed();
    EngineStep.OpcodesMapKnowsLda();
    EngineStep.OpcodesMapKnowsTaxBrk();
    OpcodesMapKnowsInx();
    var m0 := NewMachine();
    LoadsInxProgram(m0);
    LoadThenReset(m0, INX_OVERFLOW_PROGRAM);
    var loaded := Load(m0, INX_OVERFLOW_PROGRAM).value;
    var m := Reset(loaded);
    assert HoldsInxProgram(m) by {
      assert m.mem == loaded.mem;
    }
    InxOverflowRuns(OpcodesMap, m);
  }
}
