/**
 * `CPU` of src/cpu.rs as the object it is: the registers are fields and
 * the 0xFFFF-byte memory is an array written in place. A method whose Rust
 * counterpart can panic returns `ok`; it is proved to leave the object in
 * the state the function of the same name in `LegacyEngine` computes from
 * the old state whenever that function succeeds, and to return `false`
 * exactly when it fails (the state after a panic does not matter: the
 * program is gone).
 */
module LegacyProcessor {
  import opened Wrappers
  import opened Bytes
  import opened Registers
  import opened Addressing
  import opened Opcodes
  import opened Decoding
  import Alu
  import Engine
  import LegacyEngine

  /** A method's success and the machine after it, as the functions of `LegacyEngine` return them. */
  function IfOk(ok: bool, m: LegacyEngine.Machine): (r: Option<LegacyEngine.Machine>)
    ensures r.Some? <==> ok
    ensures ok ==> r.value == m
  {
    if ok then Some(m) else None
  }

  /** How a turn of the run loop ends: it goes round again, BRK returns, or the program panics. */
  datatype TurnEnd = Continue | Stop | Panic(reason: LegacyEngine.Panic)

  /** The outcome a turn's ending and the machine after it make up. */
  function OutcomeOf(e: TurnEnd, m: LegacyEngine.Machine): (o: LegacyEngine.Outcome)
    ensures o.Running? <==> e.Continue?
    ensures o.Halted? <==> e.Stop?
    ensures !o.Panicked? ==> o.m == m
    ensures o.Panicked? ==> o.reason == e.reason
  {
    match e
    case Continue => LegacyEngine.Running(m)
    case Stop => LegacyEngine.Halted(m)
    case Panic(reason) => LegacyEngine.Panicked(reason)
  }

  class LegacyCpu {
    var a: bv8
    var x: bv8
    var y: bv8
    var status: bv8
    var pc: bv16
    var sp: bv8
    const memory: array<bv8>

    /** The memory array has its fixed size, one byte short of 64 KB. */
    ghost predicate Valid()
      reads this
    {
      memory.Length == LegacyEngine.MEMORY_SIZE
    }

    /** The registers as a value. */
    ghost function Regs(): Registers.Regs
      reads this
    {
      Registers.Regs(a, x, y, status, pc, sp)
    }

    /** The whole CPU as a value. */
    ghost function State(): (m: LegacyEngine.Machine)
      reads this, memory
      requires Valid()
      ensures m.Valid()
    {
      LegacyEngine.Machine(Regs(), memory[..])
    }

    /** `CPU::new`. */
    constructor ()
      ensures Valid() && fresh(memory)
      ensures State() == LegacyEngine.NewMachine()
    {
      a, x, y, status, pc, sp := 0, 0, 0, STATUS_RESET, 0, STACK_RESET;
      memory := new bv8[LegacyEngine.MEMORY_SIZE](_ => 0);
    }

    // ------------------------------------------------------------ memory

    /** `mem_read`: the byte, or `None` where the index is past the array. */
    function MemRead(addr: bv16): (v: Option<bv8>)
      reads this, memory
      requires Valid()
      ensures v == LegacyEngine.Read(State(), addr)
    {
      if addr == 0xFFFF then None else LegacyEngine.CellIndex(addr); Some(memory[addr as int])
    }

    /** `mem_read_u16`. */
    function MemReadWord(pos: bv16): (w: Option<bv16>)
      reads this, memory
      requires Valid()
      ensures w == LegacyEngine.ReadWord(State(), pos)
    {
      match (MemRead(pos), MemRead(pos + 1))
      case (Some(lo), Some(hi)) => Some(Word(lo, hi))
      case _ => None
    }

    /** `mem_write`: `false` where the index is past the array. */
    method MemWrite(addr: bv16, data: bv8) returns (ok: bool)
      requires Valid()
      modifies memory
      ensures Valid()
      ensures IfOk(ok, State()) == LegacyEngine.Write(old(State()), addr, data)
    {
      if addr == 0xFFFF {
        return false;
      }
      ghost var s := State();
      LegacyEngine.CellIndex(addr);
      memory[addr as int] := data;
      assert memory[..] == s.mem[addr as int := data];
      ok := true;
    }

    /** `mem_write_u16`: the low byte, then the high byte. */
    method MemWriteWord(pos: bv16, data: bv16) returns (ok: bool)
      requires Valid()
      modifies memory
      ensures Valid()
      ensures IfOk(ok, State()) == LegacyEngine.WriteWord(old(State()), pos, data)
    {
      ok := MemWrite(pos, Lo(data));
      if ok {
        ok := MemWrite(pos + 1, Hi(data));
      }
    }

    // ------------------------------------------------------------- stack

    /** `stack_push`. */
    method StackPush(v: bv8)
      requires Valid()
      modifies this, memory
      ensures Valid()
      ensures State() == LegacyEngine.Push(old(State()), v)
    {
      ghost var s := State();
      LegacyEngine.StackInBounds(sp);
      memory[Engine.StackAddress(sp) as int] := v;
      sp := sp - 1;
      assert memory[..] == s.mem[Engine.StackAddress(s.regs.sp) as int := v];
    }

    /** `stack_pop`. */
    method StackPop() returns (v: bv8)
      requires Valid()
      modifies this
      ensures Valid()
      ensures (v, State()) == LegacyEngine.Pop(old(State()))
    {
      ghost var s := State();
      sp := sp + 1;
      LegacyEngine.StackInBounds(sp);
      v := memory[Engine.StackAddress(sp) as int];
      assert memory[..] == s.mem;
    }

    /** `stack_push_u16`: the high byte first. */
    method StackPushWord(w: bv16)
      requires Valid()
      modifies this, memory
      ensures Valid()
      ensures State() == LegacyEngine.PushWord(old(State()), w)
    {
      StackPush(Hi(w));
      StackPush(Lo(w));
    }

    /** `stack_pop_u16`: the low byte first. */
    method StackPopWord() returns (w: bv16)
      requires Valid()
      modifies this
      ensures Valid()
      ensures (w, State()) == LegacyEngine.PopWord(old(State()))
    {
      var lo := StackPop();
      var hi := StackPop();
      w := Word(lo, hi);
    }

    // ----------------------------------------------------------- loaders

    /** `copy_from_slice` into `memory[start..start + |src|]`. */
    method CopyIntoMemory(start: nat, src: seq<bv8>)
      requires start + |src| <= memory.Length
      modifies memory
      ensures memory[..] == old(memory[..])[..start] + src + old(memory[..])[start + |src|..]
    {
      ghost var before := memory[..];
      for i := 0 to |src|
        invariant forall k | 0 <= k < memory.Length ::
          memory[k] == if start <= k < start + i then src[k - start] else before[k]
      {
        memory[start + i] := src[i];
      }
      assert forall k | 0 <= k < memory.Length ::
        memory[..][k] == (before[..start] + src + before[start + |src|..])[k];
    }

    /** `load`: the program at 0x8000, which panics past the array, then 0x8000 into the reset vector. */
    method Load(program: seq<bv8>) returns (ok: bool)
      requires Valid()
      modifies memory
      ensures Valid()
      ensures IfOk(ok, State()) == LegacyEngine.Load(old(State()), program)
    {
      if LegacyEngine.PROGRAM_START as int + |program| > memory.Length {
        return false;
      }
      CopyIntoMemory(LegacyEngine.PROGRAM_START as nat, program);
      ok := MemWriteWord(LegacyEngine.RESET_VECTOR, LegacyEngine.PROGRAM_START);
    }

    /** `reset`: power-on registers, PC from the reset vector. */
    method Reset()
      requires Valid()
      modifies this
      ensures Valid()
      ensures State() == LegacyEngine.Reset(old(State()))
    {
      ghost var s := State();
      a, x, y, sp, status := 0, 0, 0, STACK_RESET, STATUS_RESET;
      pc := MemReadWord(LegacyEngine.RESET_VECTOR).value;
      assert memory[..] == s.mem;
    }

    // ---------------------------------------------------------- handlers

    /** `get_operand_address`, with the operand bytes at PC. */
    function OperandAddress(mode: AddressingMode): (addr: Option<bv16>)
      reads this, memory
      requires Valid() && mode != NoneAddressing
      ensures addr == LegacyEngine.Address(State(), mode)
    {
      assert memory[..256] == LegacyEngine.ZeroPage(State());
      if mode.Immediate? then Some(pc)
      else
        match MemRead(pc)
        case None => None
        case Some(lo) =>
          if LegacyEngine.IsAbsoluteMode(mode) then
            match MemRead(pc + 1)
            case None => None
            case Some(hi) => Some(Addressing.OperandAddress(mode, pc, lo, hi, x, y, memory[..256]))
          else Some(Addressing.OperandAddress(mode, pc, lo, 0, x, y, memory[..256]))
    }

    /** The byte at the operand address. */
    function Operand(mode: AddressingMode): (v: Option<bv8>)
      reads this, memory
      requires Valid() && mode != NoneAddressing
      ensures v == LegacyEngine.Operand(State(), mode)
    {
      match OperandAddress(mode)
      case None => None
      case Some(addr) => MemRead(addr)
    }

    /** A register and the Z and N flags from its new value. */
    method SetRegister(reg: Reg, v: bv8)
      requires Valid()
      modifies this
      ensures Valid()
      ensures State() == LegacyEngine.SetRegs(old(State()), LegacyEngine.WithRegister(old(State()).regs, reg, v))
    {
      match reg {
        case RegA => a := v;
        case RegX => x := v;
        case RegY => y := v;
      }
      status := WithZN(status, v);
    }

    /** A new status byte. */
    method SetStatus(p: bv8)
      requires Valid()
      modifies this
      ensures Valid()
      ensures State() == old(State()).(regs := old(State()).regs.(status := p))
    {
      status := p;
    }

    /** A new program counter. */
    method SetPc(target: bv16)
      requires Valid()
      modifies this
      ensures Valid()
      ensures State() == LegacyEngine.SetPc(old(State()), target)
    {
      pc := target;
    }

    /** LDA, LDX, LDY. */
    method LoadRegister(mode: AddressingMode, reg: Reg) returns (ok: bool)
      requires Valid() && mode != NoneAddressing
      modifies this
      ensures Valid()
      ensures IfOk(ok, State()) == LegacyEngine.LoadRegister(old(State()), mode, reg)
    {
      var v := Operand(mode);
      if v.None? {
        return false;
      }
      SetRegister(reg, v.value);
      ok := true;
    }

    /** STA, STX, STY. */
    method StoreRegister(mode: AddressingMode, reg: Reg) returns (ok: bool)
      requires Valid() && mode != NoneAddressing
      modifies memory
      ensures Valid()
      ensures IfOk(ok, State()) == LegacyEngine.StoreRegister(old(State()), mode, reg)
    {
      var addr := OperandAddress(mode);
      if addr.None? {
        return false;
      }
      var v := match reg case RegA => a case RegX => x case RegY => y;
      ok := MemWrite(addr.value, v);
    }

    /** `add_to_refister_a`. */
    method AddToA(v: bv8)
      requires Valid()
      modifies this
      ensures Valid()
      ensures State() == LegacyEngine.SetRegs(old(State()), Engine.Adder(old(State()).regs, v))
    {
      var sum := Alu.AddWithCarry(a, v, Has(status, CARRY));
      a, status := sum.result, Engine.AdderStatus(status, sum);
    }

    /** ADC. */
    method AddOperand(mode: AddressingMode) returns (ok: bool)
      requires Valid() && mode != NoneAddressing
      modifies this
      ensures Valid()
      ensures IfOk(ok, State()) == LegacyEngine.AddOperand(old(State()), mode)
    {
      var v := Operand(mode);
      if v.None? {
        return false;
      }
      AddToA(v.value);
      ok := true;
    }

    /** SBC: the adder with the operand's complement. */
    method SubtractOperand(mode: AddressingMode) returns (ok: bool)
      requires Valid() && mode != NoneAddressing
      modifies this
      ensures Valid()
      ensures IfOk(ok, State()) == LegacyEngine.SubtractOperand(old(State()), mode)
    {
      var v := Operand(mode);
      if v.None? {
        return false;
      }
      AddToA(Alu.SbcOperand(v.value));
      ok := true;
    }

    /** AND, EOR, ORA. */
    method LogicOperand(mode: AddressingMode, ins: Instr) returns (ok: bool)
      requires Valid() && mode != NoneAddressing && (ins.And? || ins.Eor? || ins.Ora?)
      modifies this
      ensures Valid()
      ensures IfOk(ok, State()) == LegacyEngine.LogicOperand(old(State()), mode, ins)
    {
      var v := Operand(mode);
      if v.None? {
        return false;
      }
      SetRegister(RegA, Engine.Logic(ins, a, v.value));
      ok := true;
    }

    /** ASL, LSR, ROL, ROR on A. */
    method ShiftAccumulator(ins: Instr)
      requires Valid() && (ins.AslAcc? || ins.LsrAcc? || ins.RolAcc? || ins.RorAcc?)
      modifies this
      ensures Valid()
      ensures State() == LegacyEngine.SetRegs(old(State()), LegacyEngine.ShiftAccumulator(old(State()).regs, ins))
    {
      var shifted := Engine.ShiftOf(ins, a, Has(status, CARRY));
      SetStatus(With(status, CARRY, shifted.carry));
      SetRegister(RegA, shifted.value);
    }

    /** ASL, LSR, ROL, ROR on memory: all four set Z and N here. */
    method ShiftMemory(mode: AddressingMode, ins: Instr) returns (ok: bool)
      requires Valid() && mode != NoneAddressing && (ins.Asl? || ins.Lsr? || ins.Rol? || ins.Ror?)
      modifies this, memory
      ensures Valid()
      ensures IfOk(ok, State()) == LegacyEngine.ShiftMemory(old(State()), mode, ins)
    {
      var addr := OperandAddress(mode);
      if addr.None? {
        return false;
      }
      var v := MemRead(addr.value);
      if v.None? {
        return false;
      }
      var shifted := Engine.ShiftOf(ins, v.value, Has(status, CARRY));
      ok := MemWrite(addr.value, shifted.value);
      SetStatus(LegacyEngine.ShiftStatus(status, shifted));
    }

    /** INC and DEC. */
    method StepMemory(mode: AddressingMode, delta: bv8) returns (ok: bool)
      requires Valid() && mode != NoneAddressing
      modifies this, memory
      ensures Valid()
      ensures IfOk(ok, State()) == LegacyEngine.StepMemory(old(State()), mode, delta)
    {
      var addr := OperandAddress(mode);
      if addr.None? {
        return false;
      }
      var v := MemRead(addr.value);
      if v.None? {
        return false;
      }
      ghost var s := State();
      var w := v.value + delta;
      ok := MemWrite(addr.value, w);
      LegacyEngine.StepMemoryBy(s, mode, delta, addr.value, v.value, w, State());
      SetStatus(WithZN(status, w));
    }

    /** CMP, CPX, CPY. */
    method CompareOperand(mode: AddressingMode, reg: Reg) returns (ok: bool)
      requires Valid() && mode != NoneAddressing
      modifies this
      ensures Valid()
      ensures IfOk(ok, State()) == LegacyEngine.CompareOperand(old(State()), mode, reg)
    {
      var v := Operand(mode);
      if v.None? {
        return false;
      }
      var r := match reg case RegA => a case RegX => x case RegY => y;
      SetStatus(Alu.Compare(status, r, v.value));
      ok := true;
    }

    /** BIT. */
    method BitTest(mode: AddressingMode) returns (ok: bool)
      requires Valid() && mode != NoneAddressing
      modifies this
      ensures Valid()
      ensures IfOk(ok, State()) == LegacyEngine.BitTest(old(State()), mode)
    {
      var v := Operand(mode);
      if v.None? {
        return false;
      }
      SetStatus(LegacyEngine.BitStatus(status, a, v.value));
      ok := true;
    }

    /** PLA. */
    method PullA()
      requires Valid()
      modifies this
      ensures Valid()
      ensures State() == LegacyEngine.PullA(old(State()))
    {
      var v := StackPop();
      SetRegister(RegA, v);
    }

    /** PLP. */
    method PullStatus()
      requires Valid()
      modifies this
      ensures Valid()
      ensures State() == LegacyEngine.PullStatus(old(State()))
    {
      var v := StackPop();
      SetStatus(Alu.PulledStatus(v));
    }

    /** JMP absolute. */
    method Jump() returns (ok: bool)
      requires Valid()
      modifies this
      ensures Valid()
      ensures IfOk(ok, State()) == LegacyEngine.Jump(old(State()))
    {
      var target := MemReadWord(pc);
      if target.None? {
        return false;
      }
      SetPc(target.value);
      ok := true;
    }

    /** JMP indirect, with the page-wrap bug. */
    method JumpIndirect() returns (ok: bool)
      requires Valid()
      modifies this
      ensures Valid()
      ensures IfOk(ok, State()) == LegacyEngine.JumpIndirect(old(State()))
    {
      var ptr := MemReadWord(pc);
      if ptr.None? {
        return false;
      }
      var target;
      if ptr.value & 0x00FF == 0x00FF {
        var lo := MemRead(ptr.value);
        if lo.None? {
          return false;
        }
        target := Some(Word(lo.value, MemRead(ptr.value & 0xFF00).value));
      } else {
        target := MemReadWord(ptr.value);
      }
      if target.None? {
        return false;
      }
      SetPc(target.value);
      ok := true;
    }

    /** JSR: the push happens before the target is read. */
    method JumpToSubroutine() returns (ok: bool)
      requires Valid()
      modifies this, memory
      ensures Valid()
      ensures IfOk(ok, State()) == LegacyEngine.JumpToSubroutine(old(State()))
    {
      ghost var s := State();
      var operand := pc;
      StackPushWord(pc + 2 - 1);
      ghost var m1 := State();
      var target := MemReadWord(operand);
      assert target == LegacyEngine.ReadWord(m1, s.regs.pc);
      LegacyEngine.JumpToSubroutineBy(s, m1, target);
      if target.None? {
        return false;
      }
      SetPc(target.value);
      ok := true;
    }

    /** RTS. */
    method ReturnFromSubroutine()
      requires Valid()
      modifies this
      ensures Valid()
      ensures State() == LegacyEngine.ReturnFromSubroutine(old(State()))
    {
      var w := StackPopWord();
      SetPc(w + 1);
    }

    /** RTI. */
    method ReturnFromInterrupt()
      requires Valid()
      modifies this
      ensures Valid()
      ensures State() == LegacyEngine.ReturnFromInterrupt(old(State()))
    {
      var p := StackPop();
      SetStatus(Alu.PulledStatus(p));
      var w := StackPopWord();
      SetPc(w);
    }

    /** `branch`. */
    method TakeBranch(condition: bool) returns (ok: bool)
      requires Valid()
      modifies this
      ensures Valid()
      ensures IfOk(ok, State()) == LegacyEngine.TakeBranch(old(State()), condition)
    {
      if !condition {
        return true;
      }
      var offset := MemRead(pc);
      if offset.None? {
        return false;
      }
      SetPc(Engine.BranchTarget(pc, offset.value));
      ok := true;
    }

    // -------------------------------------------------------- dispatch

    /** The `match code` of the run loop, once the opcode is known to have a handler. */
    method Execute(ins: Instr, mode: AddressingMode) returns (ok: bool)
      requires Valid() && (NeedsAddress(ins) ==> mode != NoneAddressing)
      modifies this, memory
      ensures Valid()
      ensures IfOk(ok, State()) == LegacyEngine.Execute(ins, mode, old(State()))
    {
      ok := true;
      ghost var s := State();
      match LegacyEngine.FamilyOf(ins) {
        case RegisterFamily =>
          ExecuteRegisterOp(ins);
          LegacyEngine.ExecuteRegisterOp(ins, mode, s);
        case LoadStoreFamily =>
          ok := ExecuteLoadStore(ins, mode);
          LegacyEngine.ExecuteLoadStore(ins, mode, s);
        case ArithmeticFamily =>
          ok := ExecuteArithmetic(ins, mode);
          LegacyEngine.ExecuteArithmetic(ins, mode, s);
        case StackFamily =>
          ExecuteStackOp(ins);
          LegacyEngine.ExecuteStackOp(ins, mode, s);
        case JumpFamily =>
          ok := ExecuteJump(ins);
          LegacyEngine.ExecuteJump(ins, mode, s);
        case BranchFamily =>
          ok := ExecuteBranch(ins, mode);
        case NoHandler =>
      }
    }

    /** The flag, transfer, increment and decrement handlers. */
    method ExecuteRegisterOp(ins: Instr)
      requires Valid() && Engine.IsRegisterOp(ins)
      modifies this
      ensures Valid()
      ensures State() == LegacyEngine.SetRegs(old(State()), LegacyEngine.RegisterOp(ins, old(Regs())))
    {
      ghost var s := State();
      if ins.ClearFlag? || ins.SetFlag? {
        ExecuteFlagOp(ins);
      } else if ins.Inx? || ins.Iny? || ins.Dex? || ins.Dey? {
        ExecuteIncrement(ins);
      } else {
        ExecuteTransfer(ins);
      }
      assert memory[..] == s.mem;
    }

    /** CLC, CLD, CLI, CLV, SEC, SED, SEI. */
    method ExecuteFlagOp(ins: Instr)
      requires Valid() && (ins.ClearFlag? || ins.SetFlag?)
      modifies this
      ensures Valid()
      ensures Regs() == LegacyEngine.RegisterOp(ins, old(Regs()))
    {
      match ins {
        case ClearFlag(f) => SetStatus(With(status, FlagBit(f), false));
        case SetFlag(f) => SetStatus(With(status, FlagBit(f), true));
      }
    }

    /** TAX, TAY, TSX, TXA, TXS, TYA. */
    method ExecuteTransfer(ins: Instr)
      requires Valid() && (ins.Tax? || ins.Tay? || ins.Tsx? || ins.Txa? || ins.Txs? || ins.Tya?)
      modifies this
      ensures Valid()
      ensures Regs() == LegacyEngine.RegisterOp(ins, old(Regs()))
    {
      match ins {
        case Tax => SetRegister(RegX, a);
        case Tay => SetRegister(RegY, a);
        case Tsx => SetRegister(RegX, sp);
        case Txa => SetRegister(RegA, x);
        case Txs => sp := x;
        case Tya => SetRegister(RegA, y);
      }
    }

    /** INX, INY, DEX, DEY. */
    method ExecuteIncrement(ins: Instr)
      requires Valid() && (ins.Inx? || ins.Iny? || ins.Dex? || ins.Dey?)
      modifies this
      ensures Valid()
      ensures Regs() == LegacyEngine.RegisterOp(ins, old(Regs()))
    {
      match ins {
        case Inx => SetRegister(RegX, x + 1);
        case Iny => SetRegister(RegY, y + 1);
        case Dex => SetRegister(RegX, x - 1);
        case Dey => SetRegister(RegY, y - 1);
      }
    }

    /** The load and store handlers. */
    method ExecuteLoadStore(ins: Instr, mode: AddressingMode) returns (ok: bool)
      requires Valid() && Engine.IsLoadStore(ins) && mode != NoneAddressing
      modifies this, memory
      ensures Valid()
      ensures IfOk(ok, State()) == LegacyEngine.LoadStore(ins, mode, old(State()))
    {
      match ins {
        case Lda => ok := LoadRegister(mode, RegA);
        case Ldx => ok := LoadRegister(mode, RegX);
        case Ldy => ok := LoadRegister(mode, RegY);
        case Sta => ok := StoreRegister(mode, RegA);
        case Stx => ok := StoreRegister(mode, RegX);
        case Sty => ok := StoreRegister(mode, RegY);
      }
    }

    /** The ALU handlers. */
    method ExecuteArithmetic(ins: Instr, mode: AddressingMode) returns (ok: bool)
      requires Valid() && Engine.IsArithmetic(ins) && (NeedsAddress(ins) ==> mode != NoneAddressing)
      modifies this, memory
      ensures Valid()
      ensures IfOk(ok, State()) == LegacyEngine.Arithmetic(ins, mode, old(State()))
    {
      ok := true;
      match ins {
        case Inc => ok := StepMemory(mode, 1);
        case Dec => ok := StepMemory(mode, 0xFF);
        case Adc => ok := AddOperand(mode);
        case Sbc => ok := SubtractOperand(mode);
        case And | Eor | Ora => ok := LogicOperand(mode, ins);
        case AslAcc | LsrAcc | RolAcc | RorAcc => ShiftAccumulator(ins);
        case Asl | Lsr | Rol | Ror => ok := ShiftMemory(mode, ins);
        case Compare(reg) => ok := CompareOperand(mode, reg);
        case Bit => ok := BitTest(mode);
      }
    }

    /** PHA, PLA, PHP, PLP. */
    method ExecuteStackOp(ins: Instr)
      requires Valid() && Engine.IsStackOp(ins)
      modifies this, memory
      ensures Valid()
      ensures State() == LegacyEngine.StackOp(ins, old(State()))
    {
      match ins {
        case Pha => StackPush(a);
        case Pla => PullA();
        case Php => StackPush(Alu.PhpStatus(status));
        case Plp => PullStatus();
      }
    }

    /** JMP, JSR, RTS, RTI. */
    method ExecuteJump(ins: Instr) returns (ok: bool)
      requires Valid() && Engine.IsJump(ins)
      modifies this, memory
      ensures Valid()
      ensures IfOk(ok, State()) == LegacyEngine.JumpOp(ins, old(State()))
    {
      ok := true;
      match ins {
        case Jmp => ok := Jump();
        case JmpIndirect => ok := JumpIndirect();
        case Jsr => ok := JumpToSubroutine();
        case Rts => ReturnFromSubroutine();
        case Rti => ReturnFromInterrupt();
      }
    }

    /** The conditional branches. */
    method ExecuteBranch(ins: Instr, mode: AddressingMode) returns (ok: bool)
      requires Valid() && ins.Branch?
      modifies this
      ensures Valid()
      ensures IfOk(ok, State()) == LegacyEngine.Execute(ins, mode, old(State()))
    {
      ok := TakeBranch(Has(status, FlagBit(ins.flag)) == ins.whenSet);
    }

    // ------------------------------------------------------------ run loop

    /** The rest of a turn once the opcode byte is known: look it up, run it, settle PC. */
    method Turn(entry: Option<OpCode>, decoded: Option<Instr>, code: bv8) returns (end: TurnEnd)
      requires Valid()
      requires entry.Some? ==> entry.value.len >= 1
      requires entry.Some? && decoded.Some? && NeedsAddress(decoded.value) ==> entry.value.mode != NoneAddressing
      modifies this, memory
      ensures Valid()
      ensures OutcomeOf(end, State()) == LegacyEngine.Turn(entry, decoded, code, old(State()))
    {
      if entry.None? {
        return Panic(LegacyEngine.OpcodeNotRecognized(code));
      }
      if decoded.None? {
        return Panic(LegacyEngine.NotImplemented(code));
      }
      if decoded.value.Brk? {
        return Stop;
      }
      var pcState := pc;
      var ok := Execute(decoded.value, entry.value.mode);
      if !ok {
        return Panic(LegacyEngine.IndexOutOfBounds);
      }
      if pcState == pc {
        SetPc(pc + (entry.value.len - 1) as bv16);
      }
      end := Continue;
    }

    /** One turn of `run_with_callback`. */
    method Step(table: bv8 -> Option<OpCode>) returns (end: TurnEnd)
      requires Valid() && WellFormed(table)
      modifies this, memory
      ensures Valid()
      ensures OutcomeOf(end, State()) == LegacyEngine.Step(table, old(State()))
    {
      var code := MemRead(pc);
      if code.None? {
        return Panic(LegacyEngine.IndexOutOfBounds);
      }
      SetPc(pc + 1);
      end := Turn(table(code.value), Decode(code.value), code.value);
    }

    /**
     * `run_with_callback` for at most `fuel` turns: `Continue` when the
     * turns ran out, `Stop` after BRK, `Panic` where the Rust code panics.
     */
    method Run(table: bv8 -> Option<OpCode>, fuel: nat) returns (end: TurnEnd)
      requires Valid() && WellFormed(table)
      modifies this, memory
      ensures Valid()
      ensures OutcomeOf(end, State()) == LegacyEngine.Run(table, old(State()), fuel)
    {
      ghost var m0 := old(State());
      var left := fuel;
      end := Continue;
      LegacyEngine.RunsAsStart(table, m0, fuel);
      while left > 0 && end.Continue?
        invariant Valid()
        invariant LegacyEngine.RunsAs(table, m0, fuel, OutcomeOf(end, State()), left)
      {
        end := RunTurn(table, m0, fuel, left);
        left := left - 1;
      }
      LegacyEngine.RunsAsEnd(table, m0, fuel, OutcomeOf(end, State()), left);
    }

    /** One turn of the loop of `Run`, which leaves one turn fewer of the run to go. */
    method RunTurn(table: bv8 -> Option<OpCode>, ghost m0: LegacyEngine.Machine, ghost fuel: nat, left: nat)
      returns (end: TurnEnd)
      requires Valid() && WellFormed(table) && m0.Valid() && left > 0
      requires LegacyEngine.RunsAs(table, m0, fuel, LegacyEngine.Running(State()), left)
      modifies this, memory
      ensures Valid()
      ensures LegacyEngine.RunsAs(table, m0, fuel, OutcomeOf(end, State()), left - 1)
    {
      ghost var o := LegacyEngine.Running(State());
      end := Step(table);
      LegacyEngine.RunsAsStep(table, m0, fuel, o, left, OutcomeOf(end, State()));
    }

    /** `load_and_run` for at most `fuel` turns. */
    method LoadAndRun(table: bv8 -> Option<OpCode>, program: seq<bv8>, fuel: nat) returns (end: TurnEnd)
      requires Valid() && WellFormed(table)
      modifies this, memory
      ensures Valid()
      ensures OutcomeOf(end, State()) == LegacyEngine.LoadAndRun(table, old(State()), program, fuel)
    {
      var ok := Load(program);
      if !ok {
        return Panic(LegacyEngine.IndexOutOfBounds);
      }
      Reset();
      end := Run(table, fuel);
    }
  }
}
