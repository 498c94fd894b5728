/**
 * `CPU` of crates/res-core/src/cpu.rs as the object it is: the registers
 * and the cycle counter are fields, the 64 KB memory is an array written
 * in place, and the APU, the PPU and the cartridge are owned devices.
 * Every method is proved to leave the object in the state the function of
 * the same name in `Engine` or `EngineStep` computes from the old state.
 */
module Processor {
  import opened Wrappers
  import opened Bytes
  import opened Registers
  import opened Addressing
  import opened Opcodes
  import opened Decoding
  import Alu
  import CpuBus
  import Mapper
  import Rom
  import ApuStub
  import PpuDevice
  import Engine
  import EngineStep

  /** How a turn of the run loop ends: it goes round again, BRK returns `Ok`, or it returns the error. */
  datatype TurnEnd = Continue | Stop | Fault(error: EngineStep.CpuError)

  /** The way an outcome of the functional loop ends. */
  function EndOf(o: EngineStep.Outcome): (e: TurnEnd)
    ensures e.Continue? <==> o.Running?
    ensures e.Stop? <==> o.Halted?
    ensures e.Fault? <==> o.Failed?
  {
    match o
    case Running(_) => Continue
    case Halted(_) => Stop
    case Failed(err, _) => Fault(err)
  }

  /** The outcome a turn's ending and the machine after it make up. */
  function OutcomeOf(e: TurnEnd, m: Engine.Machine): (o: EngineStep.Outcome)
    ensures o.m == m && EndOf(o) == e
  {
    match e
    case Continue => EngineStep.Running(m)
    case Stop => EngineStep.Halted(m)
    case Fault(err) => EngineStep.Failed(err, m)
  }

  /** An outcome is determined by how it ends and the machine it holds. */
  lemma OutcomeOfEnd(o: EngineStep.Outcome)
    ensures OutcomeOf(EndOf(o), o.m) == o
  {
  }

  class Cpu {
    var a: bv8
    var x: bv8
    var y: bv8
    var status: bv8
    var pc: bv16
    var sp: bv8
    var cycles: nat
    const memory: array<bv8>
    const apu: ApuStub.Apu
    const ppu: PpuDevice.Ppu
    /** The PRG-ROM of the plugged-in NROM cartridge, if any. */
    var prg: Option<seq<bv8>>

    /** The arrays have their fixed sizes and no two of them are the same array. */
    ghost predicate Valid()
      reads this, apu, ppu
    {
      && memory.Length == CpuBus.MEMORY_SIZE && apu.Valid() && ppu.Valid()
      && memory != apu.registers && memory != ppu.vram && memory != ppu.palette && memory != ppu.oam
      && apu.registers != ppu.vram && apu.registers != ppu.palette && apu.registers != ppu.oam
      && (prg.Some? ==> Mapper.ValidPrgSize(|prg.value|))
    }

    /** The registers as a value. */
    ghost function Regs(): Registers.Regs
      reads this
    {
      Registers.Regs(a, x, y, status, pc, sp)
    }

    /** The whole CPU as a value. */
    ghost function State(): (m: Engine.Machine)
      reads this, memory, apu, apu.registers, ppu, ppu.vram, ppu.palette, ppu.oam
      requires Valid()
      ensures m.Valid()
    {
      Engine.Machine(Regs(), cycles, CpuBus.Bus(memory[..], apu.registers[..], ppu.State(), prg))
    }

    /** Memory, APU registers and PPU are those of `s`: what a change of registers alone must keep. */
    ghost predicate DevicesAre(s: Engine.Machine)
      reads this, memory, apu, apu.registers, ppu, ppu.vram, ppu.palette, ppu.oam
      requires Valid()
    {
      memory[..] == s.bus.ram && apu.registers[..] == s.bus.apu && ppu.State() == s.bus.ppu
    }

    /** `CPU::new`. */
    constructor ()
      ensures Valid() && fresh(memory) && fresh(apu) && fresh(apu.registers)
      ensures fresh(ppu) && fresh(ppu.vram) && fresh(ppu.palette) && fresh(ppu.oam)
      ensures State() == EngineStep.NewMachine()
    {
      a, x, y, status, pc, sp, cycles := 0, 0, 0, STATUS_RESET, 0, STACK_RESET, 0;
      memory := new bv8[CpuBus.MEMORY_SIZE](_ => 0);
      apu := new ApuStub.Apu();
      ppu := new PpuDevice.Ppu(Rom.Horizontal);
      prg := None;
    }

    // ------------------------------------------------------------ memory

    /** The byte `mem_read` returns, without its effect on the PPU: what the fetches see. */
    function Peek(addr: bv16): (v: bv8)
      reads this, memory, apu, apu.registers, ppu, ppu.vram, ppu.palette, ppu.oam
      requires Valid()
      ensures v == Engine.Fetch(State(), addr)
    {
      CpuBus.PeekRegions(State().bus, addr);
      match CpuBus.RegionOf(addr)
      case ApuRegisters => apu.Read(addr)
      case PpuRegisters(reg) => ppu.PeekRegister(reg)
      case Cartridge => if prg.Some? then Mapper.PrgRead(prg.value, addr).value else memory[addr as int]
      case Ram => memory[addr as int]
    }

    /** `mem_read_u16` for the fetches. */
    function PeekWord(pos: bv16): (w: bv16)
      reads this, memory, apu, apu.registers, ppu, ppu.vram, ppu.palette, ppu.oam
      requires Valid()
      ensures w == Engine.FetchWord(State(), pos)
    {
      Word(Peek(pos), Peek(pos + 1))
    }

    /** `mem_read`: a PPU register read also updates the PPU. */
    method MemRead(addr: bv16) returns (v: bv8)
      requires Valid()
      modifies ppu
      ensures Valid()
      ensures (v, State()) == Engine.Read(old(State()), addr)
    {
      match CpuBus.RegionOf(addr)
      case PpuRegisters(reg) => v := ReadPpuRegister(addr, reg);
      case _ => v := Peek(addr);
    }

    /** A read through the PPU's register window. */
    method ReadPpuRegister(addr: bv16, reg: bv16) returns (v: bv8)
      requires Valid() && CpuBus.RegionOf(addr) == CpuBus.PpuRegisters(reg)
      modifies ppu
      ensures Valid()
      ensures (v, State()) == Engine.Read(old(State()), addr)
    {
      ghost var s := State();
      v := ppu.ReadRegister(reg);
      assert memory[..] == s.bus.ram && apu.registers[..] == s.bus.apu;
    }

    /** `mem_write`: with a cartridge plugged in, writes from 0x8000 up are dropped. */
    method MemWrite(addr: bv16, data: bv8)
      requires Valid()
      modifies memory, apu.registers, ppu, ppu.vram, ppu.palette, ppu.oam
      ensures Valid()
      ensures State() == Engine.Write(old(State()), addr, data)
    {
      match CpuBus.RegionOf(addr)
      case ApuRegisters => WriteApuRegister(addr, data);
      case PpuRegisters(reg) => WritePpuRegister(addr, reg, data);
      case Cartridge => if prg.None? { WriteRam(addr, data); }
      case Ram => WriteRam(addr, data);
    }

    /** A write to an APU register. */
    method WriteApuRegister(addr: bv16, data: bv8)
      requires Valid() && CpuBus.RegionOf(addr).ApuRegisters?
      modifies apu.registers
      ensures Valid()
      ensures State() == Engine.Write(old(State()), addr, data)
    {
      ghost var s := State();
      apu.Write(addr, data);
      assert memory[..] == s.bus.ram && ppu.State() == s.bus.ppu;
    }

    /** A write through the PPU's register window. */
    method WritePpuRegister(addr: bv16, reg: bv16, data: bv8)
      requires Valid() && CpuBus.RegionOf(addr) == CpuBus.PpuRegisters(reg)
      modifies ppu, ppu.vram, ppu.palette, ppu.oam
      ensures Valid()
      ensures State() == Engine.Write(old(State()), addr, data)
    {
      ghost var s := State();
      ppu.WriteRegister(reg, data);
      assert memory[..] == s.bus.ram && apu.registers[..] == s.bus.apu;
    }

    /** A write that lands in the memory array. */
    method WriteRam(addr: bv16, data: bv8)
      requires Valid() && CpuBus.IsMemory(State().bus, addr)
      modifies memory
      ensures Valid()
      ensures State() == Engine.Write(old(State()), addr, data)
    {
      ghost var s := State();
      memory[addr as int] := data;
      assert memory[..] == s.bus.ram[addr as int := data];
      assert apu.registers[..] == s.bus.apu && ppu.State() == s.bus.ppu;
      CpuBus.WriteMemory(s.bus, addr, data);
    }

    /** `mem_write_u16`: low byte, then high byte at the next address (wrapping). */
    method MemWriteWord(pos: bv16, data: bv16)
      requires Valid()
      modifies memory, apu.registers, ppu, ppu.vram, ppu.palette, ppu.oam
      ensures Valid()
      ensures State() == old(State()).(bus := CpuBus.WriteWord(old(State()).bus, pos, data))
    {
      MemWrite(pos, Lo(data));
      MemWrite(pos + 1, Hi(data));
    }
 
    // ------------------------------------------------------------- stack

    /** `stack_push`. */
    method StackPush(v: bv8)
      requires Valid()
      modifies this, memory, apu.registers, ppu, ppu.vram, ppu.palette, ppu.oam
      ensures Valid()
      ensures State() == Engine.Push(old(State()), v)
    {
      MemWrite(Engine.StackAddress(sp), v);
      ghost var s := State();
      sp := sp - 1;
      assert DevicesAre(s);
    }

    /** `stack_pop`. */
    method StackPop() returns (v: bv8)
      requires Valid()
      modifies this, ppu
      ensures Valid()
      ensures (v, State()) == Engine.Pop(old(State()))
    {
      ghost var s := State();
      sp := sp + 1;
      assert DevicesAre(s);
      v := MemRead(Engine.StackAddress(sp));
    }

    /** `stack_push_u16`: high byte first. */
    method StackPushWord(w: bv16)
      requires Valid()
      modifies this, memory, apu.registers, ppu, ppu.vram, ppu.palette, ppu.oam
      ensures Valid()
      ensures State() == Engine.PushWord(old(State()), w)
    {
      StackPush(Hi(w));
      StackPush(Lo(w));
    }

    /** `stack_pop_u16`: low byte first. */
    method StackPopWord() returns (w: bv16)
      requires Valid()
      modifies this, ppu
      ensures Valid()
      ensures (w, State()) == Engine.PopWord(old(State()))
    {
      var lo := StackPop();
      var hi := StackPop();
      w := Word(lo, hi);
    }

    // -------------------------------------------------------- interrupts

    /** `push_interrupt_state`. */
    method PushInterruptState(breakFlag: bool)
      requires Valid()
      modifies this, memory, apu.registers, ppu, ppu.vram, ppu.palette, ppu.oam
      ensures Valid()
      ensures State() == EngineStep.PushInterruptState(old(State()), breakFlag)
    {
      StackPushWord(pc);
      StackPush(Alu.InterruptStatus(status, breakFlag));
    }

    /** The body the three interrupt entries share: push, set I, jump through `vector`. */
    method Interrupt(breakFlag: bool, vector: bv16)
      requires Valid()
      modifies this, memory, apu.registers, ppu, ppu.vram, ppu.palette, ppu.oam
      ensures Valid()
      ensures State() == EngineStep.Interrupt(old(State()), breakFlag, vector)
    {
      PushInterruptState(breakFlag);
      ghost var s := State();
      status := With(status, INTERRUPT_DISABLE, true);
      assert DevicesAre(s);
      pc := PeekWord(vector);
    }

    /** `trigger_nmi`. */
    method TriggerNmi()
      requires Valid()
      modifies this, memory, apu.registers, ppu, ppu.vram, ppu.palette, ppu.oam
      ensures Valid()
      ensures State() == EngineStep.TriggerNmi(old(State()))
    {
      Interrupt(false, EngineStep.NMI_VECTOR);
    }

    /** `trigger_irq`: refused, returning false, while I is set. */
    method TriggerIrq() returns (taken: bool)
      requires Valid()
      modifies this, memory, apu.registers, ppu, ppu.vram, ppu.palette, ppu.oam
      ensures Valid()
      ensures (taken, State()) == EngineStep.TriggerIrq(old(State()))
    {
      if Has(status, INTERRUPT_DISABLE) {
        return false;
      }
      Interrupt(false, EngineStep.IRQ_BRK_VECTOR);
      taken := true;
    }

    /** `trigger_brk`. */
    method TriggerBrk()
      requires Valid()
      modifies this, memory, apu.registers, ppu, ppu.vram, ppu.palette, ppu.oam
      ensures Valid()
      ensures State() == EngineStep.TriggerBrk(old(State()))
    {
      Interrupt(true, EngineStep.IRQ_BRK_VECTOR);
    }
 
    // ----------------------------------------------------------- loaders

    /** `copy_from_slice` into `memory[start..start + |src|]`. */
    method CopyIntoMemory(start: nat, src: seq<bv8>)
      requires start + |src| <= memory.Length
      modifies memory
      ensures memory[..] == old(memory[..])[..start] + src + old(memory[..])[start + |src|..]
    {
      ghost var before := memory[..];
      for i := 0 to |src|
        invariant forall k | 0 <= k < memory.Length ::
          memory[k] == if start <= k < start + i then src[k - start] else before[k]
      {
        memory[start + i] := src[i];
      }
      assert forall k | 0 <= k < memory.Length ::
        memory[..][k] == (before[..start] + src + before[start + |src|..])[k];
    }

    /** `load`: the program at 0x0600, then 0x0600 into the reset vector. */
    method Load(program: seq<bv8>)
      requires Valid() && EngineStep.PROGRAM_START as int + |program| <= CpuBus.MEMORY_SIZE
      modifies memory, apu.registers, ppu, ppu.vram, ppu.palette, ppu.oam
      ensures Valid()
      ensures State() == EngineStep.Load(old(State()), program)
    {
      ghost var s := State();
      CopyIntoMemory(EngineStep.PROGRAM_START as nat, program);
      assert apu.registers[..] == s.bus.apu && ppu.State() == s.bus.ppu;
      MemWriteWord(EngineStep.RESET_VECTOR, EngineStep.PROGRAM_START);
    }

    /**
     * `load_prg_rom`: unplug the cartridge, then copy a 16 KB image twice
     * or a 32 KB image once from 0x8000; any other size is an error.
     */
    method LoadPrgRom(prgRom: seq<bv8>) returns (err: Option<EngineStep.CpuLoadError>)
      requires Valid()
      modifies this, memory
      ensures Valid()
      ensures (State(), err) == EngineStep.LoadPrgRom(old(State()), prgRom)
    {
      ghost var s := State();
      prg := None;
      ghost var low := s.bus.ram[..0x8000];
      if |prgRom| == 0x4000 {
        CopyIntoMemory(0x8000, prgRom);
        ghost var half := memory[..];
        assert half[..0xC000] == low + prgRom;
        CopyIntoMemory(0xC000, prgRom);
        assert memory[..] == low + prgRom + prgRom;
        err := None;
      } else if |prgRom| == 0x8000 {
        CopyIntoMemory(0x8000, prgRom);
        assert memory[..] == low + prgRom;
        err := None;
      } else {
        err := Some(EngineStep.InvalidPrgSize(|prgRom|));
      }
      assert apu.registers[..] == s.bus.apu && ppu.State() == s.bus.ppu;
    }

    /**
     * `load_cartridge`: mapper 0 only, with a PRG size the NROM mapper
     * accepts; the PPU takes the cartridge's mirroring.
     */
    method LoadCartridge(rom: Rom.Rom) returns (err: Option<EngineStep.CpuLoadError>)
      requires Valid()
      modifies this, ppu
      ensures Valid()
      ensures (State(), err) == EngineStep.LoadCartridge(old(State()), rom)
    {
      if rom.mapper != 0 {
        return Some(EngineStep.UnsupportedMapper(rom.mapper));
      }
      if !Mapper.ValidPrgSize(|rom.prgRom|) {
        return Some(EngineStep.InvalidPrgSize(|rom.prgRom|));
      }
      SetPpuMirroring(rom.mirroring);
      prg := Some(rom.prgRom);
      err := None;
    }

    /** `set_ppu_mirroring`: only the PPU's nametable mirroring changes. */
    method SetPpuMirroring(mirroring: Rom.Mirroring)
      requires Valid()
      modifies ppu
      ensures Valid()
      ensures State() == old(State()).(bus := old(State()).bus.(ppu := old(State()).bus.ppu.(mirroring := mirroring)))
    {
      ghost var s := State();
      ppu.SetMirroring(mirroring);
      assert memory[..] == s.bus.ram && apu.registers[..] == s.bus.apu;
    }

    /** `reset`: power-on registers, no cycles, PC from the reset vector. */
    method Reset()
      requires Valid()
      modifies this
      ensures Valid()
      ensures State() == EngineStep.Reset(old(State()))
    {
      ghost var s := State();
      a, x, y, sp, status, cycles := 0, 0, 0, STACK_RESET, STATUS_RESET, 0;
      assert DevicesAre(s);
      pc := PeekWord(EngineStep.RESET_VECTOR);
    }
 
    // ---------------------------------------------------------- handlers

    /** `get_operand_address`, with the operand bytes at PC. */
    function OperandAddress(mode: AddressingMode): (addr: bv16)
      reads this, memory, apu, apu.registers, ppu, ppu.vram, ppu.palette, ppu.oam
      requires Valid() && mode != NoneAddressing
      ensures addr == Engine.Address(State(), mode)
    {
      assert memory[..256] == Engine.ZeroPage(State());
      Addressing.OperandAddress(mode, pc, Peek(pc), Peek(pc + 1), x, y, memory[..256])
    }

    /** `did_page_cross`, with the operand bytes at PC. */
    function DidPageCross(mode: AddressingMode): (crossed: bool)
      reads this, memory, apu, apu.registers, ppu, ppu.vram, ppu.palette, ppu.oam
      requires Valid()
      ensures crossed == Engine.PageCrossed(State(), mode)
    {
      var lo := Peek(pc);
      var hi := Peek(pc + 1);
      Engine.PageCrossedBy(State(), mode, lo, hi, memory[..256]);
      Addressing.DidPageCross(mode, lo, hi, x, y, memory[..256])
    }

    /** A register and the Z and N flags from its new value. */
    method SetRegister(reg: Reg, v: bv8)
      requires Valid()
      modifies this
      ensures Valid()
      ensures State() == Engine.SetRegister(old(State()), reg, v)
    {
      ghost var s := State();
      match reg {
        case RegA => a := v;
        case RegX => x := v;
        case RegY => y := v;
      }
      status := WithZN(status, v);
      assert DevicesAre(s);
    }

    /** A new status byte. */
    method SetStatus(p: bv8)
      requires Valid()
      modifies this
      ensures Valid()
      ensures State() == Engine.SetStatus(old(State()), p)
    {
      ghost var s := State();
      status := p;
      assert DevicesAre(s);
    }

    /** LDA, LDX, LDY. */
    method LoadRegister(mode: AddressingMode, reg: Reg)
      requires Valid() && mode != NoneAddressing
      modifies this, ppu
      ensures Valid()
      ensures State() == Engine.LoadRegister(old(State()), mode, reg)
    {
      var v := MemRead(OperandAddress(mode));
      SetRegister(reg, v);
    }

    /** STA, STX, STY. */
    method StoreRegister(mode: AddressingMode, reg: Reg)
      requires Valid() && mode != NoneAddressing
      modifies memory, apu.registers, ppu, ppu.vram, ppu.palette, ppu.oam
      ensures Valid()
      ensures State() == Engine.StoreRegister(old(State()), mode, reg)
    {
      var v := match reg case RegA => a case RegX => x case RegY => y;
      MemWrite(OperandAddress(mode), v);
    }

    /** `add_to_register_a`. */
    method AddToA(v: bv8)
      requires Valid()
      modifies this
      ensures Valid()
      ensures State() == Engine.AddToA(old(State()), v)
    {
      ghost var s := State();
      var sum := Alu.AddWithCarry(a, v, Has(status, CARRY));
      a, status := sum.result, Engine.AdderStatus(status, sum);
      assert DevicesAre(s);
    }

    /** ADC. */
    method AddOperand(mode: AddressingMode)
      requires Valid() && mode != NoneAddressing
      modifies this, ppu
      ensures Valid()
      ensures State() == Engine.AddOperand(old(State()), mode)
    {
      var v := MemRead(OperandAddress(mode));
      AddToA(v);
    }

    /** SBC: ADC of the operand's complement. */
    method SubtractOperand(mode: AddressingMode)
      requires Valid() && mode != NoneAddressing
      modifies this, ppu
      ensures Valid()
      ensures State() == Engine.SubtractOperand(old(State()), mode)
    {
      var v := MemRead(OperandAddress(mode));
      AddToA(Alu.SbcOperand(v));
    }

    /** AND, EOR, ORA. */
    method LogicOperand(mode: AddressingMode, ins: Instr)
      requires Valid() && mode != NoneAddressing && (ins.And? || ins.Eor? || ins.Ora?)
      modifies this, ppu
      ensures Valid()
      ensures State() == Engine.LogicOperand(old(State()), mode, ins)
    {
      var v := MemRead(OperandAddress(mode));
      SetRegister(RegA, Engine.Logic(ins, a, v));
    }

    /** ASL, LSR, ROL, ROR on A. */
    method ShiftAccumulator(ins: Instr)
      requires Valid() && (ins.AslAcc? || ins.LsrAcc? || ins.RolAcc? || ins.RorAcc?)
      modifies this
      ensures Valid()
      ensures State() == Engine.ShiftAccumulator(old(State()), ins)
    {
      var shifted := Engine.ShiftOf(ins, a, Has(status, CARRY));
      SetStatus(With(status, CARRY, shifted.carry));
      SetRegister(RegA, shifted.value);
    }

    /** ASL, LSR, ROL, ROR on memory. */
    method ShiftMemory(mode: AddressingMode, ins: Instr)
      requires Valid() && mode != NoneAddressing && (ins.Asl? || ins.Lsr? || ins.Rol? || ins.Ror?)
      modifies this, memory, apu.registers, ppu, ppu.vram, ppu.palette, ppu.oam
      ensures Valid()
      ensures State() == Engine.ShiftMemory(old(State()), mode, ins)
    {
      var addr := OperandAddress(mode);
      var v := MemRead(addr);
      var shifted := Engine.ShiftOf(ins, v, Has(status, CARRY));
      MemWrite(addr, shifted.value);
      var p := With(status, CARRY, shifted.carry);
      SetStatus(if ins.Rol? || ins.Ror? then WithN(p, shifted.value) else WithZN(p, shifted.value));
    }

    /** INC and DEC. */
    method StepMemory(mode: AddressingMode, delta: bv8)
      requires Valid() && mode != NoneAddressing
      modifies this, memory, apu.registers, ppu, ppu.vram, ppu.palette, ppu.oam
      ensures Valid()
      ensures State() == Engine.StepMemory(old(State()), mode, delta)
    {
      ghost var s := State();
      var addr := OperandAddress(mode);
      var v := MemRead(addr);
      ghost var m1 := State();
      var w := v + delta;
      MemWrite(addr, w);
      Engine.SteppedMemory(s, mode, delta, addr, v, m1, w, State());
      SetStatus(WithZN(status, w));
    }

    /** CMP, CPX, CPY. */
    method CompareOperand(mode: AddressingMode, reg: Reg)
      requires Valid() && mode != NoneAddressing
      modifies this, ppu
      ensures Valid()
      ensures State() == Engine.CompareOperand(old(State()), mode, reg)
    {
      var r := match reg case RegA => a case RegX => x case RegY => y;
      var v := MemRead(OperandAddress(mode));
      SetStatus(Alu.Compare(status, r, v));
    }

    /** BIT. */
    method BitTest(mode: AddressingMode)
      requires Valid() && mode != NoneAddressing
      modifies this, ppu
      ensures Valid()
      ensures State() == Engine.BitTest(old(State()), mode)
    {
      var v := MemRead(OperandAddress(mode));
      SetStatus(Engine.BitStatus(status, a, v));
    }

    /** PLA. */
    method PullA()
      requires Valid()
      modifies this, ppu
      ensures Valid()
      ensures State() == Engine.PullA(old(State()))
    {
      var v := StackPop();
      SetRegister(RegA, v);
    }

    /** PLP. */
    method PullStatus()
      requires Valid()
      modifies this, ppu
      ensures Valid()
      ensures State() == Engine.PullStatus(old(State()))
    {
      var v := StackPop();
      SetStatus(Alu.PulledStatus(v));
    }

    /** A new program counter. */
    method SetPc(target: bv16)
      requires Valid()
      modifies this
      ensures Valid()
      ensures State() == Engine.SetPc(old(State()), target)
    {
      ghost var s := State();
      pc := target;
      assert DevicesAre(s);
    }

    /** JMP absolute. */
    method Jump()
      requires Valid()
      modifies this
      ensures Valid()
      ensures State() == Engine.Jump(old(State()))
    {
      SetPc(PeekWord(pc));
    }

    /** JMP indirect, with the page-wrap bug. */
    method JumpIndirect()
      requires Valid()
      modifies this
      ensures Valid()
      ensures State() == Engine.JumpIndirect(old(State()))
    {
      var ptr := PeekWord(pc);
      var target := if ptr & 0x00FF == 0x00FF then Word(Peek(ptr), Peek(ptr & 0xFF00)) else PeekWord(ptr);
      SetPc(target);
    }

    /** JSR. */
    method JumpToSubroutine()
      requires Valid()
      modifies this, memory, apu.registers, ppu, ppu.vram, ppu.palette, ppu.oam
      ensures Valid()
      ensures State() == Engine.JumpToSubroutine(old(State()))
    {
      StackPushWord(pc + 2 - 1);
      SetPc(PeekWord(pc));
    }

    /** RTS. */
    method ReturnFromSubroutine()
      requires Valid()
      modifies this, ppu
      ensures Valid()
      ensures State() == Engine.ReturnFromSubroutine(old(State()))
    {
      var w := StackPopWord();
      SetPc(w + 1);
    }

    /** RTI. */
    method ReturnFromInterrupt()
      requires Valid()
      modifies this, ppu
      ensures Valid()
      ensures State() == Engine.ReturnFromInterrupt(old(State()))
    {
      var p := StackPop();
      SetStatus(Alu.PulledStatus(p));
      var w := StackPopWord();
      SetPc(w);
    }

    /** `branch`: whether it was taken, and whether it crossed a page. */
    method TakeBranch(condition: bool) returns (taken: bool, crossed: bool)
      requires Valid()
      modifies this
      ensures Valid()
      ensures Engine.Branched(State(), taken, crossed) == Engine.TakeBranch(old(State()), condition)
    {
      if !condition {
        return false, false;
      }
      ghost var s := State();
      var offset := Peek(pc);
      Engine.TakenBranch(s, offset);
      crossed := Engine.BranchCrossesPage(pc, offset);
      SetPc(Engine.BranchTarget(pc, offset));
      taken := true;
    }
 
    /** TXS. */
    method SetStackPointer(v: bv8)
      requires Valid()
      modifies this
      ensures Valid()
      ensures State() == old(State()).(regs := old(State()).regs.(sp := v))
    {
      ghost var s := State();
      sp := v;
      assert DevicesAre(s);
    }

    /**
     * The `match code` of the run loop, once the opcode is known to have a
     * handler: the handler for `ins`, and the cycles a branch adds.
     */
    method Execute(ins: Instr, mode: AddressingMode) returns (extra: nat)
      requires Valid() && (NeedsAddress(ins) ==> mode != NoneAddressing)
      modifies this, memory, apu.registers, ppu, ppu.vram, ppu.palette, ppu.oam
      ensures Valid()
      ensures Engine.Executed(State(), extra) == Engine.Execute(ins, mode, old(State()))
    {
      extra := 0;
      if Engine.IsRegisterOp(ins) {
        ExecuteRegisterOp(ins, mode);
      } else if Engine.IsLoadStore(ins) {
        ExecuteLoadStore(ins, mode);
      } else if Engine.IsArithmetic(ins) {
        ExecuteArithmetic(ins, mode);
      } else if Engine.IsStackOp(ins) {
        ExecuteStackOp(ins, mode);
      } else if Engine.IsJump(ins) {
        ExecuteJump(ins, mode);
      } else if ins.Branch? {
        extra := ExecuteBranch(ins, mode);
      } else {
        // BRK, whose turn ends before the handlers, and NOP
        assert ins.Brk? || ins.Nop?;
      }
    }

    /** The flag, transfer, increment and decrement handlers. */
    method ExecuteRegisterOp(ins: Instr, mode: AddressingMode)
      requires Valid() && Engine.IsRegisterOp(ins) && !NeedsAddress(ins)
      modifies this
      ensures Valid()
      ensures Engine.Executed(State(), 0) == Engine.Execute(ins, mode, old(State()))
    {
      if ins.ClearFlag? || ins.SetFlag? {
        ExecuteFlagOp(ins, mode);
      } else if ins.Inx? || ins.Iny? || ins.Dex? || ins.Dey? {
        ExecuteIncrement(ins, mode);
      } else {
        ExecuteTransfer(ins, mode);
      }
    }

    /** CLC, CLD, CLI, CLV, SEC, SED, SEI. */
    method ExecuteFlagOp(ins: Instr, mode: AddressingMode)
      requires Valid() && (ins.ClearFlag? || ins.SetFlag?) && !NeedsAddress(ins)
      modifies this
      ensures Valid()
      ensures Engine.Executed(State(), 0) == Engine.Execute(ins, mode, old(State()))
    {
      ghost var s := State();
      match ins {
        case ClearFlag(f) => SetStatus(With(status, FlagBit(f), false)); Engine.ExecuteClearFlag(s, mode, f);
        case SetFlag(f) => SetStatus(With(status, FlagBit(f), true)); Engine.ExecuteSetFlag(s, mode, f);
      }
    }

    /** TAX, TAY, TSX, TXA, TXS, TYA. */
    method ExecuteTransfer(ins: Instr, mode: AddressingMode)
      requires Valid() && (ins.Tax? || ins.Tay? || ins.Tsx? || ins.Txa? || ins.Txs? || ins.Tya?) && !NeedsAddress(ins)
      modifies this
      ensures Valid()
      ensures Engine.Executed(State(), 0) == Engine.Execute(ins, mode, old(State()))
    {
      ghost var s := State();
      match ins {
        case Tax => SetRegister(RegX, a); Engine.ExecuteTax(s, mode);
        case Tay => SetRegister(RegY, a); Engine.ExecuteTay(s, mode);
        case Tsx => SetRegister(RegX, sp); Engine.ExecuteTsx(s, mode);
        case Txa => SetRegister(RegA, x); Engine.ExecuteTxa(s, mode);
        case Txs => SetStackPointer(x); Engine.ExecuteTxs(s, mode);
        case Tya => SetRegister(RegA, y); Engine.ExecuteTya(s, mode);
      }
    }

    /** INX, INY, DEX, DEY. */
    method ExecuteIncrement(ins: Instr, mode: AddressingMode)
      requires Valid() && (ins.Inx? || ins.Iny? || ins.Dex? || ins.Dey?) && !NeedsAddress(ins)
      modifies this
      ensures Valid()
      ensures Engine.Executed(State(), 0) == Engine.Execute(ins, mode, old(State()))
    {
      ghost var s := State();
      match ins {
        case Inx => SetRegister(RegX, x + 1); Engine.ExecuteInx(s, mode);
        case Iny => SetRegister(RegY, y + 1); Engine.ExecuteIny(s, mode);
        case Dex => SetRegister(RegX, x - 1); Engine.ExecuteDex(s, mode);
        case Dey => SetRegister(RegY, y - 1); Engine.ExecuteDey(s, mode);
      }
    }

    /** The load and store handlers. */
    method ExecuteLoadStore(ins: Instr, mode: AddressingMode)
      requires Valid() && Engine.IsLoadStore(ins) && mode != NoneAddressing
      modifies memory, apu.registers, this, ppu, ppu.vram, ppu.palette, ppu.oam
      ensures Valid()
      ensures Engine.Executed(State(), 0) == Engine.Execute(ins, mode, old(State()))
    {
      match ins {
        case Lda => LoadRegister(mode, RegA);
        case Ldx => LoadRegister(mode, RegX);
        case Ldy => LoadRegister(mode, RegY);
        case Sta => StoreRegister(mode, RegA);
        case Stx => StoreRegister(mode, RegX);
        case Sty => StoreRegister(mode, RegY);
      }
    }

    /** The ALU handlers. */
    method ExecuteArithmetic(ins: Instr, mode: AddressingMode)
      requires Valid() && Engine.IsArithmetic(ins) && (NeedsAddress(ins) ==> mode != NoneAddressing)
      modifies this, memory, apu.registers, ppu, ppu.vram, ppu.palette, ppu.oam
      ensures Valid()
      ensures Engine.Executed(State(), 0) == Engine.Execute(ins, mode, old(State()))
    {
      ghost var s := State();
      match ins {
        case Inc => StepMemory(mode, 1); Engine.ExecuteInc(s, mode);
        case Dec => StepMemory(mode, 0xFF); Engine.ExecuteDec(s, mode);
        case Adc => AddOperand(mode); Engine.ExecuteAdc(s, mode);
        case Sbc => SubtractOperand(mode); Engine.ExecuteSbc(s, mode);
        case And | Eor | Ora => LogicOperand(mode, ins); Engine.ExecuteLogic(s, mode, ins);
        case AslAcc | LsrAcc | RolAcc | RorAcc => ShiftAccumulator(ins); Engine.ExecuteShiftAccumulator(s, mode, ins);
        case Asl => ShiftMemory(mode, ins); Engine.ExecuteAsl(s, mode);
        case Lsr => ShiftMemory(mode, ins); Engine.ExecuteLsr(s, mode);
        case Rol => ShiftMemory(mode, ins); Engine.ExecuteRol(s, mode);
        case Ror => ShiftMemory(mode, ins); Engine.ExecuteRor(s, mode);
        case Compare(reg) => CompareOperand(mode, reg); Engine.ExecuteCompare(s, mode, reg);
        case Bit => BitTest(mode); Engine.ExecuteBit(s, mode);
      }
    }

    /** PHA, PLA, PHP, PLP. */
    method ExecuteStackOp(ins: Instr, mode: AddressingMode)
      requires Valid() && Engine.IsStackOp(ins) && !NeedsAddress(ins)
      modifies this, memory, apu.registers, ppu, ppu.vram, ppu.palette, ppu.oam
      ensures Valid()
      ensures Engine.Executed(State(), 0) == Engine.Execute(ins, mode, old(State()))
    {
      ghost var s := State();
      match ins {
        case Pha => StackPush(a); Engine.ExecutePha(s, mode);
        case Pla => PullA(); Engine.ExecutePla(s, mode);
        case Php => StackPush(Alu.PhpStatus(status)); Engine.ExecutePhp(s, mode);
        case Plp => PullStatus(); Engine.ExecutePlp(s, mode);
      }
    }

    /** JMP, JSR, RTS, RTI. */
    method ExecuteJump(ins: Instr, mode: AddressingMode)
      requires Valid() && Engine.IsJump(ins) && !NeedsAddress(ins)
      modifies this, memory, apu.registers, ppu, ppu.vram, ppu.palette, ppu.oam
      ensures Valid()
      ensures Engine.Executed(State(), 0) == Engine.Execute(ins, mode, old(State()))
    {
      ghost var s := State();
      match ins {
        case Jmp => Jump(); Engine.ExecuteJmp(s, mode);
        case JmpIndirect => JumpIndirect(); Engine.ExecuteJmpIndirect(s, mode);
        case Jsr => JumpToSubroutine(); Engine.ExecuteJsr(s, mode);
        case Rts => ReturnFromSubroutine(); Engine.ExecuteRts(s, mode);
        case Rti => ReturnFromInterrupt(); Engine.ExecuteRti(s, mode);
      }
    }

    /** The conditional branches. */
    method ExecuteBranch(ins: Instr, mode: AddressingMode) returns (extra: nat)
      requires Valid() && ins.Branch?
      modifies this
      ensures Valid()
      ensures Engine.Executed(State(), extra) == Engine.Execute(ins, mode, old(State()))
    {
      var taken, crossed := TakeBranch(Has(status, FlagBit(ins.flag)) == ins.whenSet);
      extra := (if taken then 1 else 0) + (if crossed then 1 else 0);
    }

    // ------------------------------------------------------------ run loop

    /** The end of a turn: PC past the operands unless the handler moved it, then the cycles. */
    method FinishTurn(pcState: bv16, op: OpCode, penalty: bool, extra: nat)
      requires Valid() && op.len >= 1
      modifies this
      ensures Valid()
      ensures State() == EngineStep.Finish(Engine.Executed(old(State()), extra), pcState, op, penalty)
    {
      SetPc(EngineStep.SettledPc(pc, pcState, op.len));
      AddCycles(EngineStep.CyclesAdded(op, penalty, extra));
    }

    /** `self.cycles += n`. */
    method AddCycles(n: nat)
      requires Valid()
      modifies this
      ensures Valid()
      ensures State() == old(State()).(cycles := old(State()).cycles + n)
    {
      ghost var s := State();
      cycles := cycles + n;
      assert DevicesAre(s);
    }

    /** The rest of a turn once the opcode's table entry and handler are looked up. */
    method Turn(entry: Option<OpCode>, decoded: Option<Instr>, error: EngineStep.CpuError, penalty: bool)
      returns (end: TurnEnd)
      requires Valid()
      requires entry.Some? ==> entry.value.len >= 1
      requires entry.Some? && decoded.Some? && NeedsAddress(decoded.value) ==> entry.value.mode != NoneAddressing
      modifies this, memory, apu.registers, ppu, ppu.vram, ppu.palette, ppu.oam
      ensures Valid()
      ensures OutcomeOf(end, State()) == EngineStep.Turn(entry, decoded, old(State()), error, penalty)
    {
      if entry.None? || decoded.None? {
        return Fault(error);
      }
      var op := entry.value;
      var ins := decoded.value;
      ghost var s := State();
      if ins.Brk? {
        cycles := cycles + op.cycles as nat;
        assert DevicesAre(s);
        return Stop;
      }
      var pcState := pc;
      var extra := Execute(ins, op.mode);
      FinishTurn(pcState, op, penalty, extra);
      end := Continue;
    }

    /** One turn of `try_run_with_callback`. */
    method Step(table: bv8 -> Option<OpCode>) returns (end: TurnEnd)
      requires Valid() && WellFormed(table)
      modifies this, memory, apu.registers, ppu, ppu.vram, ppu.palette, ppu.oam
      ensures Valid()
      ensures OutcomeOf(end, State()) == EngineStep.Step(table, old(State()))
    {
      ghost var m := State();
      var code := Peek(pc);
      var opcodePc := pc;
      SetPc(pc + 1);
      ghost var m1 := State();
      var entry := table(code);
      var penalty := entry.Some? && HasPageCrossPenalty(code) && DidPageCross(entry.value.mode);
      EngineStep.StepBy(table, m, code, m1, penalty);
      end := Turn(entry, Decode(code), EngineStep.UnsupportedOpcode(code, opcodePc), penalty);
    }

    /**
     * `try_run_with_callback` for at most `fuel` turns: `Continue` when the
     * turns ran out, `Stop` after BRK, `Fault` with the unsupported opcode.
     */
    method Run(table: bv8 -> Option<OpCode>, fuel: nat) returns (end: TurnEnd)
      requires Valid() && WellFormed(table)
      modifies this, memory, apu.registers, ppu, ppu.vram, ppu.palette, ppu.oam
      ensures Valid()
      ensures OutcomeOf(end, State()) == EngineStep.Run(table, old(State()), fuel)
    {
      ghost var m0 := State();
      var left := fuel;
      end := Continue;
      EngineStep.RunsAsStart(table, m0, fuel);
      while left > 0 && end == Continue
        invariant Valid()
        invariant EngineStep.RunsAs(table, m0, fuel, OutcomeOf(end, State()), left)
      {
        ghost var o := OutcomeOf(end, State());
        end := Step(table);
        EngineStep.RunsAsStep(table, m0, fuel, o, left, OutcomeOf(end, State()));
        left := left - 1;
        assert EngineStep.RunsAs(table, m0, fuel, OutcomeOf(end, State()), left);
      }
      EngineStep.RunsAsEnd(table, m0, fuel, OutcomeOf(end, State()), left);
    }

    /** `load_and_run`: the program at 0x0600, a reset, then the run. */
    method LoadAndRun(table: bv8 -> Option<OpCode>, program: seq<bv8>, fuel: nat) returns (end: TurnEnd)
      requires Valid() && WellFormed(table) && EngineStep.PROGRAM_START as int + |program| <= CpuBus.MEMORY_SIZE
      modifies this, memory, apu.registers, ppu, ppu.vram, ppu.palette, ppu.oam
      ensures Valid()
      ensures OutcomeOf(end, State()) == EngineStep.Run(table, EngineStep.Reset(EngineStep.Load(old(State()), program)), fuel)
    {
      Load(program);
      Reset();
      end := Run(table, fuel);
    }
  }
}
