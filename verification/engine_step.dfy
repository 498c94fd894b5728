/**
 * The run loop, the interrupt entry and the loaders of the current CPU
 * engine (crates/res-core/src/cpu.rs), as functions on `Engine.Machine`.
 *
 * `Step` is one turn of the `loop` in `try_run_with_callback`: fetch the
 * opcode, look it up in the opcode table, add the page-cross penalty, run
 * the handler, move the program counter past the operands when the handler
 * left it alone, and count the cycles. The opcode table is a parameter: any
 * table the engine could be built with, as long as it is well formed.
 */
module EngineStep {
  import opened Wrappers
  import opened Bytes
  import opened Registers
  import opened Addressing
  import opened Opcodes
  import opened Decoding
  import opened Engine
  import Alu
  import CpuBus
  import Mapper
  import Rom
  import PpuCore
  import ApuStub

  const NMI_VECTOR: bv16 := 0xFFFA
  const RESET_VECTOR: bv16 := 0xFFFC
  const IRQ_BRK_VECTOR: bv16 := 0xFFFE
  /** Where `load` puts a program. */
  const PROGRAM_START: bv16 := 0x0600

  /** `CpuError`: the byte at `pc` has no handler. */
  datatype CpuError = UnsupportedOpcode(opcode: bv8, pc: bv16)

  /** `CpuLoadError`. */
  datatype CpuLoadError = InvalidPrgSize(size: nat) | UnsupportedMapper(id: bv8)

  /**
   * How one turn of the loop ends: it goes round again, BRK returns `Ok`,
   * or an unsupported opcode returns the error.
   */
  datatype Outcome = Running(m: Machine) | Halted(m: Machine) | Failed(error: CpuError, m: Machine)

  // ------------------------------------------------------------------ step

  /**
   * One turn of `try_run_with_callback`. The program counter is past the
   * opcode before the table is consulted, so a failed turn leaves it there.
   * The page-cross check looks at the operand bytes after the opcode.
   */
  function Step(table: bv8 -> Option<OpCode>, m: Machine): (r: Outcome)
    requires WellFormed(table) && m.Valid()
    ensures r.m.Valid()
  {
    var code := Fetch(m, m.regs.pc);
    var m1 := m.(regs := m.regs.(pc := m.regs.pc + 1));
    var penalty := table(code).Some? && HasPageCrossPenalty(code) && PageCrossed(m1, table(code).value.mode);
    Turn(table(code), Decode(code), m1, UnsupportedOpcode(code, m.regs.pc), penalty)
  }

  /**
   * The rest of a turn, once the opcode's table entry and handler are
   * known: an unknown opcode fails with `error`, BRK returns with its base
   * cycles counted, and any other instruction runs and goes round again.
   */
  function Turn(entry: Option<OpCode>, decoded: Option<Instr>, m1: Machine, error: CpuError, penalty: bool): (r: Outcome)
    requires m1.Valid()
    requires entry.Some? ==> entry.value.len >= 1
    requires entry.Some? && decoded.Some? && NeedsAddress(decoded.value) ==> entry.value.mode != NoneAddressing
    ensures r.m.Valid()
  {
    match (entry, decoded)
    case (Some(op), Some(ins)) =>
      if ins.Brk? then Halted(m1.(cycles := m1.cycles + op.cycles as nat))
      else Running(Finish(Execute(ins, op.mode, m1), m1.regs.pc, op, penalty))
    case _ => Failed(error, m1)
  }

  /**
   * The end of a turn: PC moves past the operand bytes only if the handler
   * left it where the loop put it, then the base cycles, the page-cross
   * penalty and the branch extras are added.
   */
  function Finish(e: Executed, pcState: bv16, op: OpCode, penalty: bool): (r: Machine)
    requires e.m.Valid() && op.len >= 1
    ensures r.Valid()
  {
    SetPc(e.m, SettledPc(e.m.regs.pc, pcState, op.len)).(cycles := e.m.cycles + CyclesAdded(op, penalty, e.extra))
  }

  /** Where PC ends a turn: past the operands if the handler left it at `pcState`, else where the handler put it. */
  function SettledPc(pc: bv16, pcState: bv16, len: bv8): (r: bv16)
    ensures pc != pcState ==> r == pc
    ensures len == 1 ==> r == pc
  {
    if pc == pcState then pc + (len - 1) as bv16 else pc
  }

  /** The cycles a turn adds: the table's count, the page-cross penalty and the handler's extras. */
  function CyclesAdded(op: OpCode, penalty: bool, extra: nat): (r: nat)
    ensures r >= op.cycles as nat + extra
    ensures r > op.cycles as nat + extra <==> penalty
    ensures r <= op.cycles as nat + extra + 1
  {
    op.cycles as nat + (if penalty then 1 else 0) + extra
  }

  /** The loop: at most `fuel` turns, stopping at the first that does not go round again. */
  function Run(table: bv8 -> Option<OpCode>, m: Machine, fuel: nat): (r: Outcome)
    requires WellFormed(table) && m.Valid()
    ensures r.m.Valid()
    decreases fuel, 0
  {
    if fuel == 0 then Running(m) else Resume(table, Step(table, m), fuel - 1)
  }

  /** `fuel` more turns after an outcome, if the machine is still going. */
  function Resume(table: bv8 -> Option<OpCode>, o: Outcome, fuel: nat): (r: Outcome)
    requires WellFormed(table) && o.m.Valid()
    ensures r.m.Valid()
    ensures !o.Running? ==> r == o
    decreases fuel, 1
  {
    match o
    case Running(m') => Run(table, m', fuel)
    case _ => o
  }

  /** `fuel` turns from `m0` end where `left` more turns after `o` end. */
  predicate RunsAs(table: bv8 -> Option<OpCode>, m0: Machine, fuel: nat, o: Outcome, left: nat)
    requires WellFormed(table) && m0.Valid() && o.m.Valid()
  {
    Run(table, m0, fuel) == Resume(table, o, left)
  }

  /** A run starts as itself. */
  lemma RunsAsStart(table: bv8 -> Option<OpCode>, m0: Machine, fuel: nat)
    requires WellFormed(table) && m0.Valid()
    ensures RunsAs(table, m0, fuel, Running(m0), fuel)
  {
  }

  /** A run that has reached a running machine with turns left goes on with the next turn's outcome. */
  lemma RunsAsStep(table: bv8 -> Option<OpCode>, m0: Machine, fuel: nat, o0: Outcome, left: nat, o: Outcome)
    requires WellFormed(table) && m0.Valid() && o0.m.Valid() && o0.Running? && left > 0
    requires RunsAs(table, m0, fuel, o0, left) && o == Step(table, o0.m)
    ensures RunsAs(table, m0, fuel, o, left - 1)
  {
    assert Resume(table, o0, left) == Run(table, o0.m, left);
  }

  /** A run that has stopped, or has no turns left, has ended. */
  lemma RunsAsEnd(table: bv8 -> Option<OpCode>, m0: Machine, fuel: nat, o: Outcome, left: nat)
    requires WellFormed(table) && m0.Valid() && o.m.Valid() && (left == 0 || !o.Running?)
    requires RunsAs(table, m0, fuel, o, left)
    ensures Run(table, m0, fuel) == o
  {
  }

  // ------------------------------------------------------------ interrupts

  /**
   * `push_interrupt_state`: the program counter (high byte first), then the
   * status with bit 5 set and B set only for BRK.
   */
  function PushInterruptState(m: Machine, breakFlag: bool): (r: Machine)
    requires m.Valid()
    ensures r.Valid()
  {
    Push(PushWord(m, m.regs.pc), Alu.InterruptStatus(m.regs.status, breakFlag))
  }

  /** The common part of the three interrupts: push the state, set I, jump through the vector. */
  function Interrupt(m: Machine, breakFlag: bool, vector: bv16): (r: Machine)
    requires m.Valid()
    ensures r.Valid()
  {
    var m1 := PushInterruptState(m, breakFlag);
    var m2 := m1.(regs := m1.regs.(status := With(m1.regs.status, INTERRUPT_DISABLE, true)));
    m2.(regs := m2.regs.(pc := FetchWord(m2, vector)))
  }

  /** `trigger_nmi`. */
  function TriggerNmi(m: Machine): (r: Machine)
    requires m.Valid()
    ensures r.Valid()
  {
    Interrupt(m, false, NMI_VECTOR)
  }

  /** `trigger_irq`: ignored, and false, while I is set. */
  function TriggerIrq(m: Machine): (r: (bool, Machine))
    requires m.Valid()
    ensures r.1.Valid()
  {
    if Has(m.regs.status, INTERRUPT_DISABLE) then (false, m)
    else (true, Interrupt(m, false, IRQ_BRK_VECTOR))
  }

  /** `trigger_brk`. */
  function TriggerBrk(m: Machine): (r: Machine)
    requires m.Valid()
    ensures r.Valid()
  {
    Interrupt(m, true, IRQ_BRK_VECTOR)
  }

  // --------------------------------------------------------------- loaders

  /** `CPU::new()`: registers at power-on, no cycles, zeroed RAM and APU, a fresh PPU, no cartridge. */
  function NewMachine(): (m: Machine)
    ensures m.Valid()
  {
    Machine(PowerOn, 0,
            CpuBus.Bus(seq(CpuBus.MEMORY_SIZE, _ => 0), seq(ApuStub.REGISTER_COUNT, _ => 0),
                       PpuCore.NewPpu(Rom.Horizontal), None))
  }

  /**
   * `load`: the program is copied straight into the RAM array at 0x0600
   * (the slice copy panics past the end of the array), then 0x0600 is
   * written to the reset vector through the bus.
   */
  function Load(m: Machine, program: seq<bv8>): (r: Machine)
    requires m.Valid() && PROGRAM_START as int + |program| <= CpuBus.MEMORY_SIZE
    ensures r.Valid()
  {
    var start := PROGRAM_START as int;
    var ram := m.bus.ram[..start] + program + m.bus.ram[start + |program|..];
    var m1 := m.(bus := m.bus.(ram := ram));
    m1.(bus := CpuBus.WriteWord(m1.bus, RESET_VECTOR, PROGRAM_START))
  }

  /**
   * `load_prg_rom`: drops any cartridge, then copies a 16 KB image into
   * both 0x8000-0xBFFF and 0xC000-0xFFFF, or a 32 KB image into
   * 0x8000-0xFFFF; any other size is an error and the RAM is untouched.
   */
  function LoadPrgRom(m: Machine, prg: seq<bv8>): (r: (Machine, Option<CpuLoadError>))
    requires m.Valid()
    ensures r.0.Valid() && r.0.bus.prg.None?
  {
    var m0 := m.(bus := m.bus.(prg := None));
    if Mapper.ValidPrgSize(|prg|) then (m0.(bus := m0.bus.(ram := PrgImage(m.bus.ram[..0x8000], prg))), None)
    else (m0, Some(InvalidPrgSize(|prg|)))
  }

  /** The RAM from 0x8000 up after `load_prg_rom`: the 16 KB image twice, or the 32 KB image once. */
  function PrgImage(low: seq<bv8>, prg: seq<bv8>): (ram: seq<bv8>)
    requires |low| == 0x8000 && Mapper.ValidPrgSize(|prg|)
    ensures |ram| == CpuBus.MEMORY_SIZE && ram[..0x8000] == low
  {
    if |prg| == 0x4000 then low + prg + prg else low + prg
  }

  /**
   * `load_cartridge`: only mapper 0 is supported, and the NROM mapper must
   * accept the PRG size; then the PPU takes the cartridge's mirroring and
   * the cartridge is plugged in. On an error nothing changes.
   */
  function LoadCartridge(m: Machine, rom: Rom.Rom): (r: (Machine, Option<CpuLoadError>))
    requires m.Valid()
    ensures r.0.Valid()
  {
    if rom.mapper != 0 then (m, Some(UnsupportedMapper(rom.mapper)))
    else if !Mapper.ValidPrgSize(|rom.prgRom|) then (m, Some(InvalidPrgSize(|rom.prgRom|)))
    else
      var ppu := m.bus.ppu.(mirroring := rom.mirroring);
      (m.(bus := m.bus.(ppu := ppu, prg := Some(rom.prgRom))), None)
  }

  /** `reset`: power-on registers, no cycles, and PC from the reset vector. */
  function Reset(m: Machine): (r: Machine)
    requires m.Valid()
    ensures r.Valid()
  {
    m.(regs := PowerOn.(pc := FetchWord(m, RESET_VECTOR)), cycles := 0)
  }

  // ---------------------------------------------------- step: properties

  /** A turn fails exactly when the opcode has no table entry or no handler, and it then fails with `error`. */
  lemma TurnFails(entry: Option<OpCode>, decoded: Option<Instr>, m1: Machine, error: CpuError, penalty: bool)
    requires m1.Valid()
    requires entry.Some? ==> entry.value.len >= 1
    requires entry.Some? && decoded.Some? && NeedsAddress(decoded.value) ==> entry.value.mode != NoneAddressing
    ensures Turn(entry, decoded, m1, error, penalty).Failed? <==> entry.None? || decoded.None?
    ensures entry.None? || decoded.None? ==> Turn(entry, decoded, m1, error, penalty) == Failed(error, m1)
  {
  }

  /** BRK halts with its base cycles counted and nothing else changed. */
  lemma TurnHalts(entry: Option<OpCode>, decoded: Option<Instr>, m1: Machine, error: CpuError, penalty: bool)
    requires m1.Valid()
    requires entry.Some? ==> entry.value.len >= 1
    requires entry.Some? && decoded.Some? && NeedsAddress(decoded.value) ==> entry.value.mode != NoneAddressing
    ensures Turn(entry, decoded, m1, error, penalty).Halted? <==> entry.Some? && decoded == Some(Brk)
    ensures entry.Some? && decoded == Some(Brk) ==>
      Turn(entry, decoded, m1, error, penalty) == Halted(m1.(cycles := m1.cycles + entry.value.cycles as nat))
  {
  }

  /**
   * Any other instruction goes round again. The turn costs the table's
   * base cycles, one more when `penalty` holds, and up to two more for a
   * branch.
   */
  lemma TurnCycles(op: OpCode, ins: Instr, m1: Machine, error: CpuError, penalty: bool)
    requires m1.Valid() && op.len >= 1 && (NeedsAddress(ins) ==> op.mode != NoneAddressing) && !ins.Brk?
    ensures Turn(Some(op), Some(ins), m1, error, penalty).Running?
    ensures var c := Turn(Some(op), Some(ins), m1, error, penalty).m.cycles - m1.cycles;
      op.cycles as int <= c <= op.cycles as int + 3
    ensures !ins.Branch? ==>
      Turn(Some(op), Some(ins), m1, error, penalty).m.cycles == m1.cycles + op.cycles as nat + (if penalty then 1 else 0)
  {
  }

  /** `pc + 1`, then `len - 1` more, is `pc + len` (all wrapping). */
  lemma PastOperands(pc: bv16, len: bv8)
    requires len >= 1
    ensures pc + 1 + (len - 1) as bv16 == pc + len as bv16
  {
  }

  /** An instruction that does not set PC itself leaves it `len` bytes past the opcode. */
  lemma TurnAdvancesPc(op: OpCode, ins: Instr, m1: Machine, pc: bv16, error: CpuError, penalty: bool)
    requires m1.Valid() && op.len >= 1 && (NeedsAddress(ins) ==> op.mode != NoneAddressing)
    requires !ins.Brk? && !IsControlFlow(ins) && m1.regs.pc == pc + 1
    ensures Turn(Some(op), Some(ins), m1, error, penalty).Running?
    ensures Turn(Some(op), Some(ins), m1, error, penalty).m.regs.pc == pc + op.len as bv16
  {
    FinishPc(Execute(ins, op.mode, m1), m1.regs.pc, op, penalty, pc);
  }

  /**
   * A turn fails exactly when the byte at PC has no table entry or no
   * handler; the error names that byte and its address, and PC is left
   * one past it.
   */
  lemma StepFails(table: bv8 -> Option<OpCode>, m: Machine)
    requires WellFormed(table) && m.Valid()
    ensures var code := Fetch(m, m.regs.pc);
      Step(table, m).Failed? <==> table(code).None? || Decode(code).None?
    ensures var code := Fetch(m, m.regs.pc);
      Step(table, m).Failed? ==>
        Step(table, m) == Failed(UnsupportedOpcode(code, m.regs.pc), m.(regs := m.regs.(pc := m.regs.pc + 1)))
  {
    var code := Fetch(m, m.regs.pc);
    var m1 := m.(regs := m.regs.(pc := m.regs.pc + 1));
    var penalty := table(code).Some? && HasPageCrossPenalty(code) && PageCrossed(m1, table(code).value.mode);
    StepIsTurn(table, m);
    TurnFails(table(code), Decode(code), m1, UnsupportedOpcode(code, m.regs.pc), penalty);
  }

  /** BRK ends the run: PC is one past it and only its base cycles are counted. */
  lemma StepHalts(table: bv8 -> Option<OpCode>, m: Machine)
    requires WellFormed(table) && m.Valid()
    ensures var code := Fetch(m, m.regs.pc);
      Step(table, m).Halted? <==> table(code).Some? && Decode(code) == Some(Brk)
    ensures var code := Fetch(m, m.regs.pc);
      Step(table, m).Halted? ==>
        Step(table, m).m == m.(regs := m.regs.(pc := m.regs.pc + 1), cycles := m.cycles + table(code).value.cycles as nat)
  {
    var code := Fetch(m, m.regs.pc);
    var m1 := m.(regs := m.regs.(pc := m.regs.pc + 1));
    var penalty := table(code).Some? && HasPageCrossPenalty(code) && PageCrossed(m1, table(code).value.mode);
    StepIsTurn(table, m);
    TurnHalts(table(code), Decode(code), m1, UnsupportedOpcode(code, m.regs.pc), penalty);
  }

  /** A known instruction other than BRK goes round again and costs its base cycles plus at most three. */
  lemma StepCycles(table: bv8 -> Option<OpCode>, m: Machine, op: OpCode, ins: Instr)
    requires WellFormed(table) && m.Valid()
    requires table(Fetch(m, m.regs.pc)) == Some(op) && Decode(Fetch(m, m.regs.pc)) == Some(ins) && !ins.Brk?
    ensures Step(table, m).Running?
    ensures op.cycles as int <= Step(table, m).m.cycles - m.cycles <= op.cycles as int + 3
  {
    var code := Fetch(m, m.regs.pc);
    var m1 := m.(regs := m.regs.(pc := m.regs.pc + 1));
    var penalty := table(code).Some? && HasPageCrossPenalty(code) && PageCrossed(m1, table(code).value.mode);
    StepIsTurn(table, m);
    TurnCycles(op, ins, m1, UnsupportedOpcode(code, m.regs.pc), penalty);
  }

  /** `Step` is `Turn` on the opcode's table entry and handler, with PC one past the opcode. */
  lemma StepIsTurn(table: bv8 -> Option<OpCode>, m: Machine)
    requires WellFormed(table) && m.Valid()
    ensures var code := Fetch(m, m.regs.pc);
      var m1 := m.(regs := m.regs.(pc := m.regs.pc + 1));
      var penalty := table(code).Some? && HasPageCrossPenalty(code) && PageCrossed(m1, table(code).value.mode);
      Step(table, m) == Turn(table(code), Decode(code), m1, UnsupportedOpcode(code, m.regs.pc), penalty)
  {
  }
  /** `StepIsTurn` with the opcode, the machine past it and the penalty named. */
  lemma StepBy(table: bv8 -> Option<OpCode>, m: Machine, code: bv8, m1: Machine, penalty: bool)
    requires WellFormed(table) && m.Valid()
    requires code == Fetch(m, m.regs.pc) && m1 == m.(regs := m.regs.(pc := m.regs.pc + 1))
    requires penalty == (table(code).Some? && HasPageCrossPenalty(code) && PageCrossed(m1, table(code).value.mode))
    ensures Step(table, m) == Turn(table(code), Decode(code), m1, UnsupportedOpcode(code, m.regs.pc), penalty)
  {
  }

  /** When the handler left the PC where the opcode fetch put it, the turn moves it past the operands. */
  lemma FinishPc(e: Executed, pcState: bv16, op: OpCode, penalty: bool, pc: bv16)
    requires e.m.Valid() && op.len >= 1 && e.m.regs.pc == pcState && pcState == pc + 1
    ensures Finish(e, pcState, op, penalty).regs.pc == pc + op.len as bv16
  {
    PastOperands(pc, op.len);
  }

  /** No turn takes cycles away. */
  lemma TurnKeepsCycles(entry: Option<OpCode>, decoded: Option<Instr>, m1: Machine, error: CpuError, penalty: bool)
    requires m1.Valid()
    requires entry.Some? ==> entry.value.len >= 1
    requires entry.Some? && decoded.Some? && NeedsAddress(decoded.value) ==> entry.value.mode != NoneAddressing
    ensures Turn(entry, decoded, m1, error, penalty).m.cycles >= m1.cycles
  {
  }

  /** The cycle counter never goes down in a turn. */
  lemma StepKeepsCycles(table: bv8 -> Option<OpCode>, m: Machine)
    requires WellFormed(table) && m.Valid()
    ensures Step(table, m).m.cycles >= m.cycles
  {
    var code := Fetch(m, m.regs.pc);
    var m1 := m.(regs := m.regs.(pc := m.regs.pc + 1));
    var penalty := table(code).Some? && HasPageCrossPenalty(code) && PageCrossed(m1, table(code).value.mode);
    StepIsTurn(table, m);
    TurnKeepsCycles(table(code), Decode(code), m1, UnsupportedOpcode(code, m.regs.pc), penalty);
  }

  /** Nor in a run of any length. */
  lemma {:induction false} RunKeepsCycles(table: bv8 -> Option<OpCode>, m: Machine, fuel: nat)
    requires WellFormed(table) && m.Valid()
    ensures Run(table, m, fuel).m.cycles >= m.cycles
    decreases fuel, 0
  {
    if fuel > 0 {
      StepKeepsCycles(table, m);
      ResumeKeepsCycles(table, Step(table, m), fuel - 1);
    }
  }

  /** Nor in the turns after a step. */
  lemma {:induction false} ResumeKeepsCycles(table: bv8 -> Option<OpCode>, o: Outcome, fuel: nat)
    requires WellFormed(table) && o.m.Valid()
    ensures Resume(table, o, fuel).m.cycles >= o.m.cycles
    decreases fuel, 1
  {
    if o.Running? {
      RunKeepsCycles(table, o.m, fuel);
    }
  }

  // ---------------------------------------------------- interrupts: properties

  /** The stack page is 0x0100-0x01FF. */
  lemma StackPage(sp: bv8)
    ensures 0x0100 <= StackAddress(sp) <= 0x01FF
  {
  }

  /** Three consecutive stack slots are three different addresses. */
  lemma StackSlotsDistinct(sp: bv8)
    ensures StackAddress(sp) != StackAddress(sp - 1)
    ensures StackAddress(sp) != StackAddress(sp - 2)
    ensures StackAddress(sp - 1) != StackAddress(sp - 2)
  {
  }

  /** A push stores its byte in the slot SP pointed to. */
  lemma PushStores(m: Machine, v: bv8)
    requires m.Valid()
    ensures Fetch(Push(m, v), StackAddress(m.regs.sp)) == v
  {
    StackIsMemory(m.bus, m.regs.sp);
    CpuBus.MemoryWriteThenRead(m.bus, StackAddress(m.regs.sp), StackAddress(m.regs.sp), v);
  }

  /** A push leaves every other address reading as before. */
  lemma PushKeeps(m: Machine, v: bv8, addr: bv16)
    requires m.Valid() && addr != StackAddress(m.regs.sp)
    ensures Fetch(Push(m, v), addr) == Fetch(m, addr)
  {
    StackIsMemory(m.bus, m.regs.sp);
    CpuBus.MemoryWriteKeepsOthers(m.bus, StackAddress(m.regs.sp), addr, v);
  }

  /** The high byte of PC goes where SP pointed. */
  lemma PushedHigh(m: Machine, breakFlag: bool)
    requires m.Valid()
    ensures Fetch(PushInterruptState(m, breakFlag), StackAddress(m.regs.sp)) == Hi(m.regs.pc)
  {
    var sp := m.regs.sp;
    var m1 := Push(m, Hi(m.regs.pc));
    var m2 := Push(m1, Lo(m.regs.pc));
    StackSlotsDistinct(sp);
    PushStores(m, Hi(m.regs.pc));
    PushKeeps(m1, Lo(m.regs.pc), StackAddress(sp));
    PushKeeps(m2, Alu.InterruptStatus(m.regs.status, breakFlag), StackAddress(sp));
  }

  /** The low byte of PC goes one below. */
  lemma PushedLow(m: Machine, breakFlag: bool)
    requires m.Valid()
    ensures Fetch(PushInterruptState(m, breakFlag), StackAddress(m.regs.sp - 1)) == Lo(m.regs.pc)
  {
    var sp := m.regs.sp;
    var m1 := Push(m, Hi(m.regs.pc));
    var m2 := Push(m1, Lo(m.regs.pc));
    StackSlotsDistinct(sp);
    PushStores(m1, Lo(m.regs.pc));
    PushKeeps(m2, Alu.InterruptStatus(m.regs.status, breakFlag), StackAddress(sp - 1));
  }

  /** The status, with bit 5 set and B set only for BRK, goes two below. */
  lemma PushedStatus(m: Machine, breakFlag: bool)
    requires m.Valid()
    ensures Fetch(PushInterruptState(m, breakFlag), StackAddress(m.regs.sp - 2)) == Alu.InterruptStatus(m.regs.status, breakFlag)
  {
    var m2 := Push(Push(m, Hi(m.regs.pc)), Lo(m.regs.pc));
    PushStores(m2, Alu.InterruptStatus(m.regs.status, breakFlag));
  }

  /** The three pushes leave every address outside the stack page reading as before. */
  lemma PushedKeeps(m: Machine, breakFlag: bool, addr: bv16)
    requires m.Valid() && !(0x0100 <= addr <= 0x01FF)
    ensures Fetch(PushInterruptState(m, breakFlag), addr) == Fetch(m, addr)
  {
    var sp := m.regs.sp;
    var m1 := Push(m, Hi(m.regs.pc));
    var m2 := Push(m1, Lo(m.regs.pc));
    StackPage(sp);
    StackPage(sp - 1);
    StackPage(sp - 2);
    PushKeeps(m, Hi(m.regs.pc), addr);
    PushKeeps(m1, Lo(m.regs.pc), addr);
    PushKeeps(m2, Alu.InterruptStatus(m.regs.status, breakFlag), addr);
  }

  /** An interrupt's bus is the bus after the pushes. */
  lemma InterruptBus(m: Machine, breakFlag: bool, vector: bv16)
    requires m.Valid()
    ensures Interrupt(m, breakFlag, vector).bus == PushInterruptState(m, breakFlag).bus
  {
  }

  /**
   * The three bytes an interrupt pushes: the program counter's high byte in
   * the slot SP pointed to, its low byte below it, and below that the
   * status with bit 5 set and B set only for BRK.
   */
  lemma InterruptStack(m: Machine, breakFlag: bool, vector: bv16)
    requires m.Valid()
    ensures var r := Interrupt(m, breakFlag, vector);
      && Fetch(r, StackAddress(m.regs.sp)) == Hi(m.regs.pc)
      && Fetch(r, StackAddress(m.regs.sp - 1)) == Lo(m.regs.pc)
      && Fetch(r, StackAddress(m.regs.sp - 2)) == Alu.InterruptStatus(m.regs.status, breakFlag)
  {
    InterruptBus(m, breakFlag, vector);
    PushedHigh(m, breakFlag);
    PushedLow(m, breakFlag);
    PushedStatus(m, breakFlag);
  }

  /**
   * After an interrupt, SP is three lower, I is set and every other status
   * bit is kept, and A, X, Y and the cycle count are unchanged.
   */
  lemma InterruptRegisters(m: Machine, breakFlag: bool, vector: bv16)
    requires m.Valid()
    ensures var r := Interrupt(m, breakFlag, vector);
      && r.regs.sp == m.regs.sp - 3
      && r.regs.status == With(m.regs.status, INTERRUPT_DISABLE, true)
      && r.regs.a == m.regs.a && r.regs.x == m.regs.x && r.regs.y == m.regs.y
      && r.cycles == m.cycles
  {
  }

  /** The vector lies outside the stack page, so PC is the word the vector held before the pushes. */
  lemma InterruptVector(m: Machine, breakFlag: bool, vector: bv16)
    requires m.Valid() && 0x0200 <= vector <= 0xFFFE
    ensures Interrupt(m, breakFlag, vector).regs.pc == FetchWord(m, vector)
  {
    PushedKeeps(m, breakFlag, vector);
    PushedKeeps(m, breakFlag, vector + 1);
  }

  /** `trigger_irq` is taken exactly when I is clear; a masked request changes nothing. */
  lemma IrqMasked(m: Machine)
    requires m.Valid()
    ensures TriggerIrq(m).0 <==> !Has(m.regs.status, INTERRUPT_DISABLE)
    ensures !TriggerIrq(m).0 ==> TriggerIrq(m).1 == m
  {
  }

  /** A taken IRQ sets I, so a second request straight after it is masked. */
  lemma IrqNotNested(m: Machine)
    requires m.Valid() && TriggerIrq(m).0
    ensures !TriggerIrq(TriggerIrq(m).1).0
  {
    InterruptRegisters(m, false, IRQ_BRK_VECTOR);
  }

  /**
   * The interrupt of a CPU at PC 0x1234 with status 0 and SP at its reset
   * value, whose vector holds 0x4567: 0x12, 0x34 and then 0x20 (0x30 for
   * BRK) on the stack at 0x01FD down to 0x01FB, SP at 0xFA, I set, PC 0x4567.
   */
  lemma InterruptExample(m: Machine, breakFlag: bool, vector: bv16)
    requires m.Valid() && (vector == NMI_VECTOR || vector == IRQ_BRK_VECTOR)
    requires m.regs.pc == 0x1234 && m.regs.status == 0 && m.regs.sp == STACK_RESET
    requires FetchWord(m, vector) == 0x4567
    ensures var r := Interrupt(m, breakFlag, vector);
      && r.regs.pc == 0x4567 && Has(r.regs.status, INTERRUPT_DISABLE) && r.regs.sp == 0xFA
      && Fetch(r, 0x01FD) == 0x12 && Fetch(r, 0x01FC) == 0x34
      && Fetch(r, 0x01FB) == if breakFlag then 0x30 else 0x20
  {
    InterruptStack(m, breakFlag, vector);
    InterruptRegisters(m, breakFlag, vector);
    InterruptVector(m, breakFlag, vector);
    assert StackAddress(m.regs.sp) == 0x01FD && StackAddress(m.regs.sp - 1) == 0x01FC && StackAddress(m.regs.sp - 2) == 0x01FB;
    assert Alu.InterruptStatus(0, breakFlag) == if breakFlag then 0x30 else 0x20;
  }

  /** A pull reads page one, which is RAM, so it leaves the bus as it was. */
  lemma PopKeepsBus(m: Machine)
    requires m.Valid()
    ensures Pop(m).1.bus == m.bus
  {
    StackIsMemory(m.bus, m.regs.sp + 1);
  }

  /** A word pull reads the low byte just above SP and the high byte above that. */
  lemma PopWordReads(m: Machine)
    requires m.Valid()
    ensures PopWord(m).0 == Word(Fetch(m, StackAddress(m.regs.sp + 1)), Fetch(m, StackAddress(m.regs.sp + 2)))
  {
    var m1 := Pop(m).1;
    PopKeepsBus(m);
    SlotAbove(m.regs.sp, m1.regs.sp);
  }

  /** The slot above SP + 1 is the slot two above SP. */
  lemma SlotAbove(sp: bv8, sp1: bv8)
    requires sp1 == sp + 1
    ensures sp1 + 1 == sp + 2
  {
  }

  /** RTI's new PC is the word in the second and third slots above SP. */
  lemma RtiReads(m: Machine, r: Machine)
    requires m.Valid() && r == ReturnFromInterrupt(m)
    ensures r.regs.pc == Word(Fetch(m, StackAddress(m.regs.sp + 2)), Fetch(m, StackAddress(m.regs.sp + 3)))
  {
    var (p, m1) := Pop(m);
    var m2 := SetStatus(m1, Alu.PulledStatus(p));
    PopKeepsBus(m);
    PopWordReads(m2);
    SlotsAbove(m.regs.sp, m2.regs.sp);
  }

  /** Counted from SP + 1, the slots one and two above are the slots two and three above SP. */
  lemma SlotsAbove(sp: bv8, sp1: bv8)
    requires sp1 == sp + 1
    ensures sp1 + 1 == sp + 2 && sp1 + 2 == sp + 3
  {
  }

  /**
   * RTI straight after an interrupt returns to the interrupted PC with SP
   * restored; P is the pushed status as a pull sees it (B clear, bit 5 set),
   * so every other flag is what it was before the interrupt; A, X and Y are kept.
   */
  lemma InterruptThenRti(m: Machine, breakFlag: bool, vector: bv16, i: Machine, r: Machine)
    requires m.Valid() && i == Interrupt(m, breakFlag, vector) && r == ReturnFromInterrupt(i)
    ensures r.regs.pc == m.regs.pc && r.regs.sp == m.regs.sp
    ensures r.regs.status == Alu.PulledStatus(Alu.InterruptStatus(m.regs.status, breakFlag))
    ensures r.regs.a == m.regs.a && r.regs.x == m.regs.x && r.regs.y == m.regs.y
  {
    InterruptStack(m, breakFlag, vector);
    InterruptRegisters(m, breakFlag, vector);
    RtiReads(i, r);
    ThreeBelow(m.regs.sp, i.regs.sp);
    WordOfBytes(m.regs.pc);
  }

  /** From SP - 3, the first three slots above are the three slots an interrupt filled. */
  lemma ThreeBelow(sp: bv8, s: bv8)
    requires s == sp - 3
    ensures s + 1 == sp - 2 && s + 2 == sp - 1 && s + 3 == sp
  {
  }

  // ------------------------------------------------------- loaders: properties

  /** An address backed by the RAM array fetches its RAM cell. */
  lemma FetchMemory(m: Machine, addr: bv16)
    requires m.Valid() && CpuBus.IsMemory(m.bus, addr)
    ensures Fetch(m, addr) == m.bus.ram[addr as int]
  {
    CpuBus.ReadMemory(m.bus, addr);
  }

  /**
   * `load_prg_rom` succeeds exactly for 16 KB and 32 KB images and reports
   * any other size; it never touches the registers, the cycle count, the
   * APU, the PPU or the RAM below 0x8000, and a rejected image leaves the
   * RAM as it was. Either way the cartridge is gone.
   */
  lemma LoadPrgRomResult(m: Machine, prg: seq<bv8>)
    requires m.Valid()
    ensures var (r, err) := LoadPrgRom(m, prg);
      && (err.None? <==> Mapper.ValidPrgSize(|prg|))
      && (err.Some? ==> err == Some(InvalidPrgSize(|prg|)) && r.bus.ram == m.bus.ram)
      && r.regs == m.regs && r.cycles == m.cycles
      && r.bus.apu == m.bus.apu && r.bus.ppu == m.bus.ppu && r.bus.prg.None?
      && r.bus.ram[..0x8000] == m.bus.ram[..0x8000]
  {
  }

  /**
   * Copying a PRG image into RAM gives the CPU the view the NROM mapper
   * gives: every address from 0x8000 up reads what `NromMapper` would
   * return for it (the 16 KB image mirrored, the 32 KB image linear).
   */
  lemma LoadPrgRomMatchesMapper(m: Machine, prg: seq<bv8>, addr: bv16)
    requires m.Valid() && Mapper.ValidPrgSize(|prg|) && addr >= 0x8000
    ensures Fetch(LoadPrgRom(m, prg).0, addr) == Mapper.PrgRead(prg, addr).value
  {
    FetchMemory(LoadPrgRom(m, prg).0, addr);
    PrgImageCell(m.bus.ram[..0x8000], prg, addr);
  }

  /** The RAM image `load_prg_rom` builds holds, at each upper address, the mapper's byte for it. */
  lemma PrgImageCell(low: seq<bv8>, prg: seq<bv8>, addr: bv16)
    requires |low| == 0x8000 && Mapper.ValidPrgSize(|prg|) && addr >= 0x8000
    ensures PrgImage(low, prg)[addr as int] == Mapper.PrgRead(prg, addr).value
  {
    if |prg| == 0x8000 {
      LinearCell(low, prg, addr);
    } else if (addr as int) < 0xC000 {
      LowerBankCell(low, prg, addr);
    } else {
      UpperBankCell(low, prg, addr);
    }
  }

  lemma LinearCell(low: seq<bv8>, prg: seq<bv8>, addr: bv16)
    requires |low| == 0x8000 && |prg| == 0x8000 && addr as int >= 0x8000
    ensures PrgImage(low, prg)[addr as int] == Mapper.PrgRead(prg, addr).value
  {
    Mapper.PrgLinear32K(prg, addr);
    ImageCell(low, prg, addr as int, 0x8000);
  }

  lemma LowerBankCell(low: seq<bv8>, prg: seq<bv8>, addr: bv16)
    requires |low| == 0x8000 && |prg| == 0x4000 && 0x8000 <= addr as int < 0xC000
    ensures PrgImage(low, prg)[addr as int] == Mapper.PrgRead(prg, addr).value
  {
    Mapper.PrgLowerBank(prg, addr);
    FrontCell(low + prg, prg, addr as int);
    ImageCell(low, prg, addr as int, 0x8000);
  }

  lemma UpperBankCell(low: seq<bv8>, prg: seq<bv8>, addr: bv16)
    requires |low| == 0x8000 && |prg| == 0x4000 && addr as int >= 0xC000
    ensures PrgImage(low, prg)[addr as int] == Mapper.PrgRead(prg, addr).value
  {
    Mapper.PrgUpperMirror(prg, addr);
    ImageCell(low + prg, prg, addr as int, 0xC000);
  }

  lemma FrontCell(front: seq<bv8>, back: seq<bv8>, a: int)
    requires 0 <= a < |front|
    ensures (front + back)[a] == front[a]
  {
  }

  lemma ImageCell(front: seq<bv8>, back: seq<bv8>, a: int, start: int)
    requires |front| == start && start <= a < start + |back|
    ensures (front + back)[a] == back[a - start]
  {
  }

  /**
   * `load_cartridge` rejects any mapper but 0 first, then a PRG size the
   * NROM mapper refuses, and on an error changes nothing.
   */
  lemma LoadCartridgeErrors(m: Machine, rom: Rom.Rom)
    requires m.Valid()
    ensures var (r, err) := LoadCartridge(m, rom);
      && (err.Some? <==> rom.mapper != 0 || !Mapper.ValidPrgSize(|rom.prgRom|))
      && (rom.mapper != 0 ==> err == Some(UnsupportedMapper(rom.mapper)))
      && (rom.mapper == 0 && !Mapper.ValidPrgSize(|rom.prgRom|) ==> err == Some(InvalidPrgSize(|rom.prgRom|)))
      && (err.Some? ==> r == m)
  {
  }

  /**
   * An accepted cartridge: the upper half reads its PRG-ROM through the
   * mapper, the PPU takes its mirroring, and the registers, cycle count,
   * RAM and APU are unchanged.
   */
  lemma LoadCartridgeMaps(m: Machine, rom: Rom.Rom, addr: bv16)
    requires m.Valid() && rom.mapper == 0 && Mapper.ValidPrgSize(|rom.prgRom|) && addr >= 0x8000
    ensures var r := LoadCartridge(m, rom).0;
      && Fetch(r, addr) == Mapper.PrgRead(rom.prgRom, addr).value
      && r.bus.ppu.mirroring == rom.mirroring
      && r.regs == m.regs && r.cycles == m.cycles && r.bus.ram == m.bus.ram && r.bus.apu == m.bus.apu
  {
    CpuBus.CartridgeReadOnly(LoadCartridge(m, rom).0.bus, addr, 0);
  }

  /** The two ways to install a PRG image agree on every address of the upper half. */
  lemma PrgLoadersAgree(m: Machine, rom: Rom.Rom, addr: bv16)
    requires m.Valid() && rom.mapper == 0 && Mapper.ValidPrgSize(|rom.prgRom|) && addr >= 0x8000
    ensures Fetch(LoadPrgRom(m, rom.prgRom).0, addr) == Fetch(LoadCartridge(m, rom).0, addr)
  {
    LoadPrgRomMatchesMapper(m, rom.prgRom, addr);
    LoadCartridgeMaps(m, rom, addr);
  }

  /** The reset vector of a valid PRG image: its last four bytes start with the vector's low and high byte. */
  function ImageResetVector(prg: seq<bv8>): bv16
    requires Mapper.ValidPrgSize(|prg|)
  {
    Word(prg[|prg| - 4], prg[|prg| - 3])
  }

  /** The mapper serves 0xFFFC and 0xFFFD from the image's fourth- and third-last bytes. */
  lemma MapperResetVector(prg: seq<bv8>)
    requires Mapper.ValidPrgSize(|prg|)
    ensures Mapper.PrgRead(prg, RESET_VECTOR).value == prg[|prg| - 4]
    ensures Mapper.PrgRead(prg, RESET_VECTOR + 1).value == prg[|prg| - 3]
  {
    if |prg| == 0x4000 {
      Mapper.PrgUpperMirror(prg, RESET_VECTOR);
      Mapper.PrgUpperMirror(prg, RESET_VECTOR + 1);
    } else {
      Mapper.PrgLinear32K(prg, RESET_VECTOR);
      Mapper.PrgLinear32K(prg, RESET_VECTOR + 1);
    }
  }

  /** After `load_prg_rom`, `reset` starts at the vector stored at the end of the image. */
  lemma PrgThenReset(m: Machine, prg: seq<bv8>)
    requires m.Valid() && Mapper.ValidPrgSize(|prg|)
    ensures Reset(LoadPrgRom(m, prg).0).regs.pc == ImageResetVector(prg)
  {
    LoadPrgRomMatchesMapper(m, prg, RESET_VECTOR);
    LoadPrgRomMatchesMapper(m, prg, RESET_VECTOR + 1);
    MapperResetVector(prg);
  }

  /** After `load_cartridge`, `reset` starts at the vector stored at the end of the PRG-ROM. */
  lemma CartridgeThenReset(m: Machine, rom: Rom.Rom)
    requires m.Valid() && rom.mapper == 0 && Mapper.ValidPrgSize(|rom.prgRom|)
    ensures Reset(LoadCartridge(m, rom).0).regs.pc == ImageResetVector(rom.prgRom)
  {
    LoadCartridgeMaps(m, rom, RESET_VECTOR);
    LoadCartridgeMaps(m, rom, RESET_VECTOR + 1);
    MapperResetVector(rom.prgRom);
  }

  /** A reset of a fresh CPU changes nothing: its vector reads 0 and its registers are already at power-on. */
  lemma FreshReset()
    ensures Reset(NewMachine()) == NewMachine()
  {
    var m := NewMachine();
    FetchMemory(m, RESET_VECTOR);
    FetchMemory(m, RESET_VECTOR + 1);
  }

  /** Writing the reset vector touches no RAM cell below it. */
  lemma VectorWriteKeepsRam(b: CpuBus.Bus, data: bv16, a: int)
    requires b.Valid() && 0 <= a < RESET_VECTOR as int
    ensures CpuBus.WriteWord(b, RESET_VECTOR, data).ram[a] == b.ram[a]
  {
    var b1 := CpuBus.Write(b, RESET_VECTOR, Lo(data));
    assert b1.ram[a] == b.ram[a];
  }

  /**
   * `load` puts the program at 0x0600 and leaves the rest of the RAM below
   * the reset vector as it was.
   */
  lemma LoadPlaces(m: Machine, program: seq<bv8>, a: int)
    requires m.Valid() && PROGRAM_START as int + |program| <= RESET_VECTOR as int && 0 <= a < RESET_VECTOR as int
    ensures var r := Load(m, program);
      && (PROGRAM_START as int <= a < PROGRAM_START as int + |program| ==> r.bus.ram[a] == program[a - PROGRAM_START as int])
      && (!(PROGRAM_START as int <= a < PROGRAM_START as int + |program|) ==> r.bus.ram[a] == m.bus.ram[a])
      && r.regs == m.regs && r.cycles == m.cycles
  {
    var start := PROGRAM_START as int;
    var ram := m.bus.ram[..start] + program + m.bus.ram[start + |program|..];
    VectorWriteKeepsRam(m.bus.(ram := ram), PROGRAM_START, a);
  }

  /**
   * Without a cartridge, `load` points the reset vector at 0x0600, so a
   * `reset` after it starts the program.
   */
  lemma LoadThenReset(m: Machine, program: seq<bv8>)
    requires m.Valid() && PROGRAM_START as int + |program| <= CpuBus.MEMORY_SIZE && m.bus.prg.None?
    ensures Reset(Load(m, program)).regs.pc == PROGRAM_START
  {
    var start := PROGRAM_START as int;
    var b := m.bus.(ram := m.bus.ram[..start] + program + m.bus.ram[start + |program|..]);
    CpuBus.WordRoundTrip(b, RESET_VECTOR, PROGRAM_START);
  }

  /** With a cartridge, the bus drops `load`'s write to the reset vector, which still reads from PRG-ROM. */
  lemma LoadKeepsCartridgeVector(m: Machine, program: seq<bv8>)
    requires m.Valid() && PROGRAM_START as int + |program| <= CpuBus.MEMORY_SIZE && m.bus.prg.Some?
    ensures FetchWord(Load(m, program), RESET_VECTOR) == FetchWord(m, RESET_VECTOR)
  {
  }

  // ------------------------------------------------------ example programs

  const LDA_IMMEDIATE := OpCode(0xa9, "LDA", 2, 2, Immediate)
  const TAX_IMPLIED := OpCode(0xaa, "TAX", 1, 2, NoneAddressing)
  const BRK_IMPLIED := OpCode(0x00, "BRK", 1, 7, NoneAddressing)

  /** A table that knows LDA #imm, TAX and BRK as `CPU_OPS_CODES` lists them. */
  predicate KnowsSimpleProgram(table: bv8 -> Option<OpCode>) {
    table(0xa9) == Some(LDA_IMMEDIATE) && table(0xaa) == Some(TAX_IMPLIED) && table(0x00) == Some(BRK_IMPLIED)
  }

  /** LDA #v at 0x0600. */
  lemma LdaImmediateStep(table: bv8 -> Option<OpCode>, m: Machine, v: bv8)
    requires WellFormed(table) && table(0xa9) == Some(LDA_IMMEDIATE) && m.Valid()
    requires m.regs.pc == 0x0600 && Fetch(m, 0x0600) == 0xa9 && Fetch(m, 0x0601) == v
    ensures Step(table, m) ==
      Running(m.(regs := m.regs.(a := v, status := WithZN(m.regs.status, v), pc := 0x0602), cycles := m.cycles + 2))
  {
    StepIsTurn(table, m);
  }

  /** TAX at 0x0602. */
  lemma SimpleProgramStep2(table: bv8 -> Option<OpCode>, m: Machine)
    requires WellFormed(table) && KnowsSimpleProgram(table) && m.Valid()
    requires m.regs.pc == 0x0602 && Fetch(m, 0x0602) == 0xaa
    ensures Step(table, m) ==
      Running(m.(regs := m.regs.(x := m.regs.a, status := WithZN(m.regs.status, m.regs.a), pc := 0x0603), cycles := m.cycles + 2))
  {
    var m1 := m.(regs := m.regs.(pc := 0x0603));
    assert !HasPageCrossPenalty(0xaa);
    StepBy(table, m, 0xaa, m1, false);
    assert Decode(0xaa) == Some(Tax);
    var e := Execute(Tax, TAX_IMPLIED.mode, m1);
    ExecuteTax(m1, TAX_IMPLIED.mode);
    assert e.m == m1.(regs := m1.regs.(x := m.regs.a, status := WithZN(m.regs.status, m.regs.a)));
    assert SettledPc(0x0603, 0x0603, TAX_IMPLIED.len) == 0x0603;
    assert CyclesAdded(TAX_IMPLIED, false, 0) == 2;
  }

  /** BRK at 0x0603. */
  lemma SimpleProgramStep3(table: bv8 -> Option<OpCode>, m: Machine)
    requires WellFormed(table) && KnowsSimpleProgram(table) && m.Valid()
    requires m.regs.pc == 0x0603 && Fetch(m, 0x0603) == 0x00
    ensures Step(table, m) == Halted(m.(regs := m.regs.(pc := 0x0604), cycles := m.cycles + 7))
  {
    BrkStep(table, m, 0x0603);
  }

  /** LDA #$01; TAX; BRK from 0x0600 halts after 2 + 2 + 7 = 11 cycles with 1 in A and X. */
  lemma SimpleProgramRuns(table: bv8 -> Option<OpCode>, m: Machine)
    requires WellFormed(table) && KnowsSimpleProgram(table) && m.Valid() && m.regs.pc == 0x0600
    requires Fetch(m, 0x0600) == 0xa9 && Fetch(m, 0x0601) == 0x01 && Fetch(m, 0x0602) == 0xaa && Fetch(m, 0x0603) == 0x00
    ensures var r := Run(table, m, 3);
      r.Halted? && r.m.cycles == m.cycles + 11 && r.m.regs.a == 0x01 && r.m.regs.x == 0x01
  {
    LdaImmediateStep(table, m, 0x01);
    var m1 := m.(regs := m.regs.(a := 0x01, status := WithZN(m.regs.status, 0x01), pc := 0x0602), cycles := m.cycles + 2);
    SimpleProgramStep2(table, m1);
    var m2 := m1.(regs := m1.regs.(x := m1.regs.a, status := WithZN(m1.regs.status, m1.regs.a), pc := 0x0603), cycles := m1.cycles + 2);
    SimpleProgramStep3(table, m2);
    assert Run(table, m, 3) == Run(table, m1, 2) == Run(table, m2, 1);
  }

  const BEQ_RELATIVE := OpCode(0xf0, "BEQ", 2, 2, NoneAddressing)

  /** BEQ +2 at 0x0602 with Z set: taken, to 0x0606 in the same page, one extra cycle. */
  lemma BranchProgramStep2(table: bv8 -> Option<OpCode>, m: Machine)
    requires WellFormed(table) && table(0xf0) == Some(BEQ_RELATIVE) && m.Valid()
    requires m.regs.pc == 0x0602 && Fetch(m, 0x0602) == 0xf0 && Fetch(m, 0x0603) == 0x02 && Has(m.regs.status, ZERO)
    ensures Step(table, m) == Running(m.(regs := m.regs.(pc := 0x0606), cycles := m.cycles + 3))
  {
    StepIsTurn(table, m);
    var m1 := m.(regs := m.regs.(pc := 0x0603));
    ShortForwardBranch(m1);
    BeqDecodes();
  }

  /** 0xF0 is BEQ, and pays no page-cross penalty. */
  lemma BeqDecodes()
    ensures !HasPageCrossPenalty(0xf0) && Decode(0xf0) == Some(Branch(Zero, true))
  {
  }

  /** A taken branch by +2 whose offset byte is at 0x0603 lands on 0x0606, in the same page. */
  lemma ShortForwardBranch(m: Machine)
    requires m.Valid() && m.regs.pc == 0x0603 && Fetch(m, 0x0603) == 0x02
    ensures TakeBranch(m, true) == Branched(m.(regs := m.regs.(pc := 0x0606)), true, false)
  {
    assert BranchTarget(0x0603, 0x02) == 0x0606;
    assert !BranchCrossesPage(0x0603, 0x02);
  }

  /** BRK at `pc`. */
  lemma BrkStep(table: bv8 -> Option<OpCode>, m: Machine, pc: bv16)
    requires WellFormed(table) && table(0x00) == Some(BRK_IMPLIED) && m.Valid()
    requires m.regs.pc == pc && Fetch(m, pc) == 0x00
    ensures Step(table, m) == Halted(m.(regs := m.regs.(pc := pc + 1), cycles := m.cycles + 7))
  {
    var m1 := m.(regs := m.regs.(pc := pc + 1));
    StepBy(table, m, 0x00, m1, false);
    BrkDecodes();
    TurnHalts(table(0x00), Decode(0x00), m1, UnsupportedOpcode(0x00, pc), false);
  }

  /** 0x00 is BRK. */
  lemma BrkDecodes()
    ensures Decode(0x00) == Some(Brk)
  {
  }

  /**
   * LDA #$00; BEQ +2; NOP; BRK from 0x0600: the branch is taken over the
   * NOP to the zero byte at 0x0606, a BRK, so the run halts after
   * 2 + (2 + 1) + 7 = 12 cycles.
   */
  lemma BranchProgramRuns(table: bv8 -> Option<OpCode>, m: Machine)
    requires WellFormed(table) && table(0xa9) == Some(LDA_IMMEDIATE) && table(0xf0) == Some(BEQ_RELATIVE)
    requires table(0x00) == Some(BRK_IMPLIED) && m.Valid() && m.regs.pc == 0x0600
    requires Fetch(m, 0x0600) == 0xa9 && Fetch(m, 0x0601) == 0x00 && Fetch(m, 0x0602) == 0xf0 && Fetch(m, 0x0603) == 0x02
    requires Fetch(m, 0x0606) == 0x00
    ensures var r := Run(table, m, 3);
      r.Halted? && r.m.cycles == m.cycles + 12 && r.m.regs.pc == 0x0607
  {
    LdaImmediateStep(table, m, 0x00);
    var m1 := m.(regs := m.regs.(a := 0x00, status := WithZN(m.regs.status, 0x00), pc := 0x0602), cycles := m.cycles + 2);
    BranchProgramStep2(table, m1);
    var m2 := m1.(regs := m1.regs.(pc := 0x0606), cycles := m1.cycles + 3);
    BrkStep(table, m2, 0x0606);
    assert Run(table, m, 3) == Run(table, m1, 2) == Run(table, m2, 1);
  }

  const LDA_ABSOLUTE_Y := OpCode(0xb9, "LDA", 3, 4, AbsoluteY)

  /** LDA $00FF,Y at 0x0600 with Y = 1 reads 0x0100, a page away: one extra cycle. */
  lemma PageCrossProgramStep1(table: bv8 -> Option<OpCode>, m: Machine)
    requires WellFormed(table) && table(0xb9) == Some(LDA_ABSOLUTE_Y) && m.Valid()
    requires m.regs.pc == 0x0600 && m.regs.y == 0x01
    requires Fetch(m, 0x0600) == 0xb9 && Fetch(m, 0x0601) == 0xff && Fetch(m, 0x0602) == 0x00
    ensures var v := Fetch(m, 0x0100);
      Step(table, m) == Running(m.(regs := m.regs.(a := v, status := WithZN(m.regs.status, v), pc := 0x0603), cycles := m.cycles + 5))
  {
    StepIsTurn(table, m);
  }

  /** LDA $00FF,Y; BRK with Y = 1 and 7 at 0x0100: A ends as 7 after (4 + 1) + 7 = 12 cycles. */
  lemma PageCrossProgramRuns(table: bv8 -> Option<OpCode>, m: Machine)
    requires WellFormed(table) && table(0xb9) == Some(LDA_ABSOLUTE_Y) && table(0x00) == Some(BRK_IMPLIED)
    requires m.Valid() && m.regs.pc == 0x0600 && m.regs.y == 0x01 && Fetch(m, 0x0100) == 0x07
    requires Fetch(m, 0x0600) == 0xb9 && Fetch(m, 0x0601) == 0xff && Fetch(m, 0x0602) == 0x00 && Fetch(m, 0x0603) == 0x00
    ensures var r := Run(table, m, 2);
      r.Halted? && r.m.cycles == m.cycles + 12 && r.m.regs.a == 0x07
  {
    PageCrossProgramStep1(table, m);
    var m1 := m.(regs := m.regs.(a := 0x07, status := WithZN(m.regs.status, 0x07), pc := 0x0603), cycles := m.cycles + 5);
    BrkStep(table, m1, 0x0603);
    assert Run(table, m, 2) == Run(table, m1, 1);
  }

  /** The byte 0x02 at 0x0600 has no table entry: the run fails with opcode 0x02 at PC 0x0600. */
  lemma UnsupportedProgramFails(table: bv8 -> Option<OpCode>, m: Machine)
    requires WellFormed(table) && table(0x02).None? && m.Valid() && m.regs.pc == 0x0600 && Fetch(m, 0x0600) == 0x02
    ensures Run(table, m, 1) == Failed(UnsupportedOpcode(0x02, 0x0600), m.(regs := m.regs.(pc := 0x0601)))
  {
    StepFails(table, m);
  }

  /** Without a cartridge, `load` then `reset` starts at 0x0600 with power-on registers and no cycles. */
  lemma ResetAfterLoad(m: Machine, program: seq<bv8>)
    requires m.Valid() && m.bus.prg.None? && PROGRAM_START as int + |program| <= RESET_VECTOR as int
    ensures var r := Reset(Load(m, program));
      r.regs == PowerOn.(pc := PROGRAM_START) && r.cycles == 0 && r.bus == Load(m, program).bus
  {
    LoadThenReset(m, program);
  }

  /** A RAM address below the reset vector fetches the loaded program's byte, or what it held before. */
  lemma LoadedByte(m: Machine, program: seq<bv8>, a: bv16)
    requires m.Valid() && PROGRAM_START as int + |program| <= RESET_VECTOR as int
    requires (a as int) < RESET_VECTOR as int && CpuBus.IsMemory(m.bus, a)
    ensures Fetch(Load(m, program), a) ==
      if PROGRAM_START as int <= a as int < PROGRAM_START as int + |program| then program[a as int - PROGRAM_START as int]
      else m.bus.ram[a as int]
  {
    FetchMemory(Load(m, program), a);
    LoadPlaces(m, program, a as int);
  }

  /** The entries of `CPU_OPS_CODES` the example programs use. */
  lemma OpcodesMapKnowsLda()
    ensures OpcodesMap(0xa9) == Some(LDA_IMMEDIATE) && OpcodesMap(0xb9) == Some(LDA_ABSOLUTE_Y)
  {
    OpcodesMapFindsEveryEntry(3);
    OpcodesMapFindsEveryEntry(8);
  }

  lemma OpcodesMapKnowsTaxBrk()
    ensures OpcodesMap(0xaa) == Some(TAX_IMPLIED) && OpcodesMap(0x00) == Some(BRK_IMPLIED)
  {
    OpcodesMapFindsEveryEntry(0);
    OpcodesMapFindsEveryEntry(1);
  }

  /**
   * With the engine's own opcode table, `load` of LDA #$01; TAX; BRK,
   * `reset` and the run halt after 11 cycles.
   */
  lemma SimpleProgramCycles()
    ensures WellFormed(OpcodesMap)
    ensures var r := Run(OpcodesMap, Reset(Load(NewMachine(), [0xa9, 0x01, 0xaa, 0x00])), 3);
      r.Halted? && r.m.cycles == 11 && r.m.regs.a == 0x01 && r.m.regs.x == 0x01
  {
    var p: seq<bv8> := [0xa9, 0x01, 0xaa, 0x00];
    var m := NewMachine();
    OpcodesMapWellFormed();
    OpcodesMapKnowsLda();
    OpcodesMapKnowsTaxBrk();
    ResetAfterLoad(m, p);
    LoadedByte(m, p, 0x0600);
    LoadedByte(m, p, 0x0601);
    LoadedByte(m, p, 0x0602);
    LoadedByte(m, p, 0x0603);
    SimpleProgramRuns(OpcodesMap, Reset(Load(m, p)));
  }

  /**
   * `load` of LDA #$00; BEQ +2; NOP; BRK, `reset` and the run, with any
   * table that lists LDA #imm, BEQ and BRK with the usual costs: the taken
   * branch costs one extra cycle, 12 in all.
   */
  lemma BranchProgramCycles(table: bv8 -> Option<OpCode>)
    requires WellFormed(table) && table(0xa9) == Some(LDA_IMMEDIATE) && table(0xf0) == Some(BEQ_RELATIVE)
    requires table(0x00) == Some(BRK_IMPLIED)
    ensures var r := Run(table, Reset(Load(NewMachine(), [0xa9, 0x00, 0xf0, 0x02, 0xea, 0x00])), 3);
      r.Halted? && r.m.cycles == 12
  {
    var p: seq<bv8> := [0xa9, 0x00, 0xf0, 0x02, 0xea, 0x00];
    var m := NewMachine();
    ResetAfterLoad(m, p);
    LoadedByte(m, p, 0x0600);
    LoadedByte(m, p, 0x0601);
    LoadedByte(m, p, 0x0602);
    LoadedByte(m, p, 0x0603);
    LoadedByte(m, p, 0x0606);
    BranchProgramRuns(table, Reset(Load(m, p)));
  }

  /**
   * With the engine's own opcode table: 7 written to 0x0100, then `load`
   * of LDA $00FF,Y; BRK, `reset`, and Y set to 1: A ends as 7 after 12
   * cycles, the page-crossing read costing one more.
   */
  lemma PageCrossProgramCycles()
    ensures WellFormed(OpcodesMap)
    ensures var m := Reset(Load(Write(NewMachine(), 0x0100, 0x07), [0xb9, 0xff, 0x00, 0x00]));
      var r := Run(OpcodesMap, m.(regs := m.regs.(y := 0x01)), 2);
      r.Halted? && r.m.cycles == 12 && r.m.regs.a == 0x07
  {
    var p: seq<bv8> := [0xb9, 0xff, 0x00, 0x00];
    var m := Write(NewMachine(), 0x0100, 0x07);
    OpcodesMapWellFormed();
    OpcodesMapKnowsLda();
    OpcodesMapKnowsTaxBrk();
    CpuBus.WriteMemory(NewMachine().bus, 0x0100, 0x07);
    ResetAfterLoad(m, p);
    LoadedByte(m, p, 0x0100);
    LoadedByte(m, p, 0x0600);
    LoadedByte(m, p, 0x0601);
    LoadedByte(m, p, 0x0602);
    LoadedByte(m, p, 0x0603);
    var m0 := Reset(Load(m, p));
    PageCrossProgramRuns(OpcodesMap, m0.(regs := m0.regs.(y := 0x01)));
  }

  /** No entry of `CPU_OPS_CODES` has the code 0x02. */
  lemma OpcodesMapLacks02()
    ensures OpcodesMap(0x02).None?
  {
    forall i | 0 <= i < |CpuOpsCodes|
      ensures CpuOpsCodes[i].code != 0x02
    {
    }
  }

  /** With the engine's own table, the run of the program 0x02 fails with opcode 0x02 at PC 0x0600. */
  lemma UnsupportedProgramReported()
    ensures WellFormed(OpcodesMap)
    ensures Run(OpcodesMap, Reset(Load(NewMachine(), [0x02])), 1).Failed?
    ensures Run(OpcodesMap, Reset(Load(NewMachine(), [0x02])), 1).error == UnsupportedOpcode(0x02, 0x0600)
  {
    var p: seq<bv8> := [0x02];
    var m := NewMachine();
    OpcodesMapWellFormed();
    OpcodesMapLacks02();
    ResetAfterLoad(m, p);
    LoadedByte(m, p, 0x0600);
    UnsupportedProgramFails(OpcodesMap, Reset(Load(m, p)));
  }
}
