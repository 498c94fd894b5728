/**
 * The instruction dispatch of both CPU engines: the `match code` of
 * `try_run_with_callback` (crates/res-core/src/cpu.rs) and of
 * `run_with_callback` (src/cpu.rs) map the same opcode bytes to the same
 * handlers, so the decoding is shared; the engines differ in what the
 * handlers do.
 */
module Decoding {
  import opened Wrappers
  import opened Registers
  import opened Addressing
  import opened Opcodes

  /** Which register a compare instruction compares with the operand. */
  datatype Reg = RegA | RegX | RegY

  /** The status flags that instructions set, clear or test by name. */
  datatype Flag = Carry | Zero | InterruptDisable | DecimalMode | Overflow | Negative

  /** The status bit of a named flag. */
  function FlagBit(f: Flag): (b: bv8)
    ensures IsFlag(b)
  {
    match f
    case Carry => CARRY
    case Zero => ZERO
    case InterruptDisable => INTERRUPT_DISABLE
    case DecimalMode => DECIMAL_MODE
    case Overflow => OVERFLOW
    case Negative => NEGATIVE
  }

  /** The handler an opcode byte selects. */
  datatype Instr =
    | Lda | Ldx | Ldy | Sta | Stx | Sty
    | ClearFlag(flag: Flag) | SetFlag(flag: Flag)
    | Tax | Tay | Tsx | Txa | Txs | Tya
    | Inx | Iny | Dex | Dey | Inc | Dec
    | Brk | Nop
    | Pha | Pla | Php | Plp
    | Adc | Sbc | And | Eor | Ora
    | AslAcc | Asl | LsrAcc | Lsr | RolAcc | Rol | RorAcc | Ror
    | Compare(reg: Reg)
    | Jmp | JmpIndirect | Jsr | Rts | Rti
    | Branch(flag: Flag, whenSet: bool)
    | Bit

  /** The assembler mnemonic of a handler (the name the trace prints). */
  function Mnemonic(ins: Instr): string {
    match ins
    case Lda => "LDA" case Ldx => "LDX" case Ldy => "LDY"
    case Sta => "STA" case Stx => "STX" case Sty => "STY"
    case ClearFlag(f) =>
      (match f
       case Carry => "CLC" case InterruptDisable => "CLI" case DecimalMode => "CLD"
       case Overflow => "CLV" case _ => "???")
    case SetFlag(f) =>
      (match f
       case Carry => "SEC" case InterruptDisable => "SEI" case DecimalMode => "SED"
       case _ => "???")
    case Tax => "TAX" case Tay => "TAY" case Tsx => "TSX"
    case Txa => "TXA" case Txs => "TXS" case Tya => "TYA"
    case Inx => "INX" case Iny => "INY" case Dex => "DEX" case Dey => "DEY"
    case Inc => "INC" case Dec => "DEC"
    case Brk => "BRK" case Nop => "NOP"
    case Pha => "PHA" case Pla => "PLA" case Php => "PHP" case Plp => "PLP"
    case Adc => "ADC" case Sbc => "SBC" case And => "AND" case Eor => "EOR" case Ora => "ORA"
    case AslAcc | Asl => "ASL" case LsrAcc | Lsr => "LSR"
    case RolAcc | Rol => "ROL" case RorAcc | Ror => "ROR"
    case Compare(r) => (match r case RegA => "CMP" case RegX => "CPX" case RegY => "CPY")
    case Jmp | JmpIndirect => "JMP" case Jsr => "JSR" case Rts => "RTS" case Rti => "RTI"
    case Branch(f, onSet) =>
      (match f
       case Zero => if onSet then "BEQ" else "BNE"
       case Carry => if onSet then "BCS" else "BCC"
       case Overflow => if onSet then "BVS" else "BVC"
       case Negative => if onSet then "BMI" else "BPL"
       case _ => "???")
    case Bit => "BIT"
  }

  /** The handlers that call `get_operand_address` with the table's addressing mode. */
  predicate NeedsAddress(ins: Instr) {
    ins.Lda? || ins.Ldx? || ins.Ldy? || ins.Sta? || ins.Stx? || ins.Sty? ||
    ins.Inc? || ins.Dec? || ins.Adc? || ins.Sbc? || ins.And? || ins.Eor? || ins.Ora? ||
    ins.Asl? || ins.Lsr? || ins.Rol? || ins.Ror? || ins.Compare? || ins.Bit?
  }

  /** The arms of the `match code` in the run loop; none for the `_` arm. */
  function Decode(code: bv8): Option<Instr> {
    match code
    case 0xa9 | 0xa5 | 0xb5 | 0xad | 0xbd | 0xb9 | 0xa1 | 0xb1 => Some(Lda)
    case 0x85 | 0x95 | 0x8d | 0x9d | 0x99 | 0x81 | 0x91 => Some(Sta)
    case 0xd8 => Some(ClearFlag(DecimalMode))
    case 0x58 => Some(ClearFlag(InterruptDisable))
    case 0xb8 => Some(ClearFlag(Overflow))
    case 0x18 => Some(ClearFlag(Carry))
    case 0x38 => Some(SetFlag(Carry))
    case 0x78 => Some(SetFlag(InterruptDisable))
    case 0xf8 => Some(SetFlag(DecimalMode))
    case 0xaa => Some(Tax)
    case 0xe8 => Some(Inx)
    case 0x00 => Some(Brk)
    case 0x48 => Some(Pha)
    case 0x68 => Some(Pla)
    case 0x08 => Some(Php)
    case 0x28 => Some(Plp)
    case 0xea => Some(Nop)
    case 0x69 | 0x65 | 0x75 | 0x6d | 0x7d | 0x79 | 0x61 | 0x71 => Some(Adc)
    case 0xe9 | 0xe5 | 0xf5 | 0xed | 0xfd | 0xf9 | 0xe1 | 0xf1 => Some(Sbc)
    case 0x29 | 0x25 | 0x35 | 0x2d | 0x3d | 0x39 | 0x21 | 0x31 => Some(And)
    case 0x49 | 0x45 | 0x55 | 0x4d | 0x5d | 0x59 | 0x41 | 0x51 => Some(Eor)
    case 0x09 | 0x05 | 0x15 | 0x0d | 0x1d | 0x19 | 0x01 | 0x11 => Some(Ora)
    case 0x0a => Some(AslAcc)
    case 0x06 | 0x16 | 0x0e | 0x1e => Some(Asl)
    case 0x4a => Some(LsrAcc)
    case 0x46 | 0x56 | 0x4e | 0x5e => Some(Lsr)
    case 0x2a => Some(RolAcc)
    case 0x26 | 0x36 | 0x2e | 0x3e => Some(Rol)
    case 0x6a => Some(RorAcc)
    case 0x66 | 0x76 | 0x6e | 0x7e => Some(Ror)
    case 0xe6 | 0xf6 | 0xee | 0xfe => Some(Inc)
    case 0xc8 => Some(Iny)
    case 0xc6 | 0xd6 | 0xce | 0xde => Some(Dec)
    case 0xca => Some(Dex)
    case 0x88 => Some(Dey)
    case 0xc9 | 0xc5 | 0xd5 | 0xcd | 0xdd | 0xd9 | 0xc1 | 0xd1 => Some(Compare(RegA))
    case 0xc0 | 0xc4 | 0xcc => Some(Compare(RegY))
    case 0xe0 | 0xe4 | 0xec => Some(Compare(RegX))
    case 0x4c => Some(Jmp)
    case 0x6c => Some(JmpIndirect)
    case 0x20 => Some(Jsr)
    case 0x60 => Some(Rts)
    case 0x40 => Some(Rti)
    case 0xd0 => Some(Branch(Zero, false))
    case 0x70 => Some(Branch(Overflow, true))
    case 0x50 => Some(Branch(Overflow, false))
    case 0x10 => Some(Branch(Negative, false))
    case 0x30 => Some(Branch(Negative, true))
    case 0xf0 => Some(Branch(Zero, true))
    case 0xb0 => Some(Branch(Carry, true))
    case 0x90 => Some(Branch(Carry, false))
    case 0x24 | 0x2c => Some(Bit)
    case 0xa2 | 0xa6 | 0xb6 | 0xae | 0xbe => Some(Ldx)
    case 0xa0 | 0xa4 | 0xb4 | 0xac | 0xbc => Some(Ldy)
    case 0x86 | 0x96 | 0x8e => Some(Stx)
    case 0x84 | 0x94 | 0x8c => Some(Sty)
    case 0xa8 => Some(Tay)
    case 0xba => Some(Tsx)
    case 0x8a => Some(Txa)
    case 0x9a => Some(Txs)
    case 0x98 => Some(Tya)
    case _ => None
  }

  /** BRK, which ends the run loop, is the byte 0x00 and no other. */
  lemma BrkOnlyAtZero(code: bv8)
    ensures Decode(code) == Some(Brk) <==> code == 0x00
  {
  }

  /** The bytes whose low five bits are 0x10 are the eight branches. */
  lemma BranchColumn(code: bv8)
    requires code & 0x1F == 0x10
    ensures Decode(code).Some? && Decode(code).value.Branch?
  {
    BranchCodes(code);
    if code in {0x10, 0x30, 0x50, 0x70} {
      LowBranches(code);
    } else {
      HighBranches(code);
    }
  }

  lemma BranchCodes(code: bv8)
    requires code & 0x1F == 0x10
    ensures code in {0x10, 0x30, 0x50, 0x70, 0x90, 0xb0, 0xd0, 0xf0}
  {
  }

  lemma LowBranches(code: bv8)
    requires code in {0x10, 0x30, 0x50, 0x70}
    ensures Decode(code).Some? && Decode(code).value.Branch?
  {
    if code == 0x10 {
      assert Decode(code) == Some(Branch(Negative, false));
    } else if code == 0x30 {
      assert Decode(code) == Some(Branch(Negative, true));
    } else if code == 0x50 {
      assert Decode(code) == Some(Branch(Overflow, false));
    } else {
      assert Decode(code) == Some(Branch(Overflow, true));
    }
  }

  lemma HighBranches(code: bv8)
    requires code in {0x90, 0xb0, 0xd0, 0xf0}
    ensures Decode(code).Some? && Decode(code).value.Branch?
  {
    if code == 0x90 {
      assert Decode(code) == Some(Branch(Carry, false));
    } else if code == 0xb0 {
      assert Decode(code) == Some(Branch(Carry, true));
    } else if code == 0xd0 {
      assert Decode(code) == Some(Branch(Zero, false));
    } else {
      assert Decode(code) == Some(Branch(Zero, true));
    }
  }

  /**
   * The extra cycle for a crossed page falls only on handlers that read
   * their operand (loads, arithmetic, logic, CMP), never on a store or a
   * read-modify-write instruction.
   */
  lemma PenaltyOnlyOnReads(code: bv8)
    requires HasPageCrossPenalty(code)
    ensures Decode(code).Some?
    ensures Decode(code).value in {Lda, Ldx, Ldy, Adc, Sbc, And, Eor, Ora, Compare(RegA)}
  {
    if code in {0xbd, 0xb9, 0xb1, 0xbe, 0xbc} {
      LoadPenalties(code);
    } else if code in {0x7d, 0x79, 0x71, 0xfd, 0xf9, 0xf1, 0xdd, 0xd9, 0xd1} {
      ArithmeticPenalties(code);
    } else {
      LogicPenalties(code);
    }
  }

  lemma LoadPenalties(code: bv8)
    requires code in {0xbd, 0xb9, 0xb1, 0xbe, 0xbc}
    ensures Decode(code).Some? && Decode(code).value in {Lda, Ldx, Ldy, Adc, Sbc, And, Eor, Ora, Compare(RegA)}
  {
    if code == 0xbd || code == 0xb9 || code == 0xb1 {
      assert Decode(code) == Some(Lda);
    } else if code == 0xbe {
      assert Decode(code) == Some(Ldx);
    } else {
      assert Decode(code) == Some(Ldy);
    }
  }

  lemma ArithmeticPenalties(code: bv8)
    requires code in {0x7d, 0x79, 0x71, 0xfd, 0xf9, 0xf1, 0xdd, 0xd9, 0xd1}
    ensures Decode(code).Some? && Decode(code).value in {Lda, Ldx, Ldy, Adc, Sbc, And, Eor, Ora, Compare(RegA)}
  {
    if code == 0x7d || code == 0x79 || code == 0x71 {
      assert Decode(code) == Some(Adc);
    } else if code == 0xfd || code == 0xf9 || code == 0xf1 {
      assert Decode(code) == Some(Sbc);
    } else {
      assert Decode(code) == Some(Compare(RegA));
    }
  }

  lemma LogicPenalties(code: bv8)
    requires code in {0x3d, 0x39, 0x31, 0x5d, 0x59, 0x51, 0x1d, 0x19, 0x11}
    ensures Decode(code).Some? && Decode(code).value in {Lda, Ldx, Ldy, Adc, Sbc, And, Eor, Ora, Compare(RegA)}
  {
    if code == 0x3d || code == 0x39 || code == 0x31 {
      assert Decode(code) == Some(And);
    } else if code == 0x5d || code == 0x59 || code == 0x51 {
      assert Decode(code) == Some(Eor);
    } else {
      assert Decode(code) == Some(Ora);
    }
  }

  /**
   * What the run loop needs from an opcode table: each entry's length is at
   * least 1 (the loop subtracts 1 from it) and a byte whose handler resolves
   * an operand address has a real addressing mode (`get_operand_address`
   * panics on `NoneAddressing`).
   */
  ghost predicate WellFormed(table: bv8 -> Option<OpCode>) {
    forall c: bv8 :: table(c).Some? ==>
      && table(c).value.len >= 1
      && (Decode(c).Some? && NeedsAddress(Decode(c).value) ==> table(c).value.mode != NoneAddressing)
  }

  /**
   * Each entry of `CPU_OPS_CODES` has a handler, its length is at least 1,
   * and it has an addressing mode where the handler needs one.
   */
  lemma EntryHandled(i: nat)
    requires i < |CpuOpsCodes|
    ensures var op := CpuOpsCodes[i];
      && Decode(op.code).Some? && op.len >= 1
      && (NeedsAddress(Decode(op.code).value) ==> op.mode != NoneAddressing)
  {
    if i < 6 {
      ImpliedAndLoadHandled(i);
    } else if i < 12 {
      IndexedLoadHandled(i);
    } else {
      StoreHandled(i);
    }
  }

  lemma ImpliedAndLoadHandled(i: nat)
    requires i < 6
    ensures var op := CpuOpsCodes[i];
      && Decode(op.code).Some? && op.len >= 1
      && (NeedsAddress(Decode(op.code).value) ==> op.mode != NoneAddressing)
  {
    match i
    case 0 => case 1 => case 2 => case 3 => case 4 => case 5 =>
  }

  lemma IndexedLoadHandled(i: nat)
    requires 6 <= i < 12
    ensures var op := CpuOpsCodes[i];
      && Decode(op.code).Some? && op.len >= 1
      && (NeedsAddress(Decode(op.code).value) ==> op.mode != NoneAddressing)
  {
    match i
    case 6 => case 7 => case 8 => case 9 => case 10 => case 11 =>
  }

  lemma StoreHandled(i: nat)
    requires 12 <= i < 18
    ensures var op := CpuOpsCodes[i];
      && Decode(op.code).Some? && op.len >= 1
      && (NeedsAddress(Decode(op.code).value) ==> op.mode != NoneAddressing)
  {
    match i
    case 12 => case 13 => case 14 => case 15 => case 16 => case 17 =>
  }

  /** The handler the run loop selects for each entry is the one the entry's mnemonic names. */
  lemma EntryMnemonic(i: nat)
    requires i < |CpuOpsCodes|
    ensures Decode(CpuOpsCodes[i].code).Some?
    ensures Mnemonic(Decode(CpuOpsCodes[i].code).value) == CpuOpsCodes[i].mnemonic
  {
    if i < 6 {
      ImpliedAndLoadMnemonics(i);
    } else if i < 12 {
      IndexedLoadMnemonics(i);
    } else {
      StoreMnemonics(i);
    }
  }

  lemma ImpliedAndLoadMnemonics(i: nat)
    requires i < 6
    ensures Decode(CpuOpsCodes[i].code).Some?
    ensures Mnemonic(Decode(CpuOpsCodes[i].code).value) == CpuOpsCodes[i].mnemonic
  {
    match i
    case 0 => case 1 => case 2 => case 3 => case 4 => case 5 =>
  }

  lemma IndexedLoadMnemonics(i: nat)
    requires 6 <= i < 12
    ensures Decode(CpuOpsCodes[i].code).Some?
    ensures Mnemonic(Decode(CpuOpsCodes[i].code).value) == CpuOpsCodes[i].mnemonic
  {
    match i
    case 6 => case 7 => case 8 => case 9 => case 10 => case 11 =>
  }

  lemma StoreMnemonics(i: nat)
    requires 12 <= i < 18
    ensures Decode(CpuOpsCodes[i].code).Some?
    ensures Mnemonic(Decode(CpuOpsCodes[i].code).value) == CpuOpsCodes[i].mnemonic
  {
    match i
    case 12 => case 13 => case 14 => case 15 => case 16 => case 17 =>
  }

  /** Every entry of `OPCODES_MAP` has a handler, and the map is a well-formed table. */
  lemma OpcodesMapWellFormed()
    ensures WellFormed(OpcodesMap)
    ensures forall c: bv8 :: OpcodesMap(c).Some? ==> Decode(c).Some?
  {
    forall c: bv8 | OpcodesMap(c).Some?
      ensures OpcodesMap(c).value.len >= 1 && Decode(c).Some?
      ensures NeedsAddress(Decode(c).value) ==> OpcodesMap(c).value.mode != NoneAddressing
    {
      var i :| 0 <= i < |CpuOpsCodes| && CpuOpsCodes[i].code == c;
      OpcodesMapFindsEveryEntry(i);
      EntryHandled(i);
    }
  }
}
