/**
 * The opcode table of `src/opcodes.rs`: a constant list of instruction
 * descriptions and the map from opcode byte to description built from it.
 */
module Opcodes {
  import opened Wrappers
  import opened Addressing

  /** One instruction encoding: its byte, mnemonic, length in bytes, base cycle cost and addressing mode. */
  datatype OpCode = OpCode(code: bv8, mnemonic: string, len: bv8, cycles: bv8, mode: AddressingMode)

  /** `CPU_OPS_CODES`. */
  const CpuOpsCodes: seq<OpCode> := [
    OpCode(0x00, "BRK", 1, 7, NoneAddressing),
    OpCode(0xaa, "TAX", 1, 2, NoneAddressing),
    OpCode(0xe8, "INX", 1, 2, NoneAddressing),

    OpCode(0xa9, "LDA", 2, 2, Immediate),
    OpCode(0xa5, "LDA", 2, 3, ZeroPage),
    OpCode(0xb5, "LDA", 2, 4, ZeroPageX),
    OpCode(0xad, "LDA", 3, 4, Absolute),
    OpCode(0xbd, "LDA", 3, 4, AbsoluteX),
    OpCode(0xb9, "LDA", 3, 4, AbsoluteY),
    OpCode(0xa1, "LDA", 2, 6, IndirectX),
    OpCode(0xb1, "LDA", 2, 5, IndirectY),

    OpCode(0x85, "STA", 2, 3, ZeroPage),
    OpCode(0x95, "STA", 2, 4, ZeroPageX),
    OpCode(0x8d, "STA", 3, 4, Absolute),
    OpCode(0x9d, "STA", 3, 5, AbsoluteX),
    OpCode(0x99, "STA", 3, 5, AbsoluteY),
    OpCode(0x81, "STA", 2, 6, IndirectX),
    OpCode(0x91, "STA", 2, 6, IndirectY)
  ]

  /**
   * The map after inserting the first `n` entries of `ops` in order, seen as
   * a lookup: an entry replaces any earlier one with the same code, as
   * `HashMap::insert` does, so a code finds the last inserted entry that
   * carries it.
   */
  function BuildMap(ops: seq<OpCode>, n: nat, code: bv8): (r: Option<OpCode>)
    requires n <= |ops|
    // a code has an entry exactly when one of the inserted entries carries it
    ensures r.Some? <==> exists i :: 0 <= i < n && ops[i].code == code
    // the entry found is one of the inserted descriptions, stored under its own code
    ensures r.Some? ==> r.value.code == code && r.value in ops[..n]
  {
    if n == 0 then None
    else if ops[n - 1].code == code then Some(ops[n - 1])
    else
      var r := BuildMap(ops, n - 1, code);
      assert r.Some? ==> r.value in ops[..n];
      r
  }

  /** No two entries share a code. */
  predicate DistinctCodes(ops: seq<OpCode>) {
    forall i, j :: 0 <= i < j < |ops| ==> ops[i].code != ops[j].code
  }

  /** With distinct codes nothing is overwritten: every inserted entry is found under its code. */
  lemma {:induction false} BuildMapKeepsAll(ops: seq<OpCode>, n: nat, i: nat)
    requires DistinctCodes(ops) && i < n <= |ops|
    ensures BuildMap(ops, n, ops[i].code) == Some(ops[i])
  {
    if i < n - 1 {
      BuildMapKeepsAll(ops, n - 1, i);
    }
  }

  /** The position of each code in `CpuOpsCodes`; a witness that no code occurs twice. */
  function TablePosition(code: bv8): int {
    match code
    case 0x00 => 0 case 0xaa => 1 case 0xe8 => 2
    case 0xa9 => 3 case 0xa5 => 4 case 0xb5 => 5 case 0xad => 6
    case 0xbd => 7 case 0xb9 => 8 case 0xa1 => 9 case 0xb1 => 10
    case 0x85 => 11 case 0x95 => 12 case 0x8d => 13 case 0x9d => 14
    case 0x99 => 15 case 0x81 => 16 case 0x91 => 17
    case _ => -1
  }

  /** The codes in `CPU_OPS_CODES` are pairwise distinct. */
  lemma CpuOpsCodesDistinct()
    ensures DistinctCodes(CpuOpsCodes)
  {
    forall i | 0 <= i < |CpuOpsCodes|
      ensures TablePosition(CpuOpsCodes[i].code) == i
    {
      if i < 9 {
        FirstPositions(i);
      } else {
        LastPositions(i);
      }
    }
  }

  lemma FirstPositions(i: nat)
    requires i < 9
    ensures TablePosition(CpuOpsCodes[i].code) == i
  {
    match i
    case 0 => case 1 => case 2 => case 3 => case 4 => case 5 => case 6 => case 7 => case 8 =>
  }

  lemma LastPositions(i: nat)
    requires 9 <= i < 18
    ensures TablePosition(CpuOpsCodes[i].code) == i
  {
    match i
    case 9 => case 10 => case 11 => case 12 => case 13 => case 14 => case 15 => case 16 => case 17 =>
  }

  /** `OPCODES_MAP.get(&code)`: the description of a byte, or none for a byte not in the table. */
  function OpcodesMap(code: bv8): (r: Option<OpCode>)
    ensures r.Some? ==> r.value.code == code
    ensures r.None? <==> forall i :: 0 <= i < |CpuOpsCodes| ==> CpuOpsCodes[i].code != code
  {
    BuildMap(CpuOpsCodes, |CpuOpsCodes|, code)
  }

  /** Every entry of `CPU_OPS_CODES` is found under its own code. */
  lemma OpcodesMapFindsEveryEntry(i: nat)
    requires i < |CpuOpsCodes|
    ensures OpcodesMap(CpuOpsCodes[i].code) == Some(CpuOpsCodes[i])
  {
    CpuOpsCodesDistinct();
    BuildMapKeepsAll(CpuOpsCodes, |CpuOpsCodes|, i);
  }

  /** The instruction length each addressing mode implies: the opcode plus its operand bytes. */
  function ModeLength(mode: AddressingMode): bv8 {
    match mode
    case NoneAddressing => 1
    case Immediate | ZeroPage | ZeroPageX | ZeroPageY | IndirectX | IndirectY => 2
    case Absolute | AbsoluteX | AbsoluteY => 3
  }

  /** Every entry's length agrees with its addressing mode. */
  lemma LengthMatchesMode()
    ensures forall i :: 0 <= i < |CpuOpsCodes| ==> CpuOpsCodes[i].len == ModeLength(CpuOpsCodes[i].mode)
  {
  }
}
