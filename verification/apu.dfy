/**
 * The APU register stub of `crates/res-core/src/apu.rs`: 0x18 bytes behind
 * CPU addresses 0x4000-0x4017. Every register takes writes; only the status
 * register 0x4015 reads back, all others read as 0.
 */
module ApuStub {
  const REGISTER_COUNT: nat := 0x18
  const APU_STATUS: bv16 := 0x4015

  /** `is_apu_register`. */
  predicate IsApuRegister(addr: bv16) {
    0x4000 <= addr as int <= 0x4017
  }

  /** The register file after `write_register`: only index addr - 0x4000 changes, and only inside the range. */
  function WriteRegister(regs: seq<bv8>, addr: bv16, data: bv8): (r: seq<bv8>)
    requires |regs| == REGISTER_COUNT
    ensures |r| == REGISTER_COUNT
    ensures IsApuRegister(addr) ==> r[addr as int - 0x4000] == data
    ensures forall i :: 0 <= i < REGISTER_COUNT && i != addr as int - 0x4000 ==> r[i] == regs[i]
    ensures !IsApuRegister(addr) ==> r == regs
  {
    if IsApuRegister(addr) then regs[addr as int - 0x4000 := data] else regs
  }

  /** `read_register`: 0 outside the range and for every register but the status register. */
  function ReadRegister(regs: seq<bv8>, addr: bv16): (v: bv8)
    requires |regs| == REGISTER_COUNT
    ensures addr != APU_STATUS ==> v == 0
    ensures addr == APU_STATUS ==> v == regs[0x15]
  {
    if !IsApuRegister(addr) then 0
    else if addr == APU_STATUS then regs[addr as int - 0x4000]
    else 0
  }

  /** The status register reads back the last byte written to it; writes elsewhere do not disturb it. */
  lemma StatusReadBack(regs: seq<bv8>, addr: bv16, data: bv8)
    requires |regs| == REGISTER_COUNT
    ensures ReadRegister(WriteRegister(regs, APU_STATUS, data), APU_STATUS) == data
    ensures addr != APU_STATUS ==> ReadRegister(WriteRegister(regs, addr, data), APU_STATUS) == ReadRegister(regs, APU_STATUS)
  {
    if addr != APU_STATUS && IsApuRegister(addr) {
      assert addr as int - 0x4000 != 0x15;
    }
  }

  /** The APU as the CPU owns it: a fixed register array updated in place. */
  class Apu {
    const registers: array<bv8>

    ghost predicate Valid()
      reads this
    {
      registers.Length == REGISTER_COUNT
    }

    /** `Apu::new`: every register 0. */
    constructor ()
      ensures Valid() && fresh(registers)
      ensures registers[..] == seq(REGISTER_COUNT, _ => 0)
    {
      registers := new bv8[REGISTER_COUNT](_ => 0);
    }

    /** `write_register`. */
    method Write(addr: bv16, data: bv8)
      requires Valid()
      modifies registers
      ensures registers[..] == WriteRegister(old(registers[..]), addr, data)
    {
      if IsApuRegister(addr) {
        registers[addr as int - 0x4000] := data;
      }
    }

    /** `read_register`. */
    function Read(addr: bv16): (v: bv8)
      requires Valid()
      reads this, registers
      ensures v == ReadRegister(registers[..], addr)
    {
      if !IsApuRegister(addr) then 0
      else if addr == APU_STATUS then registers[addr as int - 0x4000]
      else 0
    }
  }
}
