/**
 * The memory map of the current CPU engine (`impl Mem for CPU` in
 * crates/res-core/src/cpu.rs): 0x4000-0x4017 go to the APU register stub,
 * 0x2000-0x3FFF to the eight PPU registers (mirrored every 8 bytes),
 * 0x8000-0xFFFF to the cartridge's PRG-ROM when one is loaded, and every
 * other address to the 64 KB RAM array.
 */
module CpuBus {
  import opened Wrappers
  import opened Bytes
  import Mapper
  import ApuStub
  import PpuCore

  const MEMORY_SIZE: nat := 0x10000

  /**
   * Everything behind the CPU's address lines: the RAM array, the APU
   * registers, the PPU, and the PRG-ROM of the NROM mapper when a cartridge
   * is loaded.
   */
  datatype Bus = Bus(ram: seq<bv8>, apu: seq<bv8>, ppu: PpuCore.PpuState, prg: Option<seq<bv8>>)
  {
    predicate Valid() {
      && |ram| == MEMORY_SIZE && |apu| == ApuStub.REGISTER_COUNT && ppu.Valid()
      && (prg.Some? ==> Mapper.ValidPrgSize(|prg.value|))
    }
  }

  /** The device an address selects, in the order the `match addr` arms test them. */
  datatype Region = ApuRegisters | PpuRegisters(reg: bv16) | Cartridge | Ram

  /** The region of an address; a PPU address selects register 0x2000 + (addr - 0x2000) % 8. */
  function RegionOf(addr: bv16): (r: Region)
    ensures r.ApuRegisters? <==> 0x4000 <= addr <= 0x4017
    ensures r.PpuRegisters? <==> 0x2000 <= addr <= 0x3FFF
    ensures r.Cartridge? <==> addr >= 0x8000
    ensures r.PpuRegisters? ==> PpuCore.PPU_CTRL <= r.reg <= PpuCore.PPU_DATA
  {
    if 0x4000 <= addr <= 0x4017 then ApuRegisters
    else if 0x2000 <= addr <= 0x3FFF then PpuRegisters(0x2000 + (addr - 0x2000) % 8)
    else if addr >= 0x8000 then Cartridge
    else Ram
  }

  /** An address that reads and writes the RAM array: plain RAM, or the upper half with no cartridge. */
  predicate IsMemory(b: Bus, addr: bv16) {
    RegionOf(addr).Ram? || (RegionOf(addr).Cartridge? && b.prg.None?)
  }

  /**
   * `mem_read`: the byte and the bus afterwards. Only a PPU register read
   * changes anything (PPUSTATUS clears its latches, PPUDATA moves its
   * buffer and address).
   */
  function Read(b: Bus, addr: bv16): (r: (bv8, Bus))
    requires b.Valid()
    ensures r.1.Valid()
    ensures !RegionOf(addr).PpuRegisters? ==> r.1 == b
    ensures r.1 == b.(ppu := r.1.ppu)
  {
    match RegionOf(addr)
    case ApuRegisters => (ApuStub.ReadRegister(b.apu, addr), b)
    case PpuRegisters(reg) =>
      var (v, ppu) := PpuCore.ReadRegister(b.ppu, reg);
      (v, b.(ppu := ppu))
    case Cartridge => (if b.prg.Some? then Mapper.PrgRead(b.prg.value, addr).value else b.ram[addr as int], b)
    case Ram => (b.ram[addr as int], b)
  }

  /** The byte a read returns, without its effect on the PPU. */
  function Peek(b: Bus, addr: bv16): bv8
    requires b.Valid()
  {
    Read(b, addr).0
  }

  /** `mem_write`: with a cartridge, writes to 0x8000-0xFFFF are claimed by the mapper and dropped. */
  function Write(b: Bus, addr: bv16, data: bv8): (r: Bus)
    requires b.Valid()
    ensures r.Valid()
    ensures r.prg == b.prg
  {
    match RegionOf(addr)
    case ApuRegisters => b.(apu := ApuStub.WriteRegister(b.apu, addr, data))
    case PpuRegisters(reg) => b.(ppu := PpuCore.WriteRegister(b.ppu, reg, data))
    case Cartridge => if b.prg.Some? then b else b.(ram := b.ram[addr as int := data])
    case Ram => b.(ram := b.ram[addr as int := data])
  }

  /** The byte a read returns, region by region. */
  lemma PeekRegions(b: Bus, addr: bv16)
    requires b.Valid()
    ensures RegionOf(addr).ApuRegisters? ==> Peek(b, addr) == ApuStub.ReadRegister(b.apu, addr)
    ensures RegionOf(addr).PpuRegisters? ==> Peek(b, addr) == PpuCore.ReadRegister(b.ppu, RegionOf(addr).reg).0
    ensures RegionOf(addr).Cartridge? && b.prg.Some? ==> Peek(b, addr) == Mapper.PrgRead(b.prg.value, addr).value
    ensures IsMemory(b, addr) ==> Peek(b, addr) == b.ram[addr as int]
  {
  }

  /** `mem_read_u16`: little-endian, the second byte at `pos + 1` wrapping from 0xFFFF to 0x0000. */
  function ReadWord(b: Bus, pos: bv16): (w: bv16)
    requires b.Valid()
    ensures Lo(w) == Peek(b, pos) && Hi(w) == Peek(b, pos + 1)
  {
    Word(Peek(b, pos), Peek(b, pos + 1))
  }

  /** `mem_write_u16`: the low byte at `pos`, then the high byte at `pos + 1` (wrapping). */
  function WriteWord(b: Bus, pos: bv16, data: bv16): (r: Bus)
    requires b.Valid()
    ensures r.Valid()
  {
    Write(Write(b, pos, Lo(data)), pos + 1, Hi(data))
  }

  /** A memory write changes exactly one RAM cell and nothing else. */
  lemma WriteMemory(b: Bus, addr: bv16, data: bv8)
    requires b.Valid() && IsMemory(b, addr)
    ensures Write(b, addr, data) == b.(ram := b.ram[addr as int := data])
  {
  }

  /** A memory read returns the RAM cell and changes nothing. */
  lemma ReadMemory(b: Bus, addr: bv16)
    requires b.Valid() && IsMemory(b, addr)
    ensures Read(b, addr) == (b.ram[addr as int], b)
  {
  }

  /** A byte written to memory reads back, and every other memory address keeps its byte. */
  lemma MemoryWriteThenRead(b: Bus, addr: bv16, other: bv16, data: bv8)
    requires b.Valid() && IsMemory(b, addr) && IsMemory(b, other)
    ensures Peek(Write(b, addr, data), addr) == data
    ensures other != addr ==> Peek(Write(b, addr, data), other) == Peek(b, other)
  {
    WriteMemory(b, addr, data);
    UpdatedCell(b, Write(b, addr, data), addr, other, data);
  }

  /** A RAM update seen through `Peek`: the written address reads the new byte, the others keep theirs. */
  lemma UpdatedCell(b: Bus, c: Bus, addr: bv16, other: bv16, data: bv8)
    requires b.Valid() && IsMemory(b, addr) && IsMemory(b, other)
    requires c == b.(ram := b.ram[addr as int := data])
    ensures Peek(c, addr) == data
    ensures other != addr ==> Peek(c, other) == Peek(b, other)
  {
    assert c.Valid() && c.prg == b.prg;
    PeekMemory(c, addr);
    if other != addr {
      CellUpdate(b.ram, addr, other, data);
      PeekMemory(c, other);
      PeekMemory(b, other);
    }
  }

  /** `ReadMemory` for the byte alone. */
  lemma PeekMemory(b: Bus, addr: bv16)
    requires b.Valid() && IsMemory(b, addr)
    ensures Peek(b, addr) == b.ram[addr as int]
  {
    ReadMemory(b, addr);
  }

  /** Updating the RAM cell of one address leaves the cell of every other address. */
  lemma CellUpdate(ram: seq<bv8>, addr: bv16, other: bv16, data: bv8)
    requires |ram| == MEMORY_SIZE && addr != other
    ensures ram[addr as int := data][other as int] == ram[other as int]
  {
    IndexInjective(addr, other);
  }

  /** A memory write leaves the byte every other address reads, whatever device that address selects. */
  lemma MemoryWriteKeepsOthers(b: Bus, addr: bv16, other: bv16, data: bv8)
    requires b.Valid() && IsMemory(b, addr) && other != addr
    ensures Peek(Write(b, addr, data), other) == Peek(b, other)
  {
    WriteMemory(b, addr, data);
    if IsMemory(b, other) {
      UpdatedCell(b, Write(b, addr, data), addr, other, data);
    }
  }

  /** A word written to memory reads back, low byte first, also across the 0xFFFF/0x0000 wrap. */
  lemma WordRoundTrip(b: Bus, pos: bv16, data: bv16)
    requires b.Valid() && IsMemory(b, pos) && IsMemory(b, pos + 1)
    ensures ReadWord(WriteWord(b, pos, data), pos) == data
  {
    var b1 := Write(b, pos, Lo(data));
    MemoryWriteThenRead(b, pos, pos + 1, Lo(data));
    assert IsMemory(b1, pos) && IsMemory(b1, pos + 1);
    MemoryWriteThenRead(b1, pos + 1, pos, Hi(data));
    assert pos + 1 != pos;
    WordOfBytes(data);
  }

  /** An address from 0x2000 to 0x3FFF selects the PPU register with the same three low bits. */
  lemma PpuRegisterMirror(addr: bv16)
    requires 0x2000 <= addr <= 0x3FFF
    ensures RegionOf(addr) == PpuRegisters(0x2000 | (addr & 7))
  {
  }

  /** The APU registers, the PPU and the RAM are separate: a write to one leaves the others as they were. */
  lemma DevicesAreSeparate(b: Bus, addr: bv16, data: bv8)
    requires b.Valid()
    ensures RegionOf(addr).ApuRegisters? ==> Write(b, addr, data) == b.(apu := Write(b, addr, data).apu)
    ensures RegionOf(addr).PpuRegisters? ==> Write(b, addr, data) == b.(ppu := Write(b, addr, data).ppu)
    ensures IsMemory(b, addr) ==> Write(b, addr, data) == b.(ram := Write(b, addr, data).ram)
  {
  }

  /**
   * Through the bus, the APU status register 0x4015 reads back the byte
   * written to it, and the other APU registers read 0.
   */
  lemma ApuThroughBus(b: Bus, addr: bv16, data: bv8)
    requires b.Valid() && 0x4000 <= addr <= 0x4017
    ensures Peek(Write(b, addr, data), addr) == if addr == ApuStub.APU_STATUS then data else 0
  {
    ApuStub.StatusReadBack(b.apu, addr, data);
  }

  /** With a cartridge, the upper half reads PRG-ROM and ignores writes. */
  lemma CartridgeReadOnly(b: Bus, addr: bv16, data: bv8)
    requires b.Valid() && b.prg.Some? && addr >= 0x8000
    ensures Peek(b, addr) == Mapper.PrgRead(b.prg.value, addr).value
    ensures Write(b, addr, data) == b
  {
  }
}
