/**
 * The PPU register interface of `src/ppu.rs`: the eight CPU-visible
 * registers 0x2000-0x2007, the two-write PPUADDR and PPUSCROLL latches, the
 * one-read-delayed PPUDATA buffer with its auto-increment, and the PPU's own
 * address space (CHR at 0x0000-0x1FFF reads as 0, nametables at
 * 0x2000-0x2FFF mirrored again at 0x3000-0x3EFF, palette at 0x3F00-0x3FFF).
 */
module PpuCore {
  import Rom

  const PPU_CTRL: bv16 := 0x2000
  const PPU_MASK: bv16 := 0x2001
  const PPU_STATUS: bv16 := 0x2002
  const PPU_OAM_ADDR: bv16 := 0x2003
  const PPU_OAM_DATA: bv16 := 0x2004
  const PPU_SCROLL: bv16 := 0x2005
  const PPU_ADDR: bv16 := 0x2006
  const PPU_DATA: bv16 := 0x2007

  const VRAM_SIZE: nat := 2048
  const PALETTE_SIZE: nat := 32
  const OAM_SIZE: nat := 256

  /** The fields of `Ppu`. */
  datatype PpuState = PpuState(
    ctrl: bv8, mask: bv8, status: bv8, oamAddr: bv8,
    addrLatch: bool, scrollLatch: bool,
    vramAddr: bv16, tempVramAddr: bv16, readBuffer: bv8,
    vram: seq<bv8>, palette: seq<bv8>, oam: seq<bv8>,
    mirroring: Rom.Mirroring)
  {
    /** The three memories have the sizes of the source's fixed arrays. */
    predicate Valid() {
      |vram| == VRAM_SIZE && |palette| == PALETTE_SIZE && |oam| == OAM_SIZE
    }
  }

  /** `Ppu::new`: every register, latch and memory cleared. */
  function NewPpu(mirroring: Rom.Mirroring): (s: PpuState)
    ensures s.Valid() && s.mirroring == mirroring
    ensures !s.addrLatch && !s.scrollLatch && s.vramAddr == 0 && s.readBuffer == 0
  {
    PpuState(0, 0, 0, 0, false, false, 0, 0, 0,
             seq(VRAM_SIZE, _ => 0), seq(PALETTE_SIZE, _ => 0), seq(OAM_SIZE, _ => 0), mirroring)
  }

  /** Which of the two physical nametables a logical nametable (0-3) uses. */
  function PhysicalTable(mirroring: Rom.Mirroring, table: int): int {
    match mirroring
    case Horizontal => if table == 0 || table == 1 then 0 else 1
    case Vertical => if table == 0 || table == 2 then 0 else 1
    case FourScreen => if table == 0 || table == 2 then 0 else 1
  }

  /**
   * `mirror_vram_addr`: the VRAM cell behind a nametable address. The offset
   * inside the 1 KB table is kept; horizontal mirroring pairs tables 0/1 and
   * 2/3, vertical (and four-screen, which has no extra memory here) pairs
   * 0/2 and 1/3.
   */
  function MirrorVramAddr(mirroring: Rom.Mirroring, addr: int): (r: nat)
    requires 0x2000 <= addr < 0x3000
    ensures r < VRAM_SIZE
  {
    var index := addr - 0x2000;
    PhysicalTable(mirroring, index / 0x400) * 0x400 + index % 0x400
  }

  /** The cell keeps the offset inside the table; the table is the logical one halved (horizontal) or taken mod 2. */
  lemma MirrorVramLayout(mirroring: Rom.Mirroring, addr: int)
    requires 0x2000 <= addr < 0x3000
    ensures MirrorVramAddr(mirroring, addr) % 0x400 == (addr - 0x2000) % 0x400
    ensures mirroring.Horizontal? ==> MirrorVramAddr(mirroring, addr) / 0x400 == (addr - 0x2000) / 0x400 / 2
    ensures !mirroring.Horizontal? ==> MirrorVramAddr(mirroring, addr) / 0x400 == (addr - 0x2000) / 0x400 % 2
  {
  }

  /**
   * Two nametable addresses share a VRAM cell exactly when they have the same
   * offset and their tables are paired by the mirroring.
   */
  lemma {:induction false} NametablesShare(mirroring: Rom.Mirroring, a: int, b: int)
    requires 0x2000 <= a < 0x3000 && 0x2000 <= b < 0x3000
    ensures MirrorVramAddr(mirroring, a) == MirrorVramAddr(mirroring, b) <==>
      && (a - 0x2000) % 0x400 == (b - 0x2000) % 0x400
      && (if mirroring.Horizontal? then (a - 0x2000) / 0x800 == (b - 0x2000) / 0x800
          else (a - 0x2000) / 0x400 % 2 == (b - 0x2000) / 0x400 % 2)
  {
    var ra, rb := MirrorVramAddr(mirroring, a), MirrorVramAddr(mirroring, b);
    MirrorVramLayout(mirroring, a);
    MirrorVramLayout(mirroring, b);
    assert ra == ra / 0x400 * 0x400 + ra % 0x400;
    assert rb == rb / 0x400 * 0x400 + rb % 0x400;
    assert (a - 0x2000) / 0x400 / 2 == (a - 0x2000) / 0x800;
    assert (b - 0x2000) / 0x400 / 2 == (b - 0x2000) / 0x800;
  }

  /**
   * `mirror_palette_addr`: the palette entry behind 0x3F00-0x3FFF; the 32
   * entries repeat, and 0x10/0x14/0x18/0x1C fold onto 0x00/0x04/0x08/0x0C.
   */
  function MirrorPaletteAddr(addr: int): (r: nat)
    requires 0x3F00 <= addr
    ensures r < PALETTE_SIZE
  {
    var index := (addr - 0x3F00) % 0x20;
    if index == 0x10 || index == 0x14 || index == 0x18 || index == 0x1C then index - 0x10 else index
  }

  /** No address lands on a sprite-backdrop entry; each lands on its entry of the repeating 32, or 0x10 below it. */
  lemma MirrorPaletteLayout(addr: int)
    requires 0x3F00 <= addr
    ensures var r := MirrorPaletteAddr(addr);
      && r != 0x10 && r != 0x14 && r != 0x18 && r != 0x1C
      && (r == (addr - 0x3F00) % 0x20 || r == (addr - 0x3F00) % 0x20 - 0x10)
  {
  }

  /** The sprite-backdrop entries 0x3F10/14/18/1C are the same cells as 0x3F00/04/08/0C. */
  lemma PaletteBackdropAlias(addr: int)
    requires 0x3F00 <= addr && (addr - 0x3F00) % 0x20 in {0x10, 0x14, 0x18, 0x1C}
    ensures MirrorPaletteAddr(addr) == MirrorPaletteAddr(addr - 0x10)
  {
  }

  /** `normalize_ppu_addr`: the PPU address space is 14 bits wide. */
  function NormalizePpuAddr(addr: bv16): (r: bv16)
    ensures r as int < 0x4000
  {
    Below0x4000(addr & 0x3FFF);
    addr & 0x3FFF
  }

  lemma Below0x4000(r: bv16)
    requires r & 0xC000 == 0
    ensures r as int < 0x4000
  {
  }

  /** Which memory cell a PPU address selects in `ppu_mem_read` and `ppu_mem_write`. */
  datatype Cell = NoCell | VramCell(index: nat) | PaletteCell(index: nat)

  /**
   * The address decoding shared by `ppu_mem_read` and `ppu_mem_write`:
   * 0x0000-0x1FFF (CHR) and anything above 0x3FFF select nothing,
   * 0x2000-0x2FFF a mirrored nametable cell, 0x3000-0x3EFF the cell
   * 0x1000 below, 0x3F00-0x3FFF a mirrored palette entry.
   */
  function CellOf(mirroring: Rom.Mirroring, addr: bv16): (c: Cell)
    ensures c.VramCell? ==> c.index < VRAM_SIZE
    ensures c.PaletteCell? ==> c.index < PALETTE_SIZE
    ensures c.NoCell? <==> addr as int < 0x2000 || addr as int > 0x3FFF
  {
    var a := addr as int;
    if a <= 0x1FFF then NoCell
    else if a <= 0x2FFF then VramCell(MirrorVramAddr(mirroring, a))
    else if a <= 0x3EFF then VramCell(MirrorVramAddr(mirroring, a - 0x1000))
    else if a <= 0x3FFF then PaletteCell(MirrorPaletteAddr(a))
    else NoCell
  }

  /**
   * `ppu_mem_read`: CHR and addresses above 0x3FFF read 0, nametables read
   * their mirrored VRAM cell, the palette its mirrored entry.
   */
  function MemRead(s: PpuState, addr: bv16): (v: bv8)
    requires s.Valid()
    ensures addr as int <= 0x1FFF || addr as int > 0x3FFF ==> v == 0
    ensures 0x2000 <= addr as int <= 0x2FFF ==> v == s.vram[MirrorVramAddr(s.mirroring, addr as int)]
    ensures 0x3F00 <= addr as int <= 0x3FFF ==> v == s.palette[MirrorPaletteAddr(addr as int)]
  {
    match CellOf(s.mirroring, addr)
    case NoCell => 0
    case VramCell(i) => s.vram[i]
    case PaletteCell(i) => s.palette[i]
  }

  /** `ppu_mem_write`: only nametable and palette cells take the byte. */
  function MemWrite(s: PpuState, addr: bv16, data: bv8): (t: PpuState)
    requires s.Valid()
    ensures t.Valid()
    ensures t == s.(vram := t.vram, palette := t.palette)
  {
    match CellOf(s.mirroring, addr)
    case NoCell => s
    case VramCell(i) => s.(vram := s.vram[i := data])
    case PaletteCell(i) => s.(palette := s.palette[i := data])
  }

  /** A nametable or palette write reads back; CHR addresses read 0 whatever was written. */
  lemma MemWriteThenRead(s: PpuState, addr: bv16, data: bv8)
    requires s.Valid()
    ensures 0x2000 <= addr as int <= 0x3FFF ==> MemRead(MemWrite(s, addr, data), addr) == data
    ensures addr as int <= 0x1FFF ==> MemRead(MemWrite(s, addr, data), addr) == 0
  {
    var t := MemWrite(s, addr, data);
    match CellOf(s.mirroring, addr)
    case NoCell =>
    case VramCell(i) => assert t.vram == s.vram[i := data];
    case PaletteCell(i) => assert t.palette == s.palette[i := data];
  }

  /** 0x3000-0x3EFF is the same memory as 0x2000-0x2EFF, for reads and for writes. */
  lemma UpperNametableMirror(s: PpuState, addr: bv16, data: bv8)
    requires s.Valid() && 0x3000 <= addr as int <= 0x3EFF
    ensures MemRead(s, addr) == MemRead(s, addr - 0x1000)
    ensures MemWrite(s, addr, data) == MemWrite(s, addr - 0x1000, data)
  {
    PageBelow(addr);
    assert CellOf(s.mirroring, addr) == CellOf(s.mirroring, addr - 0x1000);
  }

  lemma PageBelow(addr: bv16)
    requires 0x1000 <= addr as int
    ensures (addr - 0x1000) as int == addr as int - 0x1000
  {
  }

  /** `vram_addr_increment`: PPUCTRL bit 2 selects a step of 32 (down a column) instead of 1. */
  function VramIncrement(ctrl: bv8): bv16
  {
    if ctrl & 0x04 != 0 then 32 else 1
  }

  /** The step is 32 exactly when PPUCTRL bit 2 is set, and 1 exactly when it is clear. */
  lemma VramIncrementStep(ctrl: bv8)
    ensures VramIncrement(ctrl) == 32 <==> ctrl & 0x04 != 0
    ensures VramIncrement(ctrl) == 1 <==> ctrl & 0x04 == 0
  {
  }

  /** The address advance that follows every PPUDATA access. */
  function Advance(s: PpuState): (t: PpuState)
    requires s.Valid()
    ensures t.Valid()
  {
    s.(vramAddr := s.vramAddr + VramIncrement(s.ctrl))
  }

  /**
   * `read_ppu_data`: below the palette the byte returned is the buffered one
   * and the buffer is refilled from the address; a palette read returns at
   * once and refills the buffer from the nametable underneath (address
   * minus 0x1000). Either way the address advances.
   */
  function ReadPpuData(s: PpuState): (r: (bv8, PpuState))
    requires s.Valid()
    ensures r.1.Valid()
  {
    (DataPortValue(s), Advance(s.(readBuffer := DataPortRefill(s))))
  }

  /** The byte a PPUDATA read returns: the palette byte itself, or else the buffer. */
  function DataPortValue(s: PpuState): bv8
    requires s.Valid()
  {
    var addr := NormalizePpuAddr(s.vramAddr);
    if addr >= 0x3F00 then MemRead(s, addr) else s.readBuffer
  }

  /** The byte a PPUDATA read leaves in the buffer: the nametable byte under a palette address, or else the addressed byte. */
  function DataPortRefill(s: PpuState): bv8
    requires s.Valid()
  {
    var addr := NormalizePpuAddr(s.vramAddr);
    if addr >= 0x3F00 then MemRead(s, addr - 0x1000) else MemRead(s, addr)
  }

  /** `write_ppu_data`: store at the (14-bit) address, then advance it. */
  function WritePpuData(s: PpuState, data: bv8): (t: PpuState)
    requires s.Valid()
    ensures t.Valid()
  {
    Advance(MemWrite(s, NormalizePpuAddr(s.vramAddr), data))
  }

  /** `read_register`: only PPUSTATUS, OAMDATA and PPUDATA read anything; PPUSTATUS and PPUDATA have side effects. */
  function ReadRegister(s: PpuState, reg: bv16): (r: (bv8, PpuState))
    requires s.Valid()
    ensures r.1.Valid()
    ensures reg == PPU_OAM_DATA ==> r == (s.oam[s.oamAddr], s)
    ensures reg == PPU_DATA ==> r == ReadPpuData(s)
    ensures reg != PPU_STATUS && reg != PPU_OAM_DATA && reg != PPU_DATA ==> r == (0, s)
  {
    if reg == PPU_STATUS then
      (s.status, s.(status := s.status & 0x7F, addrLatch := false, scrollLatch := false))
    else if reg == PPU_OAM_DATA then (s.oam[s.oamAddr as int], s)
    else if reg == PPU_DATA then ReadPpuData(s)
    else (0, s)
  }

  /** The temporary address after the first PPUADDR write: the byte's low six bits in bits 8-13, bits 14-15 clear, the low byte kept. */
  function AddrHigh(prev: bv16, data: bv8): (t: bv16)
    ensures t >> 8 == (data & 0x3F) as bv16 && t & 0xFF == prev & 0xFF
  {
    (prev & 0x00FF) | (((data as bv16) & 0x3F) << 8)
  }

  /** The temporary address after the second PPUADDR write: the byte as the low byte, the high byte kept. */
  function AddrLow(prev: bv16, data: bv8): (t: bv16)
    ensures t & 0xFF == data as bv16 && t >> 8 == prev >> 8
  {
    (prev & 0xFF00) | data as bv16
  }

  /** The temporary address after the first PPUSCROLL write: coarse X (the byte's top five bits) in bits 0-4, the rest kept. */
  function ScrollX(prev: bv16, data: bv8): (t: bv16)
    ensures t & 0x1F == (data >> 3) as bv16 && (t & !0x1F) == (prev & !0x1F)
  {
    (prev & !0x001F) | ((data as bv16) >> 3)
  }

  /** The temporary address after the second PPUSCROLL write: fine Y in bits 12-14, coarse Y in bits 5-9, the rest kept. */
  function ScrollY(prev: bv16, data: bv8): (t: bv16)
    ensures (t >> 12) & 0x07 == (data & 0x07) as bv16
    ensures (t >> 5) & 0x1F == (data >> 3) as bv16
    ensures (t & !0x73E0) == (prev & !0x73E0)
  {
    (prev & !0x73E0) | (((data as bv16) & 0x07) << 12) | (((data as bv16) & 0xF8) << 2)
  }

  /** The temporary address after a PPUCTRL write: the byte's nametable bits 0-1 in bits 10-11, the rest kept. */
  function CtrlNametable(prev: bv16, data: bv8): (t: bv16)
    ensures (t >> 10) & 0x03 == (data & 0x03) as bv16 && (t & !0x0C00) == (prev & !0x0C00)
  {
    (prev & !0x0C00) | (((data as bv16) & 0x03) << 10)
  }

  /**
   * The PPUADDR write: the first sets the high six bits of the temporary
   * address, the second the low byte and copies it to the VRAM address.
   * The latch flips; nothing but the two addresses and the latch changes.
   */
  function WritePpuAddr(s: PpuState, data: bv8): (t: PpuState)
    ensures t == s.(tempVramAddr := t.tempVramAddr, vramAddr := t.vramAddr, addrLatch := !s.addrLatch)
    ensures !s.addrLatch ==> t.tempVramAddr == AddrHigh(s.tempVramAddr, data) && t.vramAddr == s.vramAddr
    ensures s.addrLatch ==> t.tempVramAddr == AddrLow(s.tempVramAddr, data) && t.vramAddr == t.tempVramAddr
  {
    if !s.addrLatch then
      s.(tempVramAddr := AddrHigh(s.tempVramAddr, data), addrLatch := true)
    else
      var a := AddrLow(s.tempVramAddr, data);
      s.(tempVramAddr := a, vramAddr := a, addrLatch := false)
  }

  /**
   * The PPUSCROLL write: the first sets coarse X, the second fine and coarse
   * Y of the temporary address. The latch flips; nothing else changes.
   */
  function WritePpuScroll(s: PpuState, data: bv8): (t: PpuState)
    ensures t == s.(tempVramAddr := t.tempVramAddr, scrollLatch := !s.scrollLatch)
    ensures t.tempVramAddr == if s.scrollLatch then ScrollY(s.tempVramAddr, data) else ScrollX(s.tempVramAddr, data)
  {
    if !s.scrollLatch then
      s.(tempVramAddr := ScrollX(s.tempVramAddr, data), scrollLatch := true)
    else
      s.(tempVramAddr := ScrollY(s.tempVramAddr, data), scrollLatch := false)
  }

  /** The PPUCTRL write: the byte, with its nametable bits copied into the temporary address. */
  function WritePpuCtrl(s: PpuState, data: bv8): (t: PpuState)
    ensures t == s.(ctrl := data, tempVramAddr := CtrlNametable(s.tempVramAddr, data))
  {
    s.(ctrl := data, tempVramAddr := CtrlNametable(s.tempVramAddr, data))
  }

  /** The OAMDATA write: store at OAMADDR, which then advances, wrapping at 256. */
  function WriteOamData(s: PpuState, data: bv8): (t: PpuState)
    requires s.Valid()
    ensures t.Valid()
    ensures t.oam[s.oamAddr] == data && t.oamAddr == s.oamAddr + 1
    ensures forall i :: 0 <= i < |s.oam| && i != s.oamAddr as int ==> t.oam[i] == s.oam[i]
  {
    s.(oam := s.oam[s.oamAddr as int := data], oamAddr := s.oamAddr + 1)
  }

  /** `write_register`. */
  function WriteRegister(s: PpuState, reg: bv16, data: bv8): (t: PpuState)
    requires s.Valid()
    ensures t.Valid()
  {
    if reg == PPU_CTRL then WritePpuCtrl(s, data)
    else if reg == PPU_MASK then s.(mask := data)
    else if reg == PPU_OAM_ADDR then s.(oamAddr := data)
    else if reg == PPU_OAM_DATA then WriteOamData(s, data)
    else if reg == PPU_SCROLL then WritePpuScroll(s, data)
    else if reg == PPU_ADDR then WritePpuAddr(s, data)
    else if reg == PPU_DATA then WritePpuData(s, data)
    else s
  }

  /** Two PPUADDR writes from a cleared latch load ((hi & 0x3F) << 8) | lo; the latch is set between them and cleared after. */
  lemma PpuAddrPair(s: PpuState, hi: bv8, lo: bv8)
    requires s.Valid() && !s.addrLatch
    ensures WriteRegister(s, PPU_ADDR, hi).addrLatch
    ensures WriteRegister(WriteRegister(s, PPU_ADDR, hi), PPU_ADDR, lo).vramAddr == (((hi & 0x3F) as bv16) << 8) | lo as bv16
    ensures !WriteRegister(WriteRegister(s, PPU_ADDR, hi), PPU_ADDR, lo).addrLatch
  {
    AddrLatchWord(s.tempVramAddr, hi, lo);
  }

  lemma AddrLatchWord(t: bv16, hi: bv8, lo: bv8)
    ensures AddrLow(AddrHigh(t, hi), lo) == (((hi & 0x3F) as bv16) << 8) | lo as bv16
  {
  }

  /** The two PPUADDR writes that point the PPU at `addr`, high byte first. */
  function SetPpuAddr(s: PpuState, addr: bv16): PpuState
    requires s.Valid()
  {
    WriteRegister(WriteRegister(s, PPU_ADDR, (addr >> 8) as bv8), PPU_ADDR, (addr & 0xFF) as bv8)
  }

  /** Pointing the PPU at an address loads its 14-bit form and touches nothing else the data port uses. */
  lemma SetPpuAddrLoads(s: PpuState, addr: bv16)
    requires s.Valid() && !s.addrLatch
    ensures SetPpuAddr(s, addr).vramAddr == addr & 0x3FFF
    ensures SetPpuAddr(s, addr) == s.(vramAddr := addr & 0x3FFF, tempVramAddr := addr & 0x3FFF)
  {
    var hi, lo := (addr >> 8) as bv8, (addr & 0xFF) as bv8;
    var s1 := WriteRegister(s, PPU_ADDR, hi);
    assert s1 == WritePpuAddr(s, hi);
    assert s1 == s.(tempVramAddr := AddrHigh(s.tempVramAddr, hi), addrLatch := true);
    var a := AddrLow(s1.tempVramAddr, lo);
    assert SetPpuAddr(s, addr) == WritePpuAddr(s1, lo);
    assert SetPpuAddr(s, addr) == s1.(tempVramAddr := a, vramAddr := a, addrLatch := false);
    AddrLatchWord(s.tempVramAddr, hi, lo);
    SplitAddress(addr);
    assert a == addr & 0x3FFF;
  }

  lemma SplitAddress(addr: bv16)
    ensures (((((addr >> 8) as bv8) & 0x3F) as bv16) << 8) | ((addr & 0xFF) as bv8) as bv16 == addr & 0x3FFF
  {
  }

  /** Reading PPUSTATUS returns it, then clears its vblank bit 7 and both write latches. */
  lemma StatusReadClears(s: PpuState)
    requires s.Valid()
    ensures ReadRegister(s, PPU_STATUS).0 == s.status
    ensures ReadRegister(s, PPU_STATUS).1.status & 0x80 == 0
    ensures ReadRegister(s, PPU_STATUS).1.status & 0x7F == s.status & 0x7F
    ensures !ReadRegister(s, PPU_STATUS).1.addrLatch && !ReadRegister(s, PPU_STATUS).1.scrollLatch
  {
    ClearBit7(s.status);
  }

  lemma ClearBit7(b: bv8)
    ensures (b & 0x7F) & 0x80 == 0 && (b & 0x7F) & 0x7F == b & 0x7F
  {
  }

  /** PPUDATA (0x2007) is the data port: reading it is `read_ppu_data`, writing it `write_ppu_data`. */
  lemma DataPort(s: PpuState, data: bv8)
    requires s.Valid()
    ensures ReadRegister(s, PPU_DATA) == ReadPpuData(s)
    ensures WriteRegister(s, PPU_DATA, data) == WritePpuData(s, data)
  {
  }

  /**
   * A PPUDATA read below the palette returns the previous buffer content and
   * refills the buffer from the address; a palette read returns the palette
   * byte itself and refills the buffer from the nametable 0x1000 below.
   * Only the buffer and the address change.
   */
  lemma PpuDataReadBuffering(s: PpuState)
    requires s.Valid()
    ensures var addr := NormalizePpuAddr(s.vramAddr);
      var (v, t) := ReadPpuData(s);
      && (addr < 0x3F00 ==> v == s.readBuffer && t.readBuffer == MemRead(s, addr))
      && (addr >= 0x3F00 ==> v == MemRead(s, addr) && t.readBuffer == MemRead(s, addr - 0x1000))
      && t == s.(readBuffer := t.readBuffer, vramAddr := t.vramAddr)
  {
  }

  /** Each PPUDATA access, read or write, advances the address by `VramIncrement` of PPUCTRL. */
  lemma PpuDataAdvances(s: PpuState, data: bv8)
    requires s.Valid()
    ensures ReadPpuData(s).1.vramAddr == s.vramAddr + VramIncrement(s.ctrl)
    ensures WritePpuData(s, data).vramAddr == s.vramAddr + VramIncrement(s.ctrl)
  {
    PpuDataReadAdvances(s);
    PpuDataWriteAdvances(s, data);
  }

  lemma PpuDataWriteAdvances(s: PpuState, data: bv8)
    requires s.Valid()
    ensures WritePpuData(s, data).vramAddr == s.vramAddr + VramIncrement(s.ctrl)
  {
    var addr := NormalizePpuAddr(s.vramAddr);
    assert WritePpuData(s, data) == Advance(MemWrite(s, addr, data));
    StoreThenAdvance(s, addr, data);
  }

  lemma StoreThenAdvance(s: PpuState, addr: bv16, data: bv8)
    requires s.Valid()
    ensures Advance(MemWrite(s, addr, data)).vramAddr == s.vramAddr + VramIncrement(s.ctrl)
  {
    MemWriteKeepsAddress(s, addr, data);
    AdvanceFrom(s, MemWrite(s, addr, data));
  }

  /** The advance depends only on the address and PPUCTRL. */
  lemma AdvanceFrom(s: PpuState, t: PpuState)
    requires s.Valid() && t.Valid() && t.vramAddr == s.vramAddr && t.ctrl == s.ctrl
    ensures Advance(t).vramAddr == s.vramAddr + VramIncrement(s.ctrl)
  {
  }

  lemma MemWriteKeepsAddress(s: PpuState, addr: bv16, data: bv8)
    requires s.Valid()
    ensures MemWrite(s, addr, data).vramAddr == s.vramAddr
    ensures MemWrite(s, addr, data).ctrl == s.ctrl
  {
    var t := MemWrite(s, addr, data);
    assert t == s.(vram := t.vram, palette := t.palette);
  }

  /** A PPUDATA write stores at the 14-bit address; apart from the memory only the address changes. */
  lemma PpuDataWriteStores(s: PpuState, data: bv8)
    requires s.Valid()
    ensures var t := WritePpuData(s, data);
      t == MemWrite(s, NormalizePpuAddr(s.vramAddr), data).(vramAddr := t.vramAddr)
  {
  }

  /** An OAMDATA write stores at OAMADDR and then increments OAMADDR modulo 256. */
  lemma OamDataWrite(s: PpuState, data: bv8)
    requires s.Valid()
    ensures var t := WriteRegister(s, PPU_OAM_DATA, data);
      t.oam == s.oam[s.oamAddr as int := data] && t.oamAddr == s.oamAddr + 1 &&
      t == s.(oam := t.oam, oamAddr := t.oamAddr)
  {
  }

  /** What `ppu_mem_read` sees: only the memories and the mirroring. */
  lemma MemReadFrame(s: PpuState, t: PpuState, addr: bv16)
    requires s.Valid() && t.Valid()
    requires s.vram == t.vram && s.palette == t.palette && s.mirroring == t.mirroring
    ensures MemRead(s, addr) == MemRead(t, addr)
  {
  }

  lemma StepStaysBelowPalette(addr: bv16, step: bv16)
    requires addr as int < 0x3EE0 && (step == 1 || step == 32)
    ensures (addr + step) & 0x3FFF < 0x3F00
  {
  }

  lemma InPpuSpace(addr: bv16)
    requires addr as int <= 0x3FFF
    ensures addr & 0x3FFF == addr
    ensures addr < 0x3F00 <==> addr as int < 0x3F00
  {
  }

  /**
   * Writing a byte through PPUDATA to a nametable address and reading it
   * back: the first read after re-pointing returns the stale buffer, the
   * second the byte written (as long as the advanced address has not
   * reached the palette, which a read would return at once).
   */
  lemma NametableRoundTrip(s: PpuState, addr: bv16, data: bv8)
    requires s.Valid() && !s.addrLatch && 0x2000 <= addr as int < 0x3EE0
    ensures var s1 := WritePpuData(SetPpuAddr(s, addr), data);
      var s2 := SetPpuAddr(s1, addr);
      ReadPpuData(s2).0 == s.readBuffer && ReadPpuData(ReadPpuData(s2).1).0 == data
  {
    WriteThenRepoint(s, addr, data);
    var s2 := SetPpuAddr(WritePpuData(SetPpuAddr(s, addr), data), addr);
    DelayedRead(s2, addr);
  }

  lemma WriteThenRepoint(s: PpuState, addr: bv16, data: bv8)
    requires s.Valid() && !s.addrLatch && 0x2000 <= addr as int <= 0x3FFF
    ensures var s2 := SetPpuAddr(WritePpuData(SetPpuAddr(s, addr), data), addr);
      s2.Valid() && s2.vramAddr == addr && s2.readBuffer == s.readBuffer &&
      s2.ctrl == s.ctrl && MemRead(s2, addr) == data
  {
    InPpuSpace(addr);
    var s0 := SetPpuAddr(s, addr);
    SetPpuAddrLoads(s, addr);
    var s1 := WritePpuData(s0, data);
    PpuDataWriteStores(s0, data);
    var s2 := SetPpuAddr(s1, addr);
    SetPpuAddrLoads(s1, addr);
    MemReadFrame(s2, MemWrite(s0, addr, data), addr);
    MemWriteThenRead(s0, addr, data);
  }

  lemma DelayedRead(t: PpuState, addr: bv16)
    requires t.Valid() && t.vramAddr == addr && 0x2000 <= addr as int < 0x3EE0
    ensures ReadPpuData(t).0 == t.readBuffer
    ensures ReadPpuData(ReadPpuData(t).1).0 == MemRead(t, addr)
  {
    InPpuSpace(addr);
    assert NormalizePpuAddr(t.vramAddr) == addr;
    BufferedReadValue(t);
    BufferedReadRefills(t);
    NextReadBelowPalette(t, addr);
    var t1 := ReadPpuData(t).1;
    BufferedReadValue(t1);
  }

  lemma NextReadBelowPalette(t: PpuState, addr: bv16)
    requires t.Valid() && t.vramAddr == addr && addr as int < 0x3EE0
    ensures ReadPpuData(t).1.Valid()
    ensures NormalizePpuAddr(ReadPpuData(t).1.vramAddr) < 0x3F00
  {
    PpuDataReadAdvances(t);
    VramIncrementStep(t.ctrl);
    StepStaysBelowPalette(addr, VramIncrement(t.ctrl));
  }

  lemma BufferedRead(t: PpuState)
    requires t.Valid() && NormalizePpuAddr(t.vramAddr) < 0x3F00
    ensures ReadPpuData(t).0 == t.readBuffer
    ensures ReadPpuData(t).1.readBuffer == MemRead(t, NormalizePpuAddr(t.vramAddr))
    ensures ReadPpuData(t).1.vramAddr == t.vramAddr + VramIncrement(t.ctrl)
  {
    BufferedReadValue(t);
    BufferedReadRefills(t);
    PpuDataReadAdvances(t);
  }

  lemma BufferedReadValue(t: PpuState)
    requires t.Valid() && NormalizePpuAddr(t.vramAddr) < 0x3F00
    ensures ReadPpuData(t).0 == t.readBuffer
  {
  }

  lemma BufferedReadRefills(t: PpuState)
    requires t.Valid() && NormalizePpuAddr(t.vramAddr) < 0x3F00
    ensures ReadPpuData(t).1.readBuffer == MemRead(t, NormalizePpuAddr(t.vramAddr))
  {
  }

  lemma PpuDataReadAdvances(t: PpuState)
    requires t.Valid()
    ensures ReadPpuData(t).1.vramAddr == t.vramAddr + VramIncrement(t.ctrl)
  {
  }

  /** A palette byte written through PPUDATA reads back at once after re-pointing. */
  lemma PaletteRoundTrip(s: PpuState, addr: bv16, data: bv8)
    requires s.Valid() && !s.addrLatch && 0x3F00 <= addr as int <= 0x3FFF
    ensures var s1 := WritePpuData(SetPpuAddr(s, addr), data);
      ReadPpuData(SetPpuAddr(s1, addr)).0 == data
  {
    WriteThenRepoint(s, addr, data);
    InPpuSpace(addr);
    PpuDataReadBuffering(SetPpuAddr(WritePpuData(SetPpuAddr(s, addr), data), addr));
  }
}
