/**
 * `Ppu` of `src/ppu.rs` as the object the CPU owns: registers and latches
 * are fields, VRAM, palette RAM and OAM are fixed arrays written in place.
 * Every method is proved to do what the `PpuCore` function of the same
 * name does to the state.
 */
module PpuDevice {
  import Rom
  import PpuCore

  class Ppu {
    var ctrl: bv8
    var mask: bv8
    var status: bv8
    var oamAddr: bv8
    var addrLatch: bool
    var scrollLatch: bool
    var vramAddr: bv16
    var tempVramAddr: bv16
    var readBuffer: bv8
    const vram: array<bv8>
    const palette: array<bv8>
    const oam: array<bv8>
    var mirroring: Rom.Mirroring

    /** The arrays have their fixed sizes and are three distinct objects. */
    ghost predicate Valid()
      reads this
    {
      && vram.Length == PpuCore.VRAM_SIZE && palette.Length == PpuCore.PALETTE_SIZE && oam.Length == PpuCore.OAM_SIZE
      && vram != palette && vram != oam && palette != oam
    }

    /** The PPU as a value. */
    ghost function State(): (s: PpuCore.PpuState)
      reads this, vram, palette, oam
      requires Valid()
      ensures s.Valid()
    {
      PpuCore.PpuState(ctrl, mask, status, oamAddr, addrLatch, scrollLatch, vramAddr, tempVramAddr, readBuffer,
                       vram[..], palette[..], oam[..], mirroring)
    }

    /** `Ppu::new`. */
    constructor (mirroring: Rom.Mirroring)
      ensures Valid() && fresh(vram) && fresh(palette) && fresh(oam)
      ensures State() == PpuCore.NewPpu(mirroring)
    {
      ctrl, mask, status, oamAddr := 0, 0, 0, 0;
      addrLatch, scrollLatch := false, false;
      vramAddr, tempVramAddr, readBuffer := 0, 0, 0;
      vram := new bv8[PpuCore.VRAM_SIZE](_ => 0);
      palette := new bv8[PpuCore.PALETTE_SIZE](_ => 0);
      oam := new bv8[PpuCore.OAM_SIZE](_ => 0);
      this.mirroring := mirroring;
    }

    /** `set_mirroring`. */
    method SetMirroring(mirroring: Rom.Mirroring)
      requires Valid()
      modifies this
      ensures Valid()
      ensures State() == old(State()).(mirroring := mirroring)
    {
      this.mirroring := mirroring;
    }

    /** `ppu_mem_read` on the arrays. */
    function MemRead(addr: bv16): (v: bv8)
      reads this, vram, palette, oam
      requires Valid()
      ensures v == PpuCore.MemRead(State(), addr)
    {
      match PpuCore.CellOf(mirroring, addr)
      case NoCell => 0
      case VramCell(i) => vram[i]
      case PaletteCell(i) => palette[i]
    }

    /** `ppu_mem_write` on the arrays. */
    method MemWrite(addr: bv16, data: bv8)
      requires Valid()
      modifies vram, palette
      ensures Valid()
      ensures State() == PpuCore.MemWrite(old(State()), addr, data)
    {
      match PpuCore.CellOf(mirroring, addr)
      case NoCell =>
      case VramCell(i) => StoreVram(i, data);
      case PaletteCell(i) => StorePalette(i, data);
    }

    method StoreVram(i: nat, data: bv8)
      requires Valid() && i < PpuCore.VRAM_SIZE
      modifies vram
      ensures Valid()
      ensures State() == old(State()).(vram := old(State()).vram[i := data])
    {
      vram[i] := data;
    }

    method StorePalette(i: nat, data: bv8)
      requires Valid() && i < PpuCore.PALETTE_SIZE
      modifies palette
      ensures Valid()
      ensures State() == old(State()).(palette := old(State()).palette[i := data])
    {
      palette[i] := data;
    }

    /** `read_ppu_data`. */
    method ReadPpuData() returns (v: bv8)
      requires Valid()
      modifies this
      ensures Valid()
      ensures (v, State()) == PpuCore.ReadPpuData(old(State()))
    {
      var addr := PpuCore.NormalizePpuAddr(vramAddr);
      if addr >= 0x3F00 {
        v := MemRead(addr);
        readBuffer := MemRead(addr - 0x1000);
      } else {
        v := readBuffer;
        readBuffer := MemRead(addr);
      }
      AdvanceVramAddr();
    }

    /** The auto-increment after a PPUDATA access. */
    method AdvanceVramAddr()
      requires Valid()
      modifies this
      ensures Valid()
      ensures State() == PpuCore.Advance(old(State()))
    {
      ghost var s := State();
      var next := vramAddr + PpuCore.VramIncrement(ctrl);
      assert next == s.vramAddr + PpuCore.VramIncrement(s.ctrl);
      vramAddr := next;
      assert State() == s.(vramAddr := next);
    }

    /** `write_ppu_data`. */
    method WritePpuData(data: bv8)
      requires Valid()
      modifies this, vram, palette
      ensures Valid()
      ensures State() == PpuCore.WritePpuData(old(State()), data)
    {
      MemWrite(PpuCore.NormalizePpuAddr(vramAddr), data);
      AdvanceVramAddr();
    }

    /** `read_register`. */
    method ReadRegister(reg: bv16) returns (v: bv8)
      requires Valid()
      modifies this
      ensures Valid()
      ensures (v, State()) == PpuCore.ReadRegister(old(State()), reg)
    {
      if reg == PpuCore.PPU_STATUS {
        v := status;
        status := status & 0x7F;
        addrLatch := false;
        scrollLatch := false;
      } else if reg == PpuCore.PPU_OAM_DATA {
        v := oam[oamAddr as int];
      } else if reg == PpuCore.PPU_DATA {
        v := ReadPpuData();
      } else {
        v := 0;
      }
    }

    /** The byte `read_register` returns, without its side effects. */
    function PeekRegister(reg: bv16): (v: bv8)
      reads this, vram, palette, oam
      requires Valid()
      ensures v == PpuCore.ReadRegister(State(), reg).0
    {
      if reg == PpuCore.PPU_STATUS then status
      else if reg == PpuCore.PPU_OAM_DATA then oam[oamAddr as int]
      else if reg == PpuCore.PPU_DATA then
        var addr := PpuCore.NormalizePpuAddr(vramAddr);
        if addr >= 0x3F00 then MemRead(addr) else readBuffer
      else 0
    }

    /** `write_register`. */
    method WriteRegister(reg: bv16, data: bv8)
      requires Valid()
      modifies this, vram, palette, oam
      ensures Valid()
      ensures State() == PpuCore.WriteRegister(old(State()), reg, data)
    {
      if reg == PpuCore.PPU_CTRL {
        WritePpuCtrl(data);
      } else if reg == PpuCore.PPU_MASK {
        mask := data;
      } else if reg == PpuCore.PPU_OAM_ADDR {
        oamAddr := data;
      } else if reg == PpuCore.PPU_OAM_DATA {
        WriteOamData(data);
      } else if reg == PpuCore.PPU_SCROLL {
        WriteScroll(data);
      } else if reg == PpuCore.PPU_ADDR {
        WriteAddr(data);
      } else if reg == PpuCore.PPU_DATA {
        WritePpuData(data);
      }
    }

    /** PPUCTRL: the byte, and its nametable bits copied into bits 10-11 of the temporary address. */
    method WritePpuCtrl(data: bv8)
      requires Valid()
      modifies this
      ensures Valid()
      ensures State() == PpuCore.WritePpuCtrl(old(State()), data)
    {
      ghost var s := State();
      var temp := (tempVramAddr & !0x0C00) | (((data as bv16) & 0x03) << 10);
      ctrl, tempVramAddr := data, temp;
      assert vram[..] == s.vram && palette[..] == s.palette && oam[..] == s.oam;
    }

    /** OAMDATA: store at OAMADDR, which then advances (wrapping at 256). */
    method WriteOamData(data: bv8)
      requires Valid()
      modifies this, oam
      ensures Valid()
      ensures State() == PpuCore.WriteOamData(old(State()), data)
    {
      ghost var s := State();
      oam[oamAddr as int] := data;
      oamAddr := oamAddr + 1;
      assert vram[..] == s.vram && palette[..] == s.palette && oam[..] == s.oam[s.oamAddr as int := data];
    }

    /** PPUSCROLL: the latch alternates between the X and the Y byte. */
    method WriteScroll(data: bv8)
      requires Valid()
      modifies this
      ensures Valid()
      ensures State() == PpuCore.WriteRegister(old(State()), PpuCore.PPU_SCROLL, data)
    {
      if !scrollLatch {
        tempVramAddr := (tempVramAddr & !0x001F) | ((data as bv16) >> 3);
        scrollLatch := true;
      } else {
        tempVramAddr := (tempVramAddr & !0x73E0) | (((data as bv16) & 0x07) << 12) | (((data as bv16) & 0xF8) << 2);
        scrollLatch := false;
      }
    }

    /** PPUADDR: the latch alternates between the high and the low byte; the low byte loads the address. */
    method WriteAddr(data: bv8)
      requires Valid()
      modifies this
      ensures Valid()
      ensures State() == PpuCore.WriteRegister(old(State()), PpuCore.PPU_ADDR, data)
    {
      if !addrLatch {
        tempVramAddr := (tempVramAddr & 0x00FF) | (((data as bv16) & 0x3F) << 8);
        addrLatch := true;
      } else {
        tempVramAddr := (tempVramAddr & 0xFF00) | data as bv16;
        vramAddr := tempVramAddr;
        addrLatch := false;
      }
    }
  }
}
