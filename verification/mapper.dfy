/**
 * The NROM cartridge mapper (iNES mapper 0) of `src/mapper.rs`: PRG-ROM of
 * 16 KB or 32 KB at CPU 0x8000-0xFFFF, the 16 KB image mirrored into both
 * halves; 8 KB of CHR at PPU 0x0000-0x1FFF, either ROM or RAM.
 */
module Mapper {
  import opened Wrappers

  const PRG_ROM_BANK_SIZE: nat := 16 * 1024
  const CHR_BANK_SIZE: nat := 8 * 1024

  datatype MapperError = InvalidPrgSize(size: nat)

  /** The PRG sizes NROM accepts: one bank (NROM-128) or two (NROM-256). */
  predicate ValidPrgSize(n: nat) {
    n == 0x4000 || n == 0x8000
  }

  /** `cpu_read`: the PRG byte behind a CPU address, none below 0x8000. */
  function PrgRead(prg: seq<bv8>, addr: bv16): (r: Option<bv8>)
    requires ValidPrgSize(|prg|)
    ensures r.None? <==> (addr as int) < 0x8000
  {
    var offset := addr as int - 0x8000;
    if offset < 0 then None
    else
      var mapped := if |prg| == PRG_ROM_BANK_SIZE then offset % PRG_ROM_BANK_SIZE else offset;
      Some(prg[mapped])
  }

  /** With a 16 KB image, 0xC000-0xFFFF mirrors 0x8000-0xBFFF, both starting at the image's first byte. */
  lemma PrgMirror16K(prg: seq<bv8>, addr: bv16)
    requires |prg| == 0x4000 && 0x8000 <= addr as int < 0xC000
    ensures PrgRead(prg, addr) == Some(prg[addr as int - 0x8000])
    ensures PrgRead(prg, addr + 0x4000) == Some(prg[addr as int - 0x8000])
  {
    PrgLowerBank(prg, addr);
    PrgUpperBank(prg, addr);
  }

  lemma PrgLowerBank(prg: seq<bv8>, addr: bv16)
    requires |prg| == 0x4000 && 0x8000 <= addr as int < 0xC000
    ensures PrgRead(prg, addr) == Some(prg[addr as int - 0x8000])
  {
    BankOffset(addr as int - 0x8000);
  }

  lemma BankOffset(o: int)
    requires 0 <= o < PRG_ROM_BANK_SIZE
    ensures o % PRG_ROM_BANK_SIZE == o
  {
  }

  lemma PrgUpperBank(prg: seq<bv8>, addr: bv16)
    requires |prg| == 0x4000 && 0x8000 <= addr as int < 0xC000
    ensures PrgRead(prg, addr + 0x4000) == Some(prg[addr as int - 0x8000])
  {
    UpperHalf(addr);
  }

  lemma UpperHalf(addr: bv16)
    requires 0x8000 <= addr as int < 0xC000
    ensures (addr + 0x4000) as int == addr as int + 0x4000
  {
  }

  /** With a 16 KB image, 0xC000-0xFFFF reads the image from its first byte. */
  lemma PrgUpperMirror(prg: seq<bv8>, addr: bv16)
    requires |prg| == 0x4000 && addr as int >= 0xC000
    ensures PrgRead(prg, addr) == Some(prg[addr as int - 0xC000])
  {
    UpperOffset(addr as int - 0x8000);
  }

  lemma UpperOffset(o: int)
    requires PRG_ROM_BANK_SIZE <= o < 2 * PRG_ROM_BANK_SIZE
    ensures o % PRG_ROM_BANK_SIZE == o - PRG_ROM_BANK_SIZE
  {
  }

  /** With a 32 KB image, 0x8000-0xFFFF reads the image in order. */
  lemma PrgLinear32K(prg: seq<bv8>, addr: bv16)
    requires |prg| == 0x8000 && addr as int >= 0x8000
    ensures PrgRead(prg, addr) == Some(prg[addr as int - 0x8000])
  {
  }

  /** `ppu_read` on the CHR memory: none above 0x1FFF, 0 when there is no CHR at all. */
  function ChrRead(chr: seq<bv8>, addr: bv16): (r: Option<bv8>)
    requires addr > 0x1FFF || |chr| == 0 || (addr as int) < |chr|
    ensures r.None? <==> addr > 0x1FFF
    ensures addr <= 0x1FFF && |chr| == 0 ==> r == Some(0)
    ensures addr <= 0x1FFF && |chr| > 0 ==> r == Some(chr[addr as int])
  {
    if addr > 0x1FFF then None
    else if |chr| == 0 then Some(0)
    else Some(chr[addr as int])
  }

  /** The CHR memory after `ppu_write`: only RAM keeps the byte, and only below 0x2000. */
  function ChrWrite(chr: seq<bv8>, chrIsRam: bool, addr: bv16, data: bv8): (c: seq<bv8>)
    requires addr > 0x1FFF || !chrIsRam || (addr as int) < |chr|
    ensures |c| == |chr|
    ensures !chrIsRam || addr > 0x1FFF ==> c == chr
  {
    if addr > 0x1FFF then chr
    else if chrIsRam then chr[addr as int := data]
    else chr
  }

  /** Reading back a CHR-RAM write gives the byte written; every other address keeps its byte. */
  lemma ChrRamWriteThenRead(chr: seq<bv8>, addr: bv16, other: bv16, data: bv8)
    requires addr <= 0x1FFF && (addr as int) < |chr| && (other as int) < |chr|
    ensures ChrRead(ChrWrite(chr, true, addr, data), addr) == Some(data)
    ensures other as int != addr as int ==> ChrRead(ChrWrite(chr, true, addr, data), other) == ChrRead(chr, other)
  {
  }

  /** `NromMapper`: PRG-ROM is fixed, CHR changes when it is RAM. */
  class NromMapper {
    const prgRom: seq<bv8>
    var chr: seq<bv8>
    const chrIsRam: bool

    /** What `new` establishes: a valid PRG size, and 8 KB of CHR when it is RAM. */
    ghost predicate Valid()
      reads this
    {
      ValidPrgSize(|prgRom|) && (chrIsRam ==> |chr| == CHR_BANK_SIZE)
    }

    constructor (prgRom: seq<bv8>, chr: seq<bv8>, chrIsRam: bool)
      ensures this.prgRom == prgRom && this.chr == chr && this.chrIsRam == chrIsRam
    {
      this.prgRom := prgRom;
      this.chr := chr;
      this.chrIsRam := chrIsRam;
    }

    /**
     * `NromMapper::new`: rejects a PRG image that is neither 16 KB nor 32 KB;
     * with CHR-RAM the CHR-ROM argument is dropped for 8 KB of zeros.
     */
    static method New(prgRom: seq<bv8>, chrRom: seq<bv8>, hasChrRam: bool) returns (r: Result<NromMapper, MapperError>)
      ensures r.Err? <==> !ValidPrgSize(|prgRom|)
      ensures r.Err? ==> r.error == InvalidPrgSize(|prgRom|)
      ensures r.Ok? ==> fresh(r.value) && r.value.Valid()
      ensures r.Ok? ==> r.value.prgRom == prgRom && r.value.chrIsRam == hasChrRam
      ensures r.Ok? ==> r.value.chr == if hasChrRam then seq(CHR_BANK_SIZE, _ => 0) else chrRom
    {
      if !ValidPrgSize(|prgRom|) {
        return Err(InvalidPrgSize(|prgRom|));
      }
      var chr, chrIsRam;
      if hasChrRam {
        chr, chrIsRam := seq(CHR_BANK_SIZE, _ => 0), true;
      } else {
        chr, chrIsRam := chrRom, false;
      }
      var m := new NromMapper(prgRom, chr, chrIsRam);
      return Ok(m);
    }

    /** `cpu_read`. */
    function CpuRead(addr: bv16): (r: Option<bv8>)
      requires ValidPrgSize(|prgRom|)
      ensures r == PrgRead(prgRom, addr)
    {
      PrgRead(prgRom, addr)
    }

    /** `cpu_write`: claims every address from 0x8000 up and changes nothing. */
    method CpuWrite(addr: bv16, data: bv8) returns (handled: bool)
      ensures handled <==> addr >= 0x8000
    {
      handled := addr >= 0x8000;
    }

    /** `ppu_read`. */
    function PpuRead(addr: bv16): (r: Option<bv8>)
      reads this
      requires addr > 0x1FFF || |chr| == 0 || (addr as int) < |chr|
      ensures r == ChrRead(chr, addr)
    {
      ChrRead(chr, addr)
    }

    /** `ppu_write`: claims 0x0000-0x1FFF; stores the byte only into CHR-RAM. */
    method PpuWrite(addr: bv16, data: bv8) returns (handled: bool)
      requires Valid()
      modifies this
      ensures Valid()
      ensures handled <==> addr <= 0x1FFF
      ensures chr == ChrWrite(old(chr), chrIsRam, addr, data)
    {
      if addr > 0x1FFF {
        return false;
      }
      if chrIsRam {
        chr := chr[addr as int := data];
      }
      return true;
    }
  }
}
