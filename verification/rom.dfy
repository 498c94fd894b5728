/**
 * The iNES cartridge image parser of `src/rom.rs`: a 16-byte header
 * ("NES" 0x1A, PRG bank count, CHR bank count, flags 6, flags 7, ...),
 * an optional 512-byte trainer, then the PRG-ROM and CHR-ROM banks.
 */
module Rom {
  import opened Wrappers

  const INES_HEADER_SIZE: nat := 16
  const INES_TRAINER_SIZE: nat := 512
  const PRG_ROM_PAGE_SIZE: nat := 16 * 1024
  const CHR_ROM_PAGE_SIZE: nat := 8 * 1024
  const INES_MAGIC: seq<bv8> := [0x4E, 0x45, 0x53, 0x1A]

  datatype Mirroring = Horizontal | Vertical | FourScreen

  datatype RomError = InvalidHeader | UnsupportedMapper(id: bv8) | Truncated

  datatype Rom = Rom(prgRom: seq<bv8>, chrRom: seq<bv8>, mapper: bv8, mirroring: Mirroring)

  /** The mapper number: its low nibble is the high nibble of flags 6, its high nibble that of flags 7. */
  function MapperId(flags6: bv8, flags7: bv8): (id: bv8)
    ensures id & 0x0F == flags6 >> 4 && id & 0xF0 == flags7 & 0xF0
  {
    (flags6 >> 4) | (flags7 & 0xF0)
  }

  /** Flags 6 bit 3 selects four-screen mirroring, which wins over bit 0 (vertical); neither is horizontal. */
  function MirroringOf(flags6: bv8): (m: Mirroring)
    ensures m == FourScreen <==> flags6 & 0x08 != 0
    ensures m == Vertical <==> flags6 & 0x08 == 0 && flags6 & 0x01 != 0
    ensures m == Horizontal <==> flags6 & 0x09 == 0
  {
    if flags6 & 0x08 != 0 then FourScreen
    else if flags6 & 0x01 != 0 then Vertical
    else Horizontal
  }

  /** Where PRG-ROM starts: after the header, and after the trainer when flags 6 bit 2 announces one. */
  function PrgOffset(flags6: bv8): (n: nat)
    ensures n == if flags6 & 0x04 != 0 then 528 else 16
  {
    var cursor := INES_HEADER_SIZE;
    if flags6 & 0x04 != 0 then cursor + INES_TRAINER_SIZE else cursor
  }

  /** The image size the header asks for. */
  function RequiredSize(header: seq<bv8>): nat
    requires |header| >= 8
  {
    PrgOffset(header[6]) + header[4] as nat * PRG_ROM_PAGE_SIZE + header[5] as nat * CHR_ROM_PAGE_SIZE
  }

  /** `Rom::from_bytes`. */
  function FromBytes(raw: seq<bv8>): (r: Result<Rom, RomError>)
    // the length is checked first, then the magic, then the mapper, then the size
    ensures |raw| < INES_HEADER_SIZE ==> r == Err(Truncated)
    ensures |raw| >= INES_HEADER_SIZE && raw[..4] != INES_MAGIC ==> r == Err(InvalidHeader)
    ensures |raw| >= INES_HEADER_SIZE && raw[..4] == INES_MAGIC && MapperId(raw[6], raw[7]) != 0 ==>
      r == Err(UnsupportedMapper(MapperId(raw[6], raw[7])))
    ensures |raw| >= INES_HEADER_SIZE && raw[..4] == INES_MAGIC && MapperId(raw[6], raw[7]) == 0 ==>
      (r == Err(Truncated) <==> |raw| < RequiredSize(raw))
    // on success the two images are the consecutive slices the header describes
    ensures r.Ok? ==>
      var prgSize := raw[4] as nat * PRG_ROM_PAGE_SIZE;
      var chrSize := raw[5] as nat * CHR_ROM_PAGE_SIZE;
      var start := PrgOffset(raw[6]);
      && start + prgSize + chrSize <= |raw|
      && r.value.prgRom == raw[start..start + prgSize]
      && r.value.chrRom == raw[start + prgSize..start + prgSize + chrSize]
      && r.value.mapper == 0
      && r.value.mirroring == MirroringOf(raw[6])
  {
    if |raw| < INES_HEADER_SIZE then Err(Truncated)
    else if raw[0..4] != INES_MAGIC then Err(InvalidHeader)
    else
      var prgRomBanks := raw[4] as nat;
      var chrRomBanks := raw[5] as nat;
      var flags6 := raw[6];
      var flags7 := raw[7];
      var mapper := MapperId(flags6, flags7);
      if mapper != 0 then Err(UnsupportedMapper(mapper))
      else
        var mirroring := MirroringOf(flags6);
        var cursor := PrgOffset(flags6);
        var prgSize := prgRomBanks * PRG_ROM_PAGE_SIZE;
        var chrSize := chrRomBanks * CHR_ROM_PAGE_SIZE;
        if |raw| < cursor + prgSize + chrSize then Err(Truncated)
        else
          var prgRom := raw[cursor..cursor + prgSize];
          var chrRom := raw[cursor + prgSize..cursor + prgSize + chrSize];
          Ok(Rom(prgRom, chrRom, mapper, mirroring))
  }

  /** The test helper `build_ines`: a header with the given counts and flags, followed by the payload. */
  function BuildInes(prgBanks: bv8, chrBanks: bv8, flags6: bv8, flags7: bv8, payload: seq<bv8>): (raw: seq<bv8>)
    ensures |raw| == INES_HEADER_SIZE + |payload|
    ensures raw[..4] == INES_MAGIC && raw[4] == prgBanks && raw[5] == chrBanks && raw[6] == flags6 && raw[7] == flags7
    ensures raw[INES_HEADER_SIZE..] == payload
  {
    INES_MAGIC + [prgBanks, chrBanks, flags6, flags7] + seq(8, _ => 0) + payload
  }

  /**
   * Round trip: an image built from an NROM header, an optional trainer and
   * PRG/CHR data of the announced sizes parses back to exactly that data.
   */
  lemma ParseBuiltImage(prgBanks: bv8, chrBanks: bv8, flags6: bv8, flags7: bv8,
                        trainer: seq<bv8>, prg: seq<bv8>, chr: seq<bv8>)
    requires MapperId(flags6, flags7) == 0
    requires |trainer| == if flags6 & 0x04 != 0 then INES_TRAINER_SIZE else 0
    requires |prg| == prgBanks as nat * PRG_ROM_PAGE_SIZE && |chr| == chrBanks as nat * CHR_ROM_PAGE_SIZE
    ensures FromBytes(BuildInes(prgBanks, chrBanks, flags6, flags7, trainer + prg + chr)) ==
      Ok(Rom(prg, chr, 0, MirroringOf(flags6)))
  {
    var raw := BuildInes(prgBanks, chrBanks, flags6, flags7, trainer + prg + chr);
    var start := PrgOffset(flags6);
    assert start == INES_HEADER_SIZE + |trainer|;
    assert raw[start..start + |prg|] == prg by {
      assert raw[INES_HEADER_SIZE..] == trainer + prg + chr;
    }
    assert raw[start + |prg|..start + |prg| + |chr|] == chr by {
      assert raw[INES_HEADER_SIZE..] == trainer + prg + chr;
    }
  }

  /** A shorter image than the header announces is rejected as truncated, not misread. */
  lemma ShortImageIsTruncated(prgBanks: bv8, chrBanks: bv8, flags6: bv8, flags7: bv8, payload: seq<bv8>)
    requires MapperId(flags6, flags7) == 0
    requires |payload| < PrgOffset(flags6) - INES_HEADER_SIZE + prgBanks as nat * PRG_ROM_PAGE_SIZE + chrBanks as nat * CHR_ROM_PAGE_SIZE
    ensures FromBytes(BuildInes(prgBanks, chrBanks, flags6, flags7, payload)) == Err(Truncated)
  {
  }
}
