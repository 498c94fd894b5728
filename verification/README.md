# A verified model of the res 6502 CPU core

This project models in Dafny the CPU side of the `res` NES emulator. It covers two interpreters of the 6502
instruction set:

- the current engine (`crates/res-core/src/cpu.rs`). Its memory bus routes 0x2000-0x3FFF to the PPU
  registers, 0x4000-0x4017 to the APU stub and 0x8000 and up to an NROM cartridge. It has an interrupt
  sequence for NMI, IRQ and BRK, and it counts cycles, with page-cross and branch penalties.
- the legacy engine (`src/cpu.rs`). It has a flat `[u8; 0xffff]` memory, and its out-of-range accesses
  and unknown opcodes panic.

It also models the devices the engines use:

- the opcode table (`src/opcodes.rs`);
- iNES parsing (`src/rom.rs`);
- the NROM mapper (`src/mapper.rs`);
- the PPU register file and its memory mirroring (`src/ppu.rs`);
- the APU register stub (`crates/res-core/src/apu.rs`).

Modules, following the source files:

| module (file) | models |
|---|---|
| `Bytes`, `Registers` (bytes.dfy, registers.dfy) | little-endian words, sign extension, the `CpuFlags` status bits and the Z/N update |
| `Alu` (alu.dfy) | ADC/SBC with carry and overflow, the shifts and rotates, compare, the pushed and pulled status bytes |
| `Addressing` (addressing.dfy) | `get_operand_address` and `did_page_cross` as pure functions of PC, operand bytes, X, Y and page zero |
| `Opcodes`, `Decoding` (opcodes.dfy, decoding.dfy) | `CPU_OPS_CODES`/`OPCODES_MAP`, and the decoding of an opcode byte to the instruction its match arm runs |
| `Rom`, `Mapper` (rom.dfy, mapper.dfy) | `Rom::from_bytes`, `build_ines`, and the NROM mapper as functions plus the `NromMapper` class |
| `ApuStub` (apu.dfy) | the APU register file as a function pair and the `Apu` class over an array |
| `PpuCore`, `PpuDevice` (ppu.dfy, ppu_device.dfy) | the PPU state and its register protocol as functions, and the `Ppu` class over its VRAM, palette and OAM arrays |
| `CpuBus` (bus.dfy) | the current engine's `mem_read`/`mem_write` memory map |
| `Engine`, `EngineStep` (engine.dfy, engine_step.dfy) | the current engine as functions on a `Machine` value: every instruction handler, one step of `try_run_with_callback`, runs, loading, reset and interrupts, with the lemmas about them |
| `Processor` (cpu.dfy) | the current engine's `CPU` as a class whose fields and arrays its methods update; each method's postcondition equates the new state with the `Engine`/`EngineStep` function of the old state |
| `LegacyEngine`, `LegacyProperties` (legacy_engine.dfy, legacy_properties.dfy) | the legacy engine as functions on a value with a 0xFFFF-cell memory, where a panic is an explicit outcome, with the lemmas about it |
| `LegacyProcessor` (legacy_cpu.dfy) | the legacy `CPU` as a class over a memory array, proved against `LegacyEngine` |

Both engines' step functions take the opcode table as a parameter: any table that passes `Decoding.WellFormed`
works. `Decoding.OpcodesMapWellFormed` proves that the repository's own `OPCODES_MAP` is such a table. The
lemmas mirroring the repository's unit tests instantiate the steps with `OPCODES_MAP` where the test's
opcodes are in it. Other tests also run opcodes outside the 18 entries of that table, such as BEQ and NOP.
For those, the lemmas take any well-formed table that holds those entries.

## Model

Source paths are relative to the repository root.

| member | source | states |
|---|---|---|
| Bytes.Word | crates/res-core/src/cpu.rs:102-106 | the word `mem_read_u16` assembles is little-endian: its low byte is the byte at `pos`, its high byte the byte at `pos + 1` |
| Bytes.WordOfBytes | crates/res-core/src/cpu.rs:108-113 | splitting a word into `data & 0xff` and `data >> 8`, as `mem_write_u16` does, and reassembling it gives the word back |
| Bytes.SignExtend | crates/res-core/src/cpu.rs:517-529 | the branch offset `(jump as i8) as u16` keeps the byte as its low half and fills the high half with the sign bit |
| Registers.With | crates/res-core/src/cpu.rs:10-21 | setting or clearing one `CpuFlags` bit makes exactly that flag take the new value and keeps every other status bit |
| Registers.WithZN | crates/res-core/src/cpu.rs:572-584 | Z is set iff the result is zero, N iff its bit 7 is set, and the other six status bits are kept |
| Registers.WithN | crates/res-core/src/cpu.rs:586-592 | only N changes, to bit 7 of the result (Z is left alone) |
| Alu.AddWithCarry | crates/res-core/src/cpu.rs:544-570 | the 8-bit result with the carry out is the exact 9-bit sum A + M + C; V is set iff both operands have the same sign and the result's sign differs |
| Alu.SumIsExact | crates/res-core/src/cpu.rs:544-570 | carry out times 256 plus the result equals A + M + C for every A, M and carry in |
| Alu.OverflowIsSignedError | crates/res-core/src/cpu.rs:544-570 | V is clear exactly when the result, read as signed, equals the signed sum of A, M and the carry (no two's-complement overflow) |
| Alu.ResultWraps | crates/res-core/src/cpu.rs:544-570 | the result is A + M + C modulo 256 |
| Alu.SbcOperand | crates/res-core/src/cpu.rs:351-355 | SBC feeds the adder the complement of M (`-m - 1` as `i8`), so its sign is the opposite of M's |
| Alu.SubtractResult | crates/res-core/src/cpu.rs:351-355 | SBC leaves A - M - (1 - C) modulo 256 in A |
| Alu.SubtractCarry | crates/res-core/src/cpu.rs:351-355 | after SBC the carry is set iff A >= M + borrow, i.e. no borrow was needed |
| Alu.SubtractOverflow | crates/res-core/src/cpu.rs:351-355 | after SBC, V is set iff A and M differ in sign and the result's sign differs from A's |
| Alu.ShiftLeft | crates/res-core/src/cpu.rs:363-372 | ASL: carry out and result together are twice the operand (bit 7 goes to C) |
| Alu.ShiftRight | crates/res-core/src/cpu.rs:388-397 | LSR: twice the result plus the carry out is the operand, and bit 7 of the result is clear |
| Alu.RotateLeft | crates/res-core/src/cpu.rs:434-449 | ROL: carry out and result together are twice the operand plus the old carry |
| Alu.RotateRight | crates/res-core/src/cpu.rs:472-487 | ROR: the old carry and the operand together are twice the result plus the carry out |
| Alu.RotateRoundTrip | crates/res-core/src/cpu.rs:413-487 | ROL followed by ROR of its result and carry gives back the operand and carry, and so does ROR followed by ROL |
| Alu.Compare | crates/res-core/src/cpu.rs:650-660 | CMP/CPX/CPY: C iff register >= M, Z iff equal, N is bit 7 of register - M, other flags kept |
| Alu.PhpStatus | crates/res-core/src/cpu.rs:638-643 | the status byte PHP pushes has B and B2 set and every other bit as in P |
| Alu.InterruptStatus | crates/res-core/src/cpu.rs:700-707 | the status byte an interrupt pushes has B equal to the break flag, B2 set, and the other bits of P |
| Alu.PulledStatus | crates/res-core/src/cpu.rs:632-636 | PLP loads every bit from the stack except that B is cleared and B2 set |
| Alu.PhpPlpRoundTrip | crates/res-core/src/cpu.rs:632-643 | PHP then PLP restores P with only B cleared, for any P with B2 set |
| Alu.OverflowSameSign | crates/res-core/src/cpu.rs:557-566 | for operands of equal sign, V is clear iff the signed sum is exact |
| Alu.OverflowMixedSign | crates/res-core/src/cpu.rs:557-566 | for operands of different sign, V is never set and the signed sum is always exact |
| Addressing.ZeroPagePointer | crates/res-core/src/cpu.rs:270-285 | a zero-page pointer at `p` is read from cells `p` and `p + 1`, the second wrapping to 0x00 after 0xFF |
| Addressing.OperandAddress | crates/res-core/src/cpu.rs:244-290 | Immediate names PC itself, and every zero-page mode yields an address below 0x100 |
| Addressing.ZeroPageWraps | crates/res-core/src/cpu.rs:246-259 | zero-page indexed addresses wrap inside page zero: high byte 0, low byte base + index modulo 256 |
| Addressing.AbsoluteIsLittleEndian | crates/res-core/src/cpu.rs:248 | Absolute mode's address is the little-endian word of the two operand bytes |
| Addressing.IndirectXPointer | crates/res-core/src/cpu.rs:270-276 | (zp,X) reads its pointer from zero-page cells base + X and base + X + 1 |
| Addressing.DidPageCross | crates/res-core/src/cpu.rs:194-214 | only Absolute,X, Absolute,Y and (zp),Y can report a page cross |
| Addressing.CrossesIsCarry | crates/res-core/src/cpu.rs:194-214 | base and base + index lie in different pages iff the low byte plus the index carries; then the high byte is one more, and the low byte is always low + index modulo 256 |
| Addressing.AbsoluteXIsIndexed | crates/res-core/src/cpu.rs:260-263 | Absolute,X is the operand word plus X, and its page cross is the cross from that word by X |
| Addressing.AbsoluteYIsIndexed | crates/res-core/src/cpu.rs:264-268 | Absolute,Y is the operand word plus Y, and its page cross is the cross from that word by Y |
| Addressing.IndirectYIsIndexed | crates/res-core/src/cpu.rs:277-285 | (zp),Y is the zero-page pointer plus Y, and its page cross is the cross from that pointer by Y |
| Addressing.CrossesIffCarry | crates/res-core/src/cpu.rs:194-214 | an indexed address leaves the base's page iff the low byte plus the index exceeds 0xFF |
| Addressing.CrossesHighByte | crates/res-core/src/cpu.rs:194-214 | the indexed address's high byte is the base's, plus one exactly when the page is crossed |
| Addressing.IndexedLowByte | crates/res-core/src/cpu.rs:259-285 | the indexed address's low byte is the base's low byte plus the index modulo 256 |
| Addressing.HasPageCrossPenalty | crates/res-core/src/cpu.rs:216-242 | every penalised opcode is in an indexed column (bit 4 set) and none is a store of the 0x80-0x9F block |
| Opcodes.BuildMap | src/opcodes.rs:48-54 | the map built from the first n entries finds a code iff one of them has it, and what it returns is such an entry |
| Opcodes.BuildMapKeepsAll | src/opcodes.rs:48-54 | when all codes differ no insert is overwritten: every entry is found under its own code |
| Opcodes.CpuOpsCodesDistinct | src/opcodes.rs:25-46 | the 18 codes of `CPU_OPS_CODES` are pairwise distinct |
| Opcodes.OpcodesMap | src/opcodes.rs:48-54 | `OPCODES_MAP` returns an entry with the code looked up, and nothing iff no entry has that code |
| Opcodes.OpcodesMapFindsEveryEntry | src/opcodes.rs:25-54 | every entry of `CPU_OPS_CODES` is what `OPCODES_MAP` returns for its code |
| Opcodes.LengthMatchesMode | src/opcodes.rs:25-46 | every entry's length is one plus the operand bytes of its addressing mode |
| Decoding.FlagBit | crates/res-core/src/cpu.rs:10-21 | each flag an instruction names is exactly one `CpuFlags` bit |
| Decoding.EntryHandled | src/opcodes.rs:25-46 | every entry of the table decodes to an instruction the step handles, with length >= 1 and a real addressing mode where it needs an address |
| Decoding.EntryMnemonic | src/opcodes.rs:25-46 | the instruction each table code decodes to has the table's mnemonic |
| Decoding.OpcodesMapWellFormed | src/opcodes.rs:25-54 | `OPCODES_MAP` is a table the step can run on, and every code it holds decodes |
| Decoding.ImpliedAndLoadHandled | src/opcodes.rs:26-31 | BRK, TAX, INX and the first LDA entries decode, with length >= 1 and an address mode where one is needed |
| Decoding.IndexedLoadHandled | src/opcodes.rs:32-40 | the remaining LDA entries and the first STA entries decode, with those guarantees |
| Decoding.StoreHandled | src/opcodes.rs:40-45 | the STA entries decode, with those guarantees |
| Decoding.ImpliedAndLoadMnemonics | src/opcodes.rs:26-31 | those entries decode to instructions of their own mnemonic |
| Decoding.IndexedLoadMnemonics | src/opcodes.rs:32-40 | those entries decode to instructions of their own mnemonic |
| Decoding.StoreMnemonics | src/opcodes.rs:40-45 | the STA entries decode to STA |
| Decoding.PenaltyOnlyOnReads | crates/res-core/src/cpu.rs:216-242 | every opcode that pays the page-cross cycle decodes to LDA, LDX, LDY, ADC, SBC, AND, EOR, ORA or CMP |
| Decoding.LoadPenalties | crates/res-core/src/cpu.rs:216-242 | the penalised LDA, LDX and LDY opcodes decode to those loads |
| Decoding.ArithmeticPenalties | crates/res-core/src/cpu.rs:216-242 | the penalised ADC, SBC and CMP opcodes decode to those instructions |
| Decoding.LogicPenalties | crates/res-core/src/cpu.rs:216-242 | the penalised AND, EOR and ORA opcodes decode to those instructions |
| Decoding.BrkOnlyAtZero | crates/res-core/src/cpu.rs:836-839 | BRK, which ends the run loop, is the opcode 0x00 and no other |
| Decoding.BranchColumn | crates/res-core/src/cpu.rs:936-1011 | every opcode whose low five bits are 0x10 decodes to a branch |
| Decoding.BranchCodes | crates/res-core/src/cpu.rs:936-1011 | the opcodes with low five bits 0x10 are 0x10, 0x30, ..., 0xF0 |
| Decoding.LowBranches | crates/res-core/src/cpu.rs:945-984 | 0x10, 0x30, 0x50 and 0x70 decode to BPL, BMI, BVC and BVS |
| Decoding.HighBranches | crates/res-core/src/cpu.rs:936-1011 | 0x90, 0xB0, 0xD0 and 0xF0 decode to BCC, BCS, BNE and BEQ |
| Rom.MapperId | src/rom.rs:43 | the mapper number's low nibble is the high nibble of flags 6 and its high nibble that of flags 7 |
| Rom.MirroringOf | src/rom.rs:50-56 | four-screen iff flags 6 bit 3; vertical iff bit 3 clear and bit 0 set; horizontal iff both clear |
| Rom.PrgOffset | src/rom.rs:58-61 | PRG-ROM starts after the 16-byte header, plus 512 trainer bytes when flags 6 bit 2 is set |
| Rom.FromBytes | src/rom.rs:30-80 | `from_bytes`: Truncated below 16 bytes, InvalidHeader without the magic, UnsupportedMapper for mappers other than 0, Truncated when banks and trainer do not fit; on success PRG and CHR are the slices after header and trainer |
| Rom.BuildInes | src/rom.rs:87-96 | the test image is magic, bank counts and flags followed by the payload |
| Rom.ParseBuiltImage | src/rom.rs:98-120 | parsing an image built from trainer, PRG and CHR of the declared sizes gives back that PRG, that CHR, mapper 0 and the mirroring of flags 6 |
| Rom.ShortImageIsTruncated | src/rom.rs:63-68 | an image shorter than header, trainer and banks is reported Truncated |
| Mapper.PrgRead | src/mapper.rs:44-55 | the NROM CPU view answers exactly from 0x8000 up |
| Mapper.PrgMirror16K | src/mapper.rs:49-54 | a 16 KB image appears at both 0x8000 and 0xC000 |
| Mapper.PrgUpperMirror | src/mapper.rs:49-54 | with a 16 KB image, 0xC000 and above read the image at addr - 0xC000 |
| Mapper.PrgLinear32K | src/mapper.rs:49-54 | a 32 KB image is read linearly from 0x8000 |
| Mapper.ChrRead | src/mapper.rs:61-71 | the PPU view answers exactly up to 0x1FFF; there an empty CHR reads as zero and a non-empty CHR returns its byte at `addr` |
| Mapper.ChrWrite | src/mapper.rs:73-84 | CHR keeps its size; CHR-ROM, and addresses above 0x1FFF, are never changed |
| Mapper.ChrRamWriteThenRead | src/mapper.rs:73-84 | CHR-RAM reads back what was written, and other addresses keep their bytes |
| Mapper.NromMapper.New | src/mapper.rs:23-40 | a PRG image of neither 16 nor 32 KB is rejected with its size; otherwise the mapper holds the image, and 8 KB of zeros as CHR when it has CHR-RAM |
| Mapper.NromMapper.constructor | src/mapper.rs:35-39 | the new mapper holds the given PRG, CHR and RAM flag |
| Mapper.NromMapper.CpuRead | src/mapper.rs:44-55 | the object's `cpu_read` is the NROM CPU view of its PRG-ROM |
| Mapper.NromMapper.CpuWrite | src/mapper.rs:57-59 | a write is claimed iff it is at 0x8000 or above, and PRG-ROM never changes |
| Mapper.NromMapper.PpuRead | src/mapper.rs:61-71 | the object's `ppu_read` is the PPU view of its CHR |
| Mapper.NromMapper.PpuWrite | src/mapper.rs:73-84 | a write is claimed iff it is at or below 0x1FFF, and CHR becomes the CHR write of the old contents |
| Mapper.PrgLowerBank | src/mapper.rs:49-54 | with a 16 KB image, 0x8000-0xBFFF read the image at addr - 0x8000 |
| Mapper.PrgUpperBank | src/mapper.rs:49-54 | with a 16 KB image, the address 0x4000 higher reads the same byte |
| ApuStub.WriteRegister | crates/res-core/src/apu.rs:16-20 | a write to 0x4000-0x4017 stores the byte in its register and leaves the others; any other address changes nothing |
| ApuStub.ReadRegister | crates/res-core/src/apu.rs:22-35 | every read gives 0 except 0x4015, which gives the stored status byte |
| ApuStub.StatusReadBack | crates/res-core/src/apu.rs:22-35 | 0x4015 reads back what was last written to it, and a write elsewhere does not change that read |
| ApuStub.Apu.constructor | crates/res-core/src/apu.rs:6-10 | the 24 registers start at zero |
| ApuStub.Apu.Write | crates/res-core/src/apu.rs:16-20 | the register array becomes the register write of the old contents |
| ApuStub.Apu.Read | crates/res-core/src/apu.rs:22-35 | the object's read is the register read of its array |
| PpuCore.NewPpu | src/ppu.rs:29-45 | a new PPU has the given mirroring, both latches clear, address and read buffer zero |
| PpuCore.MirrorVramAddr | src/ppu.rs:182-209 | every nametable address maps to a cell of the 2 KB VRAM |
| PpuCore.MirrorVramLayout | src/ppu.rs:182-209 | the offset inside a 1 KB table is kept; horizontal mirroring maps table t to t / 2, vertical and (unimplemented) four-screen to t mod 2 |
| PpuCore.NametablesShare | src/ppu.rs:182-209 | two nametable addresses share a cell iff they have the same offset and their tables are paired by the mirroring |
| PpuCore.MirrorPaletteAddr | src/ppu.rs:211-217 | every palette address maps to one of the 32 palette cells |
| PpuCore.MirrorPaletteLayout | src/ppu.rs:211-217 | the cell is the address modulo 0x20, less 0x10 for the four sprite backdrops, and never one of 0x10/14/18/1C |
| PpuCore.PaletteBackdropAlias | src/ppu.rs:211-217 | 0x3F10/14/18/1C (and their mirrors) are the same cells as 0x3F00/04/08/0C |
| PpuCore.NormalizePpuAddr | src/ppu.rs:138-140 | a VRAM address is folded into the 14-bit PPU space |
| PpuCore.CellOf | src/ppu.rs:142-180 | addresses below 0x2000 and above 0x3FFF reach no PPU-owned cell, the others a VRAM or palette cell in range |
| PpuCore.MemWrite | src/ppu.rs:162-180 | a PPU memory write changes only VRAM and palette |
| PpuCore.MemWriteThenRead | src/ppu.rs:142-180 | a byte written to 0x2000-0x3FFF reads back, and pattern-table addresses always read 0 |
| PpuCore.UpperNametableMirror | src/ppu.rs:149-173 | 0x3000-0x3EFF read and write the cells of the address 0x1000 lower |
| PpuCore.VramIncrementStep | src/ppu.rs:108-114 | the PPUDATA step is 32 iff PPUCTRL bit 2 is set, 1 otherwise |
| PpuCore.PpuAddrPair | src/ppu.rs:92-102 | two PPUADDR writes from a clear latch load high (6 bits) then low byte into the VRAM address and clear the latch again |
| PpuCore.SetPpuAddrLoads | src/ppu.rs:224-227 | the test helper points the VRAM address at the 14-bit address and changes nothing else but the temporary address |
| PpuCore.StatusReadClears | src/ppu.rs:54-60 | reading PPUSTATUS returns the old status, clears bit 7 only, and clears both latches |
| PpuCore.DataPort | src/ppu.rs:62-103 | register 0x2007 reads and writes go to the PPUDATA port |
| PpuCore.PpuDataReadBuffering | src/ppu.rs:116-130 | below 0x3F00 a read returns the buffer and refills it from the address; from 0x3F00 it returns the palette byte and refills from 0x1000 lower; nothing else changes but the address |
| PpuCore.PpuDataAdvances | src/ppu.rs:116-136 | every PPUDATA read and write advances the VRAM address by the PPUCTRL step |
| PpuCore.PpuDataWriteStores | src/ppu.rs:132-136 | a PPUDATA write stores the byte at the 14-bit address and only the address changes besides |
| PpuCore.OamDataWrite | src/ppu.rs:77-80 | an OAMDATA write stores at OAMADDR and increments it modulo 256, nothing else |
| PpuCore.MemReadFrame | src/ppu.rs:142-160 | a PPU memory read depends only on VRAM, palette and mirroring |
| PpuCore.WriteThenRepoint | src/ppu.rs:132-136 | writing through PPUDATA and pointing back at the address leaves the byte readable there, the buffer and PPUCTRL unchanged |
| PpuCore.NametableRoundTrip | src/ppu.rs:230-239 | write a nametable byte through PPUDATA, point back at it: the first read returns the stale buffer, the second the byte |
| PpuCore.DelayedRead | src/ppu.rs:122-126 | below the palette, the byte at the address comes out one PPUDATA read late |
| PpuCore.BufferedRead | src/ppu.rs:122-128 | below 0x3F00 a read returns the buffer, refills it from the address and advances |
| PpuCore.PaletteRoundTrip | src/ppu.rs:118-121 | a palette byte written through PPUDATA reads back at once, with no buffering |
| PpuCore.Advance | src/ppu.rs:128 | advancing the VRAM address keeps the state well-formed; `PpuCore.StoreThenAdvance` and the `Advances` lemmas state the step |
| PpuCore.ReadPpuData | src/ppu.rs:116-130 | a PPUDATA read keeps the state well-formed; `PpuCore.PpuDataReadAdvances`, `BufferedReadValue` and `BufferedReadRefills` state its effect |
| PpuCore.WritePpuData | src/ppu.rs:132-136 | a PPUDATA write keeps the state well-formed; `PpuCore.PpuDataWriteAdvances` states its effect |
| PpuCore.WriteOamData | src/ppu.rs:77-80 | an OAMDATA write stores the byte at OAMADDR, keeps every other OAM byte, and moves OAMADDR on by one (wrapping) |
| PpuCore.WriteRegister | src/ppu.rs:67-106 | a register write keeps the state well-formed; `PpuCore.DataPort` and `AddrLatchWord` state what it does |
| PpuCore.AddrLatchWord | src/ppu.rs:92-102 | two PPUADDR writes assemble the 14-bit address from the high (6 bits) and low byte |
| PpuCore.SplitAddress | src/ppu.rs:224-227 | splitting an address into the two PPUADDR bytes and assembling them gives its 14-bit form |
| PpuCore.PpuDataWriteAdvances | src/ppu.rs:132-136 | a PPUDATA write advances the VRAM address by the PPUCTRL step |
| PpuCore.PpuDataReadAdvances | src/ppu.rs:116-130 | a PPUDATA read advances the VRAM address by the PPUCTRL step |
| PpuCore.StoreThenAdvance | src/ppu.rs:132-136 | store then advance moves the address by the PPUCTRL step |
| PpuCore.MemWriteKeepsAddress | src/ppu.rs:162-180 | a PPU memory write keeps the VRAM address and PPUCTRL |
| PpuCore.NextReadBelowPalette | src/ppu.rs:116-130 | from an address below 0x3EE0 the next read still starts below the palette |
| PpuCore.BufferedReadValue | src/ppu.rs:122-126 | below 0x3F00 a read returns the buffer |
| PpuCore.BufferedReadRefills | src/ppu.rs:122-126 | below 0x3F00 a read refills the buffer from the address |
| PpuCore.MemRead | src/ppu.rs:142-160 | pattern-table addresses and addresses above 0x3FFF read 0, nametable addresses read the mirrored VRAM cell, palette addresses the mirrored palette cell |
| PpuCore.ReadRegister | src/ppu.rs:51-65 | OAMDATA reads the OAM byte at OAMADDR, PPUDATA is the buffered data read, the write-only registers read 0 and change nothing |
| PpuCore.WritePpuCtrl | src/ppu.rs:69-73 | a PPUCTRL write stores the byte and copies its nametable bits into the temporary address, nothing else |
| PpuCore.CtrlNametable | src/ppu.rs:71-72 | the byte's bits 0-1 land in bits 10-11 of the temporary address, all other bits kept |
| PpuCore.WritePpuScroll | src/ppu.rs:81-91 | a PPUSCROLL write sets coarse X (first) or fine and coarse Y (second) and flips the latch, nothing else |
| PpuCore.ScrollX | src/ppu.rs:83 | the byte's top five bits become coarse X (bits 0-4), all other bits kept |
| PpuCore.ScrollY | src/ppu.rs:86-88 | the byte's low three bits become fine Y (bits 12-14) and its top five coarse Y (bits 5-9), all other bits kept |
| PpuCore.WritePpuAddr | src/ppu.rs:92-102 | a PPUADDR write sets the high six bits (first) or the low byte (second, which also loads the VRAM address) and flips the latch, nothing else |
| PpuCore.AddrHigh | src/ppu.rs:94-95 | the byte's low six bits become the high byte of the temporary address, its low byte kept |
| PpuCore.AddrLow | src/ppu.rs:98 | the byte becomes the low byte of the temporary address, its high byte kept |
| PpuDevice.Ppu.constructor | src/ppu.rs:29-45 | the new object is the new PPU state of the given mirroring |
| PpuDevice.Ppu.SetMirroring | src/ppu.rs:47-49 | only the mirroring changes |
| PpuDevice.Ppu.MemRead | src/ppu.rs:142-160 | the object's `ppu_mem_read` is the PPU memory read of its state |
| PpuDevice.Ppu.MemWrite | src/ppu.rs:162-180 | the arrays change as the PPU memory write of the old state says |
| PpuDevice.Ppu.ReadPpuData | src/ppu.rs:116-130 | value and new state are the PPUDATA read of the old state |
| PpuDevice.Ppu.AdvanceVramAddr | src/ppu.rs:128 | the VRAM address advances by the PPUCTRL step and nothing else changes |
| PpuDevice.Ppu.WritePpuData | src/ppu.rs:132-136 | the new state is the PPUDATA write of the old one |
| PpuDevice.Ppu.ReadRegister | src/ppu.rs:51-65 | value and new state are the register read of the old state |
| PpuDevice.Ppu.PeekRegister | src/ppu.rs:51-65 | the value a register read would return, with no state change |
| PpuDevice.Ppu.WriteRegister | src/ppu.rs:67-106 | the new state is the register write of the old one |
| PpuDevice.Ppu.WritePpuCtrl | src/ppu.rs:69-73 | PPUCTRL and the nametable bits of the temporary address change as the write says |
| PpuDevice.Ppu.WriteOamData | src/ppu.rs:77-80 | OAM and OAMADDR change as the OAMDATA write says |
| PpuDevice.Ppu.WriteScroll | src/ppu.rs:81-91 | the new state is the pure model's PPUSCROLL write applied to the old state |
| PpuDevice.Ppu.WriteAddr | src/ppu.rs:92-102 | the new state is the pure model's PPUADDR write applied to the old state |
| PpuDevice.Ppu.StoreVram | src/ppu.rs:162-180 | only that VRAM cell changes |
| PpuDevice.Ppu.StorePalette | src/ppu.rs:162-180 | only that palette cell changes |
| CpuBus.RegionOf | crates/res-core/src/cpu.rs:116-134 | 0x4000-0x4017 go to the APU, 0x2000-0x3FFF to the PPU register `0x2000 + (addr - 0x2000) % 8`, 0x8000 and up to the cartridge, the rest to RAM |
| CpuBus.Read | crates/res-core/src/cpu.rs:116-134 | only a PPU register read changes the bus, and then only the PPU |
| CpuBus.Write | crates/res-core/src/cpu.rs:136-153 | a write never changes the cartridge's PRG-ROM |
| CpuBus.PeekRegions | crates/res-core/src/cpu.rs:116-134 | a read returns the APU register, the PPU register, the mapper's byte or the RAM cell, by region |
| CpuBus.ReadWord | crates/res-core/src/cpu.rs:102-106 | a word read is the little-endian pair at `pos` and `pos + 1` (wrapping) |
| CpuBus.WriteMemory | crates/res-core/src/cpu.rs:150-151 | a RAM write updates exactly that cell |
| CpuBus.ReadMemory | crates/res-core/src/cpu.rs:131 | a RAM read returns the cell and changes nothing |
| CpuBus.MemoryWriteThenRead | crates/res-core/src/cpu.rs:1172-1183 | a RAM byte written reads back, and other RAM cells keep their bytes |
| CpuBus.WordRoundTrip | crates/res-core/src/cpu.rs:1186-1199 | a word written to RAM reads back as the same word |
| CpuBus.PpuRegisterMirror | crates/res-core/src/cpu.rs:119-122 | every address in 0x2000-0x3FFF selects register 0x2000 + (addr AND 7) |
| CpuBus.DevicesAreSeparate | crates/res-core/src/cpu.rs:1215-1226 | an APU write changes only the APU, a PPU write only the PPU, a RAM write only RAM |
| CpuBus.ApuThroughBus | crates/res-core/src/cpu.rs:1202-1212 | through the bus, 0x4015 reads back what was written and other APU registers read 0 |
| CpuBus.CartridgeReadOnly | crates/res-core/src/cpu.rs:142-148 | with a cartridge, 0x8000 and up read the mapper's byte and a write there changes nothing |
| CpuBus.WriteWord | crates/res-core/src/cpu.rs:108-113 | a word write through the bus keeps the bus well-formed |
| CpuBus.MemoryWriteKeepsOthers | crates/res-core/src/cpu.rs:150-151 | a RAM write leaves the byte read at every other address unchanged |
| CpuBus.PeekMemory | crates/res-core/src/cpu.rs:131 | a RAM address reads its RAM cell |
| CpuBus.CellUpdate | crates/res-core/src/cpu.rs:150-151 | updating the RAM cell of one address leaves the cell of every other address |
| Engine.Read | crates/res-core/src/cpu.rs:116-134 | the byte read is the side-effect-free view, and only the bus may change |
| Engine.Write | crates/res-core/src/cpu.rs:136-153 | only the bus changes |
| Engine.ZeroPageIsRam | crates/res-core/src/cpu.rs:270-285 | the zero-page snapshot used for pointers holds what the bus returns there |
| Engine.PushThenPop | crates/res-core/src/cpu.rs:594-602 | a pop straight after a push returns the pushed byte and restores SP |
| Engine.PushWordThenPopWord | crates/res-core/src/cpu.rs:604-616 | a word popped straight after it was pushed is that word, and the registers are restored |
| Engine.PushedBytesPopAsWord | crates/res-core/src/cpu.rs:1164-1169 | pushing 0x55 then 0x66 and popping a word gives 0x5566 |
| Engine.Adder | crates/res-core/src/cpu.rs:544-570 | ADC and SBC change only A and the status register |
| Engine.AddOperand | crates/res-core/src/cpu.rs:357-361 | ADC adds the byte at the effective address, changing registers as the adder says and nothing but the bus |
| Engine.SubtractOperand | crates/res-core/src/cpu.rs:351-355 | SBC adds the complement of the byte at the effective address |
| Engine.BitTest | crates/res-core/src/cpu.rs:618-630 | BIT changes only the status register |
| Engine.TakeBranch | crates/res-core/src/cpu.rs:517-529 | a branch whose condition fails changes nothing and costs nothing extra |
| Engine.Execute | crates/res-core/src/cpu.rs:816-1054 | the handler of any instruction leaves the cycle count to the loop, adds at most two extra cycles and only for branches, and changes PC only for jumps, returns and branches |
| Engine.AdderCarrySum | crates/res-core/src/cpu.rs:544-570 | after ADC, C and A together are the exact 9-bit sum of old A, M and C |
| Engine.AdderFlags | crates/res-core/src/cpu.rs:544-570 | after ADC, V is `(M ^ A') & (A' ^ A) & 0x80 != 0` and Z, N follow A' |
| Engine.AdderOverflowFormula | crates/res-core/src/cpu.rs:557-566 | the sign rule for V equals the source's bit formula |
| Engine.SubtractFlags | crates/res-core/src/cpu.rs:351-355 | after SBC, A is A - M - borrow and C is set iff A >= M + borrow |
| Engine.BitStatusFlags | crates/res-core/src/cpu.rs:618-630 | BIT sets Z iff A AND M is zero, N to bit 7 and V to bit 6 of M |
| Engine.RotateMemoryFlags | crates/res-core/src/cpu.rs:413-470 | ROL/ROR on memory: C takes the bit rotated out, N follows the result, Z keeps its old value |
| Engine.ShiftMemoryFlags | crates/res-core/src/cpu.rs:374-411 | ASL/LSR on memory: C takes the bit shifted out, Z and N follow the result |
| Engine.PageChangedIsHighByte | crates/res-core/src/cpu.rs:517-529 | two addresses are in different pages iff their high bytes differ |
| Engine.TakenBranch | crates/res-core/src/cpu.rs:517-529 | a taken branch moves PC by the signed offset byte at PC |
| Engine.SteppedMemory | crates/res-core/src/cpu.rs:489-505 | proof step only: unfolds `Engine.StepMemory` into its operand read, its write-back of the byte plus `delta` and its Z/N update, for `Processor.Cpu.StepMemory` and `Engine.StepMemoryWrites` |
| Engine.ExecuteClearFlag | crates/res-core/src/cpu.rs:826-829 | dispatch only, an unfolding of `Engine.Execute`: the arm for `ClearFlag(f)` runs `SetStatus(m, With(m.regs.status, FlagBit(f), false))` and adds no extra cycles |
| Engine.ExecuteSetFlag | crates/res-core/src/cpu.rs:830-832 | dispatch only, an unfolding of `Engine.Execute`: the arm for `SetFlag(f)` runs `SetStatus(m, With(m.regs.status, FlagBit(f), true))` and adds no extra cycles |
| Engine.ExecuteTax | crates/res-core/src/cpu.rs:834 | dispatch only, an unfolding of `Engine.Execute`: the arm for `Tax` runs `SetRegister(m, RegX, m.regs.a)` and adds no extra cycles |
| Engine.ExecuteTay | crates/res-core/src/cpu.rs:1029-1032 | dispatch only, an unfolding of `Engine.Execute`: the arm for `Tay` runs `SetRegister(m, RegY, m.regs.a)` and adds no extra cycles |
| Engine.ExecuteTsx | crates/res-core/src/cpu.rs:1033-1036 | dispatch only, an unfolding of `Engine.Execute`: the arm for `Tsx` runs `SetRegister(m, RegX, m.regs.sp)` and adds no extra cycles |
| Engine.ExecuteTxa | crates/res-core/src/cpu.rs:1037-1040 | dispatch only, an unfolding of `Engine.Execute`: the arm for `Txa` runs `SetRegister(m, RegA, m.regs.x)` and adds no extra cycles |
| Engine.ExecuteTxs | crates/res-core/src/cpu.rs:1041-1043 | dispatch only, an unfolding of `Engine.Execute`: the arm for `Txs` runs `m.(regs := m.regs.(sp := m.regs.x))` and adds no extra cycles |
| Engine.ExecuteTya | crates/res-core/src/cpu.rs:1044-1047 | dispatch only, an unfolding of `Engine.Execute`: the arm for `Tya` runs `SetRegister(m, RegA, m.regs.y)` and adds no extra cycles |
| Engine.ExecuteInx | crates/res-core/src/cpu.rs:835 | dispatch only, an unfolding of `Engine.Execute`: the arm for `Inx` runs `SetRegister(m, RegX, m.regs.x + 1)` and adds no extra cycles |
| Engine.ExecuteIny | crates/res-core/src/cpu.rs:887 | dispatch only, an unfolding of `Engine.Execute`: the arm for `Iny` runs `SetRegister(m, RegY, m.regs.y + 1)` and adds no extra cycles |
| Engine.ExecuteDex | crates/res-core/src/cpu.rs:891-893 | dispatch only, an unfolding of `Engine.Execute`: the arm for `Dex` runs `SetRegister(m, RegX, m.regs.x - 1)` and adds no extra cycles |
| Engine.ExecuteDey | crates/res-core/src/cpu.rs:894-896 | dispatch only, an unfolding of `Engine.Execute`: the arm for `Dey` runs `SetRegister(m, RegY, m.regs.y - 1)` and adds no extra cycles |
| Engine.ExecuteInc | crates/res-core/src/cpu.rs:884-886 | dispatch only, an unfolding of `Engine.Execute`: the arm for `Inc` runs `StepMemory(m, mode, 1)` and adds no extra cycles |
| Engine.ExecuteDec | crates/res-core/src/cpu.rs:888-890 | dispatch only, an unfolding of `Engine.Execute`: the arm for `Dec` runs `StepMemory(m, mode, 0xFF)` and adds no extra cycles |
| Engine.ExecuteAdc | crates/res-core/src/cpu.rs:853-855 | dispatch only, an unfolding of `Engine.Execute`: the arm for `Adc` runs `AddOperand(m, mode)` and adds no extra cycles |
| Engine.ExecuteSbc | crates/res-core/src/cpu.rs:856-858 | dispatch only, an unfolding of `Engine.Execute`: the arm for `Sbc` runs `SubtractOperand(m, mode)` and adds no extra cycles |
| Engine.ExecuteLogic | crates/res-core/src/cpu.rs:859-867 | dispatch only, an unfolding of `Engine.Execute`: the arm for `ins` runs `LogicOperand(m, mode, ins)` and adds no extra cycles |
| Engine.ExecuteShiftAccumulator | crates/res-core/src/cpu.rs:868-880 | dispatch only, an unfolding of `Engine.Execute`: the arm for `ins` runs `ShiftAccumulator(m, ins)` and adds no extra cycles |
| Engine.ExecuteAsl | crates/res-core/src/cpu.rs:869-871 | dispatch only, an unfolding of `Engine.Execute`: the arm for `Asl` runs `ShiftMemory(m, mode, Asl)` and adds no extra cycles |
| Engine.ExecuteLsr | crates/res-core/src/cpu.rs:873-875 | dispatch only, an unfolding of `Engine.Execute`: the arm for `Lsr` runs `ShiftMemory(m, mode, Lsr)` and adds no extra cycles |
| Engine.ExecuteRol | crates/res-core/src/cpu.rs:877-879 | dispatch only, an unfolding of `Engine.Execute`: the arm for `Rol` runs `ShiftMemory(m, mode, Rol)` and adds no extra cycles |
| Engine.ExecuteRor | crates/res-core/src/cpu.rs:881-883 | dispatch only, an unfolding of `Engine.Execute`: the arm for `Ror` runs `ShiftMemory(m, mode, Ror)` and adds no extra cycles |
| Engine.ExecuteCompare | crates/res-core/src/cpu.rs:897-903 | dispatch only, an unfolding of `Engine.Execute`: the arm for `Compare(reg)` runs `CompareOperand(m, mode, reg)` and adds no extra cycles |
| Engine.ExecuteBit | crates/res-core/src/cpu.rs:1012-1014 | dispatch only, an unfolding of `Engine.Execute`: the arm for `Bit` runs `BitTest(m, mode)` and adds no extra cycles |
| Engine.ExecutePha | crates/res-core/src/cpu.rs:840 | dispatch only, an unfolding of `Engine.Execute`: the arm for `Pha` runs `Push(m, m.regs.a)` and adds no extra cycles |
| Engine.ExecutePla | crates/res-core/src/cpu.rs:841-843 | dispatch only, an unfolding of `Engine.Execute`: the arm for `Pla` runs `PullA(m)` and adds no extra cycles |
| Engine.ExecutePhp | crates/res-core/src/cpu.rs:844-846 | dispatch only, an unfolding of `Engine.Execute`: the arm for `Php` runs `Push(m, Alu.PhpStatus(m.regs.status))` and adds no extra cycles |
| Engine.ExecutePlp | crates/res-core/src/cpu.rs:847-849 | dispatch only, an unfolding of `Engine.Execute`: the arm for `Plp` runs `PullStatus(m)` and adds no extra cycles |
| Engine.ExecuteJmp | crates/res-core/src/cpu.rs:904-907 | dispatch only, an unfolding of `Engine.Execute`: the arm for `Jmp` runs `Jump(m)` and adds no extra cycles |
| Engine.ExecuteJmpIndirect | crates/res-core/src/cpu.rs:908-920 | dispatch only, an unfolding of `Engine.Execute`: the arm for `JmpIndirect` runs `JumpIndirect(m)` and adds no extra cycles |
| Engine.ExecuteJsr | crates/res-core/src/cpu.rs:921-925 | dispatch only, an unfolding of `Engine.Execute`: the arm for `Jsr` runs `JumpToSubroutine(m)` and adds no extra cycles |
| Engine.ExecuteRts | crates/res-core/src/cpu.rs:926-928 | dispatch only, an unfolding of `Engine.Execute`: the arm for `Rts` runs `ReturnFromSubroutine(m)` and adds no extra cycles |
| Engine.ExecuteRti | crates/res-core/src/cpu.rs:929-935 | dispatch only, an unfolding of `Engine.Execute`: the arm for `Rti` runs `ReturnFromInterrupt(m)` and adds no extra cycles |
| Engine.PageCrossedBy | crates/res-core/src/cpu.rs:194-214 | the page-cross test on a machine is the pure page-cross test on its operand bytes, X, Y and zero page |
| Engine.SetStatus | crates/res-core/src/cpu.rs:531-537 | P becomes the given byte; every other register and the bus are unchanged |
| Engine.SetRegister | crates/res-core/src/cpu.rs:539-542 | the named register holds the value, Z and N are taken from it, and SP, PC, the cycles and the bus are unchanged |
| Engine.Push | crates/res-core/src/cpu.rs:594-597 | a push lowers SP by one (wrapping) and changes no other register; `Engine.PushThenPop` and `EngineStep.PushStores` state where the byte goes |
| Engine.Pop | crates/res-core/src/cpu.rs:599-602 | a pop raises SP by one (wrapping), changes no other register, and returns the byte in page one just above the old SP |
| Engine.PushWord | crates/res-core/src/cpu.rs:604-609 | a word push lowers SP by two and changes no other register |
| Engine.PopWord | crates/res-core/src/cpu.rs:611-616 | a word pop raises SP by two and changes no other register |
| Engine.LoadRegister | crates/res-core/src/cpu.rs:292-311 | LDA/LDX/LDY: the register holds the byte at the operand address, Z and N come from it, SP and PC are kept |
| Engine.StoreRegister | crates/res-core/src/cpu.rs:328-331 | STA/STX/STY change no register or flag; `Engine.StoreRegisterStores` states the byte stored and that every other address keeps its byte |
| Engine.AddToA | crates/res-core/src/cpu.rs:544-570 | `add_to_register_a` changes the registers exactly as `Engine.Adder` (only A and P) and leaves the bus |
| Engine.LogicOperand | crates/res-core/src/cpu.rs:333-349 | AND/EOR/ORA: A becomes the combination of A with the operand byte, Z and N come from it, nothing else changes in the registers |
| Engine.ShiftAccumulator | crates/res-core/src/cpu.rs:363-487 | A becomes the shifted or rotated byte, C the bit shifted out, Z and N follow the new A; no other register and not the bus changes |
| Engine.ShiftMemory | crates/res-core/src/cpu.rs:374-470 | the memory shifts change only P among the registers; `Engine.ShiftMemoryStores` states the byte written back, `Engine.ShiftMemoryFlags` and `Engine.RotateMemoryFlags` the flags |
| Engine.StepMemory | crates/res-core/src/cpu.rs:489-505 | INC/DEC change only P among the registers; `Engine.StepMemoryStores` states the byte written back, its flags, and that every other address keeps its byte |
| Engine.CompareOperand | crates/res-core/src/cpu.rs:650-660 | CMP/CPX/CPY change only P, which is the compare of the register with the operand byte |
| Engine.PullA | crates/res-core/src/cpu.rs:645-648 | PLA: A becomes the byte just above SP, SP rises by one, Z and N come from A, X, Y and PC are kept |
| Engine.PullStatus | crates/res-core/src/cpu.rs:632-636 | PLP: P becomes the byte just above SP with B cleared and bit 5 set, SP rises by one, nothing else changes |
| Engine.SetPc | crates/res-core/src/cpu.rs:904-907 | only PC changes, to the given address |
| Engine.Jump | crates/res-core/src/cpu.rs:904-907 | JMP absolute: PC becomes the little-endian word at the operand; nothing else changes |
| Engine.JumpIndirect | crates/res-core/src/cpu.rs:908-920 | JMP indirect: PC becomes the word at the pointer, except that a pointer at xxFF takes its high byte from xx00; nothing else changes |
| Engine.JumpToSubroutine | crates/res-core/src/cpu.rs:921-925 | JSR pushes its return address (the address of its own last byte), lowers SP by two and sets PC to the operand word, read after the push; `Engine.JsrThenRts` states the return |
| Engine.ReturnFromSubroutine | crates/res-core/src/cpu.rs:926-928 | RTS raises SP by two and sets PC to the pulled word plus one |
| Engine.ReturnFromInterrupt | crates/res-core/src/cpu.rs:929-935 | RTI raises SP by three and sets P to the first pulled byte with B cleared and bit 5 set; A, X and Y are kept |
| Engine.BranchBy | crates/res-core/src/cpu.rs:517-529 | a taken branch changes only PC, to the signed offset from the byte after the offset, and leaves the bus |
| Engine.AdderCarry | crates/res-core/src/cpu.rs:544-570 | the status after ADC holds the adder's carry |
| Engine.AdderOverflow | crates/res-core/src/cpu.rs:544-570 | the status after ADC holds the adder's overflow |
| Engine.AdderSum | crates/res-core/src/cpu.rs:544-570 | the carry flag and A after ADC together form the 9-bit sum |
| Engine.BorrowResult | crates/res-core/src/cpu.rs:351-355 | SBC leaves A minus M minus the borrow |
| Engine.BorrowCarry | crates/res-core/src/cpu.rs:351-355 | SBC's carry is set iff no borrow was needed |
| Engine.RotateStatus | crates/res-core/src/cpu.rs:413-487 | the rotate status takes C from the rotated-out bit and keeps Z |
| Engine.ShiftStatus | crates/res-core/src/cpu.rs:363-411 | the shift status takes C from the shifted-out bit |
| Engine.JsrThenRts | crates/res-core/src/cpu.rs:921-928 | RTS straight after JSR continues two bytes past JSR's operand address, with SP and every other register as before the call |
| Engine.JsrPushesReturn | crates/res-core/src/cpu.rs:921-925 | JSR leaves on top of the stack the address of its own last byte |
| Engine.PopWordReadsStack | crates/res-core/src/cpu.rs:611-616 | what a word pop returns depends only on the bus and SP |
| Engine.ExecuteAslAcc | crates/res-core/src/cpu.rs:868 | dispatch only, an unfolding of `Engine.Execute`: the arm for `AslAcc` runs `ShiftAccumulator(m, AslAcc)` and adds no extra cycles |
| Engine.ExecuteLsrAcc | crates/res-core/src/cpu.rs:872 | dispatch only, an unfolding of `Engine.Execute`: the arm for `LsrAcc` runs `ShiftAccumulator(m, LsrAcc)` and adds no extra cycles |
| Engine.ExecuteRolAcc | crates/res-core/src/cpu.rs:876 | dispatch only, an unfolding of `Engine.Execute`: the arm for `RolAcc` runs `ShiftAccumulator(m, RolAcc)` and adds no extra cycles |
| Engine.ExecuteRorAcc | crates/res-core/src/cpu.rs:880 | dispatch only, an unfolding of `Engine.Execute`: the arm for `RorAcc` runs `ShiftAccumulator(m, RorAcc)` and adds no extra cycles |
| Engine.ExecuteCmp | crates/res-core/src/cpu.rs:897-899 | dispatch only, an unfolding of `Engine.Execute`: the arm for `Compare(RegA)` runs `CompareOperand(m, mode, RegA)` and adds no extra cycles |
| Engine.ExecuteCpx | crates/res-core/src/cpu.rs:903 | dispatch only, an unfolding of `Engine.Execute`: the arm for `Compare(RegX)` runs `CompareOperand(m, mode, RegX)` and adds no extra cycles |
| Engine.ExecuteCpy | crates/res-core/src/cpu.rs:900-902 | dispatch only, an unfolding of `Engine.Execute`: the arm for `Compare(RegY)` runs `CompareOperand(m, mode, RegY)` and adds no extra cycles |
| Engine.StoreRegisterStores | crates/res-core/src/cpu.rs:328-331 | on a RAM address, STA/STX/STY leave the register's value at the operand address and every other address reads as before |
| Engine.StepMemoryStores | crates/res-core/src/cpu.rs:489-505 | on a RAM address, INC/DEC leave the old byte plus one (minus one) at the operand address, set Z and N from it, and every other address reads as before |
| Engine.ShiftMemoryStores | crates/res-core/src/cpu.rs:374-470 | on a RAM address, ASL/LSR/ROL/ROR leave the shifted or rotated old byte at the operand address and every other address reads as before |
| Engine.StepMemoryWrites | crates/res-core/src/cpu.rs:489-505 | INC/DEC's bus is the RAM write of the operand plus `delta`, and its status is the Z/N update for that byte |
| Engine.WrittenAt | crates/res-core/src/cpu.rs:136-153 | after a RAM write, the written address reads the new byte and every other address reads as before |
| Engine.AddressModes | crates/res-core/src/cpu.rs:244-290 | an immediate operand is the byte at PC, the zero-page modes stay below 0x100, and Absolute is the little-endian word at PC |
| Engine.PageCrossed | crates/res-core/src/cpu.rs:194-214 | only Absolute,X, Absolute,Y and (zp),Y can report a page cross for the operand at PC |
| Engine.BitStatus | crates/res-core/src/cpu.rs:618-630 | BIT changes no status flag but Z, N and V |
| EngineStep.Resume | crates/res-core/src/cpu.rs:795-1063 | a run that has stopped stays stopped |
| EngineStep.TurnFails | crates/res-core/src/cpu.rs:801-809 | a turn fails iff the code is missing from the table or has no handler, and then reports the error and keeps the state |
| EngineStep.TurnHalts | crates/res-core/src/cpu.rs:836-839 | a turn halts iff the code is BRK, counting only BRK's base cycles |
| EngineStep.TurnCycles | crates/res-core/src/cpu.rs:811-815 | any other instruction runs on and costs its base cycles, one more on a page-cross penalty, up to two more for a branch |
| EngineStep.TurnAdvancesPc | crates/res-core/src/cpu.rs:1056-1058 | an instruction that does not jump leaves PC just past its operand bytes |
| EngineStep.FinishPc | crates/res-core/src/cpu.rs:1056-1058 | when the handler left PC alone, PC moves on by the instruction's length |
| EngineStep.StepFails | crates/res-core/src/cpu.rs:796-809 | a step fails iff the code at PC is unknown, reporting that code and its address with PC one past it |
| EngineStep.StepHalts | crates/res-core/src/cpu.rs:836-839 | a step halts iff the code at PC is BRK; PC is one past it and only BRK's cycles are counted |
| EngineStep.StepCycles | crates/res-core/src/cpu.rs:811-815 | a known non-BRK step runs on and costs between its base cycles and three more |
| EngineStep.StepIsTurn | crates/res-core/src/cpu.rs:796-815 | a step fetches the code, moves PC past it and computes the penalty before running the handler |
| EngineStep.TurnKeepsCycles | crates/res-core/src/cpu.rs:1060 | a turn never lowers the cycle count |
| EngineStep.StepKeepsCycles | crates/res-core/src/cpu.rs:1060 | a step never lowers the cycle count |
| EngineStep.RunKeepsCycles | crates/res-core/src/cpu.rs:795-1063 | a run of any length never lowers the cycle count |
| EngineStep.StackPage | crates/res-core/src/cpu.rs:594-597 | the stack always lives in page 0x01 |
| EngineStep.StackSlotsDistinct | crates/res-core/src/cpu.rs:700-707 | the three slots an interrupt pushes are distinct cells |
| EngineStep.PushStores | crates/res-core/src/cpu.rs:594-597 | a push stores the byte at 0x0100 + SP |
| EngineStep.PushKeeps | crates/res-core/src/cpu.rs:594-597 | a push leaves every other address unchanged |
| EngineStep.PushedHigh | crates/res-core/src/cpu.rs:700-707 | an interrupt pushes the high byte of PC first |
| EngineStep.PushedLow | crates/res-core/src/cpu.rs:700-707 | then the low byte of PC |
| EngineStep.PushedStatus | crates/res-core/src/cpu.rs:700-707 | then the status with B equal to the break flag and B2 set |
| EngineStep.PushedKeeps | crates/res-core/src/cpu.rs:700-707 | an interrupt changes nothing outside the stack page |
| EngineStep.InterruptBus | crates/res-core/src/cpu.rs:709-730 | an interrupt's memory effect is exactly its three pushes |
| EngineStep.InterruptStack | crates/res-core/src/cpu.rs:709-730 | after an interrupt the stack holds PC high, PC low and the pushed status, from SP down |
| EngineStep.InterruptRegisters | crates/res-core/src/cpu.rs:709-730 | an interrupt lowers SP by three, sets I keeping the other flags, and leaves A, X, Y and the cycles |
| EngineStep.InterruptVector | crates/res-core/src/cpu.rs:709-730 | PC becomes the word the vector held before the pushes |
| EngineStep.IrqMasked | crates/res-core/src/cpu.rs:715-724 | an IRQ is taken iff I is clear, and a masked one changes nothing |
| EngineStep.IrqNotNested | crates/res-core/src/cpu.rs:715-724 | a second IRQ straight after a taken one is masked |
| EngineStep.InterruptExample | crates/res-core/src/cpu.rs:1429-1493 | from PC 0x1234, status 0, SP 0xFD and vector 0x4567: 0x12, 0x34 and 0x20 (0x30 for BRK) at 0x01FD-0x01FB, SP 0xFA, I set, PC 0x4567 |
| EngineStep.PrgImage | crates/res-core/src/cpu.rs:667-683 | copying a PRG image leaves the lower 32 KB of RAM untouched |
| EngineStep.LoadPrgRomResult | crates/res-core/src/cpu.rs:667-683 | `load_prg_rom` accepts exactly 16 and 32 KB, reports the size otherwise with RAM unchanged, unplugs the cartridge and keeps registers, cycles, APU, PPU and the lower half |
| EngineStep.LoadPrgRomMatchesMapper | crates/res-core/src/cpu.rs:667-683 | after `load_prg_rom` every address from 0x8000 reads what the NROM mapper would return |
| EngineStep.PrgImageCell | crates/res-core/src/cpu.rs:667-683 | each RAM cell from 0x8000 of the copied image is the NROM mapper's byte for that address |
| EngineStep.LoadCartridgeErrors | crates/res-core/src/cpu.rs:177-192 | `load_cartridge` fails iff the mapper is not 0 or the PRG size is invalid, with the matching error, and then changes nothing |
| EngineStep.LoadCartridgeMaps | crates/res-core/src/cpu.rs:177-192 | an accepted cartridge is read through the mapper from 0x8000, the PPU gets its mirroring, and registers, cycles, RAM and APU stay |
| EngineStep.PrgLoadersAgree | crates/res-core/src/cpu.rs:177-192 | `load_prg_rom` and `load_cartridge` give the same view of the upper half |
| EngineStep.MapperResetVector | crates/res-core/src/cpu.rs:1580-1591 | the reset vector of a PRG image is its fourth- and third-last bytes |
| EngineStep.PrgThenReset | crates/res-core/src/cpu.rs:1580-1591 | reset after `load_prg_rom` starts at the image's reset vector |
| EngineStep.CartridgeThenReset | crates/res-core/src/cpu.rs:1594-1617 | reset after `load_cartridge` starts at the image's reset vector |
| EngineStep.FreshReset | crates/res-core/src/cpu.rs:685-694 | reset of a new CPU gives the new CPU |
| EngineStep.LoadPlaces | crates/res-core/src/cpu.rs:662-665 | `load` puts the program at 0x0600 and leaves the other cells below the vector and the registers |
| EngineStep.LoadThenReset | crates/res-core/src/cpu.rs:662-694 | without a cartridge, reset after `load` starts at 0x0600 |
| EngineStep.LoadKeepsCartridgeVector | crates/res-core/src/cpu.rs:136-148 | with a cartridge, `load`'s vector write is absorbed and the reset vector stays the cartridge's |
| EngineStep.ResetAfterLoad | crates/res-core/src/cpu.rs:685-694 | reset after `load` gives power-on registers with PC 0x0600, no cycles and the loaded bus |
| EngineStep.LoadedByte | crates/res-core/src/cpu.rs:662-665 | each RAM address below the vector reads the program byte or its old byte |
| EngineStep.LdaImmediateStep | crates/res-core/src/cpu.rs:292-297 | LDA #v at 0x0600 loads v with Z and N, moves PC to 0x0602 and costs 2 cycles |
| EngineStep.SimpleProgramStep2 | crates/res-core/src/cpu.rs:313-316 | TAX at 0x0602 copies A to X, moves PC to 0x0603 and costs 2 cycles |
| EngineStep.SimpleProgramStep3 | crates/res-core/src/cpu.rs:836-839 | BRK at 0x0603 halts with PC 0x0604 after 7 cycles |
| EngineStep.SimpleProgramRuns | crates/res-core/src/cpu.rs:1496-1504 | LDA #1, TAX, BRK halts after 11 cycles with A = X = 1 |
| EngineStep.BranchProgramStep2 | crates/res-core/src/cpu.rs:985-993 | a taken BEQ +2 at 0x0602 lands at 0x0606 for 3 cycles |
| EngineStep.ShortForwardBranch | crates/res-core/src/cpu.rs:517-529 | a taken branch by +2 from 0x0603 lands at 0x0606 without a page cross |
| EngineStep.BrkStep | crates/res-core/src/cpu.rs:836-839 | BRK anywhere halts with PC one past it after 7 cycles |
| EngineStep.BranchProgramRuns | crates/res-core/src/cpu.rs:1507-1515 | LDA #0, BEQ +2, BRK halts at 0x0607 after 12 cycles |
| EngineStep.PageCrossProgramStep1 | crates/res-core/src/cpu.rs:811-815 | LDA 0x00FF,Y with Y = 1 reads 0x0100 and pays the page-cross cycle |
| EngineStep.PageCrossProgramRuns | crates/res-core/src/cpu.rs:1518-1529 | LDA 0x00FF,Y then BRK halts after 12 cycles with A the byte at 0x0100 |
| EngineStep.UnsupportedProgramFails | crates/res-core/src/cpu.rs:1531-1544 | opcode 0x02 at 0x0600 fails, naming 0x02 and 0x0600 |
| EngineStep.SimpleProgramCycles | crates/res-core/src/cpu.rs:1496-1504 | with `OPCODES_MAP`, `load`, `reset` and the run of LDA #1, TAX, BRK halt after 11 cycles with A = X = 1 |
| EngineStep.BranchProgramCycles | crates/res-core/src/cpu.rs:1507-1515 | the loaded branch program halts after 12 cycles |
| EngineStep.PageCrossProgramCycles | crates/res-core/src/cpu.rs:1518-1529 | with `OPCODES_MAP`, the loaded page-cross program halts after 12 cycles with A = 7 |
| EngineStep.UnsupportedProgramReported | crates/res-core/src/cpu.rs:1531-1544 | with `OPCODES_MAP`, the loaded program 0x02 fails with UnsupportedOpcode 0x02 at 0x0600 |
| EngineStep.Step | crates/res-core/src/cpu.rs:795-1063 | one step keeps the machine well-formed; `EngineStep.StepFails`, `StepHalts`, `StepCycles` and `StepBy` state what it computes |
| EngineStep.Turn | crates/res-core/src/cpu.rs:801-1060 | one turn keeps the machine well-formed; `EngineStep.TurnFails`, `TurnHalts`, `TurnCycles` and `TurnAdvancesPc` state what it computes |
| EngineStep.Finish | crates/res-core/src/cpu.rs:1056-1060 | finishing a turn keeps the machine well-formed; `EngineStep.FinishPc` states the PC it settles |
| EngineStep.Run | crates/res-core/src/cpu.rs:789-1064 | a run keeps the machine well-formed; `EngineStep.RunKeepsCycles` and the `RunsAs` lemmas state how it unfolds |
| EngineStep.RunsAsStart | crates/res-core/src/cpu.rs:795 | before the first step the run from m0 is the run of the remaining fuel |
| EngineStep.RunsAsStep | crates/res-core/src/cpu.rs:795-1063 | one more step keeps the run equal to the remaining run |
| EngineStep.RunsAsEnd | crates/res-core/src/cpu.rs:795-1063 | when the fuel is spent or the step stopped, the outcome is the run's |
| EngineStep.StepBy | crates/res-core/src/cpu.rs:796-815 | a step is the turn of the fetched code with PC past it and the page-cross penalty |
| EngineStep.ResumeKeepsCycles | crates/res-core/src/cpu.rs:1060 | resuming a run never lowers the cycle count |
| EngineStep.PushInterruptState | crates/res-core/src/cpu.rs:700-707 | the interrupt pushes keep the machine well-formed; `EngineStep.PushedHigh`, `PushedLow`, `PushedStatus` and `PushedKeeps` state the bytes |
| EngineStep.Interrupt | crates/res-core/src/cpu.rs:709-730 | an interrupt keeps the machine well-formed; `EngineStep.InterruptStack`, `InterruptRegisters` and `InterruptVector` state its effect |
| EngineStep.TriggerNmi | crates/res-core/src/cpu.rs:709-713 | an NMI keeps the machine well-formed; it is `EngineStep.Interrupt` with B clear through the NMI vector, whose effect `InterruptStack`, `InterruptRegisters` and `InterruptVector` state |
| EngineStep.TriggerIrq | crates/res-core/src/cpu.rs:715-724 | an IRQ keeps the machine well-formed; `EngineStep.IrqMasked` states when it is taken |
| EngineStep.TriggerBrk | crates/res-core/src/cpu.rs:726-730 | a BRK interrupt keeps the machine well-formed; it is `EngineStep.Interrupt` with B set through the IRQ/BRK vector |
| EngineStep.NewMachine | crates/res-core/src/cpu.rs:157-171 | the power-on machine is well-formed |
| EngineStep.Load | crates/res-core/src/cpu.rs:662-665 | `load` keeps the machine well-formed; `EngineStep.LoadPlaces` states where the bytes go |
| EngineStep.LoadPrgRom | crates/res-core/src/cpu.rs:667-683 | `load_prg_rom` keeps the machine well-formed and unplugs any cartridge; `EngineStep.LoadPrgRomResult` states the rest |
| EngineStep.LoadCartridge | crates/res-core/src/cpu.rs:177-192 | `load_cartridge` keeps the machine well-formed; `EngineStep.LoadCartridgeErrors` and `LoadCartridgeMaps` state the rest |
| EngineStep.Reset | crates/res-core/src/cpu.rs:685-694 | `reset` keeps the machine well-formed; `EngineStep.FreshReset`, `PrgThenReset` and `LoadThenReset` state where it starts |
| EngineStep.FetchMemory | crates/res-core/src/cpu.rs:131 | a fetch from a RAM address is the RAM cell |
| EngineStep.LinearCell | crates/res-core/src/cpu.rs:667-683 | a 32 KB image's cells from 0x8000 are the mapper's bytes |
| EngineStep.LowerBankCell | crates/res-core/src/cpu.rs:667-683 | a 16 KB image's cells 0x8000-0xBFFF are the mapper's bytes |
| EngineStep.UpperBankCell | crates/res-core/src/cpu.rs:667-683 | a 16 KB image's cells from 0xC000 are the mapper's bytes |
| EngineStep.VectorWriteKeepsRam | crates/res-core/src/cpu.rs:662-665 | writing the reset vector keeps every RAM cell below it |
| EngineStep.BeqDecodes | crates/res-core/src/cpu.rs:985-993 | 0xF0 decodes to BEQ and has no page-cross penalty |
| EngineStep.OpcodesMapKnowsLda | src/opcodes.rs:30-37 | `OPCODES_MAP` has LDA immediate at 0xA9 and LDA absolute,Y at 0xB9 |
| EngineStep.OpcodesMapKnowsTaxBrk | src/opcodes.rs:26-27 | `OPCODES_MAP` has TAX at 0xAA and BRK at 0x00 |
| EngineStep.OpcodesMapLacks02 | src/opcodes.rs:25-54 | `OPCODES_MAP` has no entry for 0x02 |
| EngineStep.PopKeepsBus | crates/res-core/src/cpu.rs:599-602 | a pull reads RAM in page one and leaves the bus unchanged |
| EngineStep.PopWordReads | crates/res-core/src/cpu.rs:611-616 | a word pull is the little-endian word in the two slots above SP |
| EngineStep.RtiReads | crates/res-core/src/cpu.rs:929-935 | RTI's new PC is the word in the second and third slots above SP |
| EngineStep.InterruptThenRti | crates/res-core/src/cpu.rs:700-730 | RTI straight after an NMI, IRQ or BRK returns to the interrupted PC with SP, A, X and Y restored and P as pushed, with B cleared and bit 5 set |
| EngineStep.BrkDecodes | crates/res-core/src/cpu.rs:836-839 | the code 0x00 is handled as BRK |
| EngineStep.SettledPc | crates/res-core/src/cpu.rs:1056-1058 | PC stays where a jumping handler put it, and a one-byte instruction never moves it further |
| EngineStep.CyclesAdded | crates/res-core/src/cpu.rs:811-815 | a turn costs at least the table's base cycles plus the branch extras, and exactly one cycle more iff the page-cross penalty applies |
| Processor.EndOf | crates/res-core/src/cpu.rs:789-1064 | a turn ends by running on, halting or failing exactly as the outcome says |
| Processor.OutcomeOf | crates/res-core/src/cpu.rs:789-1064 | an end and a machine give the outcome of that kind |
| Processor.OutcomeOfEnd | crates/res-core/src/cpu.rs:789-1064 | outcome and end convert into each other without loss |
| Processor.Cpu.constructor | crates/res-core/src/cpu.rs:157-171 | the new CPU is power-on: registers zero, status 0x24, SP 0xFD, no cycles, zeroed RAM, new APU, horizontal PPU, no mapper |
| Processor.Cpu.Peek | crates/res-core/src/cpu.rs:116-134 | the byte a bus read returns, without the PPU read side effect |
| Processor.Cpu.PeekWord | crates/res-core/src/cpu.rs:102-106 | the little-endian word such reads return |
| Processor.Cpu.MemRead | crates/res-core/src/cpu.rs:116-134 | value and new state are the bus read of the old state |
| Processor.Cpu.ReadPpuRegister | crates/res-core/src/cpu.rs:119-122 | a PPU register read through the bus |
| Processor.Cpu.MemWrite | crates/res-core/src/cpu.rs:136-153 | the new state is the bus write of the old one |
| Processor.Cpu.WriteApuRegister | crates/res-core/src/cpu.rs:137 | an APU write through the bus |
| Processor.Cpu.WritePpuRegister | crates/res-core/src/cpu.rs:138-141 | a PPU register write through the bus |
| Processor.Cpu.WriteRam | crates/res-core/src/cpu.rs:150-151 | a RAM write through the bus |
| Processor.Cpu.MemWriteWord | crates/res-core/src/cpu.rs:108-113 | low byte at `pos`, high byte at `pos + 1` |
| Processor.Cpu.StackPush | crates/res-core/src/cpu.rs:594-597 | the new state is the pure model's push applied to the old state |
| Processor.Cpu.StackPop | crates/res-core/src/cpu.rs:599-602 | value and new state are the pop of the old state |
| Processor.Cpu.StackPushWord | crates/res-core/src/cpu.rs:604-609 | the new state is the pure model's word push applied to the old state |
| Processor.Cpu.StackPopWord | crates/res-core/src/cpu.rs:611-616 | value and new state are the word pop of the old state |
| Processor.Cpu.PushInterruptState | crates/res-core/src/cpu.rs:700-707 | the new state is the pure model's interrupt pushes applied to the old state |
| Processor.Cpu.Interrupt | crates/res-core/src/cpu.rs:709-730 | the new state is the pure model's interrupt sequence applied to the old state |
| Processor.Cpu.TriggerNmi | crates/res-core/src/cpu.rs:709-713 | the new state is the pure model's `trigger_nmi` applied to the old state |
| Processor.Cpu.TriggerIrq | crates/res-core/src/cpu.rs:715-724 | whether the IRQ was taken and the new state, as `trigger_irq` says |
| Processor.Cpu.TriggerBrk | crates/res-core/src/cpu.rs:726-730 | the new state is the pure model's `trigger_brk` applied to the old state |
| Processor.Cpu.CopyIntoMemory | crates/res-core/src/cpu.rs:663 | the slice of RAM from `start` becomes the source bytes and the rest is unchanged |
| Processor.Cpu.Load | crates/res-core/src/cpu.rs:662-665 | the new state is `load` of the old one |
| Processor.Cpu.LoadPrgRom | crates/res-core/src/cpu.rs:667-683 | the new state and the error are `load_prg_rom` of the old state |
| Processor.Cpu.LoadCartridge | crates/res-core/src/cpu.rs:177-192 | the new state and the error are `load_cartridge` of the old state |
| Processor.Cpu.SetPpuMirroring | crates/res-core/src/cpu.rs:173-175 | only the PPU's mirroring changes |
| Processor.Cpu.Reset | crates/res-core/src/cpu.rs:685-694 | the new state is `reset` of the old one |
| Processor.Cpu.OperandAddress | crates/res-core/src/cpu.rs:244-290 | the effective address of the mode on the current state |
| Processor.Cpu.DidPageCross | crates/res-core/src/cpu.rs:194-214 | whether the mode's operand crosses a page on the current state |
| Processor.Cpu.SetRegister | crates/res-core/src/cpu.rs:539-542 | a register set with Z and N |
| Processor.Cpu.SetStatus | crates/res-core/src/cpu.rs:531-537 | only P changes |
| Processor.Cpu.LoadRegister | crates/res-core/src/cpu.rs:292-311 | the new state is the pure model's LDA/LDX/LDY applied to the old state |
| Processor.Cpu.StoreRegister | crates/res-core/src/cpu.rs:328-331 | the new state is the pure model's STA/STX/STY applied to the old state |
| Processor.Cpu.AddToA | crates/res-core/src/cpu.rs:544-570 | the new state is the pure model's `add_to_register_a` applied to the old state |
| Processor.Cpu.AddOperand | crates/res-core/src/cpu.rs:357-361 | the new state is the pure model's ADC applied to the old state |
| Processor.Cpu.SubtractOperand | crates/res-core/src/cpu.rs:351-355 | the new state is the pure model's SBC applied to the old state |
| Processor.Cpu.LogicOperand | crates/res-core/src/cpu.rs:333-349 | the new state is the pure model's AND/EOR/ORA applied to the old state |
| Processor.Cpu.ShiftAccumulator | crates/res-core/src/cpu.rs:363-487 | the new state is the pure model's accumulator shifts and rotates applied to the old state |
| Processor.Cpu.ShiftMemory | crates/res-core/src/cpu.rs:374-470 | the new state is the pure model's memory shifts and rotates applied to the old state |
| Processor.Cpu.StepMemory | crates/res-core/src/cpu.rs:489-505 | the new state is the pure model's INC/DEC applied to the old state |
| Processor.Cpu.CompareOperand | crates/res-core/src/cpu.rs:650-660 | the new state is the pure model's CMP/CPX/CPY applied to the old state |
| Processor.Cpu.BitTest | crates/res-core/src/cpu.rs:618-630 | the new state is the pure model's BIT applied to the old state |
| Processor.Cpu.PullA | crates/res-core/src/cpu.rs:645-648 | the new state is the pure model's PLA applied to the old state |
| Processor.Cpu.PullStatus | crates/res-core/src/cpu.rs:632-636 | the new state is the pure model's PLP applied to the old state |
| Processor.Cpu.SetPc | crates/res-core/src/cpu.rs:904-907 | PC takes the target and nothing else changes |
| Processor.Cpu.Jump | crates/res-core/src/cpu.rs:904-907 | the new state is the pure model's JMP absolute applied to the old state |
| Processor.Cpu.JumpIndirect | crates/res-core/src/cpu.rs:908-920 | the new state is the pure model's JMP indirect, with the page-wrap of the pointer, applied to the old state |
| Processor.Cpu.JumpToSubroutine | crates/res-core/src/cpu.rs:921-925 | the new state is the pure model's JSR applied to the old state |
| Processor.Cpu.ReturnFromSubroutine | crates/res-core/src/cpu.rs:926-928 | the new state is the pure model's RTS applied to the old state |
| Processor.Cpu.ReturnFromInterrupt | crates/res-core/src/cpu.rs:929-935 | the new state is the pure model's RTI applied to the old state |
| Processor.Cpu.TakeBranch | crates/res-core/src/cpu.rs:517-529 | whether the branch was taken and crossed a page, and the new state, as `branch` says |
| Processor.Cpu.SetStackPointer | crates/res-core/src/cpu.rs:1041-1043 | only SP changes |
| Processor.Cpu.Execute | crates/res-core/src/cpu.rs:816-1054 | the new state and extra cycles are the handler of the instruction on the old state |
| Processor.Cpu.ExecuteRegisterOp | crates/res-core/src/cpu.rs:826-835 | flag, transfer and increment instructions as the handler says |
| Processor.Cpu.ExecuteFlagOp | crates/res-core/src/cpu.rs:826-832 | the flag instructions as the handler says |
| Processor.Cpu.ExecuteTransfer | crates/res-core/src/cpu.rs:1029-1047 | the transfer instructions as the handler says |
| Processor.Cpu.ExecuteIncrement | crates/res-core/src/cpu.rs:884-896 | the increments and decrements as the handler says |
| Processor.Cpu.ExecuteLoadStore | crates/res-core/src/cpu.rs:818-825 | the loads and stores as the handler says |
| Processor.Cpu.ExecuteArithmetic | crates/res-core/src/cpu.rs:853-903 | the arithmetic, logic, shift and compare instructions as the handler says |
| Processor.Cpu.ExecuteStackOp | crates/res-core/src/cpu.rs:840-849 | the stack instructions as the handler says |
| Processor.Cpu.ExecuteJump | crates/res-core/src/cpu.rs:904-935 | the jumps and returns as the handler says |
| Processor.Cpu.ExecuteBranch | crates/res-core/src/cpu.rs:936-1011 | the branches, with their extra cycles, as the handler says |
| Processor.Cpu.FinishTurn | crates/res-core/src/cpu.rs:1056-1060 | PC moves past the operands when the handler left it, and the turn's cycles are added |
| Processor.Cpu.AddCycles | crates/res-core/src/cpu.rs:1060 | only the cycle count grows, by n |
| Processor.Cpu.Turn | crates/res-core/src/cpu.rs:811-1060 | the end and new state are the turn of the old state |
| Processor.Cpu.Step | crates/res-core/src/cpu.rs:795-1063 | the end and new state are one step of the old state |
| Processor.Cpu.Run | crates/res-core/src/cpu.rs:789-1064 | the end and new state are the run of the old state for at most `fuel` turns |
| Processor.Cpu.LoadAndRun | crates/res-core/src/cpu.rs:736-740 | the end and new state are the run after `load` and `reset` of the old state |
| LegacyEngine.Read | src/cpu.rs:65-67 | a read succeeds iff the address is below 0xFFFF, the size of the memory array |
| LegacyEngine.Write | src/cpu.rs:69-71 | a write succeeds iff the address is below 0xFFFF, and changes no register |
| LegacyEngine.Store | src/cpu.rs:69-71 | an in-bounds write changes no register |
| LegacyEngine.ReadWord | src/cpu.rs:50-54 | a word read succeeds iff `pos + 1` is in bounds, i.e. `pos < 0xFFFE` |
| LegacyEngine.WriteWord | src/cpu.rs:56-61 | a word write succeeds iff `pos < 0xFFFE` and changes no register |
| LegacyEngine.Address | src/cpu.rs:87-133 | the effective address exists for Immediate, for absolute modes when both operand bytes are in bounds and otherwise when the operand byte is |
| LegacyEngine.Operand | src/cpu.rs:87-133 | the operand exists iff its address does and is in bounds |
| LegacyEngine.WithRegister | src/cpu.rs:381-384 | the register takes the value, Z and N follow it, PC and SP stay |
| LegacyEngine.StackInBounds | src/cpu.rs:428-436 | every stack cell 0x0100 + SP is a valid memory index |
| LegacyEngine.Push | src/cpu.rs:428-431 | a push lowers SP by one and changes no other register |
| LegacyEngine.Pop | src/cpu.rs:433-436 | a pop raises SP by one, changes nothing else, and returns the byte in page one just above the old SP |
| LegacyEngine.PushWord | src/cpu.rs:438-443 | a word push lowers SP by two and changes no other register |
| LegacyEngine.PopWord | src/cpu.rs:459-464 | a word pop raises SP by two and changes nothing else |
| LegacyEngine.LoadRegister | src/cpu.rs:135-155 | LDA/LDX/LDY succeed iff the operand is in bounds and set the register with Z and N |
| LegacyEngine.StoreRegister | src/cpu.rs:172-175 | a store changes no register; `LegacyProperties.StoreRegisterStores` states the byte stored, the panic condition and that every other cell keeps its byte |
| LegacyEngine.AddOperand | src/cpu.rs:201-205 | ADC succeeds iff the operand is in bounds and changes the registers as the adder says |
| LegacyEngine.SubtractOperand | src/cpu.rs:195-199 | SBC succeeds iff the operand is in bounds and adds its complement |
| LegacyEngine.LogicOperand | src/cpu.rs:177-193 | AND/EOR/ORA succeed iff the operand is in bounds; A becomes the combination of A and M with Z and N from it, memory and the other registers kept |
| LegacyEngine.ShiftAccumulator | src/cpu.rs:207-331 | A becomes the shifted or rotated byte, C the bit shifted out, Z and N follow the new A, nothing else changes |
| LegacyEngine.ShiftMemory | src/cpu.rs:218-314 | the memory shifts keep PC; `LegacyProperties.ShiftMemoryStores` states the byte written back and that every other cell keeps its byte, `LegacyProperties.ShiftFlags` the flags |
| LegacyEngine.StepMemory | src/cpu.rs:333-349 | INC/DEC keep PC; `LegacyProperties.StepMemoryStores` states the byte written back, `LegacyProperties.StepMemoryStatus` the flags and `LegacyProperties.StepMemoryMem` that memory is the old memory with only that cell stored |
| LegacyEngine.CompareOperand | src/cpu.rs:484-494 | CMP/CPX/CPY succeed iff the operand is in bounds; only P changes, to `Alu.Compare` of the register and M |
| LegacyEngine.BitTest | src/cpu.rs:445-457 | BIT succeeds iff the operand is in bounds and changes only P |
| LegacyEngine.PullA | src/cpu.rs:479-482 | PLA: A becomes the pulled byte with Z and N from it, SP rises by one, memory is unchanged |
| LegacyEngine.PullStatus | src/cpu.rs:466-470 | PLP: P becomes the pulled byte with B cleared and bit 5 set, SP rises by one, memory is unchanged |
| LegacyEngine.Jump | src/cpu.rs:606-609 | JMP absolute panics exactly when PC is 0xFFFE or 0xFFFF (the operand word leaves the array); otherwise only PC changes, to the operand word |
| LegacyEngine.JumpIndirect | src/cpu.rs:610-622 | JMP indirect panics when the operand word leaves the array; a pointer at xxFF reads its high byte from xx00 and panics only at 0xFFFF, any other pointer reads the word there and panics from 0xFFFE on; only PC changes |
| LegacyEngine.JumpToSubroutine | src/cpu.rs:623-627 | JSR panics iff PC >= 0xFFFE; otherwise it pushes its return address, SP is two lower and PC is the operand word read after the push; `LegacyProperties.CallThenReturn` states the return |
| LegacyEngine.ReturnFromSubroutine | src/cpu.rs:628-630 | RTS never panics: SP rises by two, PC becomes the pulled word plus one, memory is unchanged |
| LegacyEngine.ReturnFromInterrupt | src/cpu.rs:631-637 | RTI never panics: SP rises by three, P becomes the first pulled byte with B cleared and bit 5 set, PC the word in the second and third slots above SP, memory is unchanged |
| LegacyEngine.TakeBranch | src/cpu.rs:361-371 | an untaken branch changes nothing; a taken one succeeds iff PC is in bounds and moves PC by the signed offset there |
| LegacyEngine.RegisterOp | src/cpu.rs:531-540 | flag, transfer and increment instructions keep PC |
| LegacyEngine.LoadStore | src/cpu.rs:523-529 | loads and stores keep PC |
| LegacyEngine.Arithmetic | src/cpu.rs:555-605 | the arithmetic family keeps PC |
| LegacyEngine.StackOp | src/cpu.rs:542-551 | the stack family keeps PC |
| LegacyEngine.JumpOp | src/cpu.rs:606-637 | RTS and RTI cannot fail |
| LegacyEngine.Execute | src/cpu.rs:522-698 | any handler that succeeds keeps PC unless it jumps; only an instruction reading an address, a jump or a branch can hit the out-of-bounds panic |
| LegacyEngine.Step | src/cpu.rs:511-704 | a step leaves a valid machine or a panic; `LegacyProperties.StepIsTurn` and `StepAtTopPanics` state what it computes |
| LegacyEngine.Turn | src/cpu.rs:518-704 | a turn leaves a valid machine or a panic; `LegacyProperties.TurnOutcome` and `TurnAdvancesPc` state what it computes |
| LegacyEngine.Run | src/cpu.rs:501-503 | a run leaves a valid machine or a panic; the `RunsAs` lemmas state how it unfolds |
| LegacyEngine.Resume | src/cpu.rs:511-704 | a run that has stopped stays stopped |
| LegacyEngine.NewMachine | src/cpu.rs:75-85 | a new CPU has the power-on registers |
| LegacyEngine.Placed | src/cpu.rs:497 | placing the program keeps the memory size; `LegacyProperties.PlacedCell` states where each byte lands |
| LegacyEngine.Load | src/cpu.rs:496-499 | `load` succeeds iff the program fits from 0x8000, and changes no register |
| LegacyEngine.Reset | src/cpu.rs:707-715 | reset gives the power-on registers with PC from the vector and keeps memory |
| LegacyEngine.LoadAndRun | src/cpu.rs:717-721 | a program too long for the array panics before anything runs |
| LegacyEngine.ExecuteRegisterOp | src/cpu.rs:531-540 | a register instruction never panics and changes only the registers, as its handler says |
| LegacyEngine.ExecuteLoadStore | src/cpu.rs:523-529 | a load or store runs the load/store handler |
| LegacyEngine.ExecuteArithmetic | src/cpu.rs:555-605 | an arithmetic instruction runs the arithmetic handler |
| LegacyEngine.ExecuteStackOp | src/cpu.rs:542-551 | a stack instruction never panics and runs the stack handler |
| LegacyEngine.ExecuteJump | src/cpu.rs:606-637 | a jump or return runs the jump handler |
| LegacyEngine.StepMemoryBy | src/cpu.rs:333-349 | INC/DEC write back the byte plus delta and set Z and N from it |
| LegacyEngine.JumpToSubroutineBy | src/cpu.rs:623-627 | proof step only: JSR is the push, then the operand word read from the machine after it |
| LegacyEngine.RunsAsStart | src/cpu.rs:511 | before the first step the run is the run of the remaining fuel |
| LegacyEngine.RunsAsStep | src/cpu.rs:511-704 | one more step keeps the run equal to the remaining run |
| LegacyEngine.RunsAsEnd | src/cpu.rs:511-704 | when the fuel is spent or the step stopped, the outcome is the run's |
| LegacyEngine.BitStatus | src/cpu.rs:445-457 | the legacy BIT changes no status flag but Z, N and V |
| LegacyProperties.WriteThenRead | src/cpu.rs:65-71 | an in-bounds byte written reads back, and other cells keep their bytes |
| LegacyProperties.WordRoundTrip | src/cpu.rs:868-881 | a word written below 0xFFFE reads back as the same word |
| LegacyProperties.TopAddressPanics | src/cpu.rs:27 | with 0xFFFF cells, 0xFFFF cannot be read or written and no word at 0xFFFE or above can be read or written |
| LegacyProperties.PushThenPop | src/cpu.rs:839-843 | a pop straight after a push returns the byte and restores SP |
| LegacyProperties.PushStores | src/cpu.rs:428-431 | a push stores the byte at 0x0100 + SP and leaves other cells |
| LegacyProperties.PopReads | src/cpu.rs:433-436 | a pop returns the byte at 0x0100 + SP + 1 |
| LegacyProperties.StackSlotsDiffer | src/cpu.rs:438-443 | the two cells a word push writes are distinct |
| LegacyProperties.PushWordStores | src/cpu.rs:438-443 | a word push stores the high byte first, then the low byte below it |
| LegacyProperties.PopWordReads | src/cpu.rs:459-464 | a word pop assembles the low byte from SP + 1 and the high byte from SP + 2 |
| LegacyProperties.PushWordThenPopWord | src/cpu.rs:846-851 | a word popped straight after it was pushed is that word, with the registers restored |
| LegacyProperties.PushedBytesPopAsWord | src/cpu.rs:846-851 | pushing 0x55 then 0x66 and popping a word gives 0x5566 |
| LegacyProperties.PopWordOnlyReadsStack | src/cpu.rs:459-464 | a word pop depends only on memory and SP and raises SP by two |
| LegacyProperties.CallThenReturn | src/cpu.rs:623-630 | RTS after a successful JSR returns to the byte after JSR's operand, with every register restored |
| LegacyProperties.ReturnAfterCall | src/cpu.rs:628-630 | RTS pops the pushed return address plus one whatever PC the callee had |
| LegacyProperties.BitFlags | src/cpu.rs:445-457 | BIT here sets Z iff A AND M is zero, and takes both N and V from bit 7 of M (src/cpu.rs:456), where the current engine takes V from bit 6 |
| LegacyProperties.ShiftFlags | src/cpu.rs:207-331 | the shift status takes C from the shifted-out bit and Z and N from the result |
| LegacyProperties.ShiftMemoryStores | src/cpu.rs:218-314 | a memory shift succeeds iff its operand is in bounds, writes the shifted byte back, sets only P among the registers and leaves every other cell's byte |
| LegacyProperties.StepMemoryPanics | src/cpu.rs:333-349 | INC/DEC succeed iff the operand is in bounds |
| LegacyProperties.StepMemoryStatus | src/cpu.rs:333-349 | INC/DEC set Z and N from the new byte and change no other register |
| LegacyProperties.StepMemoryStores | src/cpu.rs:333-349 | INC/DEC leave the old byte plus delta at the address |
| LegacyProperties.StepMemoryMem | src/cpu.rs:333-349 | INC/DEC's memory is the old one with that one cell rewritten |
| LegacyProperties.StoredBack | src/cpu.rs:69-71 | memory after a store reads the stored byte there |
| LegacyProperties.StoreRegisterStores | src/cpu.rs:172-175 | a store succeeds iff the address is in bounds, writes the register there and leaves every other cell's byte |
| LegacyProperties.TurnOutcome | src/cpu.rs:518-704 | a code missing from the table panics "not recognized", a code without a handler panics (`todo!`), BRK halts, anything else runs its handler |
| LegacyProperties.TurnAdvancesPc | src/cpu.rs:701-703 | an instruction that does not jump leaves PC just past its operand bytes |
| LegacyProperties.StepAtTopPanics | src/cpu.rs:514 | with PC at 0xFFFF the opcode fetch is out of bounds |
| LegacyProperties.StepIsTurn | src/cpu.rs:514-520 | a step reads the code, moves PC past it and runs the turn |
| LegacyProperties.LoadThenReset | src/cpu.rs:707-715 | reset after a successful `load` gives the power-on registers with PC 0x8000 |
| LegacyProperties.PlacedCell | src/cpu.rs:497 | program byte i lands at 0x8000 + i |
| LegacyProperties.LoadPlaces | src/cpu.rs:496-499 | after `load` each program byte below the vector reads back from 0x8000 on |
| LegacyProperties.LoadWritesVector | src/cpu.rs:498 | `load` writes 0x8000 into the reset vector, little-endian |
| LegacyProperties.DecodesInxProgram | src/cpu.rs:523-541 | 0xa9, 0xaa, 0xe8 and 0x00 decode to LDA, TAX, INX and BRK |
| LegacyProperties.RegisterTurn | src/cpu.rs:531-540 | a one-byte register instruction changes registers as its handler says and moves PC by one |
| LegacyProperties.LdaStep | src/cpu.rs:135-141 | LDA #v at 0x8000 loads v with Z and N and moves PC to 0x8002 |
| LegacyProperties.TaxStep | src/cpu.rs:157-160 | TAX at 0x8002 copies A into X with Z and N and moves PC to 0x8003 |
| LegacyProperties.InxStep | src/cpu.rs:162-165 | INX adds one to X modulo 256 with Z and N and moves PC by one |
| LegacyProperties.BrkStep | src/cpu.rs:541 | BRK halts with PC one past it |
| LegacyProperties.InxOverflowRuns | src/cpu.rs:761-766 | LDA #0xff, TAX, INX, INX, BRK halts with X = 1, A = 0xff, PC 0x8006 |
| LegacyProperties.LoadsInxProgram | src/cpu.rs:496-499 | `load` of that program succeeds and places it from 0x8000 |
| LegacyProperties.InxOverflowProgram | src/cpu.rs:761-766 | with `OPCODES_MAP`, `load_and_run` of LDA #0xff, TAX, INX, INX, BRK halts with X = 1 |
| LegacyProperties.OpcodesMapKnowsInx | src/opcodes.rs:28 | `OPCODES_MAP` has INX at 0xE8 |
| LegacyProcessor.IfOk | src/cpu.rs:20-30 | an operation's success flag and state give the optional machine |
| LegacyProcessor.OutcomeOf | src/cpu.rs:501-705 | a turn's end and machine give the outcome of that kind |
| LegacyProcessor.LegacyCpu.constructor | src/cpu.rs:75-85 | the new CPU is the power-on machine with zeroed memory |
| LegacyProcessor.LegacyCpu.MemRead | src/cpu.rs:65-67 | the byte, or the panic, a read of the current state gives |
| LegacyProcessor.LegacyCpu.MemReadWord | src/cpu.rs:50-54 | the word, or the panic, a word read gives |
| LegacyProcessor.LegacyCpu.MemWrite | src/cpu.rs:69-71 | success and new state are the write of the old state |
| LegacyProcessor.LegacyCpu.MemWriteWord | src/cpu.rs:56-61 | success and new state are the word write of the old state |
| LegacyProcessor.LegacyCpu.StackPush | src/cpu.rs:428-431 | the new state is the pure model's push applied to the old state |
| LegacyProcessor.LegacyCpu.StackPop | src/cpu.rs:433-436 | value and new state are the pop of the old state |
| LegacyProcessor.LegacyCpu.StackPushWord | src/cpu.rs:438-443 | the new state is the pure model's word push applied to the old state |
| LegacyProcessor.LegacyCpu.StackPopWord | src/cpu.rs:459-464 | value and new state are the word pop of the old state |
| LegacyProcessor.LegacyCpu.CopyIntoMemory | src/cpu.rs:497 | the slice from `start` becomes the source and the rest is unchanged |
| LegacyProcessor.LegacyCpu.Load | src/cpu.rs:496-499 | success and new state are `load` of the old state |
| LegacyProcessor.LegacyCpu.Reset | src/cpu.rs:707-715 | the new state is `reset` of the old one |
| LegacyProcessor.LegacyCpu.OperandAddress | src/cpu.rs:87-133 | the effective address of the mode, or the panic |
| LegacyProcessor.LegacyCpu.Operand | src/cpu.rs:87-133 | the operand byte of the mode, or the panic |
| LegacyProcessor.LegacyCpu.SetRegister | src/cpu.rs:381-384 | the register set with Z and N |
| LegacyProcessor.LegacyCpu.SetStatus | src/cpu.rs:373-379 | only P changes |
| LegacyProcessor.LegacyCpu.SetPc | src/cpu.rs:606-609 | only PC changes |
| LegacyProcessor.LegacyCpu.LoadRegister | src/cpu.rs:135-155 | the new state is the pure model's LDA/LDX/LDY applied to the old state; `ok` is false exactly when that step hits the out-of-bounds panic |
| LegacyProcessor.LegacyCpu.StoreRegister | src/cpu.rs:172-175 | the new state is the pure model's STA/STX/STY applied to the old state; `ok` is false exactly when that step hits the out-of-bounds panic |
| LegacyProcessor.LegacyCpu.AddToA | src/cpu.rs:386-412 | the new state is the pure model's `add_to_refister_a` applied to the old state |
| LegacyProcessor.LegacyCpu.AddOperand | src/cpu.rs:201-205 | the new state is the pure model's ADC applied to the old state; `ok` is false exactly when that step hits the out-of-bounds panic |
| LegacyProcessor.LegacyCpu.SubtractOperand | src/cpu.rs:195-199 | the new state is the pure model's SBC applied to the old state; `ok` is false exactly when that step hits the out-of-bounds panic |
| LegacyProcessor.LegacyCpu.LogicOperand | src/cpu.rs:177-193 | the new state is the pure model's AND/EOR/ORA applied to the old state; `ok` is false exactly when that step hits the out-of-bounds panic |
| LegacyProcessor.LegacyCpu.ShiftAccumulator | src/cpu.rs:207-331 | the new state is the pure model's accumulator shifts applied to the old state |
| LegacyProcessor.LegacyCpu.ShiftMemory | src/cpu.rs:218-314 | the new state is the pure model's memory shifts applied to the old state; `ok` is false exactly when that step hits the out-of-bounds panic |
| LegacyProcessor.LegacyCpu.StepMemory | src/cpu.rs:333-349 | the new state is the pure model's INC/DEC applied to the old state; `ok` is false exactly when that step hits the out-of-bounds panic |
| LegacyProcessor.LegacyCpu.CompareOperand | src/cpu.rs:484-494 | the new state is the pure model's compares applied to the old state; `ok` is false exactly when that step hits the out-of-bounds panic |
| LegacyProcessor.LegacyCpu.BitTest | src/cpu.rs:445-457 | the new state is the pure model's BIT applied to the old state; `ok` is false exactly when that step hits the out-of-bounds panic |
| LegacyProcessor.LegacyCpu.PullA | src/cpu.rs:479-482 | the new state is the pure model's PLA applied to the old state |
| LegacyProcessor.LegacyCpu.PullStatus | src/cpu.rs:466-470 | the new state is the pure model's PLP applied to the old state |
| LegacyProcessor.LegacyCpu.Jump | src/cpu.rs:606-609 | the new state is the pure model's JMP applied to the old state; `ok` is false exactly when that step hits the out-of-bounds panic |
| LegacyProcessor.LegacyCpu.JumpIndirect | src/cpu.rs:610-622 | the new state is the pure model's JMP indirect applied to the old state; `ok` is false exactly when that step hits the out-of-bounds panic |
| LegacyProcessor.LegacyCpu.JumpToSubroutine | src/cpu.rs:623-627 | the new state is the pure model's JSR applied to the old state; `ok` is false exactly when that step hits the out-of-bounds panic |
| LegacyProcessor.LegacyCpu.ReturnFromSubroutine | src/cpu.rs:628-630 | the new state is the pure model's RTS applied to the old state |
| LegacyProcessor.LegacyCpu.ReturnFromInterrupt | src/cpu.rs:631-637 | the new state is the pure model's RTI applied to the old state |
| LegacyProcessor.LegacyCpu.TakeBranch | src/cpu.rs:361-371 | the new state is the pure model's `branch` applied to the old state; `ok` is false exactly when that step hits the out-of-bounds panic |
| LegacyProcessor.LegacyCpu.Execute | src/cpu.rs:522-698 | success and new state are the handler of the instruction on the old state |
| LegacyProcessor.LegacyCpu.ExecuteRegisterOp | src/cpu.rs:531-540 | the new state is the pure model's register instructions applied to the old state |
| LegacyProcessor.LegacyCpu.ExecuteFlagOp | src/cpu.rs:531-537 | the new state is the pure model's flag instructions applied to the old state |
| LegacyProcessor.LegacyCpu.ExecuteTransfer | src/cpu.rs:679-697 | the new state is the pure model's transfers applied to the old state |
| LegacyProcessor.LegacyCpu.ExecuteIncrement | src/cpu.rs:589-598 | the new state is the pure model's register increments and decrements applied to the old state |
| LegacyProcessor.LegacyCpu.ExecuteLoadStore | src/cpu.rs:523-529 | the new state is the pure model's loads and stores applied to the old state; `ok` is false exactly when that step hits the out-of-bounds panic |
| LegacyProcessor.LegacyCpu.ExecuteArithmetic | src/cpu.rs:555-605 | the new state is the pure model's arithmetic family applied to the old state; `ok` is false exactly when that step hits the out-of-bounds panic |
| LegacyProcessor.LegacyCpu.ExecuteStackOp | src/cpu.rs:542-551 | the new state is the pure model's stack instructions applied to the old state |
| LegacyProcessor.LegacyCpu.ExecuteJump | src/cpu.rs:606-637 | the new state is the pure model's jumps and returns applied to the old state; `ok` is false exactly when that step hits the out-of-bounds panic |
| LegacyProcessor.LegacyCpu.ExecuteBranch | src/cpu.rs:638-661 | the new state is the pure model's branches applied to the old state; `ok` is false exactly when that step hits the out-of-bounds panic |
| LegacyProcessor.LegacyCpu.Turn | src/cpu.rs:518-704 | end and new state are the turn of the old state |
| LegacyProcessor.LegacyCpu.Step | src/cpu.rs:511-704 | end and new state are one step of the old state |
| LegacyProcessor.LegacyCpu.Run | src/cpu.rs:501-503 | end and new state are the run of the old state for at most `fuel` turns |
| LegacyProcessor.LegacyCpu.LoadAndRun | src/cpu.rs:717-721 | end and new state are `load`, `reset` and the run of the old state |
| LegacyProcessor.LegacyCpu.RunTurn | src/cpu.rs:511-704 | one loop iteration keeps the run equal to the remaining run |

## Left out

- Side effects of fetches in the current engine.
  - Opcode, operand, vector and pointer fetches, and `did_page_cross`, read through `Engine.Fetch`. That view returns what `mem_read` returns but drops the PPU's read side effect.
  - The source fetches through `mem_read` itself. A fetch differs only where it reads 0x2000-0x3FFF: code running from the PPU registers, or the pointer a `JMP ($xxxx)` dereferences (next bullet).
- `Engine.JumpIndirect` and `Processor.Cpu.JumpIndirect` read the jump target through `Engine.Fetch`. A `JMP ($2002)` or `JMP ($2007)` run from RAM therefore does not clear the PPUSTATUS latches or move the PPUDATA buffer and address, as the two `mem_read`s at crates/res-core/src/cpu.rs:908-917 do. The target itself is the byte pair `mem_read` returns.
  - The handler's read of its operand goes through the effectful bus read, as in the source.
- Program-counter overflow: every PC addition is modelled as wrap-around modulo 0x10000. In a debug build the source panics instead when one of its plain (non-wrapping) `u16` additions overflows. These are:
  - `program_counter += 1` after the opcode fetch (crates/res-core/src/cpu.rs:798, src/cpu.rs:515);
  - `program_counter + 2 - 1`, the return address JSR pushes (crates/res-core/src/cpu.rs:922, src/cpu.rs:624);
  - `stack_pop_u16() + 1` in RTS (crates/res-core/src/cpu.rs:927, src/cpu.rs:629);
  - `program_counter += (opcode.len - 1)` at the end of a step (crates/res-core/src/cpu.rs:1057, src/cpu.rs:702).
- Cycle count: `cycles` (`u64`) is an unbounded `nat`. `total_cycles` is a plain getter of that field and has no member of its own.
- The run loop.
  - `run`, `run_with_callback` and `try_run_with_callback` loop until BRK or an error. The model's `Run` takes a `fuel` bound on the number of steps, so it says nothing about runs longer than the fuel.
  - `run_with_callback` turns an error into a panic. The model returns it as the `Failed` outcome.
- The per-step callback and the trace functions (`run_with_trace`, `capture_trace_state`) are not modelled. They only observe the state.
- Decimal mode: ADC and SBC are binary-only in the source and in the model. D is only a status bit.
- The opcode table is a parameter of both steps. The repository's `OPCODES_MAP` is proved to be an admissible table, but it holds only 18 entries. The step lemmas drawn from unit tests that use other opcodes (BEQ, NOP) take any well-formed table containing them.
- The current engine's `Processor.Cpu.Load` and `EngineStep.Load` require the program to fit from 0x0600. The source's slice panics otherwise, and that panic is not modelled.
- `Engine.Address` and `Processor.Cpu.OperandAddress` require a mode other than `NoneAddressing`. The source panics there, and no opcode reaches that arm.
- Legacy panics (an out-of-range index into the 0xFFFF-cell memory, an opcode missing from the table, the `todo!` arm) are explicit outcomes (`Panicked`, `None`) rather than aborts.
- The legacy memory array has 0xFFFF cells, so address 0xFFFF is out of range and any access to it panics. The model follows the code here (`LegacyProperties.TopAddressPanics`), not a full 64 KB address space.
- Cartridge CHR.
  - The CPU bus model holds only the cartridge's PRG-ROM.
  - The `Rc<RefCell<dyn Mapper>>` sharing and `set_mapper` on the PPU are not modelled. `Rom.has_chr_ram`, which `load_cartridge` passes on to the mapper for CHR, is therefore not part of the `Rom` value.
  - The PPU of `src/ppu.rs` reads its pattern tables as 0.
- `Mapper.ChrRead` and `Mapper.NromMapper.PpuRead` require, for `addr` up to 0x1FFF, a CHR bank that is empty or longer than `addr`. The source indexes a non-empty CHR shorter than `addr + 1` and panics (src/mapper.rs:70), and that panic is not modelled. Every CHR the source builds (8 KB banks from iNES, or 8 KB of CHR RAM) is long enough.
- `Mapper.ChrWrite` and `Mapper.NromMapper.PpuWrite` likewise require CHR RAM to be longer than `addr`. The panic of the write at src/mapper.rs:79 is not modelled.
- PPU four-screen mirroring is unimplemented in the source (it falls back to the vertical layout) and is modelled that way.
- PPU rendering, vblank timing and NMI generation are not part of this core. Only the register protocol and memory mirroring are modelled.
- `lib.rs` of both crates only re-exports modules and is not modelled.
