# gprust64 core, modelled in Dafny

gprust64 is a Nintendo 64 emulator written in Rust. Its repository holds two
generations of the emulator core, and this project models both.

The newer generation lives under `src/n64`:

- a pipelined MIPS R4300i CPU. Each in-flight instruction is a `Pipeline`
  that steps through ten phases, IF, RF, EX, DC and WB, two phases each.
  The `Cpu` keeps a queue of at most five pipelines and drives them one
  clock phase at a time.
- the instruction decoder and the opcode tables;
- the register file and the kseg1 virtual-address translation;
- the physical memory map and the bus that routes every word access to its
  device;
- the RDRAM, PIF and audio-interface devices;
- the coprocessor 0 Status register decoder.

The older generation lives directly under `src`:

- a one-instruction-at-a-time interpreter that knows MTC0, ORI, LUI and LW;
- its instruction wrapper;
- its coprocessor 0 with the Config and Status registers;
- its memory map and boot bus;
- the interface devices (cartridge with its CRC-32, RSP, PIF, video,
  peripheral, drawing and serial interfaces), which the newer bus also uses.

Each source file becomes one module: `N64…` for the newer files, `Legacy…`
for the older CPU, bus and memory map, and `Interface…` for the devices.
Two modules are shared: `BigEndian` for word access to byte buffers and
`Crc32`.

Panics are modelled as results. `Outcome` is either `Pass` or `Fail(fault)`,
and `Result<T>` either holds a value or a `Fault`. The `Fault` names why the
Rust code would abort: an unrecognised opcode, an unmapped address, an
out-of-bounds slice, an `unwrap` of `None`, an arithmetic overflow and so
on.

Integers keep the Rust widths. Data words are bit-vectors (`bv8` to `bv64`).
Addresses, offsets and the program counter are `u32`/`u64` subset types of
`int`. Wrapping and overflow are written out where the source has them.

Code that updates state in place is modelled as classes:

- the pipelines and the `Cpu`;
- the register file;
- the devices;
- the older CPU and coprocessor 0 registers.

Each method is proved against a function on values. `Pipeline.RunCycle`
follows `Cycle`; `Cpu.Tick` follows `TickQueue`; the older
`Cpu.RunInstruction` follows `Step`. The properties are proved as lemmas
about those functions. Code that only computes a value is modelled as
functions: the decoders, the memory maps and the Status decoding.

Where the code departs from the MIPS R4300i architecture, the model follows
the code:

- The newer register file does not hard-wire register 0 to zero. A write to
  register 0 reads back (`N64Registers.ReadAfterWriteGpr`). The older
  interpreter does hard-wire it (`LegacyCpu.ReadAfterWrite`).
- The pipeline does no forwarding. The `prev_reg` argument of `run_cycle` is
  never read, so `RunCycle` ignores it.
- The newer Status decoder never produces the Bootstrap vector location. It
  masks bit 6 of the diagnostic field and compares the result with 1, so a
  set BEV bit reaches `unreachable!` (`N64RegStatus.NeverBootstrap`). The
  older decoder tests the same bit correctly
  (`LegacyRegStatus.AgreesWithNewer`).
- In both generations, ERL and EXL are both read from bit 2, and a set bit
  means Normal.

The files do not type-check against each other, so the model gives each
file its own logic and bridges the points where files meet:

- The IF phase translates the program counter with `VAddr::to_paddr` before
  it reads the bus.
- EX phase 1 runs `ex_phase1`, and the value `ex_phase2` returns becomes
  the target value that writeback commits.
- The newer bus routes the RSP, video, serial, peripheral, drawing and
  cartridge windows to the older interface devices.

## Model

| member | source | states |
|---|---|---|
| BigEndian.Bytes | src/n64/interface/rdram.rs:42-48 | the four bytes of a word, most significant first, put back together give the word |
| BigEndian.BytesOfWord | src/n64/interface/rdram.rs:42-48 | splitting the word built from four bytes gives those bytes back in order |
| BigEndian.ReadU32 | src/n64/interface/rdram.rs:42-44 | a read succeeds exactly when four bytes remain at the offset; its bytes, most significant first, are those four; otherwise the slice panics |
| BigEndian.WriteU32 | src/n64/interface/rdram.rs:46-48 | a write succeeds exactly when four bytes remain; it puts the word's bytes at the offset, keeps the length and leaves every other byte as it was; otherwise it panics |
| BigEndian.ReadAfterWrite | src/n64/interface/rdram.rs:42-48 | reading the offset just written gives the word written |
| BigEndian.ReadOtherAfterWrite | src/n64/interface/rdram.rs:42-48 | a word that does not overlap the written bytes reads as before |
| BigEndian.StoreU32 | src/n64/interface/rdram.rs:46-48 | the in-place write on a byte array: the array becomes the `WriteU32` buffer, or is unchanged on a panic |
| Crc32.Shift1Cases | src/interface/cartridge.rs:84-88 | one bit of division xors in 0xEDB88320 after the shift exactly when the low bit is set |
| Crc32.TableStep | src/interface/cartridge.rs:102 | eight bits of division of the register are the table entry of its low byte xor the register shifted right by 8 |
| Crc32.TableUpdate | src/interface/cartridge.rs:102 | a step of the table loop equals eight bits of division of register xor byte |
| Crc32.RegisterSnoc | src/interface/cartridge.rs:96-103 | feeding one more byte is one more update of the register |
| Crc32.PairIndex | src/interface/cartridge.rs:97-101 | the byte read for position `n` is the other byte of the same pair |
| Crc32.PairSwapped | src/interface/cartridge.rs:96-103 | the input sequence the loop reads has exactly `size` bytes |
| Crc32.PairSwappedGrows | src/interface/cartridge.rs:96-103 | one more loop step reads the pair partner of byte `n` after the bytes read so far |
| Crc32.NextInBounds | src/interface/cartridge.rs:102 | while each index read is within the ROM, every index read so far is |
| Crc32.OutOfBoundsAt | src/interface/cartridge.rs:102 | one index out of range before `size` makes the whole run out of range |
| Crc32.TableEntry | src/interface/cartridge.rs:81-91 | the inner loop leaves eight bits of division of `n` |
| Crc32.BuildTable | src/interface/cartridge.rs:79-92 | the table holds, at every `k` below 256, eight bits of division of `k` |
| Crc32.Feed | src/interface/cartridge.rs:102 | one body of the second loop is one byte fed into the register |
| Crc32.CalcCrc | src/interface/cartridge.rs:78-106 | `calc_crc` succeeds exactly when every pair-swapped index is within the ROM, and then returns the standard CRC-32 of the first `size` bytes taken pair-swapped; otherwise the index panics |
| Crc32.StandardCheckValue | src/interface/cartridge.rs:78-106 | the CRC computed is the standard one: "123456789" gives 0xCBF43926 |
| InterfaceCartridge.New | src/interface/cartridge.rs:22-30 | construction succeeds exactly when the ROM holds the 0x40 + 0xFC0 bytes both CRC runs read; it keeps the ROM and sets `crc_fix` to 0; a shorter ROM panics on an index |
| InterfaceCartridge.Read | src/interface/cartridge.rs:34-49 | offsets past 0xFEF read zero; a read only fails on an index out of the ROM |
| InterfaceCartridge.ReadRom | src/interface/cartridge.rs:61-75 | the area helpers fail only on an index out of the ROM |
| InterfaceCartridge.Write | src/interface/cartridge.rs:51-59 | every write panics |
| InterfaceCartridge.ReadsRom | src/interface/cartridge.rs:34-75 | on a ROM construction accepts, every offset up to 0xFEF reads the four ROM bytes there, most significant first |
| InterfaceDrawing.Default | src/interface/drawing.rs:4-7 | the derived default has a zero clock |
| InterfaceDrawing.Read | src/interface/drawing.rs:10-16 | only the status and clock registers read; status reads 0 and the clock its low 24 bits; any other offset panics |
| InterfaceDrawing.Write | src/interface/drawing.rs:18-30 | every write panics through `write_status_reg` |
| InterfaceDrawing.ReadStatusReg | src/interface/drawing.rs:32-34 | (constant, no contract of its own) the status register reads 0; `Read` states it |
| InterfaceDrawing.WriteStatusReg | src/interface/drawing.rs:26-30 | (no contract of its own) every write panics as read-only; `Write` states it |
| InterfaceDrawing.ClockStaysZero | src/interface/drawing.rs:4-30 | a fresh block refuses writes and reads a zero clock |
| InterfacePeripheral.New | src/interface/peripheral.rs:11-17 | a new block has all three status flags clear |
| InterfacePeripheral.Read | src/interface/peripheral.rs:18-23 | only the status register reads; any other offset panics |
| InterfacePeripheral.ReadStatusReg | src/interface/peripheral.rs:35-49 | the status word is below 8, with bit 0 the DMA-busy flag, bit 1 I/O busy and bit 2 the error flag |
| InterfacePeripheral.Write | src/interface/peripheral.rs:25-33 | every write panics |
| InterfacePeripheral.NewStatusIsZero | src/interface/peripheral.rs:11-49 | a new block reads a zero status |
| InterfacePif.New | src/interface/pif.rs:15-20 | the ROM is kept as given and the 64 bytes of RAM are zero |
| InterfacePif.Read | src/interface/pif.rs:22-32 | offsets up to 0x7BF read the ROM word there, 0x7C0..0x7FF the RAM word at offset − 0x7C0, and anything higher panics |
| InterfacePif.Write | src/interface/pif.rs:34-46 | every write panics: a ROM write as read-only, a RAM write because it slices the 64-byte RAM from 0x7C0, and any other offset as out of range |
| InterfacePif.RamReadsZero | src/interface/pif.rs:15-32 | a fresh block reads zero at every RAM word |
| InterfaceRsp.SetClear | src/interface/rsp.rs:76-81 | a flag after a clear-then-set pair: set wins, a lone clear clears, neither keeps it |
| InterfaceRsp.Rsp.New | src/interface/rsp.rs:20-32 | every flag is false and the eight signal flags are false |
| InterfaceRsp.Rsp.Read | src/interface/rsp.rs:34-41 | status reads 1, DMA-full and DMA-busy read their flag as 0 or 1, and any other offset panics |
| InterfaceRsp.Rsp.ReadDmaFullReg | src/interface/rsp.rs:56-62 | the DMA-full register reads 1 exactly when the flag is set, and 0 otherwise |
| InterfaceRsp.Rsp.ReadDmaBusyReg | src/interface/rsp.rs:63-69 | the DMA-busy register reads 1 exactly when the flag is set, and 0 otherwise |
| InterfaceRsp.Rsp.ReadStatusReg | src/interface/rsp.rs:70-72 | (constant, no contract of its own) the status register always reads 1; `Rsp.Read` states it |
| InterfaceRsp.Rsp.Write | src/interface/rsp.rs:43-54 | only the status register is writable; any other offset panics and changes nothing; the DMA flags never change |
| InterfaceRsp.Rsp.WriteHaltBrokeIntr | src/interface/rsp.rs:76-90 | bits 0/1 clear/set halt, bit 2 clears broke, bits 3/4 clear/set intr |
| InterfaceRsp.Rsp.WriteSingleStepIntrOnBreak | src/interface/rsp.rs:91-102 | bits 5/6 clear/set single-step, bits 7/8 clear/set interrupt-on-break |
| InterfaceRsp.Rsp.WriteStatusReg | src/interface/rsp.rs:74-106 | all five clear/set pairs take effect in bit order, then the write panics exactly when a signal bit 9..24 is set |
| InterfaceRsp.ClearThenSet | src/interface/rsp.rs:76-81 | two consecutive `if`s on one flag compute `SetClear` |
| InterfaceRsp.HighBitsIgnored | src/interface/rsp.rs:103-105 | the signal-bit panic looks only at bits 9..24: bits 25..31 never matter |
| InterfaceSerial.Serial.Default | src/interface/serial.rs:3-6 | the derived default status is zero |
| InterfaceSerial.Serial.Read | src/interface/serial.rs:9-14 | only the status register reads, showing status bits 0..3 and 12 and nothing else; any other offset panics |
| InterfaceSerial.Serial.Write | src/interface/serial.rs:16-27 | a status write succeeds whatever the value and toggles the status; any other offset panics and keeps it |
| InterfaceSerial.Toggled | src/interface/serial.rs:19 | the toggle flips bit 12 and keeps every other bit |
| InterfaceSerial.ToggleTwice | src/interface/serial.rs:19 | two accepted writes restore the status |
| InterfaceVideo.Video.Default | src/interface/video.rs:6-12 | every field of the derived default is zero |
| InterfaceVideo.Video.Read | src/interface/video.rs:15-22 | the three registers read; the interrupt line reads its field, the horizontal register packs start and end, the current line is at most 0x3FF; any other offset panics |
| InterfaceVideo.Video.ReadHalfline | src/interface/video.rs:37-39 | (no contract of its own) the interrupt line reads its field; `Video.Read` states it |
| InterfaceVideo.Video.ReadHVideo | src/interface/video.rs:45-47 | the horizontal register reads the start in its high half and the end in its low half |
| InterfaceVideo.Video.ReadCurrentVerticalLine | src/interface/video.rs:54-56 | the current line reads as its stored value masked to 10 bits |
| InterfaceVideo.Video.Write | src/interface/video.rs:24-35 | each register write sets only its own field(s) to the value's 10-bit field, leaves the others; any other offset panics and changes nothing |
| InterfaceVideo.Video.WriteHalfline | src/interface/video.rs:41-43 | the interrupt line becomes the low 10 bits of the value |
| InterfaceVideo.Video.WriteHVideo | src/interface/video.rs:49-52 | the start becomes bits 25..16 and the end bits 9..0 of the value |
| InterfaceVideo.Video.WriteCurrentVerticalLine | src/interface/video.rs:58-61 | the current line becomes the low 10 bits of the value |
| InterfaceVideo.HVideoWord | src/interface/video.rs:45-47 | the horizontal register holds the start in the high half and the end in the low half |
| InterfaceVideo.HVideoRoundTrip | src/interface/video.rs:45-52 | reading the horizontal register after a write gives the value masked to 0x03FF_03FF |
| LegacyBus.New | src/bus.rs:10-15 | the ROM image is kept and the RAM holds 4 Mi zero entries |
| LegacyBus.ReadWord | src/bus.rs:17-27 | a read succeeds exactly for an address in 0x1FC0_0000..0x1FC0_07BF whose four ROM bytes exist, and returns them most significant first; any other address panics as unrecognised, and a short ROM panics on the index |
| LegacyBus.ReadsPifWindow | src/bus.rs:17-27 | every word this bus can read lies in the PIF window of the memory map, at the same offset |
| LegacyMemoryMap.MapAddr | src/memory_map.rs:43-56 | an address outside the nine windows panics as unrecognised |
| LegacyMemoryMap.AgreesWithLaterMap | src/memory_map.rs:43-56 | wherever the nine-window map decodes an address, the eleven-window map gives the same device and offset; it fails exactly where the later map fails or maps RDRAM memory or registers |
| N64MemoryMap.MapAddr | src/n64/memory_map.rs:55-70 | a decoded address lies in its device's window, at window start + offset; anything else panics as unrecognised |
| N64MemoryMap.MapAddrRoundTrip | src/n64/memory_map.rs:3-36 | the windows are disjoint: every in-window offset decodes back to its own device and offset |
| N64MemoryMap.Unmapped | src/n64/memory_map.rs:68 | the gaps 0x0420_0000..0x043F_FFFF, 0x0470_0000..0x047F_FFFF, 0x0490_0000..0x05FF_FFFF, 0x0800_0000..0x0FFF_FFFF, 0x1F3A_0000..0x1FBF_FFFF and everything from 0x1FC0_0800 panic |
| N64MemoryMap.Mapped | src/n64/memory_map.rs:55-70 | those gaps are the only addresses that panic |
| N64Audio.Audio.Default | src/n64/interface/audio.rs:4-8 | both registers of the derived default are zero |
| N64Audio.Audio.Read | src/n64/interface/audio.rs:11-16 | only the length register reads, a value of at most 0x3_FFFF; any other offset panics |
| N64Audio.Audio.ReadLengthReg | src/n64/interface/audio.rs:34-36 | the length read is masked to 18 bits and, with the stored value already masked, equals it |
| N64Audio.Audio.Write | src/n64/interface/audio.rs:18-28 | offset 0 stores the low 24 bits as the DRAM address, offset 4 the low 18 bits as the length, each leaving the other register; any other offset panics and changes nothing; the length then reads back masked |
| N64Audio.Audio.WriteDramAddr | src/n64/interface/audio.rs:30-32 | the DRAM address becomes the low 24 bits of the value |
| N64Audio.Audio.WriteLengthReg | src/n64/interface/audio.rs:38-40 | the length becomes the low 18 bits of the value |
| N64Rdram.DefaultReg | src/n64/interface/rdram.rs:16-28 | every one of the ten registers reads zero |
| N64Rdram.RegisterOffsets | src/n64/interface/rdram.rs:4-13 | the register offsets are exactly the word-aligned offsets below 0x28 |
| N64Rdram.ReadReg | src/n64/interface/rdram.rs:50-64 | a register read succeeds exactly at the ten offsets; any other panics |
| N64Rdram.WriteReg | src/n64/interface/rdram.rs:66-100 | a register write succeeds exactly at the ten offsets; any other panics |
| N64Rdram.ReadRegAfterWrite | src/n64/interface/rdram.rs:50-100 | a register reads back the value last written to it |
| N64Rdram.ReadOtherRegAfterWrite | src/n64/interface/rdram.rs:50-100 | writing one register leaves the other nine as they were |
| N64Rdram.Rdram.New | src/n64/interface/rdram.rs:35-40 | the memory is RDRAM_MEM_SIZE zero bytes and every register is zero |
| N64Rdram.Rdram.ReadMem | src/n64/interface/rdram.rs:42-44 | a memory read succeeds exactly when four bytes remain and returns them most significant first |
| N64Rdram.Rdram.ReadRegister | src/n64/interface/rdram.rs:50-64 | a register read succeeds exactly at the ten register offsets and panics elsewhere |
| N64Rdram.Rdram.WriteMem | src/n64/interface/rdram.rs:46-48 | a memory write succeeds exactly when four bytes remain, changes exactly those bytes and reads back the value; otherwise it panics and changes nothing |
| N64Rdram.Rdram.WriteRegister | src/n64/interface/rdram.rs:66-100 | the register file becomes the `WriteReg` result, or stays as it was on a panic |
| N64Pif.SeededRam | src/n64/interface/pif.rs:24-26 | the 64 RAM bytes are zero except 0x24..0x27, which read as the seed 0x0002_3F3F |
| N64Pif.FixRam | src/n64/interface/pif.rs:11-16 | the four seed bytes, most significant first, land at 0x24..0x27 and nothing else changes |
| N64Pif.Pif.New | src/n64/interface/pif.rs:24-32 | the ROM is kept and the RAM is the seeded RAM |
| N64Pif.Pif.Read | src/n64/interface/pif.rs:34-49 | offsets up to 0x7BF read the ROM word there, 0x7C0..0x7FF the RAM word at offset − 0x7C0, anything higher panics |
| N64Pif.Pif.Write | src/n64/interface/pif.rs:51-63 | a write succeeds exactly for a RAM offset with four bytes left, storing the word at offset − 0x7C0; a ROM write panics; a failed write changes nothing |
| N64Pif.SeedVisible | src/n64/interface/pif.rs:9-45 | a freshly built PIF reads the seed at RAM offset 0x24 |
| N64VirtualAddress.SegmentBits | src/n64/cpu/virtual_address.rs:23 | the segment field is three bits |
| N64VirtualAddress.ToPaddr | src/n64/cpu/virtual_address.rs:22-30 | translation succeeds exactly for 0xFFFF_FFFF_A000_0000..0xFFFF_FFFF_BFFF_FFFF, giving v − 0xFFFF_FFFF_A000_0000 below 0x2000_0000; other segments panic as unrecognised, and a kseg1 segment with upper bits not all ones underflows |
| N64VirtualAddress.Kseg1RoundTrip | src/n64/cpu/virtual_address.rs:22-30 | every physical address below 512 MiB is reached from kseg1 and translates back to itself |
| N64VirtualAddress.ResetVector | src/n64/cpu/virtual_address.rs:26 | 0xFFFF_FFFF_BFC0_0000 translates to 0x1FC0_0000, the start of the PIF ROM |
| N64VirtualAddress.DefaultUntranslatable | src/n64/cpu/virtual_address.rs:15-19 | the default virtual address 0 has segment bits 0, outside kseg1, so translating it panics |
| N64Bus.Bus.Init | src/n64/bus.rs:35-48 | every device starts in its constructor's or default's state: seeded PIF RAM, RDRAM_MEM_SIZE zero bytes of RDRAM, zero RDRAM registers, every RSP flag and all eight signals clear, zero VI, AI and SI registers, fresh peripheral and drawing blocks, the cartridge as built |
| N64Bus.New | src/n64/bus.rs:35-48 | building the bus succeeds exactly when the cartridge image is long enough for its CRC runs, and then holds the PIF ROM, the seeded PIF RAM and the cartridge with `crc_fix` 0 |
| N64Bus.Bus.ReadWord | src/n64/bus.rs:50-64 | cartridge domain 1 address 1 reads 0 without consulting a device; an unmapped address panics |
| N64Bus.ReadsMemories | src/n64/bus.rs:50-54 | a read in the RDRAM, RDRAM-register, cartridge or PIF window is that memory's read at the window-relative offset |
| N64Bus.ReadsRegisters | src/n64/bus.rs:55-62 | a read in the RSP, DPC, VI, AI, PI or SI window is that block's read at the window-relative offset |
| N64Bus.ResetFetchReadsPifRom | src/n64/bus.rs:50-54 | the reset vector translates to the PIF window's start, which reads the first ROM word |
| N64Bus.Bus.WriteWord | src/n64/bus.rs:66-80 | the device owning the window the memory map finds changes exactly as its own write at the window-relative offset says (`Dispatched`; `MapAddr` gives that offset as the address less the window base): RDRAM stores the word big-endian and keeps every other byte, or panics when four bytes do not remain; the RDRAM registers, PIF, RSP, VI, AI and SI change and fail as their own writes do; no other device changes; memory and RDRAM-register writes that succeed read back; PI, cartridge domain 1 address 2 and DPC writes panic as read-only; cartridge domain 1 address 1 and unmapped addresses panic |
| N64Bus.Bus.WriteMemory | src/n64/bus.rs:68-70 | the RDRAM, RDRAM-register and PIF arms each make exactly their own device's write at the offset (`Dispatched`: for RDRAM the whole memory becomes the old memory with the word stored big-endian), change no other memory, and read back what they wrote |
| N64Bus.Bus.WriteRdramReg | src/n64/bus.rs:69 | the registers become `WriteReg`'s result exactly at the ten register offsets, and stay as they were on the panic elsewhere; a write that succeeds reads back |
| N64Bus.Bus.WritePif | src/n64/bus.rs:70 | the PIF RAM changes exactly as the PIF's own write at the offset says; a write that succeeds reads back |
| N64Bus.Bus.WriteInterface | src/n64/bus.rs:71-78 | the RSP, VI, AI and SI arms make exactly their own block's write at the offset (`Dispatched`) and change no other block; cartridge domain 1 address 1 panics, and the PI, cartridge and DPC blocks refuse every write |
| N64Bus.Bus.Dispatched | src/n64/bus.rs:66-80 | (a two-state predicate, no contract of its own) the write of each `write_word` arm: the owning device's own write at the window-relative offset; a panic for cartridge domain 1 address 1; a read-only panic for PI, cartridge domain 1 address 2 and DPC |
| N64Registers.UsedShapes | src/n64/cpu/registers.rs:13-37 | ITYPE names rt and rs, RTYPE rt, rs and rd, JTYPE nothing; the three shapes differ |
| N64Registers.ReadGpr | src/n64/cpu/registers.rs:95-97 | a read succeeds exactly for an index in the file and gives that register; otherwise it panics on the index |
| N64Registers.WriteGpr | src/n64/cpu/registers.rs:99-101 | a write succeeds exactly for an index in the file and keeps its size; otherwise it panics |
| N64Registers.ReadAfterWriteGpr | src/n64/cpu/registers.rs:95-101 | a written register reads back the value, register 0 included, and every other register is unchanged |
| N64Registers.NewValues | src/n64/cpu/registers.rs:48-63 | rt and rs hold the named registers' contents when named; rd is filled from rs, not rd; an index out of the file panics |
| N64Registers.GetTargetValue | src/n64/cpu/registers.rs:73-75 | the target value is rt when present; otherwise it panics |
| N64Registers.TargetRoundTrip | src/n64/cpu/registers.rs:65-75 | a record built by `target(v)` gives back `v` and carries nothing else |
| N64Registers.Registers.Default | src/n64/cpu/registers.rs:78-92 | every general-purpose register, the program counter, hi, lo, llbit and both control registers are zero |
| N64Registers.Registers.GetGprVal | src/n64/cpu/registers.rs:95-97 | the object read is the register-file read of its array |
| N64Registers.Registers.SetGprVal | src/n64/cpu/registers.rs:99-101 | the array becomes the register-file write, or is unchanged on an out-of-range panic |
| N64Instruction.GetBits | src/n64/cpu/instruction.rs:19-21 | the field taken is below 2 to the number of bits asked for |
| N64Instruction.FieldsReassemble | src/n64/cpu/instruction.rs:61-94 | the primary, source, target and immediate fields put the word back together; destination and function fields lie inside the immediate |
| N64Instruction.RegisterIndex | src/n64/cpu/instruction.rs:72-89 | a five-bit register field read as `usize` is an index into the 32-entry register file |
| N64Instruction.Source | src/n64/cpu/instruction.rs:71-74 | bits 25..21 name one of the 32 registers |
| N64Instruction.Destination | src/n64/cpu/instruction.rs:76-79 | bits 15..11 name one of the 32 registers |
| N64Instruction.TargetImmediate | src/n64/cpu/instruction.rs:86-89 | bits 20..16 name one of the 32 registers |
| N64Instruction.TargetRegister | src/n64/cpu/instruction.rs:91-94 | the target register is the same field as the target immediate |
| N64Instruction.NarrowField | src/n64/cpu/instruction.rs:25 | narrowing a field to `u16` keeps its bound |
| N64Instruction.EscapeKeys | src/n64/cpu/instruction.rs:30-48 | or-ing in the escape prefixes sends a 6-bit function field into 0xC0..0xFF and a 5-bit field into 0x1E0..0x1FF or 0x3E0..0x3FF, and the field can be read back from the key |
| N64Instruction.KeyRanges | src/n64/cpu/instruction.rs:24-48 | the primary key is below 64, each escape key lies in its own range, and equal escape keys mean equal sub-fields |
| N64Instruction.OpcodeAsWritten | src/n64/cpu/instruction.rs:24-58 | the lookup as written succeeds exactly when the primary field names a table opcode other than the SPECIAL and REGIMM escapes, and then gives the opcode whose value is that field; every failure is an unrecognised opcode |
| N64Instruction.AsWrittenRejectsEscapes | src/n64/cpu/instruction.rs:29-46 | every SPECIAL or REGIMM word fails the lookup as written, because its escape key is looked up in the primary table |
| N64Instruction.AdduRejectedAsWritten | src/n64/cpu/instruction.rs:29-37 | `addu r0, r0, r0` fails the lookup as written, while the two-level lookup decodes it as ADDU |
| N64Instruction.Decode | src/n64/cpu/instruction.rs:24-58 | a decoded primary opcode carries the word's primary value and is no escape; a SPECIAL result matches the function field; a REGIMM result matches the target field; failure is an unrecognised opcode |
| N64Instruction.DecodesPrimary | src/n64/cpu/instruction.rs:24-28 | every primary opcode other than the escapes is decoded from any word whose primary field holds its value |
| N64Instruction.DecodesSpecial | src/n64/cpu/instruction.rs:29-37 | every SPECIAL function is decoded from any SPECIAL word whose function field holds its value |
| N64Instruction.DecodesRegimm | src/n64/cpu/instruction.rs:38-46 | BGEZAL is decoded from any REGIMM word whose target field holds its value |
| N64Instruction.DecodeAgreesAsWritten | src/n64/cpu/instruction.rs:24-58 | where the lookup as written succeeds the two-level lookup gives the same primary opcode, and conversely |
| N64Instruction.RegistersOfType | src/n64/cpu/instruction.rs:97-107 | I-type names target and source, R-type also the destination, J-type nothing, each from its own field |
| N64Instruction.GetRequiredRegisters | src/n64/cpu/instruction.rs:97-107 | succeeds exactly for LUI, naming its target and source fields; every other word panics on the opcode or on its type |
| N64Instruction.RequiredRegistersAsWritten | src/n64/cpu/opcode.rs:89-94 | `get_type` on the opcode as written and the model on the corrected decoding let exactly the same words through: the LUI words |
| N64Opcode.FromU16 | src/n64/cpu/opcode.rs:11-29 | a value found in the primary table is below 64 and is the found opcode's value |
| N64Opcode.FromU16RoundTrip | src/n64/cpu/opcode.rs:11-29 | every primary opcode is found again from its value, which is a 6-bit field |
| N64Opcode.ValuesDistinct | src/n64/cpu/opcode.rs:13-28 | no two primary opcodes share a value |
| N64Opcode.SpecialFromU16 | src/n64/cpu/opcode.rs:31-49 | a value found in the SPECIAL table is the found function's value |
| N64Opcode.SpecialRoundTrip | src/n64/cpu/opcode.rs:31-49 | every SPECIAL function is found again from its value, which is a 6-bit field |
| N64Opcode.RegimmFromU16 | src/n64/cpu/opcode.rs:51-56 | the REGIMM table holds exactly 0x11, BGEZAL |
| N64Opcode.ShiftedImmediate | src/n64/cpu/opcode.rs:71 | a 16-bit immediate shifted by 16 fits the low word; the sign bit of that word is the immediate's top bit |
| N64Opcode.LuiFields | src/n64/cpu/opcode.rs:71 | LUI loads the immediate into bits 31..16 with zeros below, and bits 63..32 copy bit 31 |
| N64Opcode.Lui | src/n64/cpu/opcode.rs:71 | (specification function, no contract of its own) the LUI value; `LuiFields` and `LuiExamples` state what it is |
| N64Opcode.LuiExamples | src/n64/cpu/opcode.rs:71 | LUI of 0x1234 loads 0x12340000; LUI of 0xBEEF loads 0xFFFFFFFFBEEF0000 |
| N64Opcode.ExPhase1 | src/n64/cpu/opcode.rs:59-67 | the first execute phase passes exactly for LUI and panics for every other opcode |
| N64Opcode.ExPhase2 | src/n64/cpu/opcode.rs:69-74 | the second execute phase succeeds exactly for LUI, whose target value is the loaded word; every other opcode panics |
| N64Opcode.GetType | src/n64/cpu/opcode.rs:89-94 | only LUI has a type, I-type; every other opcode panics |
| N64Pipeline.NextStage | src/n64/cpu/pipeline.rs:228-262 | on the ten canonical stages a step moves one phase on and stops at COMPLETE(0); the result is COMPLETE exactly after WB phase 2 or from COMPLETE |
| N64Pipeline.StageAfterPosition | src/n64/cpu/pipeline.rs:228-262 | `n` steps move a canonical stage `n` phases on, capped at COMPLETE(0) |
| N64Pipeline.CompleteAtTen | src/n64/cpu/pipeline.rs:264-266 | among the canonical stages only COMPLETE(0) is ten phases past IF phase 1 |
| N64Pipeline.CompletesAfterTen | src/n64/cpu/pipeline.rs:37-49 | a new pipeline's stage is COMPLETE(0) after `n` steps exactly when `n` is at least ten |
| N64Pipeline.WrappingAdd | src/n64/cpu/pipeline.rs:126 | the sum, less 2^64 when it overflows |
| N64Pipeline.Decoding | src/n64/cpu/pipeline.rs:135-171 | (specification function, no contract of its own) RF phase 2 on values; `DecodingOnlyLui` states what it does |
| N64Pipeline.Executing | src/n64/cpu/pipeline.rs:173-201 | (specification function, no contract of its own) EX phase 1 on values; `ExecutingLui` states what it does |
| N64Pipeline.Commit | src/n64/cpu/pipeline.rs:209-224 | (specification function, no contract of its own) WB phase 1 on values; `WritebackWritesTarget` states what it does |
| N64Pipeline.Work | src/n64/cpu/pipeline.rs:57-114 | (specification function, no contract of its own) the phase dispatch of `run_cycle`; `WorkKeepsStage`, `PcOnlyInFetch`, `GprsOnlyInWriteback` and `IdlePhase` state what it does |
| N64Pipeline.Cycle | src/n64/cpu/pipeline.rs:51-117 | (specification function, no contract of its own) `run_cycle` on values; `StalledDoesNothing`, `CycleAdvancesStage` and `CycleIsWork` state what it does, and `Pipeline.RunCycle` is proved to follow it |
| N64Pipeline.Run | src/n64/cpu/pipeline.rs:51-117 | (specification function, no contract of its own) repeated `run_cycle`; `RunFirst`, `RunStages` and `FreshCompletesAfterTen` state what it does |
| N64Pipeline.Fetch | src/n64/cpu/pipeline.rs:125 | a program counter in kseg1 fetches the bus word at the counter less 0xFFFF_FFFF_A000_0000; any other segment panics as an unrecognised address, and a kseg1 bit pattern below the base panics on the subtraction |
| N64Pipeline.StalledDoesNothing | src/n64/cpu/pipeline.rs:56 | a stalled pipeline's cycle changes nothing |
| N64Pipeline.CycleAdvancesStage | src/n64/cpu/pipeline.rs:56-116 | a cycle that does not panic moves the stage one step and keeps the stall flag and the result slot |
| N64Pipeline.PcOnlyInFetch | src/n64/cpu/pipeline.rs:123-128 | IF phase 2 stores the fetched word and moves the program counter one instruction on, wrapping; every other cycle keeps both |
| N64Pipeline.GprsOnlyInWriteback | src/n64/cpu/pipeline.rs:102-112 | only WB phase 1 changes the register file |
| N64Pipeline.WritebackWritesTarget | src/n64/cpu/pipeline.rs:209-224 | WB phase 1 writes the target value to the target register and leaves every other register; without a value it writes nothing |
| N64Pipeline.DecodingOnlyLui | src/n64/cpu/pipeline.rs:135-171 | RF phase 2 succeeds exactly for LUI, recording its opcode and its target and source registers and nothing else |
| N64Pipeline.ExecutingLui | src/n64/cpu/pipeline.rs:173-201 | EX phase 1 of LUI records the loaded value as the target value; any other primary opcode panics |
| N64Pipeline.RunStages | src/n64/cpu/pipeline.rs:51-117 | after `n` cycles that do not panic the stage is `n` steps on and the pipeline is not stalled |
| N64Pipeline.FreshCompletesAfterTen | src/n64/cpu/pipeline.rs:37-49 | a new pipeline that does not panic is complete after `n` cycles exactly when `n` is at least ten |
| N64Pipeline.IdlePhase | src/n64/cpu/pipeline.rs:119-121 | IF 1, RF 1, EX 2, DC 1 and 2 and WB 2 only advance the stage |
| N64Pipeline.RunFirst | src/n64/cpu/pipeline.rs:51-117 | a run is its first cycle followed by the rest |
| N64Pipeline.LuiFetchDecode | src/n64/cpu/pipeline.rs:119-171 | four cycles of a new pipeline on a LUI word fetch and decode it and move the program counter one instruction on |
| N64Pipeline.LuiExecute | src/n64/cpu/pipeline.rs:173-207 | four cycles from EX phase 1 compute the LUI value and reach WB phase 1 |
| N64Pipeline.LuiWriteback | src/n64/cpu/pipeline.rs:209-226 | the two WB cycles write the LUI value to its target register and complete |
| N64Pipeline.LuiRetires | src/n64/cpu/pipeline.rs:51-266 | a LUI word runs to completion in ten cycles, with the program counter one instruction on and only its target register changed, holding the loaded value |
| N64Pipeline.WorkKeepsStage | src/n64/cpu/pipeline.rs:57-114 | the phase's work never moves the stage; only the stage step at the end of the cycle does |
| N64Pipeline.CycleIsWork | src/n64/cpu/pipeline.rs:56-116 | an unstalled cycle is the phase's work, then the stage step; a panic in the work is the cycle's panic |
| N64Pipeline.Pipeline.New | src/n64/cpu/pipeline.rs:37-49 | a new pipeline is in IF phase 1, not stalled, with every slot empty |
| N64Pipeline.Pipeline.IsComplete | src/n64/cpu/pipeline.rs:264-266 | (predicate, no contract of its own) the stage is COMPLETE(0); `CompleteAtTen` and `CompletesAfterTen` say when that holds |
| N64Pipeline.Pipeline.FetchPhase | src/n64/cpu/pipeline.rs:123-128 | IF phase 2 stores the fetched word and moves the program counter, or panics with the fetch's fault and changes neither |
| N64Pipeline.Pipeline.DecodePhase | src/n64/cpu/pipeline.rs:135-171 | the fields become the decoded snapshot, or are unchanged when decoding panics |
| N64Pipeline.Pipeline.ExecutePhase | src/n64/cpu/pipeline.rs:173-201 | the fields become the executed snapshot, or are unchanged when execution panics |
| N64Pipeline.Pipeline.WritebackPhase | src/n64/cpu/pipeline.rs:209-224 | the register file becomes the committed file, or is unchanged when the write panics |
| N64Pipeline.Pipeline.WorkPhase | src/n64/cpu/pipeline.rs:57-114 | the pipeline, program counter and registers become the phase's work on them, with its panic |
| N64Pipeline.Pipeline.RunCycle | src/n64/cpu/pipeline.rs:51-117 | the pipeline, program counter and registers become one cycle of the model, with its panic |
| N64Cpu.AdmitBounded | src/n64/cpu/cpu.rs:45-47 | a new pipeline joins the back exactly on even phases with fewer than five queued, so the queue never exceeds five; otherwise the queue is unchanged |
| N64Cpu.Admit | src/n64/cpu/cpu.rs:45-47 | (specification function, no contract of its own) `setup_pipeline` on even clock phases; `AdmitBounded` states what it does |
| N64Cpu.FrontComplete | src/n64/cpu/cpu.rs:64-73 | (predicate, no contract of its own) `end_tick` on values; `RetireFront` shows it is false for an empty queue, and `Cpu.EndTick` is proved to compute it |
| N64Cpu.Retire | src/n64/cpu/cpu.rs:57-59 | (specification function, no contract of its own) `pop_front` when the oldest is complete; `RetireFront` states what it does |
| N64Cpu.RunQueue | src/n64/cpu/cpu.rs:49-55 | (specification function, no contract of its own) the loop over the queue on values; `RunQueueLast`, `RunQueueStep`, `RunQueueNext`, `RunQueueErrPrefix` and `RunQueueStepsEach` state what it does |
| N64Cpu.TickQueue | src/n64/cpu/cpu.rs:43-62 | (specification function, no contract of its own) `tick` on values; `TickOfRun`, `TickKeepsQueue` and `FirstTick` state what it does, and `Cpu.Tick` is proved to follow it |
| N64Cpu.RetireFront | src/n64/cpu/cpu.rs:57-59 | at most the oldest pipeline leaves, only when it is complete, and never from an empty queue |
| N64Cpu.RunQueueLast | src/n64/cpu/cpu.rs:50-55 | a run of the queue is the run of all but the newest pipeline followed by the newest's cycle on the state they left |
| N64Cpu.RunQueueStep | src/n64/cpu/cpu.rs:50-55 | running one more pipeline extends the run by that pipeline's cycle, or ends it with that cycle's panic |
| N64Cpu.RunQueueNext | src/n64/cpu/cpu.rs:50-55 | when pipeline `i` panics the whole run panics with that fault; otherwise the run of the first `i + 1` pipelines ends with its cycle |
| N64Cpu.UpdateNext | src/n64/cpu/cpu.rs:50-55 | replacing the next pipeline of the queue after those already run moves it to the ones already run |
| N64Cpu.RunQueueErrPrefix | src/n64/cpu/cpu.rs:50-55 | a panic among the oldest pipelines is the panic of the whole run |
| N64Cpu.RunQueueStepsEach | src/n64/cpu/cpu.rs:50-55 | a run without a panic runs every pipeline exactly once: a stalled one is unchanged, any other moves one stage on |
| N64Cpu.TickKeepsQueue | src/n64/cpu/cpu.rs:43-62 | a tick without a panic keeps at most five pipelines, adds none on odd phases, removes at most one, and needs a phase below the largest `u64` |
| N64Cpu.FirstTick | src/n64/cpu/cpu.rs:43-62 | on an empty queue and an even phase a tick admits one pipeline, which moves to IF phase 2, leaving the registers alone |
| N64Cpu.Snaps | src/n64/cpu/cpu.rs:20 | the queue of pipeline objects as values, one per pipeline, oldest first |
| N64Cpu.Cpu.New | src/n64/cpu/cpu.rs:26-41 | zeroed registers with the program counter at the PIF ROM's kseg1 address, no pipelines, clock phase 0, the given bus |
| N64Cpu.Cpu.EndTick | src/n64/cpu/cpu.rs:64-73 | true exactly when the oldest pipeline exists and is complete |
| N64Cpu.Cpu.SetupPipeline | src/n64/cpu/cpu.rs:74-78 | a new pipeline object joins the back when fewer than five are queued; otherwise nothing changes |
| N64Cpu.Cpu.StartTickPhase | src/n64/cpu/cpu.rs:45-47 | the queue becomes the admitted queue for the current clock phase |
| N64Cpu.Cpu.EndTickPhase | src/n64/cpu/cpu.rs:57-61 | the queue becomes the retired queue and the clock phase counts on by one, panicking on overflow; registers unchanged |
| N64Cpu.Cpu.CycleAt | src/n64/cpu/cpu.rs:50-54 | pipeline `i` and the registers become one cycle of the model on them; every other pipeline is unchanged |
| N64Cpu.Cpu.RunOne | src/n64/cpu/cpu.rs:50-55 | one turn of the loop keeps the loop invariant: the pipelines run so far are the model's run of them, or the whole run panics with this turn's fault |
| N64Cpu.Cpu.RunPipelines | src/n64/cpu/cpu.rs:49-55 | the pipelines and registers become the model's run of the queue, oldest first, with its panic |
| N64Cpu.Cpu.RunAndRetire | src/n64/cpu/cpu.rs:49-61 | after admission, a panic of the run is the tick's panic; otherwise the queue is the run's queue retired, the registers are the run's, and the clock phase counts on by one or panics on overflow |
| N64Cpu.Cpu.Tick | src/n64/cpu/cpu.rs:43-62 | the pipelines and registers become the model's tick of them, with its panic, and the clock phase counts on by one |
| N64RegStatus.ModeFrom | src/n64/cpu/cp0/reg_status.rs:143-152 | KSU 00 is Kernel, 01 Supervisor, 10 User, and 11 panics as an invalid mode, each in both directions |
| N64RegStatus.VectorLocationFrom | src/n64/cpu/cp0/reg_status.rs:166-174 | with bit 6 clear the location is Normal; with it set the masked value is 0x40, neither arm matches, and the conversion panics as unreachable |
| N64RegStatus.ErrorLevelFrom | src/n64/cpu/cp0/reg_status.rs:188-196 | the error level is Normal exactly when bit 2 is set |
| N64RegStatus.ExceptionLevelFrom | src/n64/cpu/cp0/reg_status.rs:210-218 | the exception level is Normal exactly when bit 2 is set, the same bit as the error level |
| N64RegStatus.InterruptMaskFrom | src/n64/cpu/cp0/reg_status.rs:111-123 | the mask has five external and two software flags |
| N64RegStatus.DiagnosticStatusFrom | src/n64/cpu/cp0/reg_status.rs:87-97 | the diagnostic status decodes exactly when the vector location does, and then ITS, TS, SR and CH are set whatever the field holds |
| N64RegStatus.MaskByteBits | src/n64/cpu/cp0/reg_status.rs:47 | bit i of the mask byte is bit 8 + i of the Status word |
| N64RegStatus.MaskOfWord | src/n64/cpu/cp0/reg_status.rs:111-123 | IM(7), the timer, is bit 15; external flag i is bit 10 + i; software flag i is bit 8 + i |
| N64RegStatus.Default | src/n64/cpu/cp0/reg_status.rs:1-41 | the derived default: every flag clear (CU, RP, FR, RE, ITS, TS, SR, CH, the timer, five external and two software interrupt-mask flags, KX, SX, UX, IE), Kernel mode, Normal levels and vector location |
| N64RegStatus.StatusFrom | src/n64/cpu/cp0/reg_status.rs:43-64 | (specification function, no contract of its own) `From<u32> for RegStatus`; `StatusPanics`, `StatusFlags`, `StatusInterruptMask`, `StatusLevels` and `NeverBootstrap` state what it does |
| N64RegStatus.StatusPanics | src/n64/cpu/cp0/reg_status.rs:43-67 | decoding a Status word panics exactly when BEV (bit 22) is set or KSU is 11, and a set BEV panics first, as unreachable |
| N64RegStatus.CoprocFlagBits | src/n64/cpu/cp0/reg_status.rs:45-52 | CU[i] is bit 28 + i |
| N64RegStatus.StatusFlags | src/n64/cpu/cp0/reg_status.rs:43-67 | RP is bit 27, FR 26, RE 25, KX 7, SX 6, UX 5 and IE 0, and the CU flags are the top nibble |
| N64RegStatus.StatusInterruptMask | src/n64/cpu/cp0/reg_status.rs:47-57 | the interrupt mask is decoded from bits 15..8 |
| N64RegStatus.StatusLevels | src/n64/cpu/cp0/reg_status.rs:56-63 | KSU is decoded from bits 4..3, ERL and EXL both follow bit 2, and the diagnostic flags are set whatever the word |
| N64RegStatus.NeverBootstrap | src/n64/cpu/cp0/reg_status.rs:166-174 | no Status word decodes with the Bootstrap vector location; a word with only BEV set panics |
| LegacyRegStatus.DiagnosticOf | src/cpu/cp0/reg_status.rs:91-98 | ITS, TS, SR and CH are always set, and the location is Bootstrap exactly when bit 6 of the field is set |
| LegacyRegStatus.VectorLocationFrom | src/cpu/cp0/reg_status.rs:167-175 | (specification function, no contract of its own) bit 6 of the field selects Bootstrap; `DiagnosticOf` states it |
| LegacyRegStatus.DiagnosticAgrees | src/cpu/cp0/reg_status.rs:167-175 | where the newer core decodes a diagnostic field the two agree; where it panics, this one answers Bootstrap |
| LegacyRegStatus.BeforeModeBits | src/cpu/cp0/reg_status.rs:45-62 | CU is the top nibble, RP bit 27, FR 26, RE 25, KX 7, SX 6, UX 5, and the vector location follows BEV, bit 22, even when the write then panics |
| LegacyRegStatus.BeforeMode | src/cpu/cp0/reg_status.rs:45-62 | (specification function, no contract of its own) the fields `write` assigns before KSU; `BeforeModeBits` states them |
| LegacyRegStatus.Written | src/cpu/cp0/reg_status.rs:44-70 | (specification function, no contract of its own) the register after `write`; `WrittenLevels`, `WriteIdempotent` and `AgreesWithNewer` state what it is, and `RegStatus.Write` is proved to follow it |
| LegacyRegStatus.WrittenLevels | src/cpu/cp0/reg_status.rs:64-69 | a write panics exactly when KSU is 11, and otherwise sets KSU from bits 4..3, ERL and EXL from bit 2 and IE from bit 0 |
| LegacyRegStatus.WriteIdempotent | src/cpu/cp0/reg_status.rs:44-70 | writing the same word twice leaves what writing it once does, and a write that does not panic forgets the previous state |
| LegacyRegStatus.AgreesWithNewer | src/cpu/cp0/reg_status.rs:44-70 | where the newer core decodes a Status word this write leaves the same value; with BEV set the newer core panics where this one records Bootstrap |
| LegacyRegStatus.DiagnosticStatus.constructor | src/cpu/cp0/reg_status.rs:73-89 | the derived default: every flag clear, Normal vector location |
| LegacyRegStatus.DiagnosticStatus.Write | src/cpu/cp0/reg_status.rs:91-98 | the diagnostic status becomes the decoding of the field |
| LegacyRegStatus.InterruptMask.constructor | src/cpu/cp0/reg_status.rs:101-111 | the derived default: every interrupt masked off |
| LegacyRegStatus.InterruptMask.Write | src/cpu/cp0/reg_status.rs:113-124 | the mask becomes the decoding of the byte: timer bit 7, external bits 6..2, software bits 1..0 |
| LegacyRegStatus.InterruptMask.WriteExternal | src/cpu/cp0/reg_status.rs:116-120 | the five external flags become bits 2..6 of the byte |
| LegacyRegStatus.RegStatus.constructor | src/cpu/cp0/reg_status.rs:1-41 | the derived default, the same value as the newer core's default |
| LegacyRegStatus.RegStatus.Write | src/cpu/cp0/reg_status.rs:44-70 | the register becomes the written value, with only the fields before KSU changed when KSU is 11, which panics as an invalid mode |
| LegacyRegStatus.RegStatus.WriteBeforeMode | src/cpu/cp0/reg_status.rs:45-62 | CU, RP, FR, RE, DS, IM, KX, SX and UX take their values from the word; the other fields keep theirs |
| LegacyRegStatus.RegStatus.WriteCoprocUsability | src/cpu/cp0/reg_status.rs:45-49 | the four usability flags become the top nibble; nothing else changes |
| LegacyRegStatus.RegStatus.WriteEndianFlags | src/cpu/cp0/reg_status.rs:51-53 | RP, FR and RE become bits 27, 26 and 25; nothing else changes |
| LegacyRegStatus.RegStatus.WriteDiagnosticStatus | src/cpu/cp0/reg_status.rs:55-56 | the diagnostic status becomes the decoding of bits 24..16; nothing else changes |
| LegacyRegStatus.RegStatus.WriteInterruptMask | src/cpu/cp0/reg_status.rs:57-58 | the interrupt mask becomes the decoding of bits 15..8; nothing else changes |
| LegacyRegStatus.RegStatus.WriteWidthFlags | src/cpu/cp0/reg_status.rs:60-62 | KX, SX and UX become bits 7, 6 and 5; nothing else changes |
| LegacyRegConfig.ConfigFrom | src/cpu/cp0/reg_config.rs:15-19 | EP is D exactly when bits 27..24 are 0 and DxxDxx exactly when they are 6; BE is BigEndian exactly when bit 15 is set; K0 is NotUsed exactly when bits 2..0 are 010 |
| LegacyRegConfig.EpFrom | src/cpu/cp0/reg_config.rs:35-45 | (specification function, no contract of its own) `From<u32> for EP`; `ConfigFrom` states its cases |
| LegacyRegConfig.BeFrom | src/cpu/cp0/reg_config.rs:58-67 | (specification function, no contract of its own) `From<u32> for BE`; `ConfigFrom` states its cases |
| LegacyRegConfig.K0From | src/cpu/cp0/reg_config.rs:81-89 | (specification function, no contract of its own) `From<u32> for K0`; `ConfigFrom` states its cases |
| LegacyRegConfig.ConfigWord | src/cpu/cp0/reg_config.rs:35-89 | an encoding word uses only the EP, BE and K0 bits |
| LegacyRegConfig.ConfigRoundTrip | src/cpu/cp0/reg_config.rs:35-89 | every configuration can be written: decoding its word gives it back |
| LegacyRegConfig.ConfigIgnoresOtherBits | src/cpu/cp0/reg_config.rs:35-89 | a write ignores every bit outside EP, BE and K0 |
| LegacyRegConfig.RegConfig.constructor | src/cpu/cp0/reg_config.rs:2-7 | the derived default: D, BigEndian, NotUsed |
| LegacyRegConfig.RegConfig.PowerOnReset | src/cpu/cp0/reg_config.rs:10-13 | EP becomes D and BE BigEndian; K0 is kept |
| LegacyRegConfig.RegConfig.Write | src/cpu/cp0/reg_config.rs:15-19 | all three fields are decoded from the word, whatever they held before |
| LegacyCp0.StatusWord | src/cpu/cp0/cp0.rs:26-28 | the Status register receives the low 32 bits of the 64-bit value |
| LegacyCp0.Cp0.constructor | src/cpu/cp0/cp0.rs:3-7 | the derived default: the default Config and Status registers |
| LegacyCp0.Cp0.PowerOnReset | src/cpu/cp0/cp0.rs:11-13 | only the Config register is reset |
| LegacyCp0.Cp0.WriteReg | src/cpu/cp0/cp0.rs:15-24 | register 12 is Status and takes the low 32 bits, panicking as the Status write does; any other index panics and changes nothing |
| LegacyCp0.Cp0.WriteStatusReg | src/cpu/cp0/cp0.rs:26-28 | Status becomes the write of the low 32 bits of the value |
| LegacyCpu.VaddrAgreesWithNewer | src/cpu/cpu.rs:188-196 | the interpreter's translation panics on the same addresses, for the same reason, as the newer core's, and otherwise gives the same physical address |
| LegacyCpu.VaddrToPaddr | src/cpu/cpu.rs:188-196 | translation succeeds exactly for 0xFFFF_FFFF_A000_0000..0xFFFF_FFFF_BFFF_FFFF, and the physical address is below 0x2000_0000 |
| LegacyCpu.Fetch | src/cpu/cpu.rs:165-172 | a program counter in kseg1 reads the bus word at the counter less the segment base; any other segment panics as an unrecognised address |
| LegacyCpu.ResetFetchesPifRom | src/cpu/cpu.rs:101-105 | after a power-on reset the first instruction is read from the start of the PIF boot ROM |
| LegacyCpu.SetGpr | src/cpu/cpu.rs:174-178 | a register write keeps the size of the register file |
| LegacyCpu.ReadGpr | src/cpu/cpu.rs:180-185 | register 0 reads as zero whatever it holds; `ReadAfterWrite` states the rest |
| LegacyCpu.ReadAfterWrite | src/cpu/cpu.rs:174-185 | a read after a write sees the written value, except through register 0, which reads zero; every other register is untouched |
| LegacyCpu.Rs | src/cpu/cpu.rs:118 | the rs field is a register index below 32 |
| LegacyCpu.Rt | src/cpu/cpu.rs:119 | the rt field is a register index below 32 |
| LegacyCpu.Immediate | src/cpu/cpu.rs:120 | the zero-extended immediate is below 2^16 |
| LegacyCpu.Ori | src/cpu/cpu.rs:129-133 | ORI keeps bits 63..16 of the register and or-s the immediate into the low half |
| LegacyCpu.LwAddress | src/cpu/cpu.rs:141-142 | (specification function, no contract of its own) base plus the sign-extended immediate, wrapping; `LoadAlwaysPanics` states how LW uses it |
| LegacyCpu.Execute | src/cpu/cpu.rs:117-162 | (specification function, no contract of its own) the opcode dispatch of `run_instruction`; `StepAdvances`, `StepFailsUnchanged`, `LoadAlwaysPanics`, `ImmediateWritesTarget` and `MoveToStatus` state what it does |
| LegacyCpu.Step | src/cpu/cpu.rs:113-163 | (specification function, no contract of its own) `run_instruction` on values; the same lemmas state what it does, and `Cpu.RunInstruction` is proved to follow it |
| LegacyCpu.Advance | src/cpu/cpu.rs:162 | the program counter moves on by four unless that overflows, which panics and changes nothing |
| LegacyCpu.StepAdvances | src/cpu/cpu.rs:113-163 | an instruction that completes moves the program counter on by exactly four and keeps the register file's size |
| LegacyCpu.StepFailsUnchanged | src/cpu/cpu.rs:113-163 | a fetch that panics, LW, an unknown opcode and MTC0 to a register other than Status stop the machine without changing it |
| LegacyCpu.LoadAlwaysPanics | src/cpu/cpu.rs:139-156 | LW panics with an address error on an unaligned address and with its diagnostic panic otherwise, changing nothing |
| LegacyCpu.ImmediateWritesTarget | src/cpu/cpu.rs:129-138 | ORI and LUI write register rt, which then reads back as the computed value unless rt is 0; no other register and not Status changes; the program counter moves on by four |
| LegacyCpu.MoveToCp0 | src/cpu/cpu.rs:123-128 | MTC0 leaves the general purpose registers as they were, whatever register it targets |
| LegacyCpu.MoveToStatus | src/cpu/cpu.rs:123-128 | MTC0 to register 12 writes the low word of rt into Status and leaves the registers; it completes exactly when KSU is valid and the program counter does not overflow |
| LegacyCpu.Cpu.New | src/cpu/cpu.rs:80-99 | every register zero, the program counter zero, a default coprocessor 0, the given bus |
| LegacyCpu.Cpu.PowerOnReset | src/cpu/cpu.rs:101-105 | Config is reset and the program counter points at the PIF boot ROM |
| LegacyCpu.Cpu.WriteGpr | src/cpu/cpu.rs:174-178 | the register array becomes the written register file |
| LegacyCpu.Cpu.RunInstruction | src/cpu/cpu.rs:113-163 | registers, program counter and Status become one step of the model, with its panic |
| LegacyCpu.Cpu.ExecuteWord | src/cpu/cpu.rs:117-162 | registers, program counter and Status become the execution of the fetched word |
| LegacyCpu.Cpu.MoveToCoprocessor | src/cpu/cpu.rs:123-128 | Status and the program counter become MTC0 of register rt into register rd |
| LegacyCpu.Cpu.AdvancePc | src/cpu/cpu.rs:162 | the program counter moves on by four, or the step panics on overflow |
| LegacyInstruction.New | src/cpu/instruction.rs:8-10 | the word is kept unchanged |
| LegacyInstruction.GetBits | src/cpu/instruction.rs:12-14 | the field taken is below 2 to the number of bits asked for |
| LegacyInstruction.GetOpcode | src/cpu/instruction.rs:16-18 | the opcode is bits 31..26, below 64 |
| LegacyInstruction.GetImmediate | src/cpu/instruction.rs:20-22 | the immediate is bits 15..0 |
| LegacyInstruction.Reassemble | src/cpu/instruction.rs:12-22 | the opcode, bits 25..16 and the immediate put the word back together |

## Left out

- N64Instruction.GetBits: states only that the field is below 2^n, not that it equals `(w >> from) mod 2^n`. The equality, stated next to the bit-vector casts, is too costly for the solver. The field accessors and `FieldsReassemble` state what each field holds.
- LegacyInstruction.GetBits: the same bound only, for the same reason. `GetOpcode`, `GetImmediate` and `Reassemble` state the fields exactly.
- Several `src/n64/interface` devices are not part of this model: the RSP, peripheral, video, serial, cartridge and drawing interfaces that `src/n64/bus.rs` imports. The bus is given the older `src/interface` devices of the same names in their place.
- `Bus::new` in `src/n64/bus.rs` receives the PIF ROM and the cartridge image. The model takes them as already-built device objects.
- `RegistersUsed::process`, called by RF phase 2, is not defined anywhere. Its effect is left out: nothing later reads register values, and writeback only uses the target value.
- `Opcode::COPROC`, `OpcodeCoproc`, `Type::RTYPECP` and `RegistersUsed::rtypecp` are not defined anywhere. So the COPROC arms of `Instruction::opcode` and of the pipeline are left out, along with the `opcode_coproc` slot. Only the COPROC key's range is stated (`N64Instruction.KeyRanges`).
- The SPECIAL and REGIMM execute phases do nothing in the source. The model keeps only their `unwrap` of the sub-opcode. Decoding lets only LUI through, so they are never reached.
- The `prev_reg` argument of `run_cycle` is never read. `RunCycle` takes it, and no contract mentions it.
- The `cp0` argument of `run_cycle` is not read, and the newer `CP0` type is not part of this model.
- The stage phase is a `u8` in the source. `phase + 1` would overflow only from phase 255, which no pipeline reaches, so phases are `nat`.
- `Cpu::run` in `src/cpu/cpu.rs` loops forever over `run_instruction`. Only one instruction is modelled (`LegacyCpu.Cpu.RunInstruction`).
- LW's memory read after its unconditional panic is dead code. It is left out.
- The floating-point registers of both generations are left out. No modelled instruction reads or writes them, and the source has no float arithmetic.
- The state after a panic is unspecified except where a contract says otherwise: the process aborts.
- `println!` tracing and the `Debug`/`LowerHex` formatting are left out.
- `src/cpu.rs`, `src/cpu/opcode.rs`, `src/n64.rs`, `src/n64/n64.rs`, `src/main.rs` and the debugger are not part of this model. They only wire the pieces together, read files, or print.
- N64VirtualAddress.ToPaddr: a kseg1 bit pattern whose upper bits are not all ones gives `ArithmeticOverflow`, which is the debug build's panic on the subtraction at `src/n64/cpu/virtual_address.rs:26`. A release build would wrap instead, and that behaviour is not modelled.
- N64Instruction.GetRequiredRegisters: decodes with the corrected `Decode`, while `get_type` in `src/n64/cpu/opcode.rs` uses the opcode as written. `RequiredRegistersAsWritten` proves that both let exactly the LUI words through. Only the fault reported for SPECIAL and REGIMM words differs.
- LegacyCpu.LwAddress: has no contract of its own, because an ensures relating the 64-bit wrapping add to its operands is too costly for the solver. `LoadAlwaysPanics` states how LW uses it.
- The PIF's `0xFFF24` check in `src/n64/interface/pif.rs` can never fire: the RAM offset is always below 0x40. It is not modelled as a separate branch.

## Findings

| source | as written | input that shows it | evidently intended | confidence | as-written member | corrected member |
|---|---|---|---|---|---|---|
| src/n64/cpu/instruction.rs:29-46 | the SPECIAL key (the function field with 0xC0 or-ed in) and the REGIMM key (the target field with 0x1E0 or-ed in) are looked up with `Opcode::from_u16`, whose table holds only the 14 primary opcodes, all below 64, so every SPECIAL or REGIMM instruction panics as an unrecognised opcode | the word 0x00000021, `addu r0, r0, r0` | the function field looked up among the SPECIAL opcodes and the target field among the REGIMM opcodes | not executed | N64Instruction.AdduRejectedAsWritten | N64Instruction.Decode |
