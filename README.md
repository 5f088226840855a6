# NES emulation core in Dafny

A model of the emulation core of the `nes` emulator, written in Go. The model
covers the following parts:

- **The 6502 CPU engine** (`cpu.dfy`, `cpu_spec.dfy`, `cpu_alu.dfy`, `cpu_tables.dfy`, `cpu_props.dfy`).
  - The four 256-entry opcode tables and the handler table.
  - The status-flag helpers, with their `iota` masks 1..8.
  - The stack.
  - Operand-address resolution for the 13 addressing modes.
  - The handlers of every documented opcode.
  - Interrupt entry and the `wait_cycles` countdown of `Tick`.
  - `PowerOn` and `Reset`.

  The class `Cpu.Cpu` holds the registers and a 64 KB memory array. It updates them step by step, as the Go methods do. Each of its methods is proved to leave the state that a function of `CpuSpec` computes, and the properties are proved about those functions.
- **Address decoding** (`bus.dfy`, `mmc1.dfy`).
  - The PPU bus, with name-table mirroring and palette folding.
  - The CPU bus, with its 2 KB work RAM mirrored three times and register routing.
  - The MMC1 memory map, with its 16-bit accessors, which read the high byte first and store the low nibble.
- **Cartridge mapping and storage** (`mmc0.dfy`, `mmc.dfy`, `rom.dfy`).
  - The NROM bank offsets.
  - The mapper factory.
  - The bounds-checked PRG and CHR accessors.
  - The iNES / NES 2.0 header decoding of `Load`, written as a parser over the file's bytes. An encoder is proved to round-trip through that parser.
- **The PPU register file** (`ppu.dfy`): the VRAM data port with its auto-increment, and OAM access.
- **OAM DMA** (`dma.dfy`): the copy loop, with its 16-bit counter.

`bits.dfy` gives bytes and 16-bit words as bounded integers. It gives the Go bitwise operators as functions over the bits of their operands. `apu.dfy` and `mm.dfy` hold the plain data the buses route to.

The Go quirks are kept, not corrected:
- The flag masks are not single bits.
- The SBC carry is inverted, and its overflow test is the one ADC uses.
- `rol`/`ror` rotate the byte within itself.
- `SetAddress` stores `v & 0x0F` where the low byte belongs.
- CPU RAM is mirrored three times.
- A taken branch leaves PC one or two bytes past the target.

Lemmas state what each quirk amounts to.

Facts about the code that the model keeps and the lemmas state:
- Work RAM is mirrored three times, so 0x1800-0x1FFF reaches the mapper (`Bus.MapperFallThrough`).
- Every PPU address from 0x3F00 up, 0x4000 and above included, folds onto the palette, because the palette case comes before the mapper case (`Bus.PaletteFold`).
- The opcode tables use 13 addressing modes (`CpuTables.TablesCoverEveryOpcode`).
- PC is pushed through MMC1's `SetAddress` and popped through `GetAddress`, so a pushed PC comes back swizzled (`CpuSpec.PushAddressThenPopAddress`). With S = 0 the two cells straddle the stack page and the pop reads other cells (`CpuSpec.PushAddressAtBottom`).
- The handlers of illegal opcodes panic, and the model returns that as the `Panicked` outcome of a tick (`CpuProps.TickExecutes`).

## Model

| member | source | states |
|---|---|---|
| `CpuTables.TablesCoverEveryOpcode` | cpu.go:36-199 | Every opcode table has 256 entries. Every mode entry is one of the 13 modes and every size is 0..3, by the tables' element types. |
| `CpuAlu.FlagMasks` | cpu.go:154-164 | The bits of each `iota` flag mask: I (3) covers bits 0 and 1, B (5) bits 0 and 2, R (6) bits 1 and 2, V (7) bits 0..2. |
| `CpuAlu.SetFlag` | cpu.go:348-354 | `setStatusFlag` sets each bit of the mask to the given value and keeps every other bit of P. |
| `CpuAlu.GetFlagBits` | cpu.go:356-358 | A flag reads as set exactly when P shares a bit with the mask. |
| `CpuAlu.FlagReads` | cpu.go:154-164 | What each of the eight flags reads, in terms of the bits of P. |
| `CpuAlu.FlagAliasing` | cpu.go:348-354 | Setting I also makes C and Z read set. Clearing I clears both. Clearing V clears C, Z and D. |
| `CpuAlu.IsNegative` | cpu.go:384-386 | `is_negative` holds exactly for bytes from 0x80 up. |
| `CpuAlu.SetZN` | cpu.go:368-371 | `setZN` sets bit 3 from the value's sign and bit 1 from the value being zero. All other bits are kept. |
| `CpuAlu.OverflowTestSigns` | cpu.go:397-401 | The overflow test holds exactly when A and M agree in sign and the result's sign differs from A's. |
| `CpuAlu.AddWithCarry` | cpu.go:389-408 | ADC gives A + M + C mod 256. Bit 0 is set iff the sum exceeds 255. Bits 1 and 2 are set iff the signed sum leaves -128..127. Bit 3 is the result's sign. Bits 4..7 are kept. |
| `CpuAlu.SubtractWithBorrow` | cpu.go:673-692 | SBC gives A - M - (1 - C) mod 256. Bit 0 is set iff that difference is negative. Bits 1 and 2 use the ADC sign test. Bit 3 is the result's sign. Bits 4..7 are kept. |
| `CpuAlu.Compare` | cpu.go:502-522 | The compares set bit 1 iff register == M, bit 0 iff the wrapped difference is below 0x80, and bit 3 iff it is not. Bits 2 and 4..7 are kept. |
| `CpuAlu.ShiftLeft` | cpu.go:413-432 | ASL doubles the value mod 256. The carry is the old bit 7, Z and N come from the result, and the other bits are kept. |
| `CpuAlu.ShiftRight` | cpu.go:582-599 | LSR halves the value. The carry is the old bit 0, N is clear, Z comes from the result, and the other bits are kept. |
| `CpuAlu.TopCarry` | cpu.go:632 | `v & 0x80 >> 7` is bit 7 of v. |
| `CpuAlu.LowCarry` | cpu.go:653 | `v & 1` is bit 0 of v. |
| `CpuAlu.RolByte` | cpu.go:632-634 | `v << 1 \| carry` is the byte rotated left by one. |
| `CpuAlu.RorByte` | cpu.go:653-655 | `v >> 1 \| carry << 7` is the byte rotated right by one. |
| `CpuAlu.RotateBytesInverse` | cpu.go:624-665 | The two byte rotations undo each other. |
| `CpuAlu.RotateLeft` | cpu.go:624-644 | ROL rotates the byte. The carry is the old bit 7, not the old carry flag. Z and N come from the result. |
| `CpuAlu.RotateRight` | cpu.go:645-665 | ROR rotates the byte. The carry is the old bit 0, not the old carry flag. Z and N come from the result. |
| `CpuAlu.BitTest` | cpu.go:451-456 | BIT sets bits 0 and 2 from bit 6 of M, bit 1 iff M and A share no bit, and bit 3 from bit 7 of M. Bits 4..7 are kept. |
| `CpuAlu.Increment` | cpu.go:545-559 | INC, INX and INY give the value plus one mod 256, with ZN from it. |
| `CpuAlu.Decrement` | cpu.go:523-537 | DEC, DEX and DEY give the value minus one mod 256, with ZN from it. |
| `CpuAlu.IncrementDecrementInverse` | cpu.go:523-559 | Decrementing undoes incrementing, and the other way round. |
| `CpuAlu.RotateInverse` | cpu.go:624-665 | ROR undoes ROL and ROL undoes ROR, whatever the flags. |
| `CpuAlu.ShiftLeftThenRight` | cpu.go:413-599 | LSR after ASL clears bit 7 and leaves the carry clear. |
| `CpuAlu.SubtractIsAddOfComplement` | cpu.go:389-692 | SBC computes the ADC value on the complemented operand but leaves the opposite carry. |
| `CpuAlu.SubtractOverflowMissed` | cpu.go:681-685 | For SBC the ADC overflow test misses a real overflow: 0x50 - 0xB0 leaves V clear. |
| `CpuAlu.CompareCarry` | cpu.go:502-508 | The compare carry agrees with register >= M only when the two are less than 128 apart. It is clear for 0x90 against 0. |
| `CpuSpec.StoreThenLoadAddress` | mmc1.go:36-85 | `GetAddress` after `SetAddress` at the same cells gives the swizzled value. |
| `CpuSpec.StoreAddressFrame` | mmc1.go:82-85 | `SetAddress` changes no cell other than a and a + 1. |
| `CpuSpec.PushThenPop` | cpu.go:326-339 | pop returns the byte push stored and restores S. Only the stack cell changed. |
| `CpuSpec.PushAddressThenPopAddress` | cpu.go:331-346 | pushAddress then popAddress restores S and returns the swizzled address, when S is not 0. |
| `CpuSpec.PushAddressAtBottom` | cpu.go:331-346 | With S = 0, pushAddress writes 0xFF and 0x100 while popAddress reads 0x1FF and 0x200, so S comes back but the popped word is the old contents of 0x1FF-0x200. |
| `CpuSpec.PagesDifferIsMask` | cpu.go:380-382 | `pages_differ` compares exactly the 256-byte pages of its arguments. |
| `CpuSpec.Indexed` | cpu.go:259-264 | An indexed address is base + index mod 65536. It crosses a page iff its page differs from the base's. |
| `CpuSpec.RelativeTarget` | cpu.go:278-284 | The relative-mode target is PC + 2 + the signed offset, mod 65536. |
| `CpuSpec.Operand` | cpu.go:254-291 | Only the absolute-indexed and indirect-indexed modes report a page cross. The zero-page modes stay below 0x100. Immediate mode yields PC. Relative mode yields the branch target. |
| `CpuSpec.BranchTaken` | cpu.go:373-378 | A taken branch leaves PC at target + 2 when the target ends a page, else at target + 1. |
| `CpuSpec.BranchConditionBits` | cpu.go:433-489 | The bits of P each branch tests. BVS and BVC test bits 0..2. |
| `CpuSpec.ExecJump` | cpu.go:433-489 | Branches, jumps and returns owe no cycles. Only BRK raises an interrupt. |
| `CpuSpec.Exec` | cpu.go:389-734 | No handler touches the cycle count. Only BRK sets the pending interrupt. Only the jump family sets PC. |
| `CpuSpec.Service` | cpu.go:219-247 | The interrupt switch clears the pending interrupt and owes 7 cycles whenever one was pending, even a masked one. |
| `CpuSpec.Decode` | cpu.go:252-297 | The operand is read past the opcode. PC moves by the instruction's size. The cycles are added, plus the page-cross cycles when a page was crossed. Nothing else changes. |
| `CpuSpec.Fetch` | cpu.go:249-297 | The fetch decodes the opcode at PC with its entries of the four tables and the handler table. |
| `CpuProps.TickWhileWaiting` | cpu.go:213-217 | A tick with cycles owed only counts one down. |
| `CpuProps.TickExecutes` | cpu.go:213-299 | A tick that executes does these things: it panics exactly on illegal opcodes; it leaves no interrupt pending except after BRK; it owes the table cycles (plus page-cross cycles); and it moves PC by the instruction size unless the handler jumps. |
| `CpuProps.NopFetch` | cpu.go:249-297 | Fetching NOP (0xEA) moves PC one byte and owes two cycles. |
| `CpuProps.NopFirstTick` | cpu.go:213-299 | With nothing pending, a tick on NOP moves PC one byte and owes two cycles. |
| `CpuProps.NopTakesThreeTicks` | cpu.go:213-299 | A NOP takes three ticks, after which only PC has moved. |
| `CpuProps.NmiEntry` | cpu.go:219-247 | NMI entry lowers S by 3 and stores P below the pushed PC. I reads set, PC comes from 0xFFFA, and seven cycles are owed. |
| `CpuProps.IrqEntry` | cpu.go:226-233 | An unmasked IRQ lowers S by 3 and pushes PC, then P below it. I reads set while B and C read clear, PC comes from 0xFFFE, and seven cycles are owed. |
| `CpuProps.BrkEntry` | cpu.go:234-242 | An unmasked BRK lowers S by 3 and pushes PC + 1, then P with B set. I and B read set, PC comes from 0xFFFE, and seven cycles are owed. |
| `CpuProps.MaskedInterruptSkipped` | cpu.go:226-247 | IRQ and BRK while I reads set only owe seven cycles and clear the interrupt. |
| `CpuProps.InterruptReturn` | cpu.go:666-669 | RTI right after an interrupt entry restores P and S, and PC comes back swizzled. |
| `CpuProps.CallReturnStack` | cpu.go:331-346 | Pushing an address, jumping and popping gives back S and the swizzled address. |
| `CpuProps.CallReturn` | cpu.go:563-672 | JSR then RTS restores S and sets PC to the swizzled return address plus one. |
| `CpuProps.PushPullAccumulator` | cpu.go:610-620 | PHA then PLA gives back A and S. |
| `CpuProps.PushPullStatus` | cpu.go:613-623 | PHP then PLP gives back P and S. |
| `CpuProps.IncrementThenDecrement` | cpu.go:523-549 | DEC undoes INC on a memory cell. |
| `CpuProps.RotateAccumulatorBack` | cpu.go:624-665 | ROR undoes ROL on A. |
| `CpuProps.BranchOnEqual` | cpu.go:445-450 | A BEQ tests bit 1 of P and changes only PC. Taken, PC lands one or two bytes past the target. |
| `CpuProps.PowerOnState` | cpu.go:303-316 | After PowerOn, A = X = Y = 0, S = 0xFD, P = 6 (Z and I read set, C clear), no cycles are owed, and PC comes from the reset vector. |
| `CpuProps.ResetMasksInterrupts` | cpu.go:318-324 | Reset lowers S by 3 and sets I, so a pending IRQ is then skipped. |
| `Cpu.Cpu.GetAddress` | mmc1.go:36-38 | Reads the 16-bit word at a, high byte first, without changing anything. |
| `Cpu.Cpu.Set` | cpu.go:702-710 | A memory write changes exactly one cell of the 64 KB memory. |
| `Cpu.Cpu.SetAddress` | mmc1.go:82-85 | Stores the low nibble at a and the high byte at a + 1. |
| `Cpu.Cpu.Push` | cpu.go:326-329 | Leaves the state `CpuSpec.Push` computes. |
| `Cpu.Cpu.PushAddress` | cpu.go:331-334 | Leaves the state `CpuSpec.PushAddress` computes. |
| `Cpu.Cpu.Pop` | cpu.go:336-339 | Returns the byte and leaves the state `CpuSpec.Pop` computes. |
| `Cpu.Cpu.PopAddress` | cpu.go:341-346 | Returns the address and leaves the state `CpuSpec.PopAddress` computes. |
| `Cpu.Cpu.SetStatusFlag` | cpu.go:348-354 | Changes P to `SetFlag(P, flag, v)` and nothing else. |
| `Cpu.Cpu.SetZN` | cpu.go:368-371 | Changes P to `SetZN(P, v)` and nothing else. |
| `Cpu.Cpu.AddBranchWait` | cpu.go:373-378 | Leaves PC one or two bytes past `addr`, as `CpuSpec.BranchTaken` gives, and changes nothing else. |
| `Cpu.Cpu.ExecTransfer` | cpu.go:567-734 | The loads, stores and transfers leave the state `CpuSpec.ExecTransfer` computes. |
| `Cpu.Cpu.ExecArithmetic` | cpu.go:389-692 | The arithmetic, logic, compare, increment and decrement handlers leave the state `CpuSpec.ExecArithmetic` computes. |
| `Cpu.Cpu.ExecShift` | cpu.go:413-665 | ASL, LSR, ROL and ROR leave the state `CpuSpec.ExecShift` computes. |
| `Cpu.Cpu.Store` | cpu.go:425-430 | A shift result goes to A in accumulator mode and to memory otherwise. |
| `Cpu.Cpu.ExecJump` | cpu.go:433-672 | Branches, JMP, JSR, RTS, RTI and BRK leave the state `CpuSpec.ExecJump` computes. |
| `Cpu.Cpu.ExecStack` | cpu.go:610-623 | PHA, PHP, PLA and PLP leave the state `CpuSpec.ExecStack` computes. |
| `Cpu.Cpu.ExecFlag` | cpu.go:490-701 | The flag instructions leave the state `CpuSpec.ExecFlag` computes. |
| `Cpu.Cpu.Exec` | cpu.go:299 | Dispatching through the handler table leaves the state `CpuSpec.Exec` computes. |
| `Cpu.Cpu.Enter` | cpu.go:220-233 | NMI and IRQ entry leave the state `CpuSpec.Enter` computes. |
| `Cpu.Cpu.EnterBrk` | cpu.go:234-242 | BRK entry leaves the state `CpuSpec.EnterBrk` computes. |
| `Cpu.Cpu.Interrupt` | cpu.go:219-243 | The interrupt switch leaves the state `CpuSpec.ServiceInterrupt` computes. |
| `Cpu.Cpu.ServiceInterrupt` | cpu.go:219-247 | The switch, the 7 cycles and the clearing leave the state `CpuSpec.Service` computes. |
| `Cpu.Cpu.OperandAddress` | cpu.go:254-291 | Returns the operand address and page cross `CpuSpec.Operand` gives, changing nothing. |
| `Cpu.Cpu.IndexedAddress` | cpu.go:259-264 | Returns the address and page cross `CpuSpec.Indexed` gives. |
| `Cpu.Cpu.FetchInstruction` | cpu.go:249-297 | Returns the opcode, handler, mode and operand, and leaves the state `CpuSpec.Fetch` computes. |
| `Cpu.Cpu.DecodeOperand` | cpu.go:250-297 | Leaves the state and operand `CpuSpec.Decode` computes. |
| `Cpu.Cpu.Advance` | cpu.go:293-297 | PC moves past the operand bytes and the cycles are added. Nothing else changes. |
| `Cpu.Cpu.Tick` | cpu.go:213-299 | A tick leaves the state `CpuSpec.Tick` computes. On an illegal opcode it reports the panic. |
| `Cpu.Cpu.PowerOn` | cpu.go:303-316 | Leaves the state `CpuSpec.PowerOn` computes. |
| `Cpu.Cpu.Reset` | cpu.go:318-324 | Leaves the state `CpuSpec.Reset` computes. |
| `Bus.VramIndex` | bus.go:44-50 | Name-table addresses land at (a - 0x2000) mod 0xF00. Addresses from 0x3F00 up land at 0x1F00 + (a - 0x3F00) mod 0x20. |
| `Bus.PatternTablesForwarded` | bus.go:40-61 | Addresses below 0x2000 go to the mapper unchanged for reads and writes, and VRAM is untouched. |
| `Bus.NameTableMirror` | bus.go:44-46 | A name-table read is `vram[(a - 0x2000) % 0xF00]`, so a and a + 0xF00 read the same cell. |
| `Bus.PaletteFold` | bus.go:47-50 | Every address from 0x3F00 up, 0x4000 and above included, reads one of the 32 palette bytes. |
| `Bus.VramWriteRead` | bus.go:58-68 | A write from 0x2000 up changes exactly one VRAM cell and no mapper cell, and reads back. |
| `Bus.NameTableWriteMirrored` | bus.go:62-64 | A name-table write is seen 0xF00 higher. |
| `Bus.PpuBus.Get` | bus.go:40-56 | `ppuBus.Get` reads what `PpuRead` gives. |
| `Bus.PpuBus.Set` | bus.go:58-74 | `ppuBus.Set` leaves VRAM and mapper memory as `PpuWrite` gives. |
| `Bus.CpuDecode` | bus.go:118-151 | Work RAM is exactly the addresses below 0x1800, at a mod 0x800. The mapper gets exactly 0x1800-0x1FFF and every address from 0x2008 up except 0x4014-0x4017. |
| `Bus.WorkRamMirror` | bus.go:118-125 | Addresses below 0x1800 read and write `wram[a % 0x800]`. An address and its two mirrors read alike. |
| `Bus.MapperFallThrough` | bus.go:151 | 0x1800-0x1FFF, 0x2008-0x4013 and 0x4018 up read and write the mapper at the same address. |
| `Bus.SilentRegisters` | bus.go:132-147 | OAM_addr, Scroll, Addr, OAM_DMA and the joypad read 0. Writes to Status, OAM_addr and the joypad change nothing. |
| `Bus.CpuRegisterRoundTrip` | bus.go:126-183 | Ctrl, Mask, the OAM data port, the APU status and the frame counter read back what was written. |
| `Bus.PpuCallsForwarded` | bus.go:130-177 | The status and data reads, and the Scroll, Addr, data and DMA writes, go through PPU methods and change no bus state. |
| `Bus.CpuBus.Get` | bus.go:118-152 | `cpuBus.Get` reads what `CpuRead` gives for the bus state. |
| `Bus.CpuBus.Set` | bus.go:154-187 | `cpuBus.Set` leaves the state `CpuWrite` gives, or returns the PPU call it forwards and changes nothing. |
| `Mmc1.JoinAddressSplits` | mmc1.go:36-38 | The joined word's high byte is the first byte read and its low byte is the second. |
| `Mmc1.StoredFirstIsMask` | mmc1.go:83 | The first byte `SetAddress` stores, `v & 0x0F`, is v mod 16. |
| `Mmc1.StoredSecond` | mmc1.go:84 | The second byte `SetAddress` stores is the high byte of v. |
| `Mmc1.SwizzledValue` | mmc1.go:36-85 | A stored word reads back as (v mod 16) * 256 + v / 256. It comes back unchanged iff its high byte is below 16 and equals its low byte. |
| `Mmc1.Decode` | mmc1.go:40-79 | The range cascade: RAM below 0x7FF, registers in 0x7FF-0x401F, extended RAM at a - 0x4020, backup at 0x7FFF, and the cartridge at a - 0x8000. |
| `Mmc1.RamWindow` | mmc1.go:41-42 | The first 0x7FF addresses read and write `ram[a]` and nothing else. |
| `Mmc1.ReservedByte` | mmc1.go:43-70 | 0x7FF falls into the register range: it reads 0 and ignores writes. |
| `Mmc1.UnmappedRegisters` | mmc1.go:90-117 | Register-range addresses the switch does not list read 0 and ignore writes. |
| `Mmc1.RegisterRoundTrip` | mmc1.go:44-68 | Ctrl, Mask, Status, OAM_addr, OAM data, Scroll, Addr, OAM_DMA, the APU status and the frame counter read back what was written. |
| `Mmc1.NoRoundTrip` | mmc1.go:59-66 | The joypad reads 0 after a write. A data-port write lands at the old Addr and advances Addr. |
| `Mmc1.RamExtendAndBackup` | mmc1.go:71-74 | Extended RAM starts at 0x4020 and round-trips. 0x7FFF writes `backup[0]`. |
| `Mmc1.CartridgeWindow` | mmc1.go:75-76 | From 0x8000 on, reads and writes reach PRG at a - 0x8000, bounds checked. |
| `Mmc1.AddressRoundTripOnRam` | mmc1.go:36-85 | `SetAddress` then `GetAddress` on RAM gives the swizzled value. |
| `Mmc1.Mmc1.Get` | mmc1.go:40-80 | `Get` reads what `Read` gives for the mapper's state. |
| `Mmc1.Mmc1.Set` | mmc1.go:87-127 | `Set` leaves the state `Write` gives. |
| `Mmc1.Mmc1.GetAddress` | mmc1.go:36-38 | `GetAddress` reads what `ReadAddress` gives. |
| `Mmc1.Mmc1.SetAddress` | mmc1.go:82-85 | `SetAddress` leaves the state `WriteAddress` gives. |
| `Mmc0.SecondBankOffset` | mmc0.go:23 | The second bank sits at `len(PRG) - 0x4000` whenever that difference fits in 16 bits. |
| `Mmc0.Read` | mmc0.go:27-37 | Every address below 0x8000 reads 0. |
| `Mmc0.Mirror16K` | mmc0.go:19-36 | With 16 KB of PRG, both windows show the same bytes. |
| `Mmc0.Direct32K` | mmc0.go:19-36 | With 32 KB of PRG, the windows map it straight through. |
| `Mmc0.RawAddressWrites` | mmc0.go:39-41 | With at most 32 KB of PRG, a write at a window address reaches no ROM cell. A write below 0x4000 lands where a read sees it 0x8000 higher. |
| `Mmc0.Mmc0.constructor` | mmc0.go:19-25 | The bank offsets are 0 and `len(PRG) - 0x4000`, fixed as `const` fields. |
| `Mmc0.Mmc0.Get` | mmc0.go:27-37 | `Get` reads what `Read` gives. |
| `Mmc0.Mmc0.Set` | mmc0.go:39-41 | `Set` writes the ROM at the raw address, bounds checked. |
| `Mmc.NewMmc` | mmc.go:10-16 | Mapper 1 selects MMC1 and every other number selects NROM. |
| `Mmc.MapperFromHeader` | mmc.go:10-16 | A parsed header selects MMC1 iff flag1's high nibble is 1 and flag2's is 0. |
| `Ppu.VramIncrement` | ppu.go:70-74 | The data port steps by 32 iff Ctrl's low two bits are 01, else by 1. |
| `Ppu.SpriteTableBase` | ppu.go:77-85 | `Ctrl & 4 == 1` never holds, so the OAM base is always 0. |
| `Ppu.PortWrite` | ppu.go:68-75 | A data-port write stores at the old Addr, keeps every other cell, and advances Addr by the increment mod 256. |
| `Ppu.OamWrite` | ppu.go:87-95 | An OAM write stores at OAM_addr and keeps every other cell. |
| `Ppu.PortWritesStayInFirstPage` | ppu.go:68-75 | Two data-port writes land 1 or 32 apart, and cells from 0x100 up never change. |
| `Ppu.Ppu.PowerOn` | ppu.go:54-55 | Changes nothing. |
| `Ppu.Ppu.Reset` | ppu.go:57-58 | Changes nothing. |
| `Ppu.Ppu.Tick` | ppu.go:60-62 | Changes nothing. |
| `Ppu.Ppu.Get` | ppu.go:64-66 | The data-port read returns `vram[Addr]`, one of the first 256 VRAM cells. |
| `Ppu.Ppu.Set` | ppu.go:68-75 | Leaves the registers and VRAM as `PortWrite` gives. |
| `Ppu.Ppu.GetOAM` | ppu.go:77-85 | Returns `vram[OAM_addr]`. |
| `Ppu.Ppu.SetOAM` | ppu.go:87-95 | Writes `vram[OAM_addr]`, keeps the registers, and reads back through `GetOAM`. |
| `Rom.ReadBytes` | rom.go:35-38 | n byte reads give the n bytes from the position, zero past the end. |
| `Rom.ReadFull` | rom.go:98-99 | `io.ReadFull` copies what remains of the file over the front of the buffer. |
| `Rom.MapperNumber` | rom.go:58-67 | The mapper number is flag1's high nibble plus flag2's high nibble left in place (`flag2 & 0xF0`). |
| `Rom.TrainerFlagIsBit2` | rom.go:60 | The trainer flag is bit 2 of flag1. |
| `Rom.ReadTrainer` | rom.go:89-93 | After the seek to 16, a set trainer flag reads 512 bytes and leaves the reader at 528. Otherwise the old trainer is kept. |
| `Rom.PayloadLayout` | rom.go:89-99 | PRG holds `prg_size` 16 KB banks read from 16, or from 528 after a trainer. CHR holds `chr_size` 8 KB banks right after PRG. |
| `Rom.ParseChecksMagic` | rom.go:35-45 | Parsing fails iff the first four bytes are not N, E, S, 0x1A. |
| `Rom.ParseFields` | rom.go:47-99 | A parsed image has the mapper number from bytes 6 and 7 and the payload from bank counts in bytes 4 and 5. |
| `Rom.ParseEncode` | rom.go:25-110 | Parsing an encoded image gives back its mapper number, trainer, PRG and CHR. |
| `Rom.ReadBounded` | rom.go:126-131 | For banks up to 64 KB: reads `s[a]` when a is below the length, else 0. A 64 KB bank, whose length truncates to 0, reads all zeros. |
| `Rom.WriteBounded` | rom.go:133-138 | Writes `s[a]` below the truncated length and keeps every other cell. Otherwise it changes nothing. |
| `Rom.WriteThenRead` | rom.go:126-138 | A bounded write then read gives the value where the bound admits it, and the old value elsewhere. |
| `Rom.Rom.Load` | rom.go:25-110 | `Load` fails on a bad magic and changes nothing. Otherwise it stores the parsed mapper number, trainer, PRG and CHR. |
| `Rom.Rom.GetPRG` | rom.go:126-131 | Reads what `ReadBounded` gives on PRG. |
| `Rom.Rom.SetPRG` | rom.go:133-138 | Leaves PRG as `WriteBounded` gives. |
| `Rom.Rom.GetCHR` | rom.go:112-117 | Reads what `ReadBounded` gives on CHR. |
| `Rom.Rom.SetCHR` | rom.go:119-124 | Leaves CHR as `WriteBounded` gives. |
| `Dma.Copied` | dma.go:7-11 | Byte k of a copy of n bytes from addr is `bus((addr + k) mod 65536)`. |
| `Dma.ReadOrder` | dma.go:8-9 | The k-th bus read is at (addr + k) mod 65536. |
| `Dma.CopiedSplits` | dma.go:8-9 | A copy splits into the first m bytes and a copy from the wrapped address addr + m. |
| `Dma.ReadOnce` | dma.go:8-9 | Within 65536 bytes, no address is read twice. |
| `Dma.PageCopy` | dma.go:9 | A copy of a whole page from its first byte never wraps. |
| `Dma.CounterNeverExits` | dma.go:8 | With 65536 or more target bytes, the uint16 counter is always below the length, so the loop never ends. |
| `Dma.Dma.Transfer` | dma.go:7-11 | Fills the target with `Copied(bus, addr, len)`, reading the addresses of `ReadOrder` in order, and writes nothing else. |

## Left out

- Presentation, the process entry and the run loop (gl.go, renderer.go, main.go, nes.go) are not part of this model. They draw with OpenGL, sleep, and wire up constructors that do not exist.
- The `fmt.Println` trace at the end of `Tick` and the `instruction_names` table it prints from are left out; they are output only.
- Illegal opcodes: their handlers panic. `CpuSpec.Tick` returns `Panicked` with the state left at the point of the call, and nothing after the panic is modelled.
- The CPU talks to `MMC` through `Get`, `Set`, `GetAddress` and `SetAddress`. The `mmc` interface declares only the first two, so the CPU model uses the MMC1 definitions of the other two. It works over a plain 64 KB memory. The side effects that register addresses would have behind `MMC` are not modelled in the CPU.
- `GetStatus`, `GetData`, `SetScroll`, `SetAddr`, `SetData` and `SetDMA` are called by the CPU bus but defined nowhere. They are returned as a `PpuCall` value and not run.
- The PPU bus's mapper and the CPU bus's mapper are plain 64 KB memories.
- The last two cases of `ppuBus.Get` and `ppuBus.Set` (0x4000 and up to the mapper, and the default) cannot be reached, because the palette case takes every address from 0x3F00 up. They are not modelled, and `Bus.PaletteFold` states the consequence.
- Mmc1.Mmc1.Get: requires `InRange`, because `ram_extend` holds 0x1FDF bytes and addresses 0x5FFF-0x7FFE index past its end, where the code panics. The same holds for `Set`, `GetAddress` and `SetAddress`.
- The `panic("RAM Range Exception")` branch of `mmc1.Get`/`Set` cannot be reached for a 16-bit address and is not modelled.
- `NewMMC` calls `NewMMC1`, which is not defined, so `Mmc.NewMmc` returns which mapper kind is chosen rather than constructing it.
- `rom.Load`: the file read, its error, and the logging are left out. `Load` takes the file's bytes. The reads of the PRG-RAM size, flag3/flag4 and the PC10 areas have no effect on the result and are not traced. `PC10InstROM` and `PC10PROM` stay empty.
- `mmc0` and `mmc1` call `rom.Get` and `rom.Set`, which `rom` does not define. The model takes them to be `GetPRG` and `SetPRG`.
- Rom.ReadBounded: the contract covers banks up to 64 KB. For larger banks the body truncates the length to 16 bits, as the code does, but no contract states the result.
- Dma.Dma.Transfer: requires at most 65535 target bytes. With more, the 16-bit counter never reaches the length and the loop does not end (`Dma.CounterNeverExits`).
- Dma.Dma.Transfer: the bus is modelled as a function without side effects, so reads of PPU ports during a transfer do not change anything.
- Mmc0.SecondBankOffset: the contract states the offset only for PRG of 16 KB up to 80 KB. Shorter PRG wraps modulo 65536 as the body computes it.
- The fields `sram`, `pram` and `rom` of the PPU, the APU channel registers and `mm.Clear` have no behaviour in the code and are left out.
- `Cpu.Cpu`: memory is one 64 KB array, so aliasing between the CPU's memory and the PPU or bus objects is not modelled.
