# Sega 315-5195 memory mapper

A Dafny model of the Sega 315-5195 memory mapper emulation used by System 16B boards,
`src/burn/drv/sega/sega_315_5195.cpp`.

The chip has 32 byte-wide registers. Registers 0x10 .. 0x1F hold a size byte and a base
byte for each of eight slots. From these, `update_mapping` rebuilds the 68000 address
map:

- The whole space goes to the mapper's own handler first.
- Each slot then places RAM or ROM windows with `SekMapMemory`, together with their
  mirrors.
- The slot also records the "soft" regions, which the handler decodes by hand: the I/O
  ports, tile RAM, the 5704 tile-bank latch, the YM2413 ports and two 315-5797 math
  windows. The mirrors of each soft region go into a 32-entry table.

The four bus handlers test these ranges in a fixed order and pass the access to the
matching device. An address no range holds goes to the register file. There, register 2
forces a CPU reset, register 3 latches a sound command, register 4 drives the interrupt
lines, register 5 is a stubbed pseudo-DMA, and a descriptor write that changes a value
rebuilds the map.

The model is imperative where the source is:

- `Mapper.Chip` holds the register file as an `array<bv8>` and the twelve mirror tables
  as separate `array<bv32>`.
- Each chip method is proved against specification functions. `Layout.Rebuild` is what
  a rebuild leaves, `Routing.HandlerRoute` is which range serves an access, and
  `Handlers.ReadReply` / `WriteByteAction` / `WriteWordAction` are what the handler does
  with it. `Registers.ChipWriteRegs` / `ChipWriteEffects` are what a register write does.
- Properties of those functions are proved as lemmas.

Anything the mapper calls outside itself is an `Effect` event appended to
`Chip.effects`:

- the CPU and sound CPU interrupt lines and the CPU reset;
- FD1094 set-up;
- the YM2413;
- the multiply and compare/timer chips;
- tile RAM writes;
- the custom I/O write hook.

Each `SekMapMemory` / `SekMapHandler` call is a `MapRecord` appended to `Chip.mappings`,
so a later record wins (`Layout.Visible`). Everything the mapper reads from outside is a
`Devices.Bus` parameter: input ports, DIP switches, the ROM bytes at the program counter,
the math chip reads and the custom I/O read hook. The System 16 globals the decoders
write are the fields of `Mapper.Board`.

All cited lines are in `src/burn/drv/sega/sega_315_5195.cpp`.

## Model

| member | source | states |
|---|---|---|
| Regions.MirrorInWindow | src/burn/drv/sega/sega_315_5195.cpp:43-46 | the computed mirror mask has no bit outside the size mask of the slot |
| Regions.MirrorFromRequest | src/burn/drv/sega/sega_315_5195.cpp:46 | every mirror bit of the region was a bit of the requested mirror mask |
| Regions.BaseOutsideWindow | src/burn/drv/sega/sega_315_5195.cpp:44-45 | the base address has no bit inside the size mask |
| Regions.StartInWindow | src/burn/drv/sega/sega_315_5195.cpp:44-47 | the start is the base OR-ed with the offset's bits inside the window (the add never carries) |
| Regions.RegionEnd | src/burn/drv/sega/sega_315_5195.cpp:40-56 | the region runs from its start for `min(length - 1, size mask)` more bytes with no wrap-around: the end is not below the start, it is the start plus the capped length, and the capped length is the smaller of `length - 1` and the size mask |
| Regions.RegionSpans | src/burn/drv/sega/sega_315_5195.cpp:47-51 | the end is not below the start and is the start plus the capped length |
| Regions.FinalLengthIsMin | src/burn/drv/sega/sega_315_5195.cpp:49-50 | the capped length is the smaller of `length - 1` and the size mask |
| Regions.RegionOrdered | src/burn/drv/sega/sega_315_5195.cpp:40-56 | for every register value, length and offset the region's end is not below its start |
| Regions.FinalLengthChoice | src/burn/drv/sega/sega_315_5195.cpp:49-50 | the capped length is either `length - 1` or the size mask |
| Regions.FinalLengthInWindow | src/burn/drv/sega/sega_315_5195.cpp:49-50 | the capped length never exceeds the size mask |
| Regions.FinalLengthWithinRequest | src/burn/drv/sega/sega_315_5195.cpp:49-50 | the capped length never exceeds `length - 1` |
| Regions.FinalLengthZero | src/burn/drv/sega/sega_315_5195.cpp:49-50 | a zero length wraps to 0xFFFFFFFF and so yields the whole window |
| Regions.WorkedExample | src/burn/drv/sega/sega_315_5195.cpp:40-56 | size bits 0, base byte 0x12 and length 0x4000 give 0x120000 .. 0x123FFF |
| Mirrors.CollectBits | src/burn/drv/sega/sega_315_5195.cpp:64-69 | the collection loop yields exactly the set bits of the mask in the range, lowest first (`Bits.SetBits`) |
| Mirrors.SelectLoop | src/burn/drv/sega/sega_315_5195.cpp:73-81 | the base loop ORs in the collected bits that the counter's set bits select |
| Mirrors.OffsetInMirror | src/burn/drv/sega/sega_315_5195.cpp:71-82 | every alias offset is a subset of the mirror mask |
| Mirrors.OffsetZero | src/burn/drv/sega/sega_315_5195.cpp:71-82 | both counters at 0 give offset 0, so the primary range is installed again |
| Mirrors.OffsetInjective | src/burn/drv/sega/sega_315_5195.cpp:71-82 | two counter pairs in range with the same offset are the same pair |
| Mirrors.RoundsCount | src/burn/drv/sega/sega_315_5195.cpp:58-89 | map_mirrors runs no round for a zero mask and 2^(low bits + high bits) rounds otherwise |
| Mirrors.RoundOffsetsDistinct | src/burn/drv/sega/sega_315_5195.cpp:71-88 | the rounds of map_mirrors install pairwise different offsets |
| Mirrors.AliasFirst | src/burn/drv/sega/sega_315_5195.cpp:71-88 | for a nonzero mask the first alias installed is the primary range |
| Mapper.RoundsOfLoops | src/burn/drv/sega/sega_315_5195.cpp:71-88 | the two loops run counters (hc, lc) in row order over the bit counts, which is `Mirrors.Rounds` |
| Mapper.RoundOffset | src/burn/drv/sega/sega_315_5195.cpp:72-81 | the base the loops compute for (hc, lc) is `Mirrors.Offset(m, hc, lc)` |
| Mapper.Chip.MapMirrors | src/burn/drv/sega/sega_315_5195.cpp:58-89 | map_mirrors appends exactly one record per alias of the range, in round order |
| Mirrors.LastPassOffset | src/burn/drv/sega/sega_315_5195.cpp:106-119 | the last high pass shifts by all high mirror bits together with the low subset of the entry |
| Mirrors.StoredEntryValue | src/burn/drv/sega/sega_315_5195.cpp:91-123 | after store_mirrors, entry l below 2^(low bits) holds base + (all high bits OR low subset of l) |
| Mirrors.StoredEntryKept | src/burn/drv/sega/sega_315_5195.cpp:91-123 | with a zero mask, or at an index at or past 2^(low bits), the entry keeps its old value |
| Mirrors.LowCountBound | src/burn/drv/sega/sega_315_5195.cpp:91-123 | a mask with no bit below bit 14 has at most four low mirror bits |
| Layout.StoredRow | src/burn/drv/sega/sega_315_5195.cpp:91-123 | the table after store_mirrors keeps its length, and each entry is the stored value of the entry at its own index |
| Layout.StoredRowUnmirrored | src/burn/drv/sega/sega_315_5195.cpp:93 | a zero mask leaves the table unchanged |
| Layout.PassTableDone | src/burn/drv/sega/sega_315_5195.cpp:104-122 | after the last high pass every table entry has its final stored value |
| Mapper.StorePass | src/burn/drv/sega/sega_315_5195.cpp:110-120 | one pass of the low loop writes entry lc of both tables for every low counter |
| Mapper.StoreMirrors | src/burn/drv/sega/sega_315_5195.cpp:91-123 | both tables end as `Layout.StoredRow` of their old contents: only the last high pass survives |
| Layout.Cleared | src/burn/drv/sega/sega_315_5195.cpp:130-144 | the cleared snapshot has every primary bound and every mirror entry at 0 |
| Mapper.Chip.ClearMirrors | src/burn/drv/sega/sega_315_5195.cpp:137-144 | every entry of the twelve mirror tables is 0 |
| Mapper.Chip.ClearRegions | src/burn/drv/sega/sega_315_5195.cpp:130-144 | the snapshot is `Cleared` with the mapping log unchanged |
| Mapper.Chip.MapMemory | src/burn/drv/sega/sega_315_5195.cpp:163 | a SekMapMemory call appends one record for the region's range |
| Mapper.Chip.StoreRegion | src/burn/drv/sega/sega_315_5195.cpp:151-156 | a store sets one kind's bounds and mirror tables and no other kind's |
| Mapper.Chip.StoreSlot | src/burn/drv/sega/sega_315_5195.cpp:150-156 | compute_region for the slot and then the store, for the masks whose low mirror bits fit |
| Mapper.Chip.StoreSlotWhen | src/burn/drv/sega/sega_315_5195.cpp:249-257 | a store made only under the board condition |
| Mapper.Chip.InstallRom | src/burn/drv/sega/sega_315_5195.cpp:278-291 | a ROM window read-only, then the code or FD1094 buffer for fetches, with mirrors when asked |
| Mapper.Chip.InstallRomWhen | src/burn/drv/sega/sega_315_5195.cpp:223-234 | a ROM window installed only under the board condition |
| Mapper.Chip.MapRam | src/burn/drv/sega/sega_315_5195.cpp:161-170 | a RAM window and its mirrors (palette RAM, sprite RAM) |
| Mapper.Chip.MapSlot5 | src/burn/drv/sega/sega_315_5195.cpp:172-191 | text RAM with mirrors, tile RAM read-only, and the tile RAM soft region |
| Mapper.Chip.MapSlot3 | src/burn/drv/sega/sega_315_5195.cpp:204-220 | work RAM: 256 KB without mirrors on the 5704 PS2 board, 16 KB with mirrors otherwise |
| Mapper.Chip.MapSlot2 | src/burn/drv/sega/sega_315_5195.cpp:222-274 | the 5358 ROM windows, the 5704 bank latch, and the math2 window except on YM2413 boards |
| Mapper.Chip.MapSlot1 | src/burn/drv/sega/sega_315_5195.cpp:276-351 | the second ROM of each board, the YM2413 region and the math1 window |
| Mapper.Chip.MapSlot0 | src/burn/drv/sega/sega_315_5195.cpp:353-423 | the first ROM, sized by the board |
| Mapper.Chip.MapSlot | src/burn/drv/sega/sega_315_5195.cpp:148-424 | the state after the slot's switch case is that of `Layout.SlotSteps` |
| Mapper.Chip.MapSlotOn16B | src/burn/drv/sega/sega_315_5195.cpp:147-425 | a slot acts only on System 16B hardware and extends the rebuild from slot index + 1 to slot index |
| Mapper.Chip.MapSlots | src/burn/drv/sega/sega_315_5195.cpp:146-426 | the slot loop, 7 down to 0, leaves the cleared state extended by `Layout.StepsFrom(hw, regs, 0)` |
| Mapper.Chip.UpdateMapping | src/burn/drv/sega/sega_315_5195.cpp:125-427 | update_mapping leaves exactly `Layout.Rebuild` of the registers and the old mapping log |
| Layout.Visible | src/burn/drv/sega/sega_315_5195.cpp:129 | the mapping seen at an address is a record that covers it for the access |
| Layout.VisibleAfterCover | src/burn/drv/sega/sega_315_5195.cpp:129 | a record covering the address hides every earlier one, so later mappings win |
| Layout.NotSystem16BCleared | src/burn/drv/sega/sega_315_5195.cpp:146-147 | on hardware other than System 16B a rebuild installs only the catch-all handler, and every soft region is 0 |
| Layout.RebuildDescriptors | src/burn/drv/sega/sega_315_5195.cpp:125-427 | a rebuild depends on registers 0x10 .. 0x1F only |
| Layout.RebuildRecords | src/burn/drv/sega/sega_315_5195.cpp:125-427 | a rebuild appends the catch-all handler and then the records of every slot's steps |
| Layout.RebuildAgainTables | src/burn/drv/sega/sega_315_5195.cpp:125-427 | a second rebuild from the same registers leaves the same soft regions and mirror tables |
| Layout.RebuildAgainVisible | src/burn/drv/sega/sega_315_5195.cpp:125-427 | a second rebuild leaves the same mapping visible at every 24-bit address and access |
| Layout.StepsFromFit | src/burn/drv/sega/sega_315_5195.cpp:146-427 | every store_mirrors call of update_mapping has at most four low mirror bits, so it stays inside the 32-entry tables |
| Layout.StoreMaskClear | src/burn/drv/sega/sega_315_5195.cpp:150-156 | the requested masks of the stored regions (0xFFC000, 0xFE0000, 0xFF0000) leave no mirror bit below bit 14 in the region |
| Layout.FitsInTable | src/burn/drv/sega/sega_315_5195.cpp:117-118 | a mask with no bit below 14 writes at most 16 table entries |
| Registers.OpenBus | src/burn/drv/sega/sega_315_5195.cpp:429-439 | a read that is not re-entered returns the ROM byte at the program counter in its low half |
| Mapper.Chip.OpenBusRead | src/burn/drv/sega/sega_315_5195.cpp:429-439 | open_bus_read returns `Registers.OpenBus` and leaves the re-entrancy flag as it found it |
| Registers.RegisterRead | src/burn/drv/sega/sega_315_5195.cpp:445-459 | registers 0 .. 3 have a read value and every other register falls through |
| Registers.ChipReadValue | src/burn/drv/sega/sega_315_5195.cpp:441-466 | registers 0 .. 3 read their value, others 0xFF for byte width and the open-bus ROM byte for word width |
| Registers.ChipReadRepeats | src/burn/drv/sega/sega_315_5195.cpp:443 | offsets that agree in their low five bits read the same |
| Mapper.Chip.ChipRead | src/burn/drv/sega/sega_315_5195.cpp:441-466 | chip_read returns `Registers.ChipReadValue` of the register file |
| Registers.ChipWriteRegs | src/burn/drv/sega/sega_315_5195.cpp:470-473 | the written register holds the data; the others keep their values, except that registers 0 and 1 read 0xFF after pseudo-DMA command 2 |
| Registers.ChipWriteRegsTwice | src/burn/drv/sega/sega_315_5195.cpp:470-473 | writing the same register twice leaves what one write leaves |
| Registers.RemapsOnce | src/burn/drv/sega/sega_315_5195.cpp:552-569 | a repeated descriptor write never rebuilds, and a write below 0x10 never does |
| Registers.ChipWriteEffects | src/burn/drv/sega/sega_315_5195.cpp:475-516 | only registers 2, 3 and 4 call out; register 3 raises the sound interrupt exactly on boards without a YM2413 |
| Registers.ResetEffects | src/burn/drv/sega/sega_315_5195.cpp:476-489 | calls are made exactly when a reset is wanted, and the last of them is the CPU reset |
| Registers.ResetOnEntry | src/burn/drv/sega/sega_315_5195.cpp:476-478 | a reset is wanted exactly when the low two bits enter 3 from another value |
| Registers.ResetNotRepeated | src/burn/drv/sega/sega_315_5195.cpp:476-478 | writing the same value again never resets |
| Registers.IrqEffects | src/burn/drv/sega/sega_315_5195.cpp:505 | a value whose low bits are 7 touches no line |
| Registers.IrqTargetNonZero | src/burn/drv/sega/sega_315_5195.cpp:505-507 | when the encoder acts its target line is never 0 |
| Registers.IrqExactlyOne | src/burn/drv/sega/sega_315_5195.cpp:504-516 | eight line calls in line order; exactly one asserts, and its line is `~v & 7`, which lies in 1 .. 7 |
| Mapper.Chip.DriveIrqLines | src/burn/drv/sega/sega_315_5195.cpp:506-514 | the irqnum loop appends `Registers.IrqEffects` |
| Registers.DmaAddressEven | src/burn/drv/sega/sega_315_5195.cpp:520-528 | the latched 68000 address is even |
| Registers.DmaAddressLow | src/burn/drv/sega/sega_315_5195.cpp:520-528 | the low latch can be read back from address bits 1 .. 8 |
| Registers.DmaAddressMiddle | src/burn/drv/sega/sega_315_5195.cpp:520-528 | the middle latch can be read back from address bits 9 .. 16 |
| Registers.DmaAddressHigh | src/burn/drv/sega/sega_315_5195.cpp:520-528 | the high latch is the address above bit 17 |
| Mapper.Chip.ForcedReset | src/burn/drv/sega/sega_315_5195.cpp:476-489 | register 2 appends `Registers.ResetEffects` |
| Mapper.Chip.SoundCommand | src/burn/drv/sega/sega_315_5195.cpp:492-499 | register 3 latches the byte and interrupts the sound CPU except on YM2413 boards |
| Mapper.Chip.InterruptLines | src/burn/drv/sega/sega_315_5195.cpp:504-516 | register 4 appends `Registers.IrqEffects` |
| Mapper.Chip.DmaCommand | src/burn/drv/sega/sega_315_5195.cpp:519-536 | command 1 computes the write address from registers 0x0A .. 0x0C, command 2 the read address from 0x07 .. 0x09 and sets registers 0 and 1 to 0xFF; other data does nothing |
| Mapper.Chip.ChipWrite | src/burn/drv/sega/sega_315_5195.cpp:468-576 | registers as `ChipWriteRegs`, calls as `ChipWriteEffects`, sound latch set by register 3, and the map rebuilt from the new registers exactly when a descriptor changes |
| Devices.IoReadOpenBus | src/burn/drv/sega/sega_315_5195.cpp:578-607 | io_read falls to the open bus exactly outside group 0x0800, and outside group 0x1000 too on boards without a YM2413 |
| Devices.IoReadRepeats | src/burn/drv/sega/sega_315_5195.cpp:580-603 | offsets that agree in bits 0, 1, 11 and 12 read the same port |
| Mapper.Chip.IoReadPort | src/burn/drv/sega/sega_315_5195.cpp:578-608 | io_read returns the port byte, or the low byte of the open bus |
| Devices.IoWrite | src/burn/drv/sega/sega_315_5195.cpp:627-638 | only group 0 latches; video enable keeps only bit 5 and screen flip only bit 6 of the data |
| Mapper.Board.IoWrite | src/burn/drv/sega/sega_315_5195.cpp:627-638 | the board after io_write is `Handlers.ActOnBoard` of a latch action |
| Devices.Math1Read | src/burn/drv/sega/sega_315_5195.cpp:610-625 | group 0 reads the multiply chip, group 0x0800 compare/timer chip 0, other groups fall to the open bus |
| Mapper.Chip.Math1ReadPort | src/burn/drv/sega/sega_315_5195.cpp:610-625 | math1_5797_read returns `Handlers.Math1Reply` |
| Devices.Math1WritePort | src/burn/drv/sega/sega_315_5195.cpp:672-695 | a write in group 0x1800 reaches no device |
| Devices.BankIndex | src/burn/drv/sega/sega_315_5195.cpp:642 | the bank is 0 or 1, and 1 exactly for an odd offset |
| Devices.BankValue | src/burn/drv/sega/sega_315_5195.cpp:644-645 | the bank number lies in 0 .. 7 |
| Devices.BankValueLowBits | src/burn/drv/sega/sega_315_5195.cpp:644-645 | data that agree in their low three bits latch the same bank |
| Devices.KoreanPort | src/burn/drv/sega/sega_315_5195.cpp:653-666 | offset 0 reaches YM2413 port 0 and offset 1 port 1; every other offset is ignored |
| Handlers.SetTileBank | src/burn/drv/sega/sega_315_5195.cpp:640-651 | the bank takes the value; the recalc flags are all raised when the value changes, and nothing changes when it does not |
| Handlers.SetTileBankTwice | src/burn/drv/sega/sega_315_5195.cpp:644-650 | latching the same bank value twice is latching it once |
| Mapper.Board.LatchBank | src/burn/drv/sega/sega_315_5195.cpp:644-650 | the board after the latch is `Handlers.SetTileBank` |
| Mapper.Board.Bank5704Write | src/burn/drv/sega/sega_315_5195.cpp:640-651 | the board after bank_5704_write is `Handlers.ActOnBoard` of a bank action |
| Handlers.ActOnBoard | src/burn/drv/sega/sega_315_5195.cpp:627-696 | only the I/O latch and the two bank latches change the board, and none touches the sound latch |
| Handlers.ActEffects | src/burn/drv/sega/sega_315_5195.cpp:653-696 | an action makes at most one call, and latches make none |
| Handlers.ActOnBoardTwice | src/burn/drv/sega/sega_315_5195.cpp:627-696 | repeating any write action leaves the board as one did |
| Handlers.BankTwice | src/burn/drv/sega/sega_315_5195.cpp:640-651 | a repeated bank_5704_write changes nothing |
| Handlers.MathTwice | src/burn/drv/sega/sega_315_5195.cpp:683-694 | a repeated math1 bank write changes nothing |
| Handlers.LatchTwice | src/burn/drv/sega/sega_315_5195.cpp:627-638 | a repeated io_write changes nothing |
| Handlers.MathBankIsBankLatch | src/burn/drv/sega/sega_315_5195.cpp:683-694 | a math1 write in group 0x1000 acts as bank_5704_write of its low byte |
| Handlers.BankBits | src/burn/drv/sega/sega_315_5195.cpp:684 | the 13-bit mask keeps the bank bit, and narrowing the data keeps the bank number |
| Handlers.MathBoardOutcome | src/burn/drv/sega/sega_315_5195.cpp:668-696 | a math1 write changes the board only through the bank latch |
| Handlers.KoreanSoundOutcome | src/burn/drv/sega/sega_315_5195.cpp:653-666 | korean_sound_write calls the YM2413 once with the byte written, at port 0 for offset 0 and port 1 for offset 1, and makes no call for any other offset |
| Handlers.MathCallOutcome | src/burn/drv/sega/sega_315_5195.cpp:668-696 | a math1 write calls the multiply chip for group 0, compare/timer chip 0 for group 0x0800, and nothing otherwise |
| Mapper.Chip.KoreanSoundWrite | src/burn/drv/sega/sega_315_5195.cpp:653-666 | korean_sound_write appends `Handlers.ActEffects` of the YM2413 action |
| Mapper.Chip.Math1Write | src/burn/drv/sega/sega_315_5195.cpp:668-696 | math1_5797_write leaves the board of `ActOnBoard` and the calls of `ActEffects` |
| Routing.FirstHit | src/burn/drv/sega/sega_315_5195.cpp:725-745 | a result is a passing test with no passing test before it, and the result is none exactly when no test passes |
| Routing.FirstRowHit | src/burn/drv/sega/sega_315_5195.cpp:747-769 | no mirror entry wins exactly when none passes |
| Routing.RouteIsFirstHit | src/burn/drv/sega/sega_315_5195.cpp:723-774 | the route is the first passing test of the primaries followed by the mirror rows, row by row |
| Routing.RouteHits | src/burn/drv/sega/sega_315_5195.cpp:723-774 | a route is a passing test among the handler's primaries or mirror rows |
| Routing.HandlerRoute | src/burn/drv/sega/sega_315_5195.cpp:723-774 | a route passes and is one of the handler's kinds; none exactly when no primary and no mirror entry passes |
| Routing.PrimaryHitFirst | src/burn/drv/sega/sega_315_5195.cpp:725-745 | a passing primary with no passing primary before it is the route |
| Routing.MirrorHitFirst | src/burn/drv/sega/sega_315_5195.cpp:747-769 | with all primaries missing, the first passing mirror entry in row order is the route |
| Routing.GuardedMissZero | src/burn/drv/sega/sega_315_5195.cpp:709 | tests guarded by their own start never pass for address 0 |
| Routing.HandlerMissesZero | src/burn/drv/sega/sega_315_5195.cpp:725-769 | no guarded route (both reads, write_word and the corrected write_byte, each mirror entry enabled by its own start) sends address 0 to a soft region, since an empty entry (start 0) never passes |
| Routing.KoreanMirrorAtZero | src/burn/drv/sega/sega_315_5195.cpp:857-863 | as written, a byte write to 0 with the YM2413 region on and mirror entry 0 unused reaches the YM2413; the corrected route sends it to the registers |
| Routing.LoopRow | src/burn/drv/sega/sega_315_5195.cpp:829-879 | row `i` of a mirror loop has one test per kind; every test but write_byte's YM2413 one is the entry's own guarded test, and that one has the entry's range but is enabled by the primary start |
| Routing.LoopRows | src/burn/drv/sega/sega_315_5195.cpp:829-879 | a mirror loop is the 32 rows for the indices 0 .. 31 in turn |
| Routing.LoopRowsOwnGuard | src/burn/drv/sega/sega_315_5195.cpp:747-769 | without the primary guard the mirror loop is the one `HandlerRoute` uses |
| Routing.AsWrittenAgrees | src/burn/drv/sega/sega_315_5195.cpp:857 | where every YM2413 mirror entry is in use exactly when the primary range is, write_byte as written routes as the corrected handler does |
| Routing.FirstRowHitStep | src/burn/drv/sega/sega_315_5195.cpp:747-769 | the mirror loop from index `i` on is row `i`'s first passing test, or else the loop from `i + 1` on |
| Mapper.Chip.FindRoute | src/burn/drv/sega/sega_315_5195.cpp:725-769 | the primary tests and then the mirror loop return the route of the current tables; without the primary guard that is `Routing.HandlerRoute` |
| Mapper.Chip.FirstPrimary | src/burn/drv/sega/sega_315_5195.cpp:725-745 | the primary tests return the first passing primary of the current tables |
| Mapper.Chip.FirstMirror | src/burn/drv/sega/sega_315_5195.cpp:829-880 | the loop over indices 0 .. 31 returns the first passing test of the mirror rows, row by row |
| Mapper.Chip.MirrorIndex | src/burn/drv/sega/sega_315_5195.cpp:829-879 | the tests of one mirror index return the first passing test of that row, with write_byte's YM2413 test enabled by the primary start |
| Handlers.WindowOffset | src/burn/drv/sega/sega_315_5195.cpp:702 | the offset passed to a region fits in a UINT16 |
| Handlers.IoReply | src/burn/drv/sega/sega_315_5195.cpp:700-705 | without a custom hook, the I/O window returns the port byte, or the ROM byte at the program counter where no port answers |
| Handlers.Math1Reply | src/burn/drv/sega/sega_315_5195.cpp:733-738 | the math1 window returns the chip's word, or the whole open-bus word |
| Handlers.ReadReply | src/burn/drv/sega/sega_315_5195.cpp:723-774 | each route reads its device at its offset; with no route the word is `chip_read(a >> 1, 16)` |
| Handlers.ReadByteReply | src/burn/drv/sega/sega_315_5195.cpp:698-721 | with no route, read_byte returns `chip_read(a >> 1, 16)` |
| Handlers.UnroutedReadIsByte | src/burn/drv/sega/sega_315_5195.cpp:773 | an unrouted word read has a zero high byte, since chip_read returns UINT8 |
| Handlers.ReplyByOffset | src/burn/drv/sega/sega_315_5195.cpp:747-768 | a mirror and a primary of the same kind at the same offset return the same word |
| Handlers.WriteByteAction | src/burn/drv/sega/sega_315_5195.cpp:776-885 | a write goes to the registers at `a >> 1` exactly when no range passes |
| Handlers.WriteWordAction | src/burn/drv/sega/sega_315_5195.cpp:887-980 | a write goes to the registers with the low byte exactly when no range passes |
| Handlers.WriteAtZero | src/burn/drv/sega/sega_315_5195.cpp:884 | both corrected write handlers send address 0 to register 0 |
| Mapper.Chip.ReadHit | src/burn/drv/sega/sega_315_5195.cpp:700-773 | the read of a route returns `Handlers.ReadReply` and keeps the open-bus flag |
| Mapper.Chip.ReadByte | src/burn/drv/sega/sega_315_5195.cpp:698-721 | read_byte returns `Handlers.ReadByteReply` of its route |
| Mapper.Chip.ReadWord | src/burn/drv/sega/sega_315_5195.cpp:723-774 | read_word returns `Handlers.ReadReply` of its route |
| Mapper.Chip.Perform | src/burn/drv/sega/sega_315_5195.cpp:776-980 | a register write leaves what ChipWrite leaves; any other action changes the board by `ActOnBoard`, appends `ActEffects`, and leaves the registers and map alone |
| Mapper.Chip.WriteByte | src/burn/drv/sega/sega_315_5195.cpp:776-885 | write_byte performs `Handlers.WriteByteAction` of `Routing.WriteByteRouteAsWritten`, its route with the YM2413 mirror test of line 857 as written |
| Mapper.Chip.WriteWord | src/burn/drv/sega/sega_315_5195.cpp:887-980 | write_word performs `Handlers.WriteWordAction` of its route |
| Mapper.Chip.constructor | src/burn/drv/sega/sega_315_5195.cpp:29-38 | at load time every register, bound and mirror entry is 0 and every flag is clear |
| Mapper.Chip.Reset | src/burn/drv/sega/sega_315_5195.cpp:982-989 | once initialised, reset rebuilds the map and clears the open-bus flag; before that it changes nothing |
| Mapper.Chip.CopyDescriptors | src/burn/drv/sega/sega_315_5195.cpp:993 | registers 0x10 .. 0x1F take the 16 map bytes and the rest keep their values |
| Mapper.Chip.ConfigureExplicit | src/burn/drv/sega/sega_315_5195.cpp:991-995 | the 16 bytes are copied and the map is always rebuilt, changed or not |
| Mapper.Chip.ClearRegisters | src/burn/drv/sega/sega_315_5195.cpp:999 | every register is 0 |
| Mapper.Chip.Init | src/burn/drv/sega/sega_315_5195.cpp:997-1002 | registers and soft regions are 0 and the mapper is marked in use |
| Mapper.Chip.Exit | src/burn/drv/sega/sega_315_5195.cpp:1004-1016 | registers and soft regions are 0, and the open-bus, in-use and custom-hook flags are all clear |

## Left out

- `src/burn/vector.cpp` is not part of this model. It is a floating-point vector rasterizer that draws into screen bitmaps.
- What `SekMapMemory` and `SekMapHandler` do inside the CPU core. Each call is a `MapRecord` with a buffer tag, a byte offset into the buffer, a range and a mode. The address arithmetic on the buffers becomes that offset.
- The `bprintf` logging (`LOG_MAPPER`) is diagnostic only. So are the pseudo-DMA addresses, which only feed that log. `Mapper.Chip.DmaCommand` returns them, and `ChipWrite` discards them.
- The calls into the CPU, the sound CPU, the FD1094, the YM2413, the math chips and tile RAM are `Effect` events. The `SekClose`/`SekOpen` and `ZetOpen`/`ZetClose` brackets around them are not modelled.
- `BurnDrvGetHardwareCode()` is the constant field `Chip.hw`; only the bits the mapper tests are kept. The input ports, DIP switches, the ROM bytes at `SekGetPC(0)`, and the math chips' read functions are fields of the `Devices.Bus` parameter.
- The custom I/O hooks (`sega_315_5195_custom_io_do` and `_write_do`) are the flags `Chip.customIo` and `Chip.customIoWrite`, which a driver sets. The read hook's values come from `Bus.customIo`, and a hooked write is a `CustomIoWrite` event.
- `compute_region` is the pure function `Regions.ComputeRegion`, so the statics `region_start`, `region_end` and `region_mirror` do not exist in the model. The part of `exit` that clears them has nothing to act on.
- `Chip.mappings` and `Chip.effects` are logs that only grow. `init` and `exit` clear the `chip` struct, not the CPU map, so they keep the log.
- The I/O read at offset 1 of the window (address `io_start + 2`) falls to the open bus on every board. That is because group 0 is not a port group of io_read. The model follows the code. A written description of the chip that expects the second DIP switch bank there does not match it.
- Mapper.StoreMirrors: requires the low mirror bits to fit the 32-entry tables. The source writes `store_start[lmirrorcount]` unchecked. Every caller in update_mapping meets the requirement, as `Layout.StepsFromFit` proves, so no call of the source is excluded.
- Mapper.Chip.DriveIrqLines: requires low bits other than 7, as the only call site (`InterruptLines`, line 505) guarantees.

## Findings

| source | as written | input that shows it | evidently intended | confidence | as-written member | corrected member |
|---|---|---|---|---|---|---|
| src/burn/drv/sega/sega_315_5195.cpp:857 | the YM2413 mirror test of write_byte is enabled by `chip.korean_sound_start > 0`, the primary start, instead of `chip.korean_sound_start_mirror[i] > 0`; every other mirror test uses the entry's own start | a byte write to address 0 on a YM2413 board, whose region has a zero mirror mask (so every mirror entry is 0 .. 0): the test of entry 0 passes and the byte goes to YM2413 port 0 instead of `chip_write(0, d)` | guard each mirror entry by its own start, as every other test does, so an unused entry never passes | not executed | Routing.KoreanMirrorAtZero | Handlers.WriteAtZero |

`Mapper.Chip.WriteByte` keeps the test as written. The corrected route is `Routing.WriteByteRoute`, and `Routing.AsWrittenAgrees` states when the two agree.
