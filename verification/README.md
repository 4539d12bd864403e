# Game Boy memory bus, modelled in Dafny

This project models the memory bus of a Game Boy emulator (`src/memory.c`): the
decoder that turns a 16-bit address into a byte of the boot ROM, the cartridge
ROM, external cartridge RAM, working RAM and its echo, video RAM, sprite memory
(OAM), the zero page or a hardware register; the cartridge bank controller; the
DMA transfer into OAM; and the word accessors.

The state is an immutable record (`MemoryState.Memory`). Reads and writes are
pure functions that return a `Result`:

- `Fatal(reason)` for every `ERROR(...)` call, which prints and then aborts;
- `OutOfBuffer` where the C code would index past the end of a buffer (a short
  ROM image, or an external-RAM index that passes the bound test);
- `NullStore` only in the as-written model of the finding below.

A read returns a byte and no state. Reading therefore cannot change the bus.

Files:

- `types.dfy`: byte and address types, `Result`, and the wrap-around of `addr + 1`.
- `state.dfy`: the state record, `memory_init` and `memory_set_bios`.
- `bank.dfy`: the bank controller.
- `bus.dfy`: `memory_read_byte`, `memory_write_byte`, the DMA loop, and the word accessors.
- `storage.dfy`, `cartridge.dfy`, `dma.dfy`: properties of the bus.
- `as_written.dfy`: the external-RAM write as the C text has it.

The bit operations are written as arithmetic on non-negative integers:

- `v & 0x0F` is `v % 16`;
- `(v >> 4) & 3` is `v / 16 % 4`;
- `(addr & 0xF000) >> 12` is `addr / 0x1000`;
- `(addr & 0x0F00) >> 8` is `addr / 0x100 % 16`.

`FIRST_COL` is a constant whose value the model leaves open.

The cartridge-type codes come from `memory.h`, which is not part of this model.
The model uses the cartridge-header values: ROM_ONLY 0x00, MBC1 0x01,
MBC1_RAM 0x02 and MBC2 0x05. Bank switching only tests `mbc_mode == 0`, as the
C code does.

The field types of `in_bios`, `mbc_cur_offset` and `ram_cur_offset` are
declared in `memory.h` too. The model assumes a byte for the overlay flag and
unbounded non-negative integers for the two offsets.

Where the Game Boy's documented hardware behaviour and this code disagree, the model follows the code:

- The switchable ROM window reads `rom[mbc_cur_offset + addr]`. The window base
  0x4000 is not subtracted, so selecting bank 5 makes 0x4000 read `rom[0x18000]`.
- The ROM bank number keeps 4 bits, not 5.
- In ROM-banking mode, a write to 0x4000-0x5FFF adds the old bank number
  unscaled to the new upper bits times 0x4000.
- `ram_on` is stored but never consulted. External-RAM writes in a banked mode
  are stored whatever it holds.
- The external-RAM bound test is `addr - 0xA000 > ram_size`. It ignores the RAM
  bank offset and lets index `ram_size` itself through.
- The overlay flag is a byte. `memory_set_bios` can set it again after the
  0xFF50 latch has cleared it.
- Address 0xFFFF is written to the interrupt-enable register. A read there
  returns zero-page byte 0x7F, because the zero-page test comes first.
- A write of 0 to 0xFF50 while the overlay is on sets the flag to 1.

## Model

| member | source | states |
|---|---|---|
| `MemoryState.Init` | src/memory.c:40-82 | succeeds exactly for the four accepted cartridge types and RAM-size codes 0-2; RAM code 3 and other types are fatal, with the type checked first, so an unsupported type is fatal whatever its RAM code; the initial state has the overlay on, both offsets 0, `ram_on` and banking mode off, RAM sizes 0/2048/8192, and all owned RAM zeroed |
| `MemoryState.SetBios` | src/memory.c:94-96 | sets the overlay flag to any byte and changes nothing else |
| `BankController.ControlWrite` | src/memory.c:311-335 | in mode 0 nothing changes; otherwise only one banking field changes, as follows. 0x1000-0x1FFF sets `ram_on` to whether the low nibble is 0xA. 0x2000-0x3FFF sets the ROM offset to a nonzero multiple of 0x4000, at most 15 banks. 0x4000-0x5FFF sets the RAM offset in RAM mode; otherwise it sets the ROM offset to the unscaled old bank plus the upper bits. 0x6000-0x7FFF sets the banking mode from bit 0 |
| `BankController.ExternalStore` | src/memory.c:336-338 | dropped in mode 0; otherwise one byte of external RAM at bank offset + window offset, or out of buffer |
| `BankController.SelectedBank` | src/memory.c:321-322 | the selected bank is the low nibble of the value, or 1 when that nibble is 0; it is always between 1 and 15 |
| `Bus.ExternalGuard` | src/memory.c:163-167 | an external access is fatal exactly when there is no RAM or the window offset exceeds the RAM size |
| `Bus.ReadRegister` | src/memory.c:206-298 | an address below 0xFF80 that no register test matches reads 0; which field each register returns is stated by `CartridgeProperties.PlainRegisterReads`, `ScanlineReadOnly` (0xFF44), `OverlayFlagRead` (0xFF50), `WriteOnlyRegisters` (0xFF46-0xFF49), `JoypadSelect` (0xFF00) and `InterruptEnableAsymmetry` (0xFFFF) |
| `Bus.ReadByte` | src/memory.c:128-305 | the nibble dispatch agrees, range by range, with the region table. This covers the overlay, ROM bank 0, the banked window, VRAM, the guarded external RAM, working RAM and its echo, OAM, the 0 fallback at 0xFEA0-0xFEFF, the registers, and the zero page including 0xFFFF. Fatal outcomes occur only in 0xA000-0xBFFF |
| `Bus.WriteByte` | src/memory.c:343-546 | the corrected write: 0xA000-0xBFFF returns after the bank controller's store instead of falling through to the store through NULL (the code as written is `AsWritten.WriteByteAsWritten`, see Findings). Each range updates exactly one cell or field: the overlay while on, the bank controller, VRAM, guarded external RAM, working RAM and echo, OAM, the zero page. 0xFEA0-0xFEFF and unmatched registers change nothing. A write to 0x0000-0x0FFF outside the overlay is fatal. Failures occur only in ROM, external RAM or DMA. The buffer sizes and the cartridge are kept |
| `Bus.WriteHighPage` | src/memory.c:394-409 | 0xF000-0xFDFF is echo RAM, 0xFE00-0xFE9F is OAM, 0xFEA0-0xFEFF is ignored, and the rest goes to the register tests |
| `Bus.WriteRegister` | src/memory.c:411-542 | 0xFF80-0xFFFE is the zero page; unmatched addresses change nothing; 0xFF46 runs the DMA loop; every other register write succeeds. A plain register (0xFF05, 0xFF06, 0xFF0F, 0xFF40-0xFF43, 0xFF45) reads back the written byte, and only the timer, display and interrupt registers change |
| `Bus.Dma` | src/memory.c:112-116 | the copy loop keeps the buffer sizes and never changes the cartridge image, controller type or RAM size |
| `Types.NextAddr` | src/memory.c:307-309 | the second address of a word is `addr + 1`, and 0 after 0xFFFF (`uint16_t` parameter) |
| `Bus.ReadWord` | src/memory.c:307-309 | little-endian: the low byte is read at `addr` and the high byte at `addr + 1` mod 0x10000; the word fails exactly when one of the reads fails, with the failure of the low-byte read if that one fails and otherwise with that of the high-byte read |
| `Bus.WriteWord` | src/memory.c:548-551 | two sequential byte writes, the low byte first, the second at `addr + 1` mod 0x10000. The word write succeeds exactly when both byte writes do; when the first fails its failure is returned and the second write is not made, and otherwise the result is that of the second write |
| `StorageProperties.CellOf` | src/memory.c:155-204 | the region table of plain storage by address range: VRAM, working RAM and its echo naming the same cells, OAM, zero page; every cell index is inside its buffer |
| `StorageProperties.ReadIsCellValue` | src/memory.c:155-204 | a read of VRAM, working RAM, echo, OAM or zero page returns the byte of the cell that the region table assigns |
| `StorageProperties.ReadAfterWrite` | src/memory.c:366-409 | writing `v` to any VRAM, working-RAM, echo, OAM or zero-page address and reading it back gives `v` |
| `StorageProperties.WriteUpdatesOneCell` | src/memory.c:383-398 | such a write changes only the storage buffers, and in them no cell other than the one written |
| `StorageProperties.WriteFrame` | src/memory.c:128-305 | after such a write, every address that does not name the written cell reads as before |
| `StorageProperties.SameCellSameWrite` | src/memory.c:384-398 | two addresses naming the same cell are the same write |
| `StorageProperties.EchoAlias` | src/memory.c:173-187 | for 0xC000-0xDDFF, writing at `a` reads back at `a + 0x2000` and the other way round; the two writes are identical |
| `StorageProperties.WordRoundTrip` | src/memory.c:548-551 | where both bytes are plain storage, `write_word` then `read_word` gives the word back |
| `StorageProperties.WordAtFFFEReadsZeroPage` | src/memory.c:200-204 | at 0xFFFE the high byte goes to interrupt-enable but is read back from zero-page byte 0x7F |
| `StorageProperties.WordAtFFFFWraps` | src/memory.c:307-309 | a word read at 0xFFFF takes its high byte from address 0 |
| `CartridgeProperties.RomBankSelect` | src/memory.c:319-324 | in a banked mode a write to 0x2000-0x3FFF sets only the ROM offset, to max(v & 0x0F, 1) * 0x4000. That is a multiple of 0x4000 in [0x4000, 0x3C000]. The window 0x4000-0x7FFF then reads `rom[offset + addr]` |
| `CartridgeProperties.Bank5ReadsBank6` | src/memory.c:118-120 | after selecting bank 5, 0x4000 reads `rom[0x18000]`; after selecting 0, it reads `rom[0x8000]` |
| `CartridgeProperties.BankSelectKeepsFourBits` | src/memory.c:321-323 | the upper nibble of a bank number is discarded |
| `CartridgeProperties.ControlWindowOnlyBanks` | src/memory.c:311-341 | a write to 0x1000-0x7FFF always succeeds and changes only the four banking fields, and nothing in mode 0. It sets `ram_on`, the banking mode and the RAM offset from the masked value |
| `CartridgeProperties.UpperBitsWriteUnscaled` | src/memory.c:329-330 | bank 1 followed by upper bits 1 gives offset 0x4001 |
| `CartridgeProperties.RomWriteIsFatal` | src/memory.c:347-353 | a write to 0x0000-0x0FFF outside the open overlay window is fatal |
| `CartridgeProperties.ExternalFatal` | src/memory.c:161-168 | with no RAM, or a window offset past the RAM size, both the read and the write are fatal, with the same reason |
| `CartridgeProperties.ExternalBoundAdmitsEnd` | src/memory.c:166-169 | with 2 KiB of RAM, 0xA800 passes the bound test and falls out of the buffer |
| `CartridgeProperties.ExternalWrite` | src/memory.c:372-381 | an external write that passes the checks is dropped in mode 0. Otherwise it stores at bank offset + window offset and reads back, or falls out of the buffer |
| `CartridgeProperties.ReadIgnoresRamOn` | src/memory.c:128-305 | no read depends on `ram_on` |
| `CartridgeProperties.OverlayRead` | src/memory.c:133-138 | while the overlay flag is nonzero, 0x0000-0x00FF reads the boot ROM |
| `CartridgeProperties.OverlayLatch` | src/memory.c:499-504 | while the overlay is on, a nonzero write to 0xFF50 clears it and a zero write sets it to 1. Once it is cleared, 0x0000-0x00FF reads the cartridge, 0xFF50 reads 0 and further 0xFF50 writes change nothing |
| `CartridgeProperties.OverlayFlagRead` | src/memory.c:270-274 | 0xFF50 reads the overlay flag, including a value set by `memory_set_bios` |
| `CartridgeProperties.SetBiosReopensOverlay` | src/memory.c:94-96 | setting the flag again after the latch cleared it brings the boot ROM back at 0x0000-0x00FF |
| `CartridgeProperties.UnmappedTolerated` | src/memory.c:190-198 | 0xFEA0-0xFEFF reads 0 and ignores writes. A register address no read test matches reads 0. One no write test matches ignores writes |
| `CartridgeProperties.UnhandledFF10` | src/memory.c:296-298 | 0xFF10 reads 0 and ignores writes, without failing |
| `CartridgeProperties.ScanlineReadOnly` | src/memory.c:258-262 | 0xFF44 reads the scanline; writing it changes nothing |
| `CartridgeProperties.WriteOnlyRegisters` | src/memory.c:478-497 | 0xFF46-0xFF49 read 0; 0xFF47-0xFF49 write the palette registers |
| `CartridgeProperties.TimerRegisterWrites` | src/memory.c:413-439 | a write to 0xFF04 zeroes the divider whatever the value; 0xFF07 stores and reads back `v & 7` |
| `CartridgeProperties.PlainRegisterReads` | src/memory.c:209-288 | 0xFF04 reads the divider, 0xFF05 the counter, 0xFF06 the modulo, 0xFF07 the timer control byte unmasked, 0xFF0F the interrupt flags, and 0xFF40-0xFF43 and 0xFF45 the display control, status, scroll Y, scroll X and compare line |
| `CartridgeProperties.PlainRegisterWrites` | src/memory.c:421-518 | a write to each of these registers (except 0xFF04) stores the byte in exactly that field and changes nothing else |
| `CartridgeProperties.PlainRegisterRoundTrip` | src/memory.c:209-288 | writing a plain register and reading it back gives the written byte, and every other register address below 0xFF80 reads as before |
| `CartridgeProperties.InterruptEnableAsymmetry` | src/memory.c:520-525 | a write to 0xFFFF sets interrupt-enable, while a read of 0xFFFF returns zero-page byte 0x7F |
| `CartridgeProperties.JoypadSelect` | src/memory.c:506-511 | a write of `v` to 0xFF00 sets only the keyboard column selection to `v`, and 0xFF00 then reads the low nibble of the column that `v & FIRST_COL` selects |
| `DmaProperties.DmaFrom` | src/memory.c:112-116 | from any step, the byte-at-a-time loop completes exactly when its remaining source reads succeed. It then yields the state in which every copied byte was read before the transfer; otherwise it fails with the failure of the first source read that fails |
| `DmaProperties.PartialStep` | src/memory.c:114-115 | one iteration of the loop stores the byte read for step `i` at OAM index `i` and moves the copy from `i` bytes to `i + 1` |
| `DmaProperties.DmaTrigger` | src/memory.c:527-531 | a write to 0xFF46 is the loop from source `v << 8`, step 0 |
| `DmaProperties.DmaTransfer` | src/memory.c:527-531 | writing `v` to 0xFF46 succeeds exactly when all 160 reads at `(v << 8) + i` succeed. OAM byte `i` then holds the value read before the write, later OAM bytes are kept, and nothing else changes. Otherwise the write fails with the failure of the first source read that fails, such as `NoExternalRam` for page 0xA0 without cartridge RAM (`DmaProperties.DmaWithoutRam`) |
| `DmaProperties.DmaWithoutRam` | src/memory.c:113-115 | a transfer from page 0xA0 on a cartridge without RAM aborts with the fatal error of its first read (`NoExternalRam`, line 164) |
| `DmaProperties.PartialAll` | src/memory.c:114-115 | after the last step, each of the first 160 OAM bytes holds its source read and the rest are kept |
| `DmaProperties.WriteIgnoresRamOn` | src/memory.c:343-546 | apart from the write that sets it, no write depends on `ram_on`, the DMA transfer included |
| `DmaProperties.DmaIgnoresRamOn` | src/memory.c:112-116 | the DMA loop gives the same result whatever `ram_on` holds |
| `DmaProperties.RegisterWriteIgnoresRamOn` | src/memory.c:411-542 | no register write other than the DMA trigger depends on `ram_on` |
| `AsWritten.WriteByteAsWritten` | src/memory.c:372-381 | outside 0xA000-0xBFFF it agrees with the corrected write. Inside, it never completes: it ends in the fatal checks, out of the buffer, or in the store through NULL |
| `AsWritten.ExternalWriteReachesNull` | src/memory.c:380-381 | on an MBC1 cartridge with 2 KiB of RAM, a write to 0xA000 ends in the NULL store as written; the corrected write stores the byte and reads it back |

## Findings

| source | as written | input that shows it | evidently intended | confidence | as-written member | corrected member |
|---|---|---|---|---|---|---|
| src/memory.c:380-381 | the 0xA/0xB case of `memory_write_byte` ends with `break`, so line 545 stores `value` at `offset + addr` with `offset` still NULL | MBC1 cartridge, RAM-size code 1, write of any value to 0xA000 | `return` after the bank controller's store, as the 0x1-0x7 case does | high; not executed | `AsWritten.ExternalWriteReachesNull` | `CartridgeProperties.ExternalWrite` |

## Left out

- Allocation and teardown are not modelled: the `malloc`/`calloc` failure branches, `memory_end`, and `gbc_load_in_memory` (not part of this model). The ROM image and the header codes are inputs to `Init`.
- The wiring calls `memory_set_gpu`, `memory_set_interrupts` and `memory_set_timer` are not modelled. VRAM, OAM and the timer, display, keyboard and interrupt register bytes are fields of the state, and `Init` receives them as inputs.
- The BIOS bytes are not modelled: the boot ROM is a 256-byte input to `Init`.
- Diagnostics (`WARN`, `DEBUG_*`) are not modelled, and neither is a build with `NDEBUG`, where `ERROR` would not abort.
- What the display, timer, interrupt and keyboard subsystems do with these registers is not modelled.
- `MemoryState.Init` requires a RAM-size code below 4 for an accepted cartridge type. For such a type, codes 4 and above reach a C switch that has no branch for them and leaves `ram_size` unset. An unsupported type is rejected before the switch, whatever its code.
- The "Unknown addr" error (lines 301-302) has no case in the model. `offset` is never NULL there, because `memory_read_byte_membank` is only called for addresses it maps.
- `Bus.Dma` models only its one call site: source `v << 8`, destination 0xFE00, length 0xA0. With those arguments the `uint16_t` arithmetic of the loop cannot wrap.
- `Bus.ReadWord`: C leaves the order of its two byte reads unspecified. When both reads fail, the model reports the failure of the low byte.
- Raw pointer arithmetic is not modelled. Every buffer access is an index, with `OutOfBuffer` where the C code would be undefined.
