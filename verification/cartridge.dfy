/**
 * Properties of the cartridge side of the bus: bank switching, external RAM,
 * the boot-overlay latch and the tolerated unmapped addresses.
 */
module CartridgeProperties {
  import opened Types
  import opened MemoryState
  import opened BankController
  import opened Bus

  /**
   * Selecting a ROM bank: in a banked mode a write to 0x2000-0x3FFF sets the
   * bank offset to a nonzero multiple of 0x4000 of at most 15 banks, and the
   * switchable window then reads `rom[offset + addr]`.
   */
  lemma RomBankSelect(s: Memory, a: u16, v: u8, b: u16)
    requires Valid(s) && s.mbcMode != 0 && 0x2000 <= a < 0x4000 && 0x4000 <= b < 0x8000
    ensures WriteByte(s, a, v).Ok?
    ensures var t := WriteByte(s, a, v).value;
      && t == s.(mbcCurOffset := t.mbcCurOffset)
      && t.mbcCurOffset == (if v % 16 == 0 then 1 else v % 16) * 0x4000
      && t.mbcCurOffset % 0x4000 == 0 && 0x4000 <= t.mbcCurOffset <= 0x3C000
      && ReadByte(t, b) == RomAt(t, t.mbcCurOffset + b)
  {
  }

  /**
   * Selecting bank 5 and reading 0x4000 yields `rom[0x18000]`, the first byte
   * of bank 6: the window offset is not subtracted.
   */
  lemma Bank5ReadsBank6(s: Memory)
    requires Valid(s) && s.mbcMode != 0 && |s.rom| > 0x18000
    ensures ReadByte(WriteByte(s, 0x2000, 0x05).value, 0x4000) == Ok(s.rom[0x18000])
    ensures ReadByte(WriteByte(s, 0x2000, 0x00).value, 0x4000) == Ok(s.rom[0x8000])
  {
  }

  /** Bits 4-7 of the selected bank are dropped: 0x15 selects the same bank as 0x05. */
  lemma BankSelectKeepsFourBits(s: Memory, a: u16, v: u8)
    requires Valid(s) && s.mbcMode != 0 && 0x2000 <= a < 0x4000
    ensures WriteByte(s, a, v) == WriteByte(s, a, v % 16)
  {
  }

  /**
   * Writes to 0x1000-0x7FFF never touch a byte of ROM, RAM or any register:
   * only the four banking fields may change, and in mode 0 nothing changes.
   */
  lemma ControlWindowOnlyBanks(s: Memory, a: u16, v: u8)
    requires Valid(s) && 0x1000 <= a < 0x8000
    ensures WriteByte(s, a, v).Ok?
    ensures SameExceptBanking(s, WriteByte(s, a, v).value)
    ensures s.mbcMode == 0 ==> WriteByte(s, a, v) == Ok(s)
    ensures s.mbcMode != 0 && a < 0x2000 ==> WriteByte(s, a, v).value.ramOn == (v % 16 == 0x0A)
    ensures s.mbcMode != 0 && 0x6000 <= a ==> WriteByte(s, a, v).value.romRamMode == (v % 2 == 1)
    ensures s.mbcMode != 0 && 0x4000 <= a < 0x6000 && s.romRamMode ==>
      WriteByte(s, a, v).value.ramCurOffset == v % 4 * 0x2000
  {
  }

  /**
   * In ROM-banking mode a write to 0x4000-0x5FFF keeps the old bank number
   * only as an unscaled addend: bank 1 followed by upper bits 1 gives offset
   * 0x4001, not bank 0x21.
   */
  lemma UpperBitsWriteUnscaled(s: Memory)
    requires Valid(s) && s.mbcMode != 0 && !s.romRamMode
    ensures var t := WriteByte(WriteByte(s, 0x2000, 0x01).value, 0x4000, 0x10).value;
      t.mbcCurOffset == 0x4001
  {
  }

  /** Outside the overlay window, every write to 0x0000-0x0FFF is fatal. */
  lemma RomWriteIsFatal(s: Memory, a: u16, v: u8)
    requires Valid(s) && a < 0x1000 && (a >= 0x100 || s.inBios == 0)
    ensures WriteByte(s, a, v) == Err(Fatal(WriteInRom))
  {
  }

  /**
   * External RAM: with no RAM, or past the `>` bound test, both reads and
   * writes are fatal; that test ignores the RAM bank offset.
   */
  lemma ExternalFatal(s: Memory, a: u16, v: u8)
    requires Valid(s) && 0xA000 <= a < 0xC000 && (s.ramSize == 0 || a - 0xA000 > s.ramSize)
    ensures ReadByte(s, a).Err? && ReadByte(s, a).failure.Fatal?
    ensures WriteByte(s, a, v) == Err(ReadByte(s, a).failure)
  {
  }

  /**
   * The bound test lets index `ram_size` itself through: the byte just past
   * a 2 KiB RAM is out of the buffer rather than fatal.
   */
  lemma ExternalBoundAdmitsEnd(s: Memory)
    requires Valid(s) && s.ramSize == 2048 && s.ramCurOffset == 0
    ensures ReadByte(s, 0xA800) == Err(OutOfBuffer)
  {
  }

  /**
   * External RAM that passes the checks: in mode 0 a write is dropped, in a
   * banked mode it is stored at `ram_cur_offset + addr - 0xA000` and reads
   * back, whatever `ram_on` holds.
   */
  lemma ExternalWrite(s: Memory, a: u16, v: u8)
    requires Valid(s) && 0xA000 <= a < 0xC000 && s.ramSize != 0 && a - 0xA000 <= s.ramSize
    ensures s.mbcMode == 0 ==> WriteByte(s, a, v) == Ok(s)
    ensures s.mbcMode != 0 && ExternalIndex(s, a) < |s.external| ==>
      && WriteByte(s, a, v) == Ok(s.(external := s.external[ExternalIndex(s, a) := v]))
      && ReadByte(WriteByte(s, a, v).value, a) == Ok(v)
    ensures s.mbcMode != 0 && ExternalIndex(s, a) >= |s.external| ==> WriteByte(s, a, v) == Err(OutOfBuffer)
  {
  }

  /** `ram_on` is stored but no read consults it. */
  lemma ReadIgnoresRamOn(s: Memory, a: u16, on: bool)
    requires Valid(s)
    ensures ReadByte(s.(ramOn := on), a) == ReadByte(s, a)
  {
    assert ReadRegister(s.(ramOn := on), a) == ReadRegister(s, a);
  }

  /** While the overlay flag is set, 0x0000-0x00FF reads the boot ROM. */
  lemma OverlayRead(s: Memory, a: u16)
    requires Valid(s) && a < 0x100 && s.inBios != 0
    ensures ReadByte(s, a) == Ok(s.bios[a])
  {
  }

  /**
   * The boot-overlay latch: while set, writing a nonzero value to 0xFF50 clears
   * it and writing 0 sets it to 1; afterwards 0x0000-0x00FF reads the
   * cartridge, and further writes to 0xFF50 change nothing.
   */
  lemma OverlayLatch(s: Memory, v: u8, w: u8, a: u16)
    requires Valid(s) && s.inBios != 0 && a < 0x100
    ensures v == 0 ==> WriteByte(s, 0xFF50, v) == Ok(s.(inBios := 1))
    ensures v != 0 ==> WriteByte(s, 0xFF50, v) == Ok(s.(inBios := 0))
    ensures v != 0 ==>
      var t := WriteByte(s, 0xFF50, v).value;
      && ReadByte(t, a) == RomAt(s, a)
      && WriteByte(t, 0xFF50, w) == Ok(t)
      && ReadByte(t, 0xFF50) == Ok(0)
  {
  }

  /** Reading 0xFF50 gives the overlay flag, including a value put there by `memory_set_bios`. */
  lemma OverlayFlagRead(s: Memory, status: u8)
    requires Valid(s)
    ensures ReadByte(s, 0xFF50) == Ok(s.inBios)
    ensures ReadByte(SetBios(s, status), 0xFF50) == Ok(status)
  {
  }

  /** `memory_set_bios` can turn the overlay back on after the latch was cleared. */
  lemma SetBiosReopensOverlay(s: Memory, a: u16)
    requires Valid(s) && s.inBios == 0 && a < 0x100
    ensures ReadByte(SetBios(s, 1), a) == Ok(s.bios[a])
  {
  }

  /**
   * Tolerated addresses: 0xFEA0-0xFEFF reads 0 and ignores writes; a register
   * address below 0xFF80 that no read test matches reads 0, and one that no
   * write test matches ignores writes.
   */
  lemma UnmappedTolerated(s: Memory, a: u16, v: u8)
    requires Valid(s)
    ensures 0xFEA0 <= a < 0xFF00 ==> ReadByte(s, a) == Ok(0) && WriteByte(s, a, v) == Ok(s)
    ensures 0xFF00 <= a < 0xFF80 && !ReadableRegister(a) ==> ReadByte(s, a) == Ok(0)
    ensures 0xFF00 <= a < 0xFF80 && !WritableRegister(s, a) ==> WriteByte(s, a, v) == Ok(s)
  {
  }

  /** 0xFF10 is not handled: it reads 0 and a write leaves the state as it was. */
  lemma UnhandledFF10(s: Memory, v: u8)
    requires Valid(s)
    ensures ReadByte(s, 0xFF10) == Ok(0)
    ensures WriteByte(s, 0xFF10, v) == Ok(s)
  {
  }

  /** The scanline register can be read but a write to it is ignored. */
  lemma ScanlineReadOnly(s: Memory, v: u8)
    requires Valid(s)
    ensures ReadByte(s, 0xFF44) == Ok(s.gpu.curLine)
    ensures WriteByte(s, 0xFF44, v) == Ok(s)
  {
  }

  /** The palette registers and the DMA trigger can be written but read as 0. */
  lemma WriteOnlyRegisters(s: Memory, a: u16, v: u8)
    requires Valid(s) && 0xFF46 <= a <= 0xFF49
    ensures ReadByte(s, a) == Ok(0)
    ensures a == 0xFF47 ==> WriteByte(s, a, v) == Ok(s.(gpu := s.gpu.(bgPal := v)))
    ensures a == 0xFF48 ==> WriteByte(s, a, v) == Ok(s.(gpu := s.gpu.(spPal0 := v)))
    ensures a == 0xFF49 ==> WriteByte(s, a, v) == Ok(s.(gpu := s.gpu.(spPal1 := v)))
  {
  }

  /** Timer registers: 0xFF04 resets the divider whatever is written, 0xFF07 keeps three bits. */
  lemma TimerRegisterWrites(s: Memory, v: u8)
    requires Valid(s)
    ensures WriteByte(s, 0xFF04, v) == Ok(s.(timer := s.timer.(divider := 0)))
    ensures WriteByte(s, 0xFF07, v) == Ok(s.(timer := s.timer.(control := v % 8)))
    ensures ReadByte(WriteByte(s, 0xFF07, v).value, 0xFF07) == Ok(v % 8)
  {
  }

  /**
   * The read half of the plain register table: which field each address
   * returns. 0xFF04 reads the divider, which a write resets.
   */
  lemma PlainRegisterReads(s: Memory)
    requires Valid(s)
    ensures ReadByte(s, 0xFF04) == Ok(s.timer.divider)
    ensures ReadByte(s, 0xFF05) == Ok(s.timer.counter)
    ensures ReadByte(s, 0xFF06) == Ok(s.timer.modulo)
    ensures ReadByte(s, 0xFF07) == Ok(s.timer.control)
    ensures ReadByte(s, 0xFF0F) == Ok(s.interrupts.flags)
    ensures ReadByte(s, 0xFF40) == Ok(s.gpu.control)
    ensures ReadByte(s, 0xFF41) == Ok(s.gpu.status)
    ensures ReadByte(s, 0xFF42) == Ok(s.gpu.scrollY)
    ensures ReadByte(s, 0xFF43) == Ok(s.gpu.scrollX)
    ensures ReadByte(s, 0xFF45) == Ok(s.gpu.checkLine)
  {
  }

  /**
   * The write half of the plain register table: which field a write to each
   * plain register sets, leaving everything else as it was.
   */
  lemma PlainRegisterWrites(s: Memory, a: u16, v: u8)
    requires Valid(s) && PlainRegister(a)
    ensures a == 0xFF05 ==> WriteByte(s, a, v) == Ok(s.(timer := s.timer.(counter := v)))
    ensures a == 0xFF06 ==> WriteByte(s, a, v) == Ok(s.(timer := s.timer.(modulo := v)))
    ensures a == 0xFF0F ==> WriteByte(s, a, v) == Ok(s.(interrupts := s.interrupts.(flags := v)))
    ensures a == 0xFF40 ==> WriteByte(s, a, v) == Ok(s.(gpu := s.gpu.(control := v)))
    ensures a == 0xFF41 ==> WriteByte(s, a, v) == Ok(s.(gpu := s.gpu.(status := v)))
    ensures a == 0xFF42 ==> WriteByte(s, a, v) == Ok(s.(gpu := s.gpu.(scrollY := v)))
    ensures a == 0xFF43 ==> WriteByte(s, a, v) == Ok(s.(gpu := s.gpu.(scrollX := v)))
    ensures a == 0xFF45 ==> WriteByte(s, a, v) == Ok(s.(gpu := s.gpu.(checkLine := v)))
  {
    // one branch per register, only to keep each proof obligation small
    if a == 0xFF05 {
    } else if a == 0xFF06 {
    } else if a == 0xFF0F {
    } else if a == 0xFF40 {
    } else if a == 0xFF41 {
    } else if a == 0xFF42 {
    } else if a == 0xFF43 {
    } else {
    }
  }

  /**
   * A plain register reads back the byte written to it, and the write leaves
   * every other register as it reads.
   */
  lemma PlainRegisterRoundTrip(s: Memory, a: u16, v: u8, b: u16)
    requires Valid(s) && PlainRegister(a) && 0xFF00 <= b < 0xFF80 && b != a
    ensures WriteByte(s, a, v).Ok?
    ensures ReadByte(WriteByte(s, a, v).value, a) == Ok(v)
    ensures ReadByte(WriteByte(s, a, v).value, b) == ReadByte(s, b)
  {
    // one branch per register, only to keep each proof obligation small
    if a == 0xFF05 {
    } else if a == 0xFF06 {
    } else if a == 0xFF0F {
    } else if a == 0xFF40 {
    } else if a == 0xFF41 {
    } else if a == 0xFF42 {
    } else if a == 0xFF43 {
    } else {
    }
  }

  /** 0xFFFF: a write sets the interrupt-enable register, but a read returns zero-page byte 0x7F. */
  lemma InterruptEnableAsymmetry(s: Memory, v: u8)
    requires Valid(s)
    ensures WriteByte(s, 0xFFFF, v) == Ok(s.(interrupts := s.interrupts.(enable := v)))
    ensures ReadByte(s, 0xFFFF) == Ok(s.zero[0x7F])
  {
  }

  /**
   * A write to 0xFF00 changes only the column selection, and 0xFF00 then reads
   * the low nibble of the column that the written byte selects.
   */
  lemma JoypadSelect(s: Memory, v: u8)
    requires Valid(s)
    ensures WriteByte(s, 0xFF00, v) == Ok(s.(keyboard := s.keyboard.(active := v)))
    ensures ReadByte(WriteByte(s, 0xFF00, v).value, 0xFF00) ==
      Ok((if (v as bv8) & FirstCol != 0 then s.keyboard.joypFirst else s.keyboard.joypSecond) % 16)
  {
  }
}
