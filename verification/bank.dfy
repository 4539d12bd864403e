/**
 * The cartridge bank controller: `memory_write_byte_membank` and the offsets
 * that `memory_read_byte_membank` hands to the read path.
 */
module BankController {
  import opened Types
  import opened MemoryState

  const RomBankSize := 0x4000
  const RamBankSize := 0x2000

  /** `value & 0x0F`, with a zero bank number coerced to one. */
  function SelectedBank(v: u8): (b: nat)
    ensures 1 <= b <= 15
    ensures v % 16 != 0 ==> b == v % 16
    ensures v % 16 == 0 ==> b == 1
  {
    if v % 16 == 0 then 1 else v % 16
  }

  /** Only the four banking fields differ between `s` and `t`. */
  predicate SameExceptBanking(s: Memory, t: Memory) {
    t == s.(mbcCurOffset := t.mbcCurOffset, ramCurOffset := t.ramCurOffset,
            ramOn := t.ramOn, romRamMode := t.romRamMode)
  }

  /**
   * The controller's reaction to a write into the ROM window 0x1000-0x7FFF
   * (cases 0x1 to 0x7 of the membank switch). Nothing happens in mode 0.
   */
  function ControlWrite(s: Memory, addr: u16, v: u8): (t: Memory)
    requires 0x1000 <= addr < 0x8000
    ensures SameExceptBanking(s, t)
    ensures s.mbcMode == 0 ==> t == s
    ensures s.mbcMode != 0 && addr < 0x2000 ==> t == s.(ramOn := v % 16 == 0x0A)
    ensures s.mbcMode != 0 && 0x2000 <= addr < 0x4000 ==>
      && t == s.(mbcCurOffset := SelectedBank(v) * RomBankSize)
      && t.mbcCurOffset % RomBankSize == 0
      && RomBankSize <= t.mbcCurOffset <= 15 * RomBankSize
    ensures s.mbcMode != 0 && 0x4000 <= addr < 0x6000 && s.romRamMode ==>
      t == s.(ramCurOffset := v % 4 * RamBankSize)
    ensures s.mbcMode != 0 && 0x4000 <= addr < 0x6000 && !s.romRamMode ==>
      t == s.(mbcCurOffset := s.mbcCurOffset / RomBankSize % 32 + v / 16 % 4 * RomBankSize)
    ensures s.mbcMode != 0 && 0x6000 <= addr ==> t == s.(romRamMode := v % 2 == 1)
    ensures Valid(s) ==> Valid(t)
  {
    if s.mbcMode == 0 then s
    else
      var nibble := addr / 0x1000;
      if nibble == 0x1 then
        s.(ramOn := v % 16 == 0x0A)
      else if nibble <= 0x3 then
        s.(mbcCurOffset := SelectedBank(v) * RomBankSize)
      else if nibble <= 0x5 then
        if s.romRamMode then
          s.(ramCurOffset := v % 4 * RamBankSize)
        else
          // the old bank number is added without being scaled back by 0x4000
          s.(mbcCurOffset := s.mbcCurOffset / RomBankSize % 32 + v / 16 % 4 * RomBankSize)
      else
        s.(romRamMode := v % 2 == 1)
  }

  /** The external-RAM index that an access at 0xA000-0xBFFF uses: the current RAM bank plus the window offset. */
  function ExternalIndex(s: Memory, addr: u16): nat
    requires 0xA000 <= addr < 0xC000
  {
    s.ramCurOffset + (addr - 0xA000)
  }

  /**
   * The controller's store into external RAM (cases 0xA and 0xB of the membank
   * switch): dropped in mode 0, otherwise written whatever `ram_on` says.
   */
  function ExternalStore(s: Memory, addr: u16, v: u8): (r: Result<Memory>)
    requires 0xA000 <= addr < 0xC000
    ensures s.mbcMode == 0 ==> r == Ok(s)
    ensures s.mbcMode != 0 && ExternalIndex(s, addr) >= |s.external| ==> r == Err(OutOfBuffer)
    ensures s.mbcMode != 0 && ExternalIndex(s, addr) < |s.external| ==>
      r == Ok(s.(external := s.external[ExternalIndex(s, addr) := v]))
    ensures r.Ok? && Valid(s) ==> Valid(r.value)
  {
    if s.mbcMode == 0 then Ok(s)
    else
      var i := ExternalIndex(s, addr);
      if i < |s.external| then Ok(s.(external := s.external[i := v])) else Err(OutOfBuffer)
  }
}
