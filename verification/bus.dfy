/**
 * The address space: `memory_read_byte`, `memory_write_byte`, the DMA loop
 * they share, and the word accessors built on them.
 *
 * Both byte operations dispatch on the top nibble of the address, exactly as
 * the C switch does, with sub-tests inside the 0xF page. Their contracts state
 * the same decoding in terms of address ranges.
 */
module Bus {
  import opened Types
  import opened MemoryState
  import opened BankController

  /** `FIRST_COL`, the keyboard column mask: its value is deliberately left open. */
  const FirstCol: bv8

  const DmaLength := 0xA0
  const OamBase := 0xFE00

  /** `rom[i]`; past the end of the image the C code reads outside its buffer. */
  function RomAt(s: Memory, i: nat): Result<u8> {
    if i < |s.rom| then Ok(s.rom[i]) else Err(OutOfBuffer)
  }

  /** `external[i]`, with the same out-of-buffer outcome. */
  function ExternalAt(s: Memory, i: nat): Result<u8> {
    if i < |s.external| then Ok(s.external[i]) else Err(OutOfBuffer)
  }

  /** The two fatal checks in front of every external-RAM access; note `>`, and no bank offset. */
  function ExternalGuard(s: Memory, addr: u16): (r: Guard)
    requires 0xA000 <= addr < 0xC000
    ensures r.Stop? <==> s.ramSize == 0 || addr - 0xA000 > s.ramSize
  {
    if s.ramSize == 0 then Stop(Fatal(NoExternalRam))
    else if addr - 0xA000 > s.ramSize then Stop(Fatal(OutsideExternalRam))
    else Pass
  }

  /** The outcome of the external-RAM checks: go on with the access, or stop with a failure. */
  datatype Guard = Pass | Stop(failure: Failure)

  /** The keyboard register: the low nibble of the column that `active` selects. */
  function JoypadValue(k: KeyboardRegs): (r: u8)
    ensures r < 16
  {
    var value := if (k.active as bv8) & FirstCol != 0 then k.joypFirst else k.joypSecond;
    value % 16
  }

  /** The addresses below 0xFF80 that the register tests of the read path recognise. */
  predicate ReadableRegister(addr: u16) {
    || addr == 0xFF00 || 0xFF04 <= addr <= 0xFF07 || addr == 0xFF0F
    || 0xFF40 <= addr <= 0xFF45 || addr == 0xFF50
  }

  /**
   * The registers that hold exactly the byte last written to them: the timer
   * counter and modulo, the interrupt flags, and the video control, status,
   * scroll and compare registers.
   */
  predicate PlainRegister(addr: u16) {
    || addr == 0xFF05 || addr == 0xFF06 || addr == 0xFF0F
    || 0xFF40 <= addr <= 0xFF43 || addr == 0xFF45
  }

  /**
   * The register tests of the read path, in the order the C code makes them.
   * The last test (0xFFFF) is never reached from `ReadByte`, which has already
   * sent every address from 0xFF80 up to the zero page.
   */
  function ReadRegister(s: Memory, addr: u16): (r: u8)
    ensures addr < 0xFF80 && !ReadableRegister(addr) ==> r == 0
  {
    if addr == 0xFF04 then s.timer.divider
    else if addr == 0xFF05 then s.timer.counter
    else if addr == 0xFF06 then s.timer.modulo
    else if addr == 0xFF07 then s.timer.control
    else if addr == 0xFF40 then s.gpu.control
    else if addr == 0xFF41 then s.gpu.status
    else if addr == 0xFF42 then s.gpu.scrollY
    else if addr == 0xFF43 then s.gpu.scrollX
    else if addr == 0xFF44 then s.gpu.curLine
    else if addr == 0xFF45 then s.gpu.checkLine
    else if addr == 0xFF50 then s.inBios
    else if addr == 0xFF00 then JoypadValue(s.keyboard)
    else if addr == 0xFF0F then s.interrupts.flags
    else if addr == 0xFFFF then s.interrupts.enable
    else 0  // I/O not handled: a warning, and 0
  }

  /** `memory_read_byte`. */
  function ReadByte(s: Memory, addr: u16): (r: Result<u8>)
    requires Valid(s)
    ensures addr < 0x100 && s.inBios != 0 ==> r == Ok(s.bios[addr])
    ensures addr < 0x4000 && !(addr < 0x100 && s.inBios != 0) ==> r == RomAt(s, addr)
    ensures 0x4000 <= addr < 0x8000 ==> r == RomAt(s, s.mbcCurOffset + addr)
    ensures 0x8000 <= addr < 0xA000 ==> r == Ok(s.vram[addr - 0x8000])
    ensures 0xA000 <= addr < 0xC000 && s.ramSize == 0 ==> r == Err(Fatal(NoExternalRam))
    ensures 0xA000 <= addr < 0xC000 && s.ramSize != 0 && addr - 0xA000 > s.ramSize ==>
      r == Err(Fatal(OutsideExternalRam))
    ensures 0xA000 <= addr < 0xC000 && s.ramSize != 0 && addr - 0xA000 <= s.ramSize ==>
      r == ExternalAt(s, ExternalIndex(s, addr))
    ensures 0xC000 <= addr < 0xE000 ==> r == Ok(s.working[addr - 0xC000])
    ensures 0xE000 <= addr < 0xFE00 ==> r == Ok(s.working[addr - 0xE000])
    ensures 0xFE00 <= addr < 0xFEA0 ==> r == Ok(s.oam[addr - 0xFE00])
    ensures 0xFEA0 <= addr < 0xFF00 ==> r == Ok(0)
    ensures 0xFF00 <= addr < 0xFF80 ==> r == Ok(ReadRegister(s, addr))
    ensures 0xFF80 <= addr ==> r == Ok(s.zero[addr - 0xFF80])
    ensures r.Err? && r.failure.Fatal? ==> 0xA000 <= addr < 0xC000
    ensures r.Err? ==> r.failure != NullStore && (addr < 0x8000 || 0xA000 <= addr < 0xC000)
  {
    var nibble := addr / 0x1000;
    if nibble == 0x0 then
      if addr < 0x100 && s.inBios != 0 then Ok(s.bios[addr]) else RomAt(s, addr)
    else if nibble <= 0x3 then
      RomAt(s, addr)
    else if nibble <= 0x7 then
      // the bank offset is added to the full address, not to addr - 0x4000
      RomAt(s, s.mbcCurOffset + addr)
    else if nibble <= 0x9 then
      Ok(s.vram[addr - 0x8000])
    else if nibble <= 0xB then
      var guard := ExternalGuard(s, addr);
      if guard.Stop? then Err(guard.failure) else ExternalAt(s, ExternalIndex(s, addr))
    else if nibble <= 0xD then
      Ok(s.working[addr - 0xC000])
    else if nibble == 0xE then
      Ok(s.working[addr - 0xE000])
    else if addr / 0x100 % 0x10 < 0xE then
      Ok(s.working[addr - 0xE000])
    else if addr / 0x100 % 0x10 == 0xE then
      if addr / 0x10 % 0x10 < 0xA then Ok(s.oam[addr - 0xFE00]) else Ok(0)
    else if addr >= 0xFF80 then
      Ok(s.zero[addr - 0xFF80])
    else
      Ok(ReadRegister(s, addr))
  }

  /** The register-page addresses whose write test matches in state `s` (0xFF50 only while the overlay is on). */
  predicate WritableRegister(s: Memory, addr: u16) {
    || addr == 0xFF00 || 0xFF04 <= addr <= 0xFF07 || addr == 0xFF0F
    || 0xFF40 <= addr <= 0xFF43 || 0xFF45 <= addr <= 0xFF49
    || (addr == 0xFF50 && s.inBios != 0) || addr == 0xFFFF
  }

  /** `memory_write_byte`, with the external-RAM case ending after the bank controller's store. */
  function WriteByte(s: Memory, addr: u16, v: u8): (r: Result<Memory>)
    requires Valid(s)
    ensures r.Ok? ==> Valid(r.value) && SameCartridge(s, r.value)
    ensures addr < 0x100 && s.inBios != 0 ==> r == Ok(s.(bios := s.bios[addr := v]))
    ensures addr < 0x1000 && !(addr < 0x100 && s.inBios != 0) ==> r == Err(Fatal(WriteInRom))
    ensures 0x1000 <= addr < 0x8000 ==> r == Ok(ControlWrite(s, addr, v))
    ensures 0x8000 <= addr < 0xA000 ==> r == Ok(s.(vram := s.vram[addr - 0x8000 := v]))
    ensures 0xA000 <= addr < 0xC000 && s.ramSize == 0 ==> r == Err(Fatal(NoExternalRam))
    ensures 0xA000 <= addr < 0xC000 && s.ramSize != 0 && addr - 0xA000 > s.ramSize ==>
      r == Err(Fatal(OutsideExternalRam))
    ensures 0xA000 <= addr < 0xC000 && s.ramSize != 0 && addr - 0xA000 <= s.ramSize ==>
      r == ExternalStore(s, addr, v)
    ensures 0xC000 <= addr < 0xE000 ==> r == Ok(s.(working := s.working[addr - 0xC000 := v]))
    ensures 0xE000 <= addr < 0xFE00 ==> r == Ok(s.(working := s.working[addr - 0xE000 := v]))
    ensures 0xFE00 <= addr < 0xFEA0 ==> r == Ok(s.(oam := s.oam[addr - 0xFE00 := v]))
    ensures 0xFEA0 <= addr < 0xFF00 ==> r == Ok(s)
    ensures 0xFF00 <= addr ==> r == WriteRegister(s, addr, v)
    ensures 0xFF80 <= addr < 0xFFFF ==> r == Ok(s.(zero := s.zero[addr - 0xFF80 := v]))
    ensures 0xFF00 <= addr < 0xFF80 && !WritableRegister(s, addr) ==> r == Ok(s)
    ensures r.Err? ==> addr < 0x1000 || 0xA000 <= addr < 0xC000 || addr == 0xFF46
    decreases if addr == 0xFF46 then 1 else 0, 2
  {
    var nibble := addr / 0x1000;
    if nibble == 0x0 then
      if addr < 0x100 && s.inBios != 0 then Ok(s.(bios := s.bios[addr := v]))
      else Err(Fatal(WriteInRom))
    else if nibble <= 0x7 then
      Ok(ControlWrite(s, addr, v))
    else if nibble <= 0x9 then
      Ok(s.(vram := s.vram[addr - 0x8000 := v]))
    else if nibble <= 0xB then
      var guard := ExternalGuard(s, addr);
      if guard.Stop? then Err(guard.failure) else ExternalStore(s, addr, v)
    else if nibble <= 0xD then
      Ok(s.(working := s.working[addr - 0xC000 := v]))
    else if nibble == 0xE then
      Ok(s.(working := s.working[addr - 0xE000 := v]))
    else
      WriteHighPage(s, addr, v)
  }

  /** Case 0xF of `memory_write_byte`: the echo of working RAM, OAM, then the register tests. */
  function WriteHighPage(s: Memory, addr: u16, v: u8): (r: Result<Memory>)
    requires Valid(s) && 0xF000 <= addr
    ensures r.Ok? ==> Valid(r.value) && SameCartridge(s, r.value)
    ensures addr < 0xFE00 ==> r == Ok(s.(working := s.working[addr - 0xE000 := v]))
    ensures 0xFE00 <= addr < 0xFEA0 ==> r == Ok(s.(oam := s.oam[addr - 0xFE00 := v]))
    ensures 0xFEA0 <= addr < 0xFF00 ==> r == Ok(s)
    ensures 0xFF00 <= addr ==> r == WriteRegister(s, addr, v)
    decreases if addr == 0xFF46 then 1 else 0, 1
  {
    if addr / 0x100 % 0x10 < 0xE then
      Ok(s.(working := s.working[addr - 0xE000 := v]))
    else if addr / 0x100 % 0x10 == 0xE then
      if addr / 0x10 % 0x10 < 0xA then Ok(s.(oam := s.oam[addr - 0xFE00 := v])) else Ok(s)
    else
      WriteRegister(s, addr, v)
  }

  /** The register tests of the write path for 0xFF00-0xFFFF, in the order the C code makes them. */
  function WriteRegister(s: Memory, addr: u16, v: u8): (r: Result<Memory>)
    requires Valid(s) && 0xFF00 <= addr
    ensures r.Ok? ==> Valid(r.value) && SameCartridge(s, r.value)
    ensures 0xFF80 <= addr < 0xFFFF ==> r == Ok(s.(zero := s.zero[addr - 0xFF80 := v]))
    ensures addr < 0xFF80 && !WritableRegister(s, addr) ==> r == Ok(s)
    ensures PlainRegister(addr) ==> r.Ok? && ReadRegister(r.value, addr) == v
    ensures PlainRegister(addr) ==>
      r.value == s.(timer := r.value.timer, gpu := r.value.gpu, interrupts := r.value.interrupts)
    ensures addr != 0xFF46 ==> r.Ok?
    ensures addr == 0xFF46 ==> r == Dma(s, v * 0x100, 0)
    decreases if addr == 0xFF46 then 1 else 0, 0
  {
    if addr == 0xFF04 then Ok(s.(timer := s.timer.(divider := 0)))
    else if addr == 0xFF05 then Ok(s.(timer := s.timer.(counter := v)))
    else if addr == 0xFF06 then Ok(s.(timer := s.timer.(modulo := v)))
    else if addr == 0xFF07 then Ok(s.(timer := s.timer.(control := v % 8)))
    else if addr == 0xFF40 then Ok(s.(gpu := s.gpu.(control := v)))
    else if addr == 0xFF41 then Ok(s.(gpu := s.gpu.(status := v)))
    else if addr == 0xFF42 then Ok(s.(gpu := s.gpu.(scrollY := v)))
    else if addr == 0xFF43 then Ok(s.(gpu := s.gpu.(scrollX := v)))
    else if addr == 0xFF45 then Ok(s.(gpu := s.gpu.(checkLine := v)))
    else if addr == 0xFF47 then Ok(s.(gpu := s.gpu.(bgPal := v)))
    else if addr == 0xFF48 then Ok(s.(gpu := s.gpu.(spPal0 := v)))
    else if addr == 0xFF49 then Ok(s.(gpu := s.gpu.(spPal1 := v)))
    else if addr == 0xFF50 && s.inBios != 0 then Ok(s.(inBios := if v == 0 then 1 else 0))
    else if addr == 0xFF00 then Ok(s.(keyboard := s.keyboard.(active := v)))
    else if addr == 0xFF0F then Ok(s.(interrupts := s.interrupts.(flags := v)))
    else if addr == 0xFFFF then Ok(s.(interrupts := s.interrupts.(enable := v)))
    else if addr == 0xFF46 then Dma(s, v * 0x100, 0)
    else if 0xFF80 <= addr <= 0xFFFE then Ok(s.(zero := s.zero[addr - 0xFF80 := v]))
    else Ok(s)  // I/O not handled: a warning, and no change
  }

  /**
   * `memory_dma_transfert(mem, value << 8, 0xFE00, 0xA0)` from step `i` on:
   * each step reads the source byte through `ReadByte` and stores it through
   * `WriteByte`, so a fatal source read aborts the whole transfer.
   */
  function Dma(s: Memory, src: nat, i: nat): (r: Result<Memory>)
    requires Valid(s) && i <= DmaLength && src + DmaLength <= 0x1_0000
    ensures r.Ok? ==> Valid(r.value) && SameCartridge(s, r.value)
    decreases 0, DmaLength + 3 - i
  {
    if i == DmaLength then Ok(s)
    else
      var b :- ReadByte(s, src + i);
      var t :- WriteByte(s, OamBase + i, b);
      Dma(t, src, i + 1)
  }

  /** `memory_read_word`: the byte at `addr` is the low half; the next address wraps at 0xFFFF. */
  function ReadWord(s: Memory, addr: u16): (r: Result<u16>)
    requires Valid(s)
    ensures r.Ok? <==> ReadByte(s, addr).Ok? && ReadByte(s, NextAddr(addr)).Ok?
    ensures r.Ok? ==> LowByte(r.value) == ReadByte(s, addr).value
    ensures r.Ok? ==> HighByte(r.value) == ReadByte(s, NextAddr(addr)).value
    ensures ReadByte(s, addr).Err? ==> r == Err(ReadByte(s, addr).failure)
    ensures ReadByte(s, addr).Ok? && ReadByte(s, NextAddr(addr)).Err? ==>
      r == Err(ReadByte(s, NextAddr(addr)).failure)
  {
    var lo :- ReadByte(s, addr);
    var hi :- ReadByte(s, NextAddr(addr));
    Ok(MakeWord(lo, hi))
  }

  /** `memory_write_word`: two ordinary byte writes, low byte first. */
  function WriteWord(s: Memory, addr: u16, w: u16): (r: Result<Memory>)
    requires Valid(s)
    ensures r.Ok? ==> Valid(r.value) && SameCartridge(s, r.value)
    ensures r.Ok? <==>
      WriteByte(s, addr, LowByte(w)).Ok? &&
      WriteByte(WriteByte(s, addr, LowByte(w)).value, NextAddr(addr), HighByte(w)).Ok?
    ensures WriteByte(s, addr, LowByte(w)).Err? ==> r == WriteByte(s, addr, LowByte(w))
    ensures WriteByte(s, addr, LowByte(w)).Ok? ==>
      r == WriteByte(WriteByte(s, addr, LowByte(w)).value, NextAddr(addr), HighByte(w))
  {
    var t :- WriteByte(s, addr, LowByte(w));
    WriteByte(t, NextAddr(addr), HighByte(w))
  }
}
