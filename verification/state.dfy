/** The memory structure of the bus, its construction (`memory_init`) and the boot-overlay setter. */
module MemoryState {
  import opened Types

  /** Cartridge-type codes accepted by `memory_init` (ROM_ONLY, MBC1, MBC1_RAM, MBC2). */
  const RomOnly: u8 := 0x00
  const Mbc1: u8 := 0x01
  const Mbc1Ram: u8 := 0x02
  const Mbc2: u8 := 0x05

  /** Fixed sizes of the buffers the bus owns or borrows. */
  const BiosSize := 0x100
  const WorkingSize := 0x2000
  const ZeroPageSize := 0x80
  const VramSize := 0x2000
  const OamSize := 0xA0

  /** The timer registers the bus reads and writes. */
  datatype TimerRegs = TimerRegs(divider: u8, counter: u8, modulo: u8, control: u8)

  /** The display registers the bus reads and writes. */
  datatype GpuRegs = GpuRegs(
    control: u8, status: u8, scrollY: u8, scrollX: u8, curLine: u8, checkLine: u8,
    bgPal: u8, spPal0: u8, spPal1: u8)

  /** The keyboard registers: the column selected by the program and the two column states. */
  datatype KeyboardRegs = KeyboardRegs(active: u8, joypFirst: u8, joypSecond: u8)

  /** The interrupt-controller registers. */
  datatype InterruptRegs = InterruptRegs(flags: u8, enable: u8)

  /** The header fields that `memory_init` reads. */
  datatype Header = Header(cartType: u8, ramSizeCode: u8)

  /**
   * The bus state. `bios`, `rom`, `external`, `working` and `zero` are owned;
   * `vram`, `oam` and the register blocks belong to other subsystems and are
   * held here by value.
   */
  datatype Memory = Memory(
    inBios: u8,
    bios: seq<u8>,
    rom: seq<u8>,
    mbcMode: u8,
    mbcCurOffset: nat,
    ramCurOffset: nat,
    ramOn: bool,
    romRamMode: bool,
    ramSize: nat,
    external: seq<u8>,
    working: seq<u8>,
    zero: seq<u8>,
    vram: seq<u8>,
    oam: seq<u8>,
    timer: TimerRegs,
    gpu: GpuRegs,
    keyboard: KeyboardRegs,
    interrupts: InterruptRegs)

  /** One of the three RAM sizes a header can select. */
  predicate IsRamSize(n: nat) {
    n == 0 || n == 2048 || n == 8192
  }

  /** Buffer sizes the C code relies on when it indexes them without a check. */
  predicate Valid(s: Memory) {
    && |s.bios| == BiosSize
    && |s.working| == WorkingSize
    && |s.zero| == ZeroPageSize
    && |s.vram| == VramSize
    && |s.oam| >= OamSize
    && IsRamSize(s.ramSize)
    && |s.external| == s.ramSize
  }

  /** The cartridge image, its controller type and its RAM size: nothing on the bus ever changes them. */
  predicate SameCartridge(s: Memory, t: Memory) {
    t.rom == s.rom && t.mbcMode == s.mbcMode && t.ramSize == s.ramSize
  }

  predicate AcceptedCartType(code: u8) {
    code == RomOnly || code == Mbc1 || code == Mbc1Ram || code == Mbc2
  }

  predicate AllZero(b: seq<u8>) {
    forall i :: 0 <= i < |b| ==> b[i] == 0
  }

  /**
   * `memory_init`: checks the header and builds the initial state.
   * A RAM-size code of 4 or more has no branch in the C switch and would leave
   * `ram_size` unset, so it is excluded by the precondition.
   */
  function Init(header: Header, bios: seq<u8>, rom: seq<u8>, vram: seq<u8>, oam: seq<u8>,
                timer: TimerRegs, gpu: GpuRegs, keyboard: KeyboardRegs, interrupts: InterruptRegs): (r: Result<Memory>)
    requires AcceptedCartType(header.cartType) ==> header.ramSizeCode < 4
    requires |bios| == BiosSize && |vram| == VramSize && |oam| >= OamSize
    ensures r.Ok? <==> AcceptedCartType(header.cartType) && header.ramSizeCode != 3
    ensures !AcceptedCartType(header.cartType) ==> r == Err(Fatal(UnsupportedBankController))
    ensures AcceptedCartType(header.cartType) && header.ramSizeCode == 3 ==> r == Err(Fatal(UnsupportedRamSize))
    ensures r.Ok? ==>
      var m := r.value;
      && Valid(m)
      && m.inBios == 1 && m.bios == bios && m.rom == rom
      && m.mbcMode == header.cartType
      && m.mbcCurOffset == 0 && m.ramCurOffset == 0 && !m.ramOn && !m.romRamMode
      && (header.ramSizeCode == 0 ==> m.ramSize == 0)
      && (header.ramSizeCode == 1 ==> m.ramSize == 2048)
      && (header.ramSizeCode == 2 ==> m.ramSize == 8192)
      && AllZero(m.external) && AllZero(m.working) && AllZero(m.zero)
      && m.vram == vram && m.oam == oam
      && m.timer == timer && m.gpu == gpu && m.keyboard == keyboard && m.interrupts == interrupts
  {
    if !AcceptedCartType(header.cartType) then
      Err(Fatal(UnsupportedBankController))
    else if header.ramSizeCode == 3 then
      Err(Fatal(UnsupportedRamSize))
    else
      var size := if header.ramSizeCode == 0 then 0 else if header.ramSizeCode == 1 then 2048 else 8192;
      Ok(Memory(
        inBios := 1,
        bios := bios,
        rom := rom,
        mbcMode := header.cartType,
        mbcCurOffset := 0,
        ramCurOffset := 0,
        ramOn := false,
        romRamMode := false,
        ramSize := size,
        external := seq(size, _ => 0),
        working := seq(WorkingSize, _ => 0),
        zero := seq(ZeroPageSize, _ => 0),
        vram := vram,
        oam := oam,
        timer := timer,
        gpu := gpu,
        keyboard := keyboard,
        interrupts := interrupts))
  }

  /** `memory_set_bios`: overwrites the overlay flag with any byte, including a nonzero one after the latch was cleared. */
  function SetBios(s: Memory, status: u8): (r: Memory)
    ensures r.inBios == status
    ensures r.(inBios := s.inBios) == s
    ensures Valid(s) ==> Valid(r)
  {
    s.(inBios := status)
  }
}
