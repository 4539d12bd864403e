/** Machine integer widths and the outcome type shared by every part of the bus. */
module Types {

  /** An 8-bit unsigned value (`uint8_t`). */
  type u8 = x: int | 0 <= x < 0x100

  /** A 16-bit unsigned value (`uint16_t`): every bus address has this type. */
  type u16 = x: int | 0 <= x < 0x1_0000

  /** Why the emulator aborts. Each case is one `ERROR(...)` call, which prints and then asserts. */
  datatype FatalReason =
    | UnsupportedBankController   // memory_init: cartridge type not handled
    | UnsupportedRamSize          // memory_init: RAM-size code 3
    | NoExternalRam               // access to 0xA000-0xBFFF while ram_size == 0
    | OutsideExternalRam          // access to 0xA000-0xBFFF past the bound test
    | WriteInRom                  // write to 0x0000-0x0FFF outside the boot overlay

  /** Everything that stops an access from producing a value. */
  datatype Failure =
    | Fatal(reason: FatalReason)
      /** The C code dereferences past the end of a buffer (undefined behaviour there). */
    | OutOfBuffer
      /** The C code stores through a pointer that is still NULL (undefined behaviour there). */
    | NullStore

  /** The outcome of a bus operation, usable with `:-`. */
  datatype Result<+T> = Ok(value: T) | Err(failure: Failure) {

    predicate IsFailure() {
      Err?
    }

    function PropagateFailure<U>(): Result<U>
      requires Err?
    {
      Err(failure)
    }

    function Extract(): T
      requires Ok?
    {
      value
    }
  }

  /** `uint16_t` arithmetic: the address after `addr`, wrapping from 0xFFFF to 0. */
  function NextAddr(addr: u16): (r: u16)
    ensures addr < 0xFFFF ==> r == addr + 1
    ensures addr == 0xFFFF ==> r == 0
  {
    (addr + 1) % 0x1_0000
  }

  /** `value & 0xFF` of a 16-bit value. */
  function LowByte(w: u16): u8 { w % 0x100 }

  /** `value >> 8` of a 16-bit value. */
  function HighByte(w: u16): u8 { w / 0x100 }

  /** `lo + (hi << 8)`: the little-endian word made of two bytes. */
  function MakeWord(lo: u8, hi: u8): (w: u16)
    ensures LowByte(w) == lo && HighByte(w) == hi
  {
    lo + hi * 0x100
  }

  /** Splitting a word into bytes and joining them again gives the word back. */
  lemma SplitJoin(w: u16)
    ensures MakeWord(LowByte(w), HighByte(w)) == w
  {
  }
}
