/**
 * Plain storage on the bus: video RAM, working RAM and its echo, OAM and the
 * zero page. A write to such an address changes exactly one byte of one
 * buffer, every address that names that byte reads it back, and no other
 * address sees a difference.
 */
module StorageProperties {
  import opened Types
  import opened MemoryState
  import opened Bus

  /** A byte of one of the plain buffers. */
  datatype Cell = VramCell(i: nat) | WorkCell(i: nat) | OamCell(i: nat) | ZeroCell(i: nat) | NoCell

  /**
   * The region table for plain storage, written by address ranges: both
   * working-RAM windows name the same cells. For reads 0xFFFF also lands on
   * the last zero-page byte, which is why `IsStorage` leaves it out.
   */
  function CellOf(a: u16): (c: Cell)
    ensures c.VramCell? ==> c.i < VramSize
    ensures c.WorkCell? ==> c.i < WorkingSize
    ensures c.OamCell? ==> c.i < OamSize
    ensures c.ZeroCell? ==> c.i < ZeroPageSize
  {
    if 0x8000 <= a < 0xA000 then VramCell(a - 0x8000)
    else if 0xC000 <= a < 0xE000 then WorkCell(a - 0xC000)
    else if 0xE000 <= a < 0xFE00 then WorkCell(a - 0xE000)
    else if 0xFE00 <= a < 0xFEA0 then OamCell(a - 0xFE00)
    else if 0xFF80 <= a then ZeroCell(a - 0xFF80)
    else NoCell
  }

  /** Addresses whose reads and writes both go to a plain buffer. */
  predicate IsStorage(a: u16) {
    CellOf(a) != NoCell && a != 0xFFFF
  }

  /** The byte a cell holds in state `s`. */
  function CellValue(s: Memory, c: Cell): u8
    requires Valid(s) && c != NoCell
    requires c.VramCell? ==> c.i < VramSize
    requires c.WorkCell? ==> c.i < WorkingSize
    requires c.OamCell? ==> c.i < OamSize
    requires c.ZeroCell? ==> c.i < ZeroPageSize
  {
    match c
    case VramCell(i) => s.vram[i]
    case WorkCell(i) => s.working[i]
    case OamCell(i) => s.oam[i]
    case ZeroCell(i) => s.zero[i]
  }

  /** Reading a storage address gives the byte of its cell. */
  lemma ReadIsCellValue(s: Memory, a: u16)
    requires Valid(s) && CellOf(a) != NoCell
    ensures ReadByte(s, a) == Ok(CellValue(s, CellOf(a)))
  {
  }

  /** Writing `v` to a storage address and reading it back gives `v`. */
  lemma ReadAfterWrite(s: Memory, a: u16, v: u8)
    requires Valid(s) && IsStorage(a)
    ensures WriteByte(s, a, v).Ok?
    ensures ReadByte(WriteByte(s, a, v).value, a) == Ok(v)
  {
  }

  /**
   * A write to a storage address leaves every other cell, every register,
   * the banking state and the cartridge as they were: it is the update of
   * one cell.
   */
  lemma WriteUpdatesOneCell(s: Memory, a: u16, v: u8)
    requires Valid(s) && IsStorage(a)
    ensures var t := WriteByte(s, a, v).value;
      && WriteByte(s, a, v).Ok?
      && t == s.(vram := t.vram, working := t.working, oam := t.oam, zero := t.zero)
      && forall b: u16 :: CellOf(b) != NoCell && CellOf(b) != CellOf(a) ==>
           CellValue(t, CellOf(b)) == CellValue(s, CellOf(b))
  {
  }

  /** Reads of any address not naming the written cell are unchanged by a storage write. */
  lemma WriteFrame(s: Memory, a: u16, v: u8, b: u16)
    requires Valid(s) && IsStorage(a) && CellOf(b) != CellOf(a)
    ensures ReadByte(WriteByte(s, a, v).value, b) == ReadByte(s, b)
  {
    var t := WriteByte(s, a, v).value;
    WriteUpdatesOneCell(s, a, v);
    if CellOf(b) != NoCell {
      ReadIsCellValue(s, b);
      ReadIsCellValue(t, b);
    } else {
      assert t.rom == s.rom && t.bios == s.bios && t.external == s.external;
      assert ReadRegister(t, b) == ReadRegister(s, b);
    }
  }

  /** Two storage addresses that name the same cell are interchangeable for writes. */
  lemma SameCellSameWrite(s: Memory, a: u16, b: u16, v: u8)
    requires Valid(s) && IsStorage(a) && IsStorage(b) && CellOf(a) == CellOf(b)
    ensures WriteByte(s, a, v) == WriteByte(s, b, v)
  {
  }

  /**
   * Echo RAM: 0xC000-0xDDFF and 0xE000-0xFDFF are the same bytes. Writing at
   * either address and reading at the other returns the written value.
   */
  lemma EchoAlias(s: Memory, a: u16, v: u8)
    requires Valid(s) && 0xC000 <= a <= 0xDDFF
    ensures ReadByte(WriteByte(s, a, v).value, a + 0x2000) == Ok(v)
    ensures ReadByte(WriteByte(s, a + 0x2000, v).value, a) == Ok(v)
    ensures WriteByte(s, a, v) == WriteByte(s, a + 0x2000, v)
  {
    SameCellSameWrite(s, a, a + 0x2000, v);
  }

  /** Addresses where a word round-trips: both bytes are plain storage. */
  predicate IsWordStorage(a: u16) {
    IsStorage(a) && IsStorage(NextAddr(a))
  }

  /** `write_word` followed by `read_word` at the same storage address gives the word back. */
  lemma WordRoundTrip(s: Memory, a: u16, w: u16)
    requires Valid(s) && IsWordStorage(a)
    ensures WriteWord(s, a, w).Ok?
    ensures ReadWord(WriteWord(s, a, w).value, a) == Ok(w)
  {
    var n := NextAddr(a);
    var t1 := WriteByte(s, a, LowByte(w)).value;
    var t2 := WriteByte(t1, n, HighByte(w)).value;
    assert CellOf(n) != CellOf(a);
    WriteFrame(t1, n, HighByte(w), a);
    ReadAfterWrite(s, a, LowByte(w));
    ReadAfterWrite(t1, n, HighByte(w));
    SplitJoin(w);
  }

  /**
   * At 0xFFFE the word does not round-trip: the high byte is written to the
   * interrupt-enable register, but 0xFFFF reads the last zero-page byte.
   */
  lemma WordAtFFFEReadsZeroPage(s: Memory, w: u16)
    requires Valid(s)
    ensures WriteWord(s, 0xFFFE, w).Ok?
    ensures var t := WriteWord(s, 0xFFFE, w).value;
      && t.interrupts.enable == HighByte(w)
      && ReadWord(t, 0xFFFE) == Ok(MakeWord(LowByte(w), s.zero[0x7F]))
  {
  }

  /** A word read at 0xFFFF takes its high byte from address 0: the `uint16_t` address wraps. */
  lemma WordAtFFFFWraps(s: Memory)
    requires Valid(s) && s.inBios != 0
    ensures ReadWord(s, 0xFFFF) == Ok(MakeWord(s.zero[0x7F], s.bios[0]))
  {
  }
}
