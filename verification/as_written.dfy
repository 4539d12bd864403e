/**
 * `memory_write_byte` as the C text has it for 0xA000-0xBFFF. That case calls
 * the bank controller's store and then leaves the switch with `break`, so
 * control reaches the final `*(offset + addr) = value` with `offset` still
 * NULL. `Bus.WriteByte` models the evidently intended `return` instead.
 */
module AsWritten {
  import opened Types
  import opened MemoryState
  import opened BankController
  import opened Bus
  import opened CartridgeProperties

  /** The write path with the external-RAM case falling through to the store through NULL. */
  function WriteByteAsWritten(s: Memory, addr: u16, v: u8): (r: Result<Memory>)
    requires Valid(s)
    ensures !(0xA000 <= addr < 0xC000) ==> r == WriteByte(s, addr, v)
    ensures 0xA000 <= addr < 0xC000 ==> r.Err?
    ensures 0xA000 <= addr < 0xC000 && WriteByte(s, addr, v).Ok? ==> r == Err(NullStore)
    ensures 0xA000 <= addr < 0xC000 && WriteByte(s, addr, v).Err? ==> r == WriteByte(s, addr, v)
  {
    if 0xA000 <= addr < 0xC000 then
      var guard := ExternalGuard(s, addr);
      if guard.Stop? then Err(guard.failure)
      else
        // the bank controller's store happens first; then the store through NULL
        var stored :- ExternalStore(s, addr, v);
        Err(NullStore)
    else
      WriteByte(s, addr, v)
  }

  /**
   * With 2 KiB of RAM on an MBC1 cartridge, a write of `v` to 0xA000 ends in
   * the store through NULL as written; the corrected write stores `v` and
   * reads it back.
   */
  lemma ExternalWriteReachesNull(s: Memory, v: u8)
    requires Valid(s) && s.mbcMode == Mbc1 && s.ramSize == 2048 && s.ramCurOffset == 0
    ensures WriteByteAsWritten(s, 0xA000, v) == Err(NullStore)
    ensures WriteByte(s, 0xA000, v) == Ok(s.(external := s.external[0 := v]))
    ensures ReadByte(WriteByte(s, 0xA000, v).value, 0xA000) == Ok(v)
  {
    ExternalWrite(s, 0xA000, v);
  }
}
