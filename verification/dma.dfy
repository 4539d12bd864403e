/**
 * The DMA transfer triggered by a write to 0xFF46. The C loop reads and
 * writes one byte at a time; these lemmas show that it behaves as a copy of
 * 160 bytes all read from the state before the transfer began.
 */
module DmaProperties {
  import opened Types
  import opened MemoryState
  import opened BankController
  import opened Bus
  import opened CartridgeProperties

  /** The source read of step `i`, made in state `s`. */
  function DmaRead(s: Memory, src: nat, i: nat): Result<u8>
    requires Valid(s) && src + i < 0x1_0000
  {
    ReadByte(s, src + i)
  }

  /** The byte step `i` copies, or 0 when its read fails (the transfer then never completes). */
  function SourceByte(s: Memory, src: nat, i: nat): u8
    requires Valid(s) && src + i < 0x1_0000
  {
    match DmaRead(s, src, i)
    case Ok(b) => b
    case Err(_) => 0
  }

  /** Every source read of steps `lo` to `hi - 1` succeeds. */
  predicate ReadableFrom(s: Memory, src: nat, lo: nat, hi: nat)
    requires Valid(s) && hi <= DmaLength && src + DmaLength <= 0x1_0000
  {
    forall j :: lo <= j < hi ==> DmaRead(s, src, j).Ok?
  }

  /** `s` after the first `i` bytes of a copy from `src`, every byte taken from `s` itself. */
  function Partial(s: Memory, src: nat, i: nat): (t: Memory)
    requires Valid(s) && i <= DmaLength && src + DmaLength <= 0x1_0000
    ensures Valid(t) && |t.oam| == |s.oam| && t == s.(oam := t.oam)
  {
    s.(oam := seq(|s.oam|, j requires 0 <= j < |s.oam| =>
                    if j < i then SourceByte(s, src, j) else s.oam[j]))
  }

  /** Copying bytes into OAM before step `i` does not change what step `i` reads. */
  lemma PartialReadUnchanged(s: Memory, page: u8, i: nat)
    requires Valid(s) && i < DmaLength
    ensures var src := page * 0x100; DmaRead(Partial(s, src, i), src, i) == DmaRead(s, src, i)
  {
    var src := page * 0x100;
    var p := Partial(s, src, i);
    var a := src + i;
    if 0xFE00 <= a < 0xFEA0 {
      assert src == 0xFE00;
      assert p.oam[a - 0xFE00] == s.oam[a - 0xFE00];
    } else {
      assert ReadRegister(p, a) == ReadRegister(s, a);
    }
  }

  /** Step `i` of the loop turns the state after `i` bytes into the state after `i + 1`. */
  lemma PartialStep(s: Memory, src: nat, i: nat)
    requires Valid(s) && i < DmaLength && src + DmaLength <= 0x1_0000
    ensures WriteByte(Partial(s, src, i), OamBase + i, SourceByte(s, src, i)) == Ok(Partial(s, src, i + 1))
  {
    var p := Partial(s, src, i);
    var q := Partial(s, src, i + 1);
    assert p.oam[i := SourceByte(s, src, i)] == q.oam;
  }

  /**
   * The loop from step `i` completes exactly when the remaining reads succeed,
   * and then yields the full copy; otherwise it fails with the failure of the
   * first read that fails.
   */
  lemma {:induction false} DmaFrom(s: Memory, page: u8, i: nat)
    requires Valid(s) && i <= DmaLength
    ensures var src := page * 0x100; var r := Dma(Partial(s, src, i), src, i);
      && (r.Ok? <==> ReadableFrom(s, src, i, DmaLength))
      && (r.Ok? ==> r.value == Partial(s, src, DmaLength))
      && (r.Err? ==> exists j :: i <= j < DmaLength && ReadableFrom(s, src, i, j)
                       && DmaRead(s, src, j).Err? && r.failure == DmaRead(s, src, j).failure)
    decreases DmaLength - i
  {
    var src := page * 0x100;
    if i < DmaLength {
      PartialReadUnchanged(s, page, i);
      if DmaRead(s, src, i).Ok? {
        PartialStep(s, src, i);
        DmaFrom(s, page, i + 1);
        var r := Dma(Partial(s, src, i), src, i);
        if r.Err? {
          var j :| i + 1 <= j < DmaLength && ReadableFrom(s, src, i + 1, j)
                   && DmaRead(s, src, j).Err? && r.failure == DmaRead(s, src, j).failure;
          assert ReadableFrom(s, src, i, j);
        }
      } else {
        assert ReadableFrom(s, src, i, i);
      }
    }
  }

  /**
   * A write of `v` to 0xFF46 completes exactly when all 160 source reads at
   * `(v << 8) + i` succeed; OAM byte `i` then holds what that read returned
   * before the transfer, bytes of OAM from 0xA0 on are kept, and nothing else
   * changes. Otherwise it fails with the failure of the first source read
   * that fails.
   */
  lemma DmaTransfer(s: Memory, v: u8)
    requires Valid(s)
    ensures var r := WriteByte(s, 0xFF46, v);
      && (r.Ok? <==> forall i :: 0 <= i < DmaLength ==> DmaRead(s, v * 0x100, i).Ok?)
      && (r.Err? ==> exists j :: 0 <= j < DmaLength && ReadableFrom(s, v * 0x100, 0, j)
                       && DmaRead(s, v * 0x100, j).Err? && r.failure == DmaRead(s, v * 0x100, j).failure)
      && (r.Ok? ==>
          && r.value == s.(oam := r.value.oam)
          && |r.value.oam| == |s.oam|
          && (forall i :: 0 <= i < DmaLength ==> Ok(r.value.oam[i]) == DmaRead(s, v * 0x100, i))
          && (forall i :: DmaLength <= i < |s.oam| ==> r.value.oam[i] == s.oam[i]))
  {
    var src := v * 0x100;
    PartialNone(s, src);
    DmaTrigger(s, v);
    DmaFrom(s, v, 0);
    var r := WriteByte(s, 0xFF46, v);
    if r.Ok? {
      PartialAll(s, src);
    }
  }

  /** A transfer from page 0xA0 on a cartridge without RAM aborts with the first read's fatal error. */
  lemma DmaWithoutRam(s: Memory)
    requires Valid(s) && s.ramSize == 0
    ensures WriteByte(s, 0xFF46, 0xA0) == Err(Fatal(NoExternalRam))
  {
    DmaTrigger(s, 0xA0);
  }

  /** A write to 0xFF46 is the DMA loop from step 0. */
  lemma DmaTrigger(s: Memory, v: u8)
    requires Valid(s)
    ensures WriteByte(s, 0xFF46, v) == Dma(s, v * 0x100, 0)
  {
  }

  /** Before step 0 nothing has been copied. */
  lemma PartialNone(s: Memory, src: nat)
    requires Valid(s) && src + DmaLength <= 0x1_0000
    ensures Partial(s, src, 0) == s
  {
    assert Partial(s, src, 0).oam == s.oam;
  }

  /** After the last step every one of the 160 bytes holds its successful source read. */
  lemma PartialAll(s: Memory, src: nat)
    requires Valid(s) && src + DmaLength <= 0x1_0000 && ReadableFrom(s, src, 0, DmaLength)
    ensures forall i :: 0 <= i < DmaLength ==> Ok(Partial(s, src, DmaLength).oam[i]) == DmaRead(s, src, i)
    ensures forall i :: DmaLength <= i < |s.oam| ==> Partial(s, src, DmaLength).oam[i] == s.oam[i]
  {
    var t := Partial(s, src, DmaLength);
    forall i | 0 <= i < DmaLength
      ensures Ok(t.oam[i]) == DmaRead(s, src, i)
    {
      assert DmaRead(s, src, i).Ok?;
    }
  }

  /** A result with its `ram_on` field replaced, failures left alone. */
  function WithRamOn(r: Result<Memory>, on: bool): Result<Memory> {
    match r
    case Ok(t) => Ok(t.(ramOn := on))
    case Err(f) => Err(f)
  }

  /** `ram_on` plays no part in any write, the DMA transfer included, except the one that sets it. */
  lemma WriteIgnoresRamOn(s: Memory, a: u16, v: u8, on: bool)
    requires Valid(s) && !(0x1000 <= a < 0x2000)
    ensures WriteByte(s.(ramOn := on), a, v) == WithRamOn(WriteByte(s, a, v), on)
  {
    // split by region so that each obligation unfolds only one arm of the write
    if a == 0xFF46 {
      DmaTrigger(s, v);
      DmaTrigger(s.(ramOn := on), v);
      DmaIgnoresRamOn(s, v * 0x100, 0, on);
    } else if a >= 0xFF00 {
      RegisterWriteIgnoresRamOn(s, a, v, on);
    } else if 0xA000 <= a < 0xC000 {
      assert ExternalStore(s.(ramOn := on), a, v) == WithRamOn(ExternalStore(s, a, v), on);
    } else if a < 0x8000 {
    } else {
    }
  }

  /** The register writes other than the DMA trigger do not look at `ram_on`. */
  lemma RegisterWriteIgnoresRamOn(s: Memory, a: u16, v: u8, on: bool)
    requires Valid(s) && 0xFF00 <= a && a != 0xFF46
    ensures WriteRegister(s.(ramOn := on), a, v) == WithRamOn(WriteRegister(s, a, v), on)
  {
    // one branch per register, only to keep each proof obligation small
    if a == 0xFF04 {
    } else if a == 0xFF05 {
    } else if a == 0xFF06 {
    } else if a == 0xFF07 {
    } else if a == 0xFF40 {
    } else if a == 0xFF41 {
    } else if a == 0xFF42 {
    } else if a == 0xFF43 {
    } else if a == 0xFF45 {
    } else if a == 0xFF47 {
    } else if a == 0xFF48 {
    } else if a == 0xFF49 {
    } else if a == 0xFF50 {
    } else if a == 0xFF00 {
    } else if a == 0xFF0F {
    } else if a == 0xFFFF {
    } else if 0xFF80 <= a {
    } else {
    }
  }

  /** The DMA loop never looks at `ram_on`: each source read and each OAM store is the same. */
  lemma {:induction false} DmaIgnoresRamOn(s: Memory, src: nat, i: nat, on: bool)
    requires Valid(s) && i <= DmaLength && src + DmaLength <= 0x1_0000
    ensures Dma(s.(ramOn := on), src, i) == WithRamOn(Dma(s, src, i), on)
    decreases DmaLength - i
  {
    if i < DmaLength {
      ReadIgnoresRamOn(s, src + i, on);
      var b := ReadByte(s, src + i);
      if b.Ok? {
        var t := WriteByte(s, OamBase + i, b.value).value;
        assert WriteByte(s.(ramOn := on), OamBase + i, b.value) == Ok(t.(ramOn := on));
        DmaIgnoresRamOn(t, src, i + 1, on);
      }
    }
  }
}
