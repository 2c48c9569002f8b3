/**
 * The memory map: every CPU address is routed to the cartridge, video
 * RAM, work RAM (mirrored at 0xE000-0xFDFF), OAM, the I/O page, high RAM
 * or the IE register. A write to 0xFF46 starts an OAM DMA copy.
 */
module Mmu {
  import opened Bits
  import opened Wrappers
  import opened Generic
  import Cartridge
  import Oam
  import Io

  datatype MmuState = MmuState(
    cart: Cartridge.CartState, vram: seq<byte>, wram: seq<byte>, oam: seq<byte>,
    io: Io.IoState, dma: byte, hram: seq<byte>, ieFlag: byte)

  predicate WellSized(s: MmuState)
  {
    |s.vram| == 0x2000 && |s.wram| == 0x2000 && |s.oam| == 0xA0 && |s.hram| == 0x7F && Io.WellSized(s.io)
  }

  /** ROM at 0x0000-0x7FFF and external RAM at 0xA000-0xBFFF belong to the cartridge. */
  predicate IsCart(location: u16)
  {
    location <= 0x7FFF || 0xA000 <= location <= 0xBFFF
  }

  predicate IsIo(location: u16)
  {
    0xFF00 <= location <= 0xFF7F && location != 0xFF46
  }

  /** The work-RAM, video-RAM, OAM and high-RAM addresses. */
  predicate IsPlain(location: u16)
  {
    0x8000 <= location <= 0x9FFF || 0xC000 <= location <= 0xFE9F || 0xFF80 <= location <= 0xFFFE
  }

  /** The address a plain-memory location is stored at: echo RAM is work RAM 0x2000 lower. */
  function Canonical(location: u16): u16
  {
    if 0xE000 <= location <= 0xFDFF then location - 0x2000 else location
  }

  predicate CanRead(s: MmuState, location: u16)
  {
    WellSized(s) && (IsCart(location) ==> Cartridge.CanRead(s.cart, location))
  }

  /** read */
  function ReadValue(s: MmuState, location: u16): byte
    requires CanRead(s, location)
  {
    if IsCart(location) then Cartridge.ReadAt(s.cart, location)
    else if location <= 0x9FFF then s.vram[location - 0x8000]
    else if location <= 0xDFFF then s.wram[location - 0xC000]
    else if location <= 0xFDFF then s.wram[location - 0xE000]
    else if location <= 0xFE9F then s.oam[location - 0xFE00]
    else if location <= 0xFEFF then 0
    else if location == 0xFF46 then s.dma
    else if location <= 0xFF7F then Io.RegisterValue(s.io, location)
    else if location <= 0xFFFE then s.hram[location - 0xFF80]
    else s.ieFlag
  }

  /** `(dma << 8) | i`, which for i < 0x100 is an addition. */
  function DmaSource(dma: byte, i: nat): (r: u16)
    requires i <= 0x9F
    ensures r == dma * 0x100 + i
  {
    Pow2Byte();
    OrDisjoint(dma * 0x100, i, 16, 8);
    Or(dma * 0x100, i, 16)
  }

  /** `0xFE00 | i`: the OAM byte i. */
  function DmaDestination(i: nat): (r: u16)
    requires i <= 0x9F
    ensures r == 0xFE00 + i
  {
    Pow2Byte();
    OrDisjoint(0xFE00, i, 16, 8);
    Or(0xFE00, i, 16)
  }

  /** Every byte the copy reads can be read. */
  predicate DmaReadable(s: MmuState)
  {
    WellSized(s) && forall i :: 0 <= i <= 0x9F ==> CanRead(s, DmaSource(s.dma, i))
  }

  /** dma_run: OAM byte i becomes the byte at `(dma << 8) | i`, for i = 0..0x9F. */
  function DmaCopied(s: MmuState): (r: MmuState)
    requires DmaReadable(s)
    ensures WellSized(r)
  {
    s.(oam := seq(0xA0, i requires 0 <= i < 0xA0 => ReadValue(s, DmaSource(s.dma, i))))
  }

  predicate CanWrite(s: MmuState, location: u16, b: byte)
  {
    && WellSized(s)
    && (IsCart(location) ==> Cartridge.CanWrite(s.cart, location, b))
    && (IsIo(location) ==> Io.CanWrite(s.io, location, b))
    && (location == 0xFF46 ==> DmaReadable(s.(dma := b)))
  }

  /** write: 0xFEA0-0xFEFF drops the byte; 0xFF46 stores it and runs the copy. */
  function Written(s: MmuState, location: u16, b: byte): (r: MmuState)
    requires CanWrite(s, location, b)
    ensures WellSized(r)
  {
    if IsCart(location) then s.(cart := Cartridge.WriteAt(s.cart, location, b))
    else if location <= 0x9FFF then s.(vram := s.vram[location - 0x8000 := b])
    else if location <= 0xDFFF then s.(wram := s.wram[location - 0xC000 := b])
    else if location <= 0xFDFF then s.(wram := s.wram[location - 0xE000 := b])
    else if location <= 0xFE9F then s.(oam := s.oam[location - 0xFE00 := b])
    else if location <= 0xFEFF then s
    else if location == 0xFF46 then DmaCopied(s.(dma := b))
    else if location <= 0xFF7F then s.(io := Io.Written(s.io, location, b))
    else if location <= 0xFFFE then s.(hram := s.hram[location - 0xFF80 := b])
    else s.(ieFlag := b)
  }

  /** Echo RAM reads and writes the work-RAM byte 0x2000 below it. */
  lemma EchoMirrorsWram(s: MmuState, location: u16, b: byte)
    requires WellSized(s) && 0xE000 <= location <= 0xFDFF
    ensures CanRead(s, location) && CanRead(s, location - 0x2000)
    ensures ReadValue(s, location) == ReadValue(s, location - 0x2000)
    ensures CanWrite(s, location, b) && CanWrite(s, location - 0x2000, b)
    ensures Written(s, location, b) == Written(s, location - 0x2000, b)
  {
  }

  /** 0xFEA0-0xFEFF is unusable: writes change nothing and reads give 0. */
  lemma UnusableIgnored(s: MmuState, location: u16, b: byte)
    requires WellSized(s) && 0xFEA0 <= location <= 0xFEFF
    ensures CanWrite(s, location, b) && Written(s, location, b) == s
    ensures CanRead(s, location) && ReadValue(s, location) == 0
  {
  }

  /**
   * A byte written to plain memory reads back at its address (and at its
   * echo), and every other address reads as before.
   */
  lemma PlainWriteThenRead(s: MmuState, location: u16, other: u16, b: byte)
    requires WellSized(s) && IsPlain(location) && CanRead(s, other)
    ensures CanWrite(s, location, b) && CanRead(Written(s, location, b), location)
    ensures ReadValue(Written(s, location, b), location) == b
    ensures CanRead(Written(s, location, b), other)
    ensures ReadValue(Written(s, location, b), other) ==
      if IsPlain(other) && Canonical(other) == Canonical(location) then b else ReadValue(s, other)
  {
  }

  /** IE: a write to 0xFFFF replaces it, a read returns it, and nothing else changes. */
  lemma IeWriteThenRead(s: MmuState, b: byte)
    requires WellSized(s)
    ensures CanWrite(s, 0xFFFF, b) && CanRead(s, 0xFFFF)
    ensures Written(s, 0xFFFF, b) == s.(ieFlag := b)
    ensures ReadValue(Written(s, 0xFFFF, b), 0xFFFF) == b
  {
  }

  /**
   * Writing b to 0xFF46 stores it (read back at 0xFF46) and fills OAM byte i
   * with the byte at DmaSource(b, i), which is b * 0x100 + i; nothing outside
   * OAM and the DMA register changes.
   */
  lemma DmaWriteThenRead(s: MmuState, b: byte, i: nat)
    requires CanWrite(s, 0xFF46, b) && i <= 0x9F
    ensures CanRead(Written(s, 0xFF46, b), 0xFF46) && ReadValue(Written(s, 0xFF46, b), 0xFF46) == b
    ensures CanRead(Written(s, 0xFF46, b), 0xFE00 + i) && CanRead(s.(dma := b), DmaSource(b, i))
    ensures ReadValue(Written(s, 0xFF46, b), 0xFE00 + i) == ReadValue(s.(dma := b), DmaSource(b, i))
    ensures Written(s, 0xFF46, b) == s.(dma := b, oam := Written(s, 0xFF46, b).oam)
  {
    DmaWritten(s, b);
    DmaCopiedReads(s.(dma := b), i);
  }

  /** After the copy, OAM byte i reads as the source byte did, and 0xFF46 reads the DMA register. */
  lemma DmaCopiedReads(s: MmuState, i: nat)
    requires DmaReadable(s) && i <= 0x9F
    ensures CanRead(DmaCopied(s), 0xFF46) && ReadValue(DmaCopied(s), 0xFF46) == s.dma
    ensures CanRead(DmaCopied(s), 0xFE00 + i) && CanRead(s, DmaSource(s.dma, i))
    ensures ReadValue(DmaCopied(s), 0xFE00 + i) == ReadValue(s, DmaSource(s.dma, i))
  {
    var t := DmaCopied(s);
    OamRead(t, i);
    DmaRegisterRead(t);
    CopiedAt(s, i);
  }

  lemma CopiedAt(s: MmuState, i: nat)
    requires DmaReadable(s) && i <= 0x9F
    ensures CanRead(s, DmaSource(s.dma, i))
    ensures DmaCopied(s).oam[i] == ReadValue(s, DmaSource(s.dma, i))
  {
  }

  lemma OamRead(t: MmuState, i: nat)
    requires WellSized(t) && i <= 0x9F
    ensures CanRead(t, 0xFE00 + i) && ReadValue(t, 0xFE00 + i) == t.oam[i]
  {
  }

  lemma DmaRegisterRead(t: MmuState)
    requires WellSized(t)
    ensures CanRead(t, 0xFF46) && ReadValue(t, 0xFF46) == t.dma
  {
  }

  lemma DmaWritten(s: MmuState, b: byte)
    requires CanWrite(s, 0xFF46, b)
    ensures Written(s, 0xFF46, b) == DmaCopied(s.(dma := b))
  {
  }

  /** Cartridge and I/O addresses go to their owner and change nothing else. */
  lemma Routing(s: MmuState, location: u16, b: byte)
    requires CanWrite(s, location, b)
    ensures IsCart(location) ==> Written(s, location, b) == s.(cart := Cartridge.WriteAt(s.cart, location, b))
    ensures IsIo(location) ==> Written(s, location, b) == s.(io := Io.Written(s.io, location, b))
    ensures !IsCart(location) ==> Written(s, location, b).cart == s.cart
    ensures !IsIo(location) ==> Written(s, location, b).io == s.io
  {
  }

  /** The copy reads from OAM only when DMA is 0xFE, and then it reads the byte it is about to write. */
  lemma DmaSourceInOam(dma: byte, i: nat)
    requires i <= 0x9F
    ensures 0xFE00 <= DmaSource(dma, i) <= 0xFE9F ==> dma == 0xFE && DmaSource(dma, i) - 0xFE00 == i
  {
  }

  /** Reads outside OAM do not look at OAM, so the copy's reads are not disturbed by its writes. */
  lemma ReadIgnoresOtherOam(s: MmuState, t: MmuState, location: u16)
    requires CanRead(s, location) && WellSized(t) && t == s.(oam := t.oam)
    requires 0xFE00 <= location <= 0xFE9F ==> t.oam[location - 0xFE00] == s.oam[location - 0xFE00]
    ensures CanRead(t, location) && ReadValue(t, location) == ReadValue(s, location)
  {
  }

  /**
   * Part way through the copy, with OAM byte i not yet written, the byte
   * the copy reads for it is the one the whole copy puts there.
   */
  lemma CopiedByte(s0: MmuState, t: MmuState, i: nat)
    requires DmaReadable(s0) && WellSized(t) && i < 0xA0
    requires t == s0.(oam := t.oam) && t.oam[i] == s0.oam[i]
    ensures CanRead(t, DmaSource(s0.dma, i))
    ensures ReadValue(t, DmaSource(s0.dma, i)) == DmaCopied(s0).oam[i]
  {
    var source := DmaSource(s0.dma, i);
    assert CanRead(s0, source);
    DmaSourceInOam(s0.dma, i);
    ReadIgnoresOtherOam(s0, t, source);
  }

  /** Writing byte i of the copy extends the copied prefix by one. */
  lemma CopyStep(before: seq<byte>, copied: seq<byte>, orig: seq<byte>, i: nat, v: byte)
    requires |before| == 0xA0 && |copied| == 0xA0 && |orig| == 0xA0 && i < 0xA0 && v == copied[i]
    requires forall j :: 0 <= j < i ==> before[j] == copied[j]
    requires forall j :: i <= j < 0xA0 ==> before[j] == orig[j]
    ensures forall j :: 0 <= j < i + 1 ==> before[i := v][j] == copied[j]
    ensures forall j :: i + 1 <= j < 0xA0 ==> before[i := v][j] == orig[j]
  {
  }

  class Mmu {
    const cart: Cartridge.Cart
    const vram: GenericAddressable
    const wram: GenericAddressable
    const oam: Oam.Oam
    const io: Io.Io
    var dma: byte
    const hram: GenericAddressable
    var ieFlag: byte

    function Repr(): set<object>
    {
      {this, cart, cart.ram, cart.mbc, vram, wram, oam, oam.mem, hram} + io.Repr()
    }

    /** The blocks cover their ranges; different start addresses keep them apart. */
    predicate Valid()
      reads Repr()
    {
      && vram.Valid() && vram.start == 0x8000 && vram.end == 0x9FFF
      && wram.Valid() && wram.start == 0xC000 && wram.end == 0xDFFF
      && hram.Valid() && hram.start == 0xFF80 && hram.end == 0xFFFE
      && oam.Valid() && io.Valid()
    }

    function Snapshot(): MmuState
      reads Repr()
    {
      MmuState(cart.Snapshot(), vram.memory, wram.memory, oam.mem.memory, io.Snapshot(), dma, hram.memory, ieFlag)
    }

    /** new, given the cartridge: everything else zero, IE 0, the I/O page at its start values. */
    constructor (cart: Cartridge.Cart)
      ensures Valid() && this.cart == cart
      ensures Snapshot() == MmuState(cart.Snapshot(), seq(0x2000, _ => 0), seq(0x2000, _ => 0),
        seq(0xA0, _ => 0), Io.Initial, 0, seq(0x7F, _ => 0), 0)
    {
      this.cart := cart;
      vram := new GenericAddressable(0x8000, 0x9FFF);
      wram := new GenericAddressable(0xC000, 0xDFFF);
      oam := new Oam.Oam();
      io := new Io.Io();
      dma := 0;
      hram := new GenericAddressable(0xFF80, 0xFFFE);
      ieFlag := 0;
    }

    /** new: a cartridge the image does not describe is an error. */
    static method New(rom: seq<byte>) returns (r: Result<Mmu>)
      requires |rom| > 0x149
      ensures r.Ok? <==> Cartridge.Loaded(rom).Ok?
      ensures r.Ok? ==> r.value.Valid() && r.value.Snapshot().cart == Cartridge.Loaded(rom).value
      ensures r.Ok? ==> r.value.Snapshot().ieFlag == 0 && r.value.Snapshot().dma == 0
    {
      var c := Cartridge.Cart.FromFile(rom);
      match c {
        case Err(e) =>
          r := Err(e);
        case Ok(cart) =>
          var m := new Mmu(cart);
          r := Ok(m);
      }
    }

    function Read(location: u16): (r: byte)
      reads Repr()
      requires Valid() && CanRead(Snapshot(), location)
      ensures r == ReadValue(Snapshot(), location)
    {
      if IsCart(location) then cart.Read(location)
      else if location <= 0x9FFF then vram.Read(location)
      else if location <= 0xDFFF then wram.Read(location)
      else if location <= 0xFDFF then wram.Read(location - 0xE000 + 0xC000)
      else if location <= 0xFE9F then oam.Read(location)
      else if location <= 0xFEFF then 0
      else if location == 0xFF46 then dma
      else if location <= 0xFF7F then io.Read(location)
      else if location <= 0xFFFE then hram.Read(location)
      else ieFlag
    }

    /** The copy has filled OAM bytes 0..i-1 and changed nothing else. */
    ghost predicate Copying(s0: MmuState, copied: seq<byte>, i: nat)
      reads Repr()
    {
      && Valid() && DmaReadable(s0) && copied == DmaCopied(s0).oam && dma == s0.dma && i <= 0xA0
      && Snapshot() == s0.(oam := oam.mem.memory)
      && (forall j :: 0 <= j < i ==> oam.mem.memory[j] == copied[j])
      && (forall j :: i <= j < 0xA0 ==> oam.mem.memory[j] == s0.oam[j])
    }

    /** dma_run; every destination is in OAM, so each write goes straight to it. */
    method DmaRun()
      requires Valid() && DmaReadable(Snapshot())
      modifies oam.mem
      ensures Valid() && Snapshot() == DmaCopied(old(Snapshot()))
    {
      ghost var s0 := Snapshot();
      ghost var copied := DmaCopied(s0).oam;
      for i := 0 to 0xA0
        invariant Copying(s0, copied, i)
      {
        CopyByte(i, s0, copied);
      }
      assert oam.mem.memory == copied;
    }

    /** One turn of the copy loop: OAM byte i from `(dma << 8) | i`. */
    method CopyByte(i: nat, ghost s0: MmuState, ghost copied: seq<byte>)
      requires Copying(s0, copied, i) && i < 0xA0
      modifies oam.mem
      ensures Copying(s0, copied, i + 1)
    {
      var sourceAdd := DmaSource(dma, i);
      var destAdd := DmaDestination(i);
      CopiedByte(s0, Snapshot(), i);
      var v := Read(sourceAdd);
      CopyStep(oam.mem.memory, copied, s0.oam, i, v);
      WriteOam(destAdd, v);
    }

    method Write(location: u16, b: byte)
      requires Valid() && CanWrite(Snapshot(), location, b)
      modifies Repr()
      ensures Valid() && Snapshot() == Written(old(Snapshot()), location, b)
    {
      if IsCart(location) {
        WriteCart(location, b);
      } else if location <= 0x9FFF {
        WriteVram(location, b);
      } else if location <= 0xDFFF {
        WriteWram(location, b);
      } else if location <= 0xFDFF {
        WriteWram(location - 0xE000 + 0xC000, b);
      } else if location <= 0xFE9F {
        WriteOam(location, b);
      } else if location <= 0xFEFF {
      } else if location == 0xFF46 {
        WriteDma(b);
      } else if location <= 0xFF7F {
        WriteIo(location, b);
      } else if location <= 0xFFFE {
        WriteHram(location, b);
      } else {
        ieFlag := b;
      }
    }

    method WriteCart(location: u16, b: byte)
      requires Valid() && IsCart(location) && Cartridge.CanWrite(cart.Snapshot(), location, b)
      modifies cart.ram, cart.mbc
      ensures Valid() && Snapshot() == old(Snapshot()).(cart := Cartridge.WriteAt(old(cart.Snapshot()), location, b))
    {
      cart.Write(location, b);
    }

    method WriteVram(location: u16, b: byte)
      requires Valid() && 0x8000 <= location <= 0x9FFF
      modifies vram
      ensures Valid() && Snapshot() == old(Snapshot()).(vram := old(vram.memory)[location - 0x8000 := b])
    {
      vram.Write(location, b);
    }

    method WriteWram(location: u16, b: byte)
      requires Valid() && 0xC000 <= location <= 0xDFFF
      modifies wram
      ensures Valid() && Snapshot() == old(Snapshot()).(wram := old(wram.memory)[location - 0xC000 := b])
    {
      wram.Write(location, b);
    }

    method WriteOam(location: u16, b: byte)
      requires Valid() && 0xFE00 <= location <= 0xFE9F
      modifies oam.mem
      ensures Valid() && Snapshot() == old(Snapshot()).(oam := old(oam.mem.memory)[location - 0xFE00 := b])
    {
      oam.Write(location, b);
    }

    method WriteHram(location: u16, b: byte)
      requires Valid() && 0xFF80 <= location <= 0xFFFE
      modifies hram
      ensures Valid() && Snapshot() == old(Snapshot()).(hram := old(hram.memory)[location - 0xFF80 := b])
    {
      hram.Write(location, b);
    }

    method WriteIo(location: u16, b: byte)
      requires Valid() && IsIo(location) && Io.CanWrite(io.Snapshot(), location, b)
      modifies io.Repr()
      ensures Valid() && Snapshot() == old(Snapshot()).(io := Io.Written(old(io.Snapshot()), location, b))
    {
      io.Write(location, b);
    }

    method WriteDma(b: byte)
      requires Valid() && DmaReadable(Snapshot().(dma := b))
      modifies this, oam.mem
      ensures Valid() && Snapshot() == DmaCopied(old(Snapshot()).(dma := b))
    {
      dma := b;
      DmaRun();
    }
  }
}
