/**
 * The cartridge: the ROM image, the cartridge RAM, the parsed header and
 * the bank controller, and how the CPU's reads and writes in 0x0000-0x7FFF
 * and 0xA000-0xBFFF reach them.
 */
module Cartridge {
  import opened Bits
  import opened Wrappers
  import Banking
  import CartHeader

  /** Upper-case hexadecimal digit. */
  function HexDigit(d: nat): (c: char)
    requires d < 16
    ensures '0' <= c <= '9' || 'A' <= c <= 'F'
  {
    if d < 10 then ('0' as int + d) as char else ('A' as int + d - 10) as char
  }

  /** `{:#02X}`: "0x", then the digits without leading zeros. */
  function Hex(b: byte): (s: string)
    ensures 3 <= |s| <= 4 && s[..2] == "0x"
    ensures |s| == 3 <==> b < 16
  {
    "0x" + (if b < 16 then [] else [HexDigit(b / 16)]) + [HexDigit(b % 16)]
  }

  /** get_mbc: type 0 has no controller, 1-3 an MBC1 that starts on bank 1; others are refused. */
  function GetMbc(h: CartHeader.Header): (r: Result<Banking.Mbc>)
    ensures r.Ok? <==> h.cartType <= 3
    ensures r.Ok? ==> Banking.Valid(r.value) && (r.value.NoMbc? <==> h.cartType == 0)
    ensures r.Ok? && r.value.Mbc1? ==> !r.value.ramEnabled && r.value.s1 == 1 && r.value.s2 == 0 && !r.value.mode
    ensures r.Err? ==> r.error == "Unsopported mbc " + Hex(h.cartType)
  {
    match h.cartType
    case 0 => Ok(Banking.NoMbc)
    case 1 => Ok(Banking.Mbc1(false, 1, 0, false))
    case 2 => Ok(Banking.Mbc1(false, 1, 0, false))
    case 3 => Ok(Banking.Mbc1(false, 1, 0, false))
    case _ => Err("Unsopported mbc " + Hex(h.cartType))
  }

  datatype CartState = CartState(rom: seq<byte>, ram: seq<byte>, header: CartHeader.Header, mbc: Banking.Mbc)

  /** from_file after the file is read: parse the header, pick the controller, zero the RAM. */
  function Loaded(file: seq<byte>): (r: Result<CartState>)
    requires |file| > 0x149
    ensures r.Ok? <==> file[0x147] <= 3
    ensures r.Ok? ==> r.value.rom == file && r.value.header == CartHeader.Parse(file)
    ensures r.Ok? ==> |r.value.ram| == CartHeader.RamSizeBytes(r.value.header)
    ensures r.Ok? ==> forall i :: 0 <= i < |r.value.ram| ==> r.value.ram[i] == 0
    ensures r.Ok? ==> Banking.Valid(r.value.mbc)
  {
    var header := CartHeader.Parse(file);
    match GetMbc(header)
    case Err(e) => Err(e)
    case Ok(mbc) => Ok(CartState(file, seq(CartHeader.RamSizeBytes(header), _ => 0), header, mbc))
  }

  /** The RAM is as large as the header says, which is how from_file allocates it. */
  predicate RamSized(c: CartState)
  {
    |c.ram| == CartHeader.RamSizeBytes(c.header)
  }

  /** The image holds every bank the header declares. */
  predicate RomComplete(c: CartState)
  {
    CartHeader.RomBanks(c.header) > 0 && |c.rom| >= CartHeader.RomSizeBytes(c.header)
  }

  /** The indexing a read does stays inside the ROM and RAM vectors. */
  predicate CanRead(c: CartState, add: u16)
  {
    match Banking.Read(c.mbc, add)
    case Rom(offset) => CartHeader.RomBanks(c.header) > 0 && CartHeader.RomAddress(c.header, offset) < |c.rom|
    case Ram(offset) => |c.ram| == 0 || CartHeader.RamAddress(c.header, offset) < |c.ram|
    case _ => true
  }

  /**
   * read: ROM and RAM offsets are wrapped to the cartridge's sizes; RAM
   * that is disabled or absent reads 0xFF, and addresses the controller
   * does not map read 0.
   */
  function ReadAt(c: CartState, add: u16): (r: byte)
    requires CanRead(c, add)
    ensures Banking.Read(c.mbc, add).NoOp? ==> r == 0
    ensures Banking.Read(c.mbc, add).Ram? && |c.ram| == 0 ==> r == 0xFF
  {
    match Banking.Read(c.mbc, add)
    case Rom(offset) => c.rom[CartHeader.RomAddress(c.header, offset)]
    case Ram(offset) => if |c.ram| == 0 then 0xFF else c.ram[CartHeader.RamAddress(c.header, offset)]
    case Direct(value) => value
    case NoOp => 0
  }

  /** As written, a RAM read indexes the RAM even when there is none. */
  predicate CanReadAsWritten(c: CartState, add: u16)
  {
    match Banking.Read(c.mbc, add)
    case Rom(offset) => CartHeader.RomBanks(c.header) > 0 && CartHeader.RomAddress(c.header, offset) < |c.rom|
    case Ram(offset) => CartHeader.RamAddress(c.header, offset) < |c.ram|
    case _ => true
  }

  function ReadAtAsWritten(c: CartState, add: u16): byte
    requires CanReadAsWritten(c, add)
  {
    match Banking.Read(c.mbc, add)
    case Rom(offset) => c.rom[CartHeader.RomAddress(c.header, offset)]
    case Ram(offset) => c.ram[CartHeader.RamAddress(c.header, offset)]
    case Direct(value) => value
    case NoOp => 0
  }

  /** The RAM store a write does, when there is RAM, stays inside it. */
  predicate CanWrite(c: CartState, add: u16, b: byte)
  {
    var res := Banking.Written(c.mbc, add, b).1;
    res.Ram? && |c.ram| > 0 ==> CartHeader.RamAddress(c.header, res.ramOffset) < |c.ram|
  }

  /** write: the controller sees every write; a RAM result stores the byte when there is RAM. */
  function WriteAt(c: CartState, add: u16, b: byte): (r: CartState)
    requires CanWrite(c, add, b)
    ensures r.rom == c.rom && r.header == c.header && |r.ram| == |c.ram|
    ensures r.mbc == Banking.Written(c.mbc, add, b).0
    ensures !Banking.Written(c.mbc, add, b).1.Ram? ==> r.ram == c.ram
  {
    var (mbc, res) := Banking.Written(c.mbc, add, b);
    if res.Ram? && |c.ram| > 0 then
      c.(mbc := mbc, ram := c.ram[CartHeader.RamAddress(c.header, res.ramOffset) := b])
    else
      c.(mbc := mbc)
  }

  /** RAM allocated at the header's size takes every write. */
  lemma RamSizedCanWrite(c: CartState, add: u16, b: byte)
    requires RamSized(c)
    ensures CanWrite(c, add, b)
  {
  }

  /** A cartridge whose image is complete and whose RAM is allocated at the header's size can read anywhere. */
  lemma CompleteCartCanRead(c: CartState, add: u16)
    requires RomComplete(c) && RamSized(c)
    ensures CanRead(c, add)
  {
  }

  /** Writing keeps the RAM at the header's size. */
  lemma WriteKeepsRamSized(c: CartState, add: u16, b: byte)
    requires RamSized(c)
    ensures CanWrite(c, add, b) && RamSized(WriteAt(c, add, b))
  {
  }

  /** With RAM enabled, a byte written into 0xA000-0xBFFF reads back from the same address. */
  lemma WriteThenReadRam(c: CartState, add: u16, b: byte)
    requires c.mbc.Mbc1? && c.mbc.ramEnabled && 0xA000 <= add <= 0xBFFF
    requires RamSized(c) && |c.ram| > 0
    ensures CanWrite(c, add, b)
    ensures CanRead(WriteAt(c, add, b), add) && ReadAt(WriteAt(c, add, b), add) == b
  {
    Banking.RamAreaAgrees(c.mbc, add, b);
  }

  /** A write elsewhere in RAM leaves a RAM address that maps to another cell unchanged. */
  lemma WriteKeepsOtherRam(c: CartState, add: u16, other: u16, b: byte)
    requires c.mbc.Mbc1? && c.mbc.ramEnabled && 0xA000 <= add <= 0xBFFF && 0xA000 <= other <= 0xBFFF
    requires RamSized(c) && |c.ram| > 0
    requires CartHeader.RamAddress(c.header, Banking.Read(c.mbc, add).ramOffset)
          != CartHeader.RamAddress(c.header, Banking.Read(c.mbc, other).ramOffset)
    ensures CanWrite(c, add, b) && CanRead(c, other) && CanRead(WriteAt(c, add, b), other)
    ensures ReadAt(WriteAt(c, add, b), other) == ReadAt(c, other)
  {
    Banking.RamAreaAgrees(c.mbc, add, b);
    Banking.RamAreaAgrees(c.mbc, other, b);
  }

  /** Register writes and writes outside the cartridge's areas leave the RAM as it was. */
  lemma RegisterWriteKeepsRam(c: CartState, add: u16, b: byte)
    requires add <= 0x7FFF || 0xBFFF < add || add < 0xA000
    ensures CanWrite(c, add, b) && WriteAt(c, add, b).ram == c.ram
  {
  }

  /** In mode 0, 0x0000-0x3FFF is the first 16 KiB of the image. */
  lemma LowerAreaReadsRom(c: CartState, add: u16)
    requires RomComplete(c) && c.mbc.Mbc1? && !c.mbc.mode && add <= 0x3FFF
    ensures CanRead(c, add) && ReadAt(c, add) == c.rom[add]
  {
    assert CartHeader.RomSizeBytes(c.header) >= 0x8000;
  }

  /** A freshly loaded cartridge has RAM disabled, so its RAM area reads 0xFF. */
  lemma LoadedRamDisabled(file: seq<byte>, add: u16)
    requires |file| > 0x149 && Loaded(file).Ok? && file[0x147] != 0 && 0xA000 <= add <= 0xBFFF
    ensures CanRead(Loaded(file).value, add) && ReadAt(Loaded(file).value, add) == 0xFF
  {
  }

  /**
   * Finding: an MBC1 cartridge without RAM (type 0x01, RAM code 0) that
   * enables RAM and reads 0xA000 indexes an empty vector as written; the
   * write path guards the same case.
   */
  lemma NoRamReadAsWritten(rom: seq<byte>)
    requires |rom| > 0x149 && rom[0x147] == 1 && rom[0x149] == 0
    ensures var c := CartState(rom, [], CartHeader.Parse(rom), Banking.Mbc1(true, 1, 0, false));
      RamSized(c) && !CanReadAsWritten(c, 0xA000) && CanRead(c, 0xA000) && ReadAt(c, 0xA000) == 0xFF
  {
  }

  /**
   * The cartridge object: the image and header are fixed at load, the RAM
   * is a buffer of fixed length written in place, and the controller keeps
   * its own registers.
   */
  class Cart {
    const rom: seq<byte>
    const ram: array<byte>
    const header: CartHeader.Header
    const mbc: Banking.Controller

    function Snapshot(): CartState
      reads this, ram, mbc
    {
      CartState(rom, ram[..], header, mbc.state)
    }

    constructor (rom: seq<byte>, ram: array<byte>, header: CartHeader.Header, mbc: Banking.Controller)
      ensures this.rom == rom && this.ram == ram && this.header == header && this.mbc == mbc
    {
      this.rom := rom;
      this.ram := ram;
      this.header := header;
      this.mbc := mbc;
    }

    /** from_file with the file's bytes already read. */
    static method FromFile(file: seq<byte>) returns (r: Result<Cart>)
      requires |file| > 0x149
      ensures r.Ok? <==> Loaded(file).Ok?
      ensures r.Err? ==> r.error == Loaded(file).error
      ensures r.Ok? ==> fresh(r.value) && fresh(r.value.ram) && fresh(r.value.mbc)
      ensures r.Ok? ==> r.value.Snapshot() == Loaded(file).value
    {
      var header := CartHeader.New(file);
      match GetMbc(header) {
        case Err(e) =>
          r := Err(e);
        case Ok(m) =>
          var controller := new Banking.Controller(m);
          var ram := new byte[CartHeader.RamSizeBytes(header)](_ => 0);
          var cart := new Cart(file, ram, header, controller);
          r := Ok(cart);
      }
    }

    function Read(add: u16): (r: byte)
      reads this, ram, mbc
      requires CanRead(Snapshot(), add)
      ensures r == ReadAt(Snapshot(), add)
    {
      match Banking.Read(mbc.state, add)
      case Rom(offset) => rom[CartHeader.RomAddress(header, offset)]
      case Ram(offset) => if ram.Length == 0 then 0xFF else ram[CartHeader.RamAddress(header, offset)]
      case Direct(value) => value
      case NoOp => 0
    }

    method Write(add: u16, b: byte)
      requires CanWrite(Snapshot(), add, b)
      modifies ram, mbc
      ensures Snapshot() == WriteAt(old(Snapshot()), add, b)
    {
      var res := mbc.Write(add, b);
      match res {
        case Ram(offset) =>
          if ram.Length > 0 {
            ram[CartHeader.RamAddress(header, offset)] := b;
          }
        case _ =>
      }
    }
  }
}
