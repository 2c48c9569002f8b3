/**
 * The cartridge header: the title at 0x134-0x143, the cartridge type and
 * the ROM and RAM size codes at 0x147-0x149, and the sizes and address
 * wrapping they imply.
 */
module CartHeader {
  import opened Bits

  datatype Header = Header(title: string, cartType: byte, romSize: byte, ramSize: byte)

  const TitleStart: nat := 0x134
  const TitleEnd: nat := 0x144

  /** Cartridge types with a battery behind their RAM. */
  const CartTypeBattery: seq<byte> := [0x03, 0x06, 0x0F, 0x10, 0x13]

  /** A byte on its own is valid UTF-8 exactly when it is ASCII. */
  predicate IsAscii(b: byte)
  {
    b < 0x80
  }

  /** How many leading bytes are ASCII. */
  function AsciiLength(bytes: seq<byte>): (n: nat)
    ensures n <= |bytes|
    ensures forall i :: 0 <= i < n ==> IsAscii(bytes[i])
    ensures n < |bytes| ==> !IsAscii(bytes[n])
  {
    if |bytes| == 0 || !IsAscii(bytes[0]) then 0 else 1 + AsciiLength(bytes[1..])
  }

  /** The ASCII prefix is the only prefix that is all ASCII and stops at a non-ASCII byte or the end. */
  lemma AsciiLengthUnique(bytes: seq<byte>, n: nat)
    requires n <= |bytes|
    requires forall i :: 0 <= i < n ==> IsAscii(bytes[i])
    requires n < |bytes| ==> !IsAscii(bytes[n])
    ensures AsciiLength(bytes) == n
  {
  }

  /** The title: the header's 16 title bytes up to the first that is not ASCII, as characters. */
  function Title(rom: seq<byte>): (title: string)
    requires |rom| >= TitleEnd
    ensures |title| <= 16
    ensures forall i :: 0 <= i < |title| ==> title[i] == rom[TitleStart + i] as char && IsAscii(rom[TitleStart + i])
    ensures |title| < 16 ==> !IsAscii(rom[TitleStart + |title|])
  {
    var bytes := rom[TitleStart..TitleEnd];
    seq(AsciiLength(bytes), i requires 0 <= i < AsciiLength(bytes) => bytes[i] as char)
  }

  /** The header a ROM image carries. */
  function Parse(rom: seq<byte>): Header
    requires |rom| > 0x149
  {
    Header(Title(rom), rom[0x147], rom[0x148], rom[0x149])
  }

  /** new: every header byte is read, so a ROM shorter than 0x14A bytes panics. */
  method New(rom: seq<byte>) returns (h: Header)
    requires |rom| > 0x149
    ensures h == Parse(rom)
    ensures |h.title| <= 16 && h.cartType == rom[0x147] && h.romSize == rom[0x148] && h.ramSize == rom[0x149]
  {
    var title: string := "";
    var titleIndex: u16 := 0x134;
    while titleIndex <= 0x143
      invariant TitleStart <= titleIndex <= TitleEnd
      invariant |title| == titleIndex - TitleStart
      invariant forall i :: 0 <= i < |title| ==> title[i] == rom[TitleStart + i] as char && IsAscii(rom[TitleStart + i])
    {
      if !IsAscii(rom[titleIndex]) {
        break;
      }
      title := title + [rom[titleIndex] as char];
      titleIndex := titleIndex + 1;
    }
    var bytes := rom[TitleStart..TitleEnd];
    forall i | 0 <= i < |title|
      ensures IsAscii(bytes[i])
    {
      assert title[i] == rom[TitleStart + i] as char && bytes[i] == rom[TitleStart + i];
    }
    assert |title| < |bytes| ==> bytes[|title|] == rom[titleIndex];
    AsciiLengthUnique(bytes, |title|);
    h := Header(title, rom[0x147], rom[0x148], rom[0x149]);
  }

  /**
   * get_rom_banks, with code n meaning 2 << n banks (32 KiB << n);
   * an unknown code gives 0.
   */
  function RomBanks(h: Header): (r: nat)
  {
    match h.romSize
    case 0 => 2
    case 1 => 4
    case 2 => 8
    case 3 => 16
    case 4 => 32
    case 5 => 64
    case 6 => 128
    case 7 => 256
    case 8 => 512
    case _ => 0
  }

  /** get_rom_banks as written: codes 5-8 give 512, 64, 128 and 256 banks. */
  function RomBanksAsWritten(h: Header): nat
  {
    match h.romSize
    case 0 => 2
    case 1 => 4
    case 2 => 8
    case 3 => 16
    case 4 => 32
    case 6 => 64
    case 7 => 128
    case 8 => 256
    case 5 => 512
    case _ => 0
  }

  /** The ROM size doubles with each code: 2 << n banks, 32 KiB << n bytes. */
  lemma RomBanksDouble(h: Header)
    ensures h.romSize <= 8 ==> RomBanks(h) == Pow2(h.romSize + 1)
    ensures h.romSize <= 8 ==> RomSizeBytes(h) == 0x8000 * Pow2(h.romSize)
    ensures h.romSize > 8 ==> RomBanks(h) == 0 && RomSizeBytes(h) == 0
  {
    Pow2Byte();
    assert Pow2(9) == 512;
  }

  /** get_ram_banks: 2 KiB or no RAM is 0 banks, then 1, 4, 16 and 8 banks of 8 KiB. */
  function RamBanks(h: Header): (r: nat)
    ensures r == 0 <==> h.ramSize <= 1 || h.ramSize > 5
  {
    match h.ramSize
    case 0 => 0
    case 1 => 0
    case 2 => 1
    case 3 => 4
    case 4 => 16
    case 5 => 8
    case _ => 0
  }

  /** has_battery: MBC1, MBC2, MBC3 with timer and MBC3 cartridges with a battery. */
  predicate HasBattery(h: Header): (r: bool)
    ensures r <==> h.cartType == 0x03 || h.cartType == 0x06 || h.cartType == 0x0F || h.cartType == 0x10 || h.cartType == 0x13
    ensures (h.cartType == 5 || h.cartType == 6) ==> (r <==> h.cartType == 6)
  {
    h.cartType in CartTypeBattery
  }

  /** get_ram_size_bytes: the 512 built-in nibbles of types 5 and 6, else whole 8 KiB banks. */
  function RamSizeBytes(h: Header): (n: nat)
    ensures h.cartType == 5 || h.cartType == 6 ==> n == 512
    ensures h.cartType != 5 && h.cartType != 6 ==> n % 0x2000 == 0 && n / 0x2000 == RamBanks(h)
  {
    if h.cartType == 5 || h.cartType == 6 then 512 else RamBanks(h) * 8192
  }

  function RomSizeBytes(h: Header): (n: nat)
    ensures n % 0x4000 == 0 && n / 0x4000 == RomBanks(h)
  {
    RomBanks(h) * 16384
  }

  /** get_ram_address: wrap into RAM when there are banks, otherwise 0. */
  function RamAddress(h: Header, add: nat): (r: nat)
    ensures RamBanks(h) > 0 ==> r < RamSizeBytes(h) && r % RamSizeBytes(h) == add % RamSizeBytes(h)
    ensures RamBanks(h) > 0 && add < RamSizeBytes(h) ==> r == add
    ensures RamBanks(h) == 0 ==> r == 0
  {
    if RamBanks(h) > 0 then add % RamSizeBytes(h) else 0
  }

  /** get_rom_address: the remainder by a zero ROM size panics, so the code must be known. */
  function RomAddress(h: Header, add: nat): (r: nat)
    requires RomBanks(h) > 0
    ensures r < RomSizeBytes(h) && r % RomSizeBytes(h) == add % RomSizeBytes(h)
    ensures add < RomSizeBytes(h) ==> r == add
  {
    add % RomSizeBytes(h)
  }

  /** RAM addresses fall inside the RAM whenever there is any. */
  lemma RamAddressInside(h: Header, add: nat)
    requires RamSizeBytes(h) > 0
    ensures RamAddress(h, add) < RamSizeBytes(h)
  {
  }

  /**
   * Finding: a 1 MiB cartridge (code 5, 64 banks) is taken as 8 MiB, so
   * bank 65 is not wrapped back to bank 1 and indexes past the end of the
   * ROM; a 2 MiB cartridge (code 6) is taken as 1 MiB, so its upper 64
   * banks alias the lower ones.
   */
  lemma RomBanksAsWrittenMisread()
    ensures RomBanksAsWritten(Header("", 1, 5, 0)) == 512 && RomBanks(Header("", 1, 5, 0)) == 64
    ensures RomBanksAsWritten(Header("", 1, 6, 0)) == 64 && RomBanks(Header("", 1, 6, 0)) == 128
    ensures (65 * 0x4000) % (RomBanksAsWritten(Header("", 1, 5, 0)) * 0x4000) == 65 * 0x4000
    ensures RomAddress(Header("", 1, 5, 0), 65 * 0x4000) == 0x4000
    ensures 65 * 0x4000 >= RomSizeBytes(Header("", 1, 5, 0))
  {
  }
}
