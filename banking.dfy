/**
 * The memory bank controller: no controller at all, or an MBC1, which maps
 * the CPU's cartridge addresses to offsets in ROM and cartridge RAM and is
 * programmed by writes into the ROM area.
 */
module Banking {
  import opened Bits

  /** NoMbc, or an MBC1 with its RAM enable, the two bank registers and the banking mode. */
  datatype Mbc = NoMbc | Mbc1(ramEnabled: bool, s1: byte, s2: byte, mode: bool)

  /**
   * Where an access goes: an offset into ROM, an offset into cartridge RAM,
   * a value the controller answers itself, or nowhere.
   */
  datatype MbcResult = Rom(romOffset: nat) | Ram(ramOffset: nat) | Direct(value: byte) | NoOp

  const RomBank: nat := 16384
  const RamBank: nat := 8192

  /** The states a controller can reach from Mbc1(false, 1, 0, false). */
  predicate Valid(m: Mbc)
  {
    m.Mbc1? ==> 1 <= m.s1 < 32 && m.s2 < 4
  }

  /** `(s2 << 5) | s1` in a u8: the bank mapped at 0x4000-0x7FFF. */
  function UpperBank(s1: byte, s2: byte): (r: byte)
    ensures s1 < 32 ==> r == (s2 % 8) * 32 + s1
  {
    Pow2Byte();
    var high := (s2 * 32) % 256;
    assert high == (s2 % 8) * 32;
    if s1 < 32 then
      OrDisjoint(high, s1, 8, 5);
      Or(high, s1, 8)
    else
      Or(high, s1, 8)
  }

  /** read: the offset an access maps to; the controller itself answers 0xFF for disabled RAM. */
  function Read(m: Mbc, add: u16): (r: MbcResult)
    ensures r.Ram? || r.Direct? ==> m.Mbc1? && 0xA000 <= add <= 0xBFFF
    ensures r.Rom? ==> m.NoMbc? || add <= 0x7FFF
  {
    match m
    case NoMbc => Rom(add)
    case Mbc1(ramEnabled, s1, s2, mode) =>
      if add <= 0x3FFF then
        if !mode then Rom(add) else Rom(RomBank * s2 + add)
      else if add <= 0x7FFF then
        Rom(RomBank * UpperBank(s1, s2) + (add - 0x4000))
      else if 0xA000 <= add <= 0xBFFF then
        if !mode && ramEnabled then Ram(add - 0xA000)
        else if ramEnabled then Ram(RamBank * s2 + (add - 0xA000))
        else Direct(0xFF)
      else NoOp
  }

  /** The bank register value a write to 0x2000-0x3FFF selects: a zero bank number selects bank 1. */
  function SelectLow(b: byte): (r: byte)
    ensures 1 <= r < 32
    ensures b % 32 != 0 ==> r == b % 32
  {
    if b % 32 != 0 then b % 32 else 1
  }

  /** As written, only a zero byte selects 1, so 0x20, 0x40, ... select bank 0. */
  function SelectLowAsWritten(b: byte): byte
  {
    if b != 0 then b % 32 else 1
  }

  /**
   * write: 0x0000-0x1FFF enable RAM on a low nibble of 0xA, 0x2000-0x3FFF
   * select the low bank bits, 0x4000-0x5FFF the two high bits and
   * 0x6000-0x7FFF the mode; RAM writes map like RAM reads.
   */
  function Written(m: Mbc, add: u16, b: byte): (r: (Mbc, MbcResult))
    ensures m.NoMbc? ==> r == (NoMbc, NoOp)
    ensures add <= 0x7FFF ==> r.1 == NoOp
    ensures add > 0x7FFF ==> r.0 == m
    ensures m.Mbc1? ==> r.0.Mbc1?
  {
    match m
    case NoMbc => (NoMbc, NoOp)
    case Mbc1(ramEnabled, s1, s2, mode) =>
      if add <= 0x1FFF then (m.(ramEnabled := b % 16 == 0xA), NoOp)
      else if add <= 0x3FFF then (m.(s1 := SelectLow(b)), NoOp)
      else if add <= 0x5FFF then (m.(s2 := b % 4), NoOp)
      else if add <= 0x7FFF then (m.(mode := b % 2 != 0), NoOp)
      else if 0xA000 <= add <= 0xBFFF then
        if !mode && ramEnabled then (m, Ram(add - 0xA000))
        else if ramEnabled then (m, Ram(RamBank * s2 + (add - 0xA000)))
        else (m, NoOp)
      else (m, NoOp)
  }

  /**
   * After a write to 0x2000-0x3FFF the upper area shows bank
   * 32 * s2 + SelectLow(b); the lower area and cartridge RAM read as before.
   */
  lemma BankSelectWrite(m: Mbc, add: u16, b: byte, a: u16)
    requires Valid(m) && m.Mbc1? && 0x2000 <= add <= 0x3FFF
    ensures var n := Written(m, add, b).0;
      (0x4000 <= a <= 0x7FFF ==> Read(n, a) == Rom(RomBank * (32 * m.s2 + SelectLow(b)) + (a - 0x4000)))
      && (a <= 0x3FFF || 0xA000 <= a <= 0xBFFF ==> Read(n, a) == Read(m, a))
  {
    ModUnique(m.s2, 8, 0, m.s2);
    assert UpperBank(SelectLow(b), m.s2) == 32 * m.s2 + SelectLow(b);
  }

  /**
   * After a write to 0x0000-0x1FFF cartridge RAM is mapped exactly when the
   * low nibble of the value is 0xA; ROM reads are unchanged.
   */
  lemma RamEnableWrite(m: Mbc, add: u16, b: byte, a: u16)
    requires m.Mbc1? && add <= 0x1FFF
    ensures var n := Written(m, add, b).0;
      (0xA000 <= a <= 0xBFFF ==> (Read(n, a).Ram? <==> b % 16 == 0xA))
      && (0xA000 <= a <= 0xBFFF && b % 16 != 0xA ==> Read(n, a) == Direct(0xFF))
      && (a <= 0x7FFF ==> Read(n, a) == Read(m, a))
  {
  }

  /** Writes keep the bank registers in the ranges the hardware has. */
  lemma WrittenKeepsValid(m: Mbc, add: u16, b: byte)
    requires Valid(m)
    ensures Valid(Written(m, add, b).0)
  {
  }

  /**
   * An upper-area read is bank (s2 << 5) | s1 at offset add - 0x4000, and
   * that bank is never 0, 0x20, 0x40 or 0x60.
   */
  lemma UpperAreaBank(m: Mbc, add: u16)
    requires Valid(m) && m.Mbc1? && 0x4000 <= add <= 0x7FFF
    ensures Read(m, add).Rom?
    ensures Read(m, add).romOffset / RomBank == 32 * m.s2 + m.s1
    ensures Read(m, add).romOffset % RomBank == add - 0x4000
    ensures (Read(m, add).romOffset / RomBank) % 32 != 0
  {
    var s1, s2 := m.s1, m.s2;
    ModUnique(s2, 8, 0, s2);
    ModUnique(32 * s2 + s1, 32, s2, s1);
    var bank := UpperBank(s1, s2);
    assert bank == 32 * s2 + s1;
    var offset := RomBank * bank + (add - 0x4000);
    assert Read(m, add) == Rom(offset);
    DivisionUnique(offset, RomBank, bank, add - 0x4000);
    ModUnique(offset, RomBank, bank, add - 0x4000);
  }

  /** A lower-area read is bank 0, or bank s2 in mode 1, at offset add. */
  lemma LowerAreaBank(m: Mbc, add: u16)
    requires m.Mbc1? && add <= 0x3FFF
    ensures Read(m, add).Rom?
    ensures Read(m, add).romOffset / RomBank == (if m.mode then m.s2 else 0)
    ensures Read(m, add).romOffset % RomBank == add
  {
    DivisionUnique(Read(m, add).romOffset, RomBank, if m.mode then m.s2 else 0, add);
  }

  /**
   * In 0xA000-0xBFFF reads and writes agree: both reach RAM bank 0, or
   * bank s2 in mode 1, at offset add - 0xA000 when RAM is enabled; when it
   * is disabled a read gives 0xFF and a write goes nowhere.
   */
  lemma RamAreaAgrees(m: Mbc, add: u16, b: byte)
    requires m.Mbc1? && 0xA000 <= add <= 0xBFFF
    ensures m.ramEnabled ==> Read(m, add) == Written(m, add, b).1 && Read(m, add).Ram?
    ensures m.ramEnabled ==> Read(m, add).ramOffset / RamBank == (if m.mode then m.s2 else 0)
    ensures m.ramEnabled ==> Read(m, add).ramOffset % RamBank == add - 0xA000
    ensures !m.ramEnabled ==> Read(m, add) == Direct(0xFF) && Written(m, add, b).1 == NoOp
  {
    if m.ramEnabled {
      DivisionUnique(Read(m, add).ramOffset, RamBank, if m.mode then m.s2 else 0, add - 0xA000);
    }
  }

  /** Without a controller every read is the ROM at the address itself and every write goes nowhere. */
  lemma NoMbcIsPlainRom(add: u16, b: byte)
    ensures Read(NoMbc, add) == Rom(add)
    ensures Written(NoMbc, add, b) == (NoMbc, NoOp)
  {
  }

  /**
   * Finding: writing 0x20 to 0x2000-0x3FFF leaves bank register 0 as
   * written, so the upper area shows bank 0; a zero bank number is meant to
   * select bank 1.
   */
  lemma ZeroBankAsWritten()
    ensures SelectLowAsWritten(0x20) == 0
    ensures Read(Mbc1(false, SelectLowAsWritten(0x20), 0, false), 0x4000) == Rom(0)
    ensures SelectLow(0x20) == 1
    ensures Read(Mbc1(false, SelectLow(0x20), 0, false), 0x4000) == Rom(RomBank)
  {
    assert UpperBank(0, 0) == 0;
    assert UpperBank(1, 0) == 1;
  }

  /** The controller as the cartridge holds it; write updates the MBC1 fields in place. */
  class Controller {
    var state: Mbc

    constructor (m: Mbc)
      ensures state == m
    {
      state := m;
    }

    method Write(add: u16, b: byte) returns (r: MbcResult)
      modifies this
      ensures (state, r) == Written(old(state), add, b)
    {
      match state {
        case NoMbc =>
          r := NoOp;
        case Mbc1(ramEnabled, s1, s2, mode) =>
          r := NoOp;
          if add <= 0x1FFF {
            state := state.(ramEnabled := b % 16 == 0xA);
          } else if add <= 0x3FFF {
            state := state.(s1 := if b % 32 != 0 then b % 32 else 1);
          } else if add <= 0x5FFF {
            state := state.(s2 := b % 4);
          } else if add <= 0x7FFF {
            state := state.(mode := b % 2 != 0);
          } else if 0xA000 <= add <= 0xBFFF {
            if !mode && ramEnabled {
              r := Ram(add - 0xA000);
            } else if ramEnabled {
              r := Ram(RamBank * s2 + (add - 0xA000));
            }
          }
      }
    }
  }
}
