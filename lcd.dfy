/**
 * The LCD registers 0xFF40-0xFF4B: the control register LCDC, the status
 * register STAT with its coincidence flag and PPU mode, the scroll and
 * window positions, the current line LY and its compare value LYC, and the
 * three palettes.
 */
module Lcd {
  import opened Bits

  datatype LcdRegs = LcdRegs(
    lcdc: byte, stat: byte, scy: byte, scx: byte, ly: byte, lyc: byte,
    bgp: byte, obp0: byte, obp1: byte, wy: byte, wx: byte)

  /** new: the values the boot ROM leaves behind. */
  const Initial: LcdRegs := LcdRegs(0x91, 0x85, 0, 0, 0, 0, 0xFC, 0, 0, 0, 0)

  predicate DisplayEnabled(l: LcdRegs)
  {
    And8(l.lcdc, 0x80) != 0
  }

  function WindowTileMap(l: LcdRegs): u16
  {
    if And8(l.lcdc, 0x40) != 0 then 0x9C00 else 0x9800
  }

  predicate WindowEnabled(l: LcdRegs)
  {
    And8(l.lcdc, 0x20) != 0
  }

  function TileData(l: LcdRegs): u16
  {
    if And8(l.lcdc, 0x10) != 0 then 0x8000 else 0x9000
  }

  function BgTileMap(l: LcdRegs): u16
  {
    if And8(l.lcdc, 0x08) != 0 then 0x9C00 else 0x9800
  }

  function SpriteSize(l: LcdRegs): byte
  {
    if And8(l.lcdc, 0x04) != 0 then 16 else 8
  }

  predicate SpritesEnabled(l: LcdRegs)
  {
    And8(l.lcdc, 0x02) != 0
  }

  predicate BgWindowEnabled(l: LcdRegs)
  {
    And8(l.lcdc, 0x01) != 0
  }

  predicate OamStatEnabled(l: LcdRegs)
  {
    And8(l.stat, 0x20) != 0
  }

  predicate VblankStatEnabled(l: LcdRegs)
  {
    And8(l.stat, 0x10) != 0
  }

  predicate HblankStatEnabled(l: LcdRegs)
  {
    And8(l.stat, 0x08) != 0
  }

  predicate LyEqualLycStatEnabled(l: LcdRegs)
  {
    And8(l.stat, 0x40) != 0
  }

  /** Each LCDC and STAT getter reads one bit: LCDC 7 down to 0, STAT 6 down to 3. */
  lemma ControlBits(l: LcdRegs)
    ensures DisplayEnabled(l) <==> Bit(l.lcdc, 7) == 1
    ensures WindowTileMap(l) == if Bit(l.lcdc, 6) == 1 then 0x9C00 else 0x9800
    ensures WindowEnabled(l) <==> Bit(l.lcdc, 5) == 1
    ensures TileData(l) == if Bit(l.lcdc, 4) == 1 then 0x8000 else 0x9000
    ensures BgTileMap(l) == if Bit(l.lcdc, 3) == 1 then 0x9C00 else 0x9800
    ensures SpriteSize(l) == if Bit(l.lcdc, 2) == 1 then 16 else 8
    ensures SpritesEnabled(l) <==> Bit(l.lcdc, 1) == 1
    ensures BgWindowEnabled(l) <==> Bit(l.lcdc, 0) == 1
    ensures LyEqualLycStatEnabled(l) <==> Bit(l.stat, 6) == 1
    ensures OamStatEnabled(l) <==> Bit(l.stat, 5) == 1
    ensures VblankStatEnabled(l) <==> Bit(l.stat, 4) == 1
    ensures HblankStatEnabled(l) <==> Bit(l.stat, 3) == 1
  {
    Pow2Byte();
    MaskTest(l.lcdc, 7);
    MaskTest(l.lcdc, 6);
    MaskTest(l.lcdc, 5);
    MaskTest(l.lcdc, 4);
    MaskTest(l.lcdc, 3);
    MaskTest(l.lcdc, 2);
    MaskTest(l.lcdc, 1);
    MaskTest(l.lcdc, 0);
    MaskTest(l.stat, 6);
    MaskTest(l.stat, 5);
    MaskTest(l.stat, 4);
    MaskTest(l.stat, 3);
  }

  /** STAT bit 2 is set exactly when LY equals LYC. */
  predicate Coincident(l: LcdRegs)
  {
    Bit(l.stat, 2) == 1 <==> l.ly == l.lyc
  }

  /** update_coincidence_flag: `stat |= 0x04` when LY == LYC, else `stat &= 0xFB`. */
  function CoincidenceUpdated(l: LcdRegs): (r: LcdRegs)
    ensures Coincident(r)
    ensures r == l.(stat := r.stat)
    ensures forall j :: 0 <= j < 8 && j != 2 ==> Bit(r.stat, j) == Bit(l.stat, j)
  {
    l.(stat := if l.ly == l.lyc then SetBit(l.stat, 2) else ResetBit(l.stat, 2))
  }

  /** set_ly */
  function LySet(l: LcdRegs, b: byte): (r: LcdRegs)
    ensures r.ly == b && Coincident(r)
  {
    CoincidenceUpdated(l.(ly := b))
  }

  /** `u8::wrapping_add` */
  function WrappingAdd(a: byte, b: byte): (r: byte)
    ensures r == (a + b) % 0x100
  {
    if a + b < 0x100 then a + b else a + b - 0x100
  }

  /** inc_ly: LY wraps at 8 bits. */
  function LyIncremented(l: LcdRegs, inc: byte): (r: LcdRegs)
    ensures r.ly == (l.ly + inc) % 0x100 && Coincident(r)
  {
    CoincidenceUpdated(l.(ly := WrappingAdd(l.ly, inc)))
  }

  /** set_lyc */
  function LycSet(l: LcdRegs, b: byte): (r: LcdRegs)
    ensures r.lyc == b && Coincident(r)
  {
    CoincidenceUpdated(l.(lyc := b))
  }

  /** The line setters change only their register and the coincidence bit of STAT. */
  lemma LineSettersFrame(l: LcdRegs, b: byte)
    ensures LySet(l, b) == l.(ly := b, stat := LySet(l, b).stat)
    ensures LyIncremented(l, b) == l.(ly := (l.ly + b) % 0x100, stat := LyIncremented(l, b).stat)
    ensures LycSet(l, b) == l.(lyc := b, stat := LycSet(l, b).stat)
    ensures forall j :: 0 <= j < 8 && j != 2 ==>
      Bit(LySet(l, b).stat, j) == Bit(l.stat, j) && Bit(LycSet(l, b).stat, j) == Bit(l.stat, j)
      && Bit(LyIncremented(l, b).stat, j) == Bit(l.stat, j)
  {
  }

  /** The PPU modes in STAT bits 1-0. */
  const HBlank: nat := 0
  const VBlank: nat := 1
  const OamScan: nat := 2
  const Drawing: nat := 3

  /** reset_ppu_mode (`stat &= 0xFC`) followed by `stat |= mode` for a non-zero mode. */
  function ModeSet(l: LcdRegs, mode: nat): (r: LcdRegs)
    requires mode < 4
    ensures r == l.(stat := r.stat)
  {
    var cleared := And8(l.stat, 0xFC);
    l.(stat := if mode == 0 then cleared else Or8(cleared, mode))
  }

  /** `x & 0xFC` clears bits 1-0 and keeps bits 7-2. */
  lemma ClearedModeBits(x: byte)
    ensures Bit(And8(x, 0xFC), 0) == 0 && Bit(And8(x, 0xFC), 1) == 0
    ensures forall j :: 2 <= j < 8 ==> Bit(And8(x, 0xFC), j) == Bit(x, j)
  {
    assert Bit(0xFC, 0) == 0 && Bit(0xFC, 1) == 0;
    assert Bit(0xFC, 2) == 1 && Bit(0xFC, 3) == 1 && Bit(0xFC, 4) == 1;
    assert Bit(0xFC, 5) == 1 && Bit(0xFC, 6) == 1 && Bit(0xFC, 7) == 1;
  }

  /** Or-ing a mode below 4 into a byte whose bits 1-0 are clear sets bits 1-0 to the mode. */
  lemma ModeOrBits(c: byte, mode: nat)
    requires mode < 4 && Bit(c, 0) == 0 && Bit(c, 1) == 0
    ensures Or8(c, mode) % 4 == mode
    ensures forall j :: 2 <= j < 8 ==> Bit(Or8(c, mode), j) == Bit(c, j)
  {
    Pow2Byte();
    assert Or8(c, mode) % 4 == mode by {
      LowTwoBits(c);
      OrDisjoint(c, mode, 8, 2);
      assert c == 4 * (c / 4);
      DivisionUnique(c + mode, 4, c / 4, mode);
    }
    forall j | 2 <= j < 8
      ensures Bit(mode, j) == 0
    {
      BitAboveWidth(mode, 2, j);
    }
  }

  /** Setting a mode puts it in STAT bits 1-0 and leaves bits 7-2 alone. */
  lemma ModeSetBits(l: LcdRegs, mode: nat)
    requires mode < 4
    ensures ModeSet(l, mode).stat % 4 == mode
    ensures forall j :: 2 <= j < 8 ==> Bit(ModeSet(l, mode).stat, j) == Bit(l.stat, j)
  {
    var c := And8(l.stat, 0xFC);
    ClearedModeBits(l.stat);
    if mode == 0 {
      LowTwoBits(c);
    } else {
      ModeOrBits(c, mode);
    }
  }

  /** One two-bit shade of a palette byte: `(p & (3 << 2i)) >> 2i`. */
  function Shade(p: byte, index: nat): (r: byte)
    requires index < 4
    ensures r < 4
    ensures r == (p / Pow2(2 * index)) % 4
  {
    Pow2Byte();
    match index
    case 0 => p % 4
    case 1 => (p / 4) % 4
    case 2 => (p / 0x10) % 4
    case 3 => p / 0x40
  }

  /** get_bgp_index: any of the four shades; an index above 3 panics. */
  function BgpIndex(l: LcdRegs, index: byte): (r: byte)
    requires index <= 3
    ensures r < 4
  {
    Shade(l.bgp, index)
  }

  /** get_obp0_index: colour 0 is transparent for sprites, so only 1-3 are accepted. */
  function Obp0Index(l: LcdRegs, index: byte): (r: byte)
    requires 1 <= index <= 3
    ensures r < 4
  {
    Shade(l.obp0, index)
  }

  function Obp1Index(l: LcdRegs, index: byte): (r: byte)
    requires 1 <= index <= 3
    ensures r < 4
  {
    Shade(l.obp1, index)
  }

  /** The four shades taken together rebuild the palette byte. */
  lemma ShadesRebuildPalette(p: byte)
    ensures p == Shade(p, 0) + 4 * Shade(p, 1) + 0x10 * Shade(p, 2) + 0x40 * Shade(p, 3)
  {
    var q1, q2, q3 := p / 4, p / 0x10, p / 0x40;
    assert q1 / 4 == q2 && q2 / 4 == q3;
    assert p == p % 4 + 4 * q1;
    assert q1 == q1 % 4 + 4 * q2;
    assert q2 == q2 % 4 + 4 * q3;
    Pow2Byte();
    assert Shade(p, 0) == p % 4 && Shade(p, 1) == q1 % 4;
    assert Shade(p, 2) == q2 % 4 && Shade(p, 3) == q3;
  }

  /** The LCD answers 0xFF40-0xFF4B except 0xFF46, which belongs to DMA; anything else panics. */
  predicate IsRegister(location: u16)
  {
    0xFF40 <= location <= 0xFF4B && location != 0xFF46
  }

  function RegisterValue(l: LcdRegs, location: u16): byte
    requires IsRegister(location)
  {
    match location
    case 0xFF40 => l.lcdc
    case 0xFF41 => l.stat
    case 0xFF42 => l.scy
    case 0xFF43 => l.scx
    case 0xFF44 => l.ly
    case 0xFF45 => l.lyc
    case 0xFF47 => l.bgp
    case 0xFF48 => l.obp0
    case 0xFF49 => l.obp1
    case 0xFF4A => l.wy
    case 0xFF4B => l.wx
  }

  /** write: LY is read-only, and LYC goes through set_lyc. */
  function Written(l: LcdRegs, location: u16, b: byte): (r: LcdRegs)
    requires IsRegister(location)
    ensures location == 0xFF44 ==> r == l
    ensures location == 0xFF45 ==> r == LycSet(l, b)
  {
    match location
    case 0xFF40 => l.(lcdc := b)
    case 0xFF41 => l.(stat := b)
    case 0xFF42 => l.(scy := b)
    case 0xFF43 => l.(scx := b)
    case 0xFF44 => l
    case 0xFF45 => LycSet(l, b)
    case 0xFF47 => l.(bgp := b)
    case 0xFF48 => l.(obp0 := b)
    case 0xFF49 => l.(obp1 := b)
    case 0xFF4A => l.(wy := b)
    case 0xFF4B => l.(wx := b)
  }

  /**
   * Every register but LY reads back the byte written to it, and LY keeps
   * its value; a write leaves the other registers alone, except that a
   * write to LYC updates the coincidence bit of STAT.
   */
  lemma WriteThenRead(l: LcdRegs, location: u16, other: u16, b: byte)
    requires IsRegister(location) && IsRegister(other)
    ensures RegisterValue(Written(l, location, b), location) == if location == 0xFF44 then l.ly else b
    ensures other != location && !(location == 0xFF45 && other == 0xFF41) ==>
      RegisterValue(Written(l, location, b), other) == RegisterValue(l, other)
  {
  }

  class Lcd {
    var lcdc: byte
    var stat: byte
    var scy: byte
    var scx: byte
    var ly: byte
    var lyc: byte
    var bgp: byte
    var obp0: byte
    var obp1: byte
    var wy: byte
    var wx: byte

    function Snapshot(): LcdRegs
      reads this
    {
      LcdRegs(lcdc, stat, scy, scx, ly, lyc, bgp, obp0, obp1, wy, wx)
    }

    constructor ()
      ensures Snapshot() == Initial
    {
      lcdc, stat, scy, scx, ly, lyc := 0x91, 0x85, 0, 0, 0, 0;
      bgp, obp0, obp1, wy, wx := 0xFC, 0, 0, 0, 0;
    }

    method SetLy(b: byte)
      modifies this
      ensures Snapshot() == LySet(old(Snapshot()), b)
    {
      ly := b;
      UpdateCoincidenceFlag();
    }

    method IncLy(inc: byte)
      modifies this
      ensures Snapshot() == LyIncremented(old(Snapshot()), inc)
    {
      ly := WrappingAdd(ly, inc);
      UpdateCoincidenceFlag();
    }

    method SetLyc(b: byte)
      modifies this
      ensures Snapshot() == LycSet(old(Snapshot()), b)
    {
      lyc := b;
      UpdateCoincidenceFlag();
    }

    method UpdateCoincidenceFlag()
      modifies this
      ensures Snapshot() == CoincidenceUpdated(old(Snapshot()))
    {
      if ly == lyc {
        stat := SetBit(stat, 2);
      } else {
        stat := ResetBit(stat, 2);
      }
    }

    method ResetPpuMode()
      modifies this
      ensures Snapshot() == ModeSet(old(Snapshot()), HBlank)
    {
      stat := And8(stat, 0xFC);
    }

    method SetHblankPpuMode()
      modifies this
      ensures Snapshot() == ModeSet(old(Snapshot()), HBlank)
    {
      ResetPpuMode();
    }

    method SetVblankPpuMode()
      modifies this
      ensures Snapshot() == ModeSet(old(Snapshot()), VBlank)
    {
      ResetPpuMode();
      stat := Or8(stat, 0x01);
    }

    method SetOamPpuMode()
      modifies this
      ensures Snapshot() == ModeSet(old(Snapshot()), OamScan)
    {
      ResetPpuMode();
      stat := Or8(stat, 0x02);
    }

    method SetDrawPpuMode()
      modifies this
      ensures Snapshot() == ModeSet(old(Snapshot()), Drawing)
    {
      ResetPpuMode();
      stat := Or8(stat, 0x03);
    }

    /** read: the register at the location; LY and LYC read back whatever the drawing and set_lyc left. */
    function Read(location: u16): (r: byte)
      reads this
      requires IsRegister(location)
      ensures r == RegisterValue(Snapshot(), location)
      ensures location == 0xFF44 ==> r == ly
      ensures location == 0xFF41 ==> r == stat
    {
      match location
      case 0xFF40 => lcdc
      case 0xFF41 => stat
      case 0xFF42 => scy
      case 0xFF43 => scx
      case 0xFF44 => ly
      case 0xFF45 => lyc
      case 0xFF47 => bgp
      case 0xFF48 => obp0
      case 0xFF49 => obp1
      case 0xFF4A => wy
      case 0xFF4B => wx
    }

    method Write(location: u16, b: byte)
      requires IsRegister(location)
      modifies this
      ensures Snapshot() == Written(old(Snapshot()), location, b)
    {
      match location {
        case 0xFF40 => lcdc := b;
        case 0xFF41 => stat := b;
        case 0xFF42 => scy := b;
        case 0xFF43 => scx := b;
        case 0xFF44 =>
        case 0xFF45 => SetLyc(b);
        case 0xFF47 => bgp := b;
        case 0xFF48 => obp0 := b;
        case 0xFF49 => obp1 := b;
        case 0xFF4A => wy := b;
        case 0xFF4B => wx := b;
      }
    }
  }
}
