/**
 * Object attribute memory, 0xFE00-0xFE9F: forty sprites of four bytes
 * each (y, x, tile number, flags).
 */
module Oam {
  import opened Bits
  import opened Generic

  datatype Sprite = Sprite(
    yPosition: byte, xPosition: byte, tileNo: byte,
    priority: bool, yFlip: bool, xFlip: bool, palette: bool)

  const Start: u16 := 0xFE00
  const End: u16 := 0xFE9F

  /** The sprite the four attribute bytes describe; the flags are bits 7, 6, 5 and 4 of the last. */
  function SpriteOf(y: byte, x: byte, tile: byte, flags: byte): Sprite
  {
    Pow2Byte();
    Sprite(y, x, tile, And8(flags, 0x80) != 0, And8(flags, 0x40) != 0, And8(flags, 0x20) != 0, And8(flags, 0x10) != 0)
  }

  /** Each flag is one bit of the flags byte, read through its mask. */
  lemma FlagBits(y: byte, x: byte, tile: byte, flags: byte)
    ensures var s := SpriteOf(y, x, tile, flags);
      && s.yPosition == y && s.xPosition == x && s.tileNo == tile
      && (s.priority <==> Bit(flags, 7) == 1) && (s.yFlip <==> Bit(flags, 6) == 1)
      && (s.xFlip <==> Bit(flags, 5) == 1) && (s.palette <==> Bit(flags, 4) == 1)
  {
    Pow2Byte();
    MaskTest(flags, 7);
    MaskTest(flags, 6);
    MaskTest(flags, 5);
    MaskTest(flags, 4);
  }

  function Flag(b: bool): nat
  {
    if b then 1 else 0
  }

  /** The flags byte that stores a sprite's four flags, with bits 3-0 clear. */
  function FlagsByte(s: Sprite): (r: byte)
    ensures r % 0x10 == 0
  {
    0x80 * Flag(s.priority) + 0x40 * Flag(s.yFlip) + 0x20 * Flag(s.xFlip) + 0x10 * Flag(s.palette)
  }

  /** Bits 7-4 of the flags byte are the four flags, in order. */
  lemma FlagsByteBits(p: nat, y: nat, x: nat, q: nat)
    requires p <= 1 && y <= 1 && x <= 1 && q <= 1
    ensures var f := 0x80 * p + 0x40 * y + 0x20 * x + 0x10 * q;
      Bit(f, 7) == p && Bit(f, 6) == y && Bit(f, 5) == x && Bit(f, 4) == q
  {
    var f := 0x80 * p + 0x40 * y + 0x20 * x + 0x10 * q;
    Pow2Byte();
    BitAsDivision(f, 7);
    BitAsDivision(f, 6);
    BitAsDivision(f, 5);
    BitAsDivision(f, 4);
    DivisionUnique(f, 0x80, p, 0x40 * y + 0x20 * x + 0x10 * q);
    DivisionUnique(f, 0x40, 2 * p + y, 0x20 * x + 0x10 * q);
    DivisionUnique(f, 0x20, 4 * p + 2 * y + x, 0x10 * q);
    DivisionUnique(f, 0x10, 8 * p + 4 * y + 2 * x + q, 0);
  }

  /** Decoding the bytes a sprite is stored as gives the sprite back. */
  lemma DecodeEncoded(s: Sprite)
    ensures SpriteOf(s.yPosition, s.xPosition, s.tileNo, FlagsByte(s)) == s
  {
    FlagBits(s.yPosition, s.xPosition, s.tileNo, FlagsByte(s));
    FlagsByteBits(Flag(s.priority), Flag(s.yFlip), Flag(s.xFlip), Flag(s.palette));
  }

  /** get_sprite over the 0xA0 bytes of OAM. */
  function SpriteAt(mem: seq<byte>, id: nat): Sprite
    requires |mem| == 0xA0 && id <= 39
  {
    SpriteOf(mem[4 * id], mem[4 * id + 1], mem[4 * id + 2], mem[4 * id + 3])
  }

  /** The OAM bytes with sprite `id`'s four bytes replaced by those of `s`. */
  function Placed(mem: seq<byte>, id: nat, s: Sprite): (r: seq<byte>)
    requires |mem| == 0xA0 && id <= 39
    ensures |r| == 0xA0
  {
    mem[4 * id := s.yPosition][4 * id + 1 := s.xPosition][4 * id + 2 := s.tileNo][4 * id + 3 := FlagsByte(s)]
  }

  /** Storing a sprite and reading it back gives the sprite; the other 39 are untouched. */
  lemma PlacedThenRead(mem: seq<byte>, id: nat, other: nat, s: Sprite)
    requires |mem| == 0xA0 && id <= 39 && other <= 39
    ensures SpriteAt(Placed(mem, id, s), id) == s
    ensures other != id ==> SpriteAt(Placed(mem, id, s), other) == SpriteAt(mem, other)
  {
    DecodeEncoded(s);
  }

  class Oam {
    const mem: GenericAddressable

    predicate Valid()
      reads this, mem
    {
      mem.Valid() && mem.start == Start && mem.end == End
    }

    constructor ()
      ensures Valid() && fresh(mem) && mem.memory == seq(0xA0, _ => 0)
    {
      mem := new GenericAddressable(0xFE00, 0xFE9F);
    }

    /** get_sprite: an id above 39 panics. */
    function GetSprite(spriteId: byte): (s: Sprite)
      reads this, mem
      requires Valid() && spriteId <= 39
      ensures s == SpriteAt(mem.memory, spriteId)
    {
      var spriteStart: u16 := 0xFE00 + 4 * spriteId;
      SpriteOf(mem.Read(spriteStart), mem.Read(spriteStart + 1), mem.Read(spriteStart + 2), mem.Read(spriteStart + 3))
    }

    /** read: the byte of the sprite table at location - 0xFE00. */
    function Read(location: u16): (r: byte)
      reads this, mem
      requires Valid() && mem.InRange(location)
      ensures r == mem.memory[location - Start]
    {
      mem.Read(location)
    }

    /** fake_read is read under another name. */
    function FakeRead(location: u16): (r: byte)
      reads this, mem
      requires Valid() && mem.InRange(location)
      ensures r == Read(location) && r == mem.memory[location - Start]
    {
      mem.Read(location)
    }

    method Write(location: u16, b: byte)
      requires Valid() && mem.InRange(location)
      modifies mem
      ensures Valid() && mem.memory == old(mem.memory)[location - Start := b]
    {
      mem.Write(location, b);
    }
  }
}
