/**
 * The sprite pixel fetcher: the same four stages as the background
 * fetcher, for the one sprite the pixel processing unit hands it each
 * tick. It picks the sprite's tile (the upper or lower half of an 8x16
 * sprite), reads the two bit planes of the sprite's row, and merges the
 * row's visible pixels into the sprite FIFO. `done` is set by the tick that
 * pushed.
 */
module SpriteFetch {
  import opened Bits
  import opened Wrappers
  import opened Pixels
  import Ring
  import MergeFifo
  import Lcd
  import Tiles
  import Mmu
  import Oam

  datatype SpriteState = SpriteState(
    fifo: Ring.RingState, state: FetchState, tileNo: byte, dataStartAdd: u16,
    dataLow: byte, dataHigh: byte, ready: bool, done: bool)

  /** new: an empty 8-pixel FIFO, stage FetchNo, every field zero, and done. */
  function New(): (f: SpriteState)
    ensures ValidState(f) && Ring.Queue(f.fifo) == [] && f.done
  {
    SpriteState(Ring.Empty(8), FetchNo, 0, 0, 0, 0, false, true)
  }

  predicate ValidState(f: SpriteState)
  {
    Ring.Valid(f.fifo) && f.fifo.capacity == 8
  }

  /** The stage after each stage, once it has done its work. */
  function NextState(s: FetchState): FetchState
  {
    match s
    case FetchNo => FetchDataLow
    case FetchDataLow => FetchDataHigh
    case FetchDataHigh => Push
    case Push => FetchNo
  }

  /**
   * The u8 arithmetic of fetch_no for an 8x16 sprite does not overflow:
   * `ly + 16` fits, the sprite's y is at most that, and when flipped the
   * line counted from the sprite's top is at most 15.
   */
  predicate LineInRange(l: Lcd.LcdRegs, sp: Oam.Sprite)
  {
    && l.ly + 16 < 0x100 && sp.yPosition <= l.ly + 16
    && (sp.yFlip ==> l.ly + 16 - sp.yPosition <= 15)
  }

  /** The u8 additions of fetch_no and push that would overflow are excluded. */
  predicate CanTick(f: SpriteState, l: Lcd.LcdRegs, sp: Oam.Sprite)
  {
    && (f.state == FetchNo && f.ready && Lcd.SpriteSize(l) == 16 ==> LineInRange(l, sp))
    && (f.state == Push ==> sp.xPosition + 7 < 0x100)
  }

  /** The line of an 8x16 sprite on screen line ly, counted from the top, or from the bottom when flipped. */
  function SpriteLine(l: Lcd.LcdRegs, sp: Oam.Sprite): (r: byte)
    requires LineInRange(l, sp)
    ensures !sp.yFlip ==> r + sp.yPosition == l.ly + 16
    ensures sp.yFlip ==> r + (l.ly + 16 - sp.yPosition) == 15
  {
    if sp.yFlip then 15 - ((l.ly + 16) - sp.yPosition) else (l.ly + 16) - sp.yPosition
  }

  /** `x | 0x01` and `x & 0xFE` set and clear bit 0, keeping the other seven. */
  lemma LowBit(x: byte)
    ensures Or8(x, 0x01) == 2 * (x / 2) + 1
    ensures And8(x, 0xFE) == 2 * (x / 2)
  {
    Pow2Byte();
    assert Pow2(0) == 1;
    assert Or8(x, 0x01) == SetBit(x, 0);
    assert And8(x, 0xFE) == ResetBit(x, 0);
    SetBitArith(x, 0);
    ResetBitArith(x, 0);
  }

  /**
   * fetch_no: the tile of an 8x8 sprite is its own; an 8x16 sprite's tile
   * number with bit 0 cleared is the upper tile and with bit 0 set the lower,
   * chosen by the line.
   */
  function SpriteTile(l: Lcd.LcdRegs, sp: Oam.Sprite): (t: byte)
    requires Lcd.SpriteSize(l) == 16 ==> LineInRange(l, sp)
    ensures Lcd.SpriteSize(l) != 16 ==> t == sp.tileNo
    ensures Lcd.SpriteSize(l) == 16 ==> t / 2 == sp.tileNo / 2 && (t % 2 == 1 <==> SpriteLine(l, sp) > 7)
  {
    LowBit(sp.tileNo);
    if Lcd.SpriteSize(l) == 16 then
      if SpriteLine(l, sp) > 7 then Or8(sp.tileNo, 0x01) else And8(sp.tileNo, 0xFE)
    else
      sp.tileNo
  }

  /** Adding multiples of 8 does not change a remainder modulo 8. */
  lemma ModEight(a: int, q: int)
    ensures (a + 8 * q) % 8 == a % 8
  {
  }

  /** `ly - (y - 16)` with the u8 and u16 wrap-arounds: the line counted from the sprite's top, modulo 8. */
  lemma WrappedLine(ly: byte, y: byte)
    ensures ((ly - (y - 16) % 0x100) % 0x1_0000) % 8 == (ly + 16 - y) % 8
  {
    var e := ly + 16 - y;
    var top := (y - 16) % 0x100;
    if y >= 16 {
      assert top == y - 16;
    } else {
      assert top == y + 240;
    }
    var diff := ly - top;
    var d := diff % 0x1_0000;
    if diff >= 0 {
      assert d == diff;
    } else {
      assert d == diff + 0x1_0000;
    }
    ModEight(e, (d - e) / 8);
  }

  /** `7 - d` with the u16 wrap-around, modulo 8, counts d's remainder from the other end. */
  lemma WrappedFlip(d: int)
    requires 0 <= d < 0x1_0000
    ensures ((7 - d) % 0x1_0000) % 8 == 7 - d % 8
  {
    var w := (7 - d) % 0x1_0000;
    if d <= 7 {
      assert w == 7 - d;
    } else {
      assert w == 7 - d + 0x1_0000;
    }
    ModEight(7 - d % 8, (w - (7 - d % 8)) / 8);
  }

  /**
   * get_tile_data_start_address's line index: `ly - (y - 16)` in u16
   * wrap-around arithmetic, modulo 8, or 7 minus it when the sprite is
   * flipped. The wrap-arounds never show: it is the line counted from the
   * sprite's top modulo 8, or that line counted from the bottom.
   */
  function LineIndex(l: Lcd.LcdRegs, sp: Oam.Sprite): (r: nat)
    ensures r < 8
    ensures !sp.yFlip ==> r == (l.ly + 16 - sp.yPosition) % 8
    ensures sp.yFlip ==> r == 7 - (l.ly + 16 - sp.yPosition) % 8
  {
    var d := (l.ly - (sp.yPosition - 16) % 0x100) % 0x1_0000;
    WrappedLine(l.ly, sp.yPosition);
    WrappedFlip(d);
    if sp.yFlip then ((7 - d) % 0x1_0000) % 8 else d % 8
  }

  /** The tile's row: 0x8000 plus 16 bytes per tile, plus two bytes per line. */
  function TileRowAddress(l: Lcd.LcdRegs, tileNo: byte, sp: Oam.Sprite): (a: u16)
    ensures a - 2 * LineIndex(l, sp) == 0x8000 + 16 * tileNo
    ensures 0x8000 + 16 * tileNo <= a < 0x8000 + 16 * tileNo + 16
    ensures 0x8000 <= a <= 0x8FFE
  {
    ModUnique(0x8000 + tileNo * 16, 0x1_0000, 0, 0x8000 + tileNo * 16);
    (0x8000 + tileNo * 16) % 0x1_0000 + 2 * LineIndex(l, sp)
  }

  /**
   * The two tiles of an 8x16 sprite hold its sixteen rows in order: the
   * row fetched for a sprite covering line ly is row `ly + 16 - y` of the
   * pair (row `15 - (ly + 16 - y)` when flipped), at two bytes a row.
   */
  lemma TallSpriteRow(l: Lcd.LcdRegs, sp: Oam.Sprite)
    requires Lcd.SpriteSize(l) == 16 && LineInRange(l, sp) && l.ly + 16 - sp.yPosition < 16
    ensures var row := if sp.yFlip then 15 - (l.ly + 16 - sp.yPosition) else l.ly + 16 - sp.yPosition;
      TileRowAddress(l, SpriteTile(l, sp), sp) == 0x8000 + 32 * (sp.tileNo / 2) + 2 * row
  {
    var t := SpriteTile(l, sp);
    var e := l.ly + 16 - sp.yPosition;
    var half := sp.tileNo / 2;
    if e < 8 {
      ModUnique(e, 8, 0, e);
      assert t == 2 * half + (if sp.yFlip then 1 else 0);
      assert LineIndex(l, sp) == if sp.yFlip then 7 - e else e;
    } else {
      ModUnique(e, 8, 1, e - 8);
      assert t == 2 * half + (if sp.yFlip then 0 else 1);
      assert LineIndex(l, sp) == if sp.yFlip then 15 - e else e - 8;
    }
  }

  /** An 8x8 sprite covering line ly: its own tile, at row `ly + 16 - y`, or `7 - (ly + 16 - y)` when flipped. */
  lemma SmallSpriteRow(l: Lcd.LcdRegs, sp: Oam.Sprite)
    requires Lcd.SpriteSize(l) != 16 && sp.yPosition <= l.ly + 16 < sp.yPosition + 8
    ensures var row := if sp.yFlip then 7 - (l.ly + 16 - sp.yPosition) else l.ly + 16 - sp.yPosition;
      TileRowAddress(l, SpriteTile(l, sp), sp) == 0x8000 + 16 * sp.tileNo + 2 * row
  {
    var e := l.ly + 16 - sp.yPosition;
    ModUnique(e, 8, 0, e);
  }

  /** The tile rows a sprite fetcher reads are in video RAM, where the memory map's read returns the stored byte. */
  lemma VramRead(m: Mmu.MmuState, location: u16)
    requires Mmu.WellSized(m) && 0x8000 <= location <= 0x9FFF
    ensures Mmu.CanRead(m, location) && Mmu.ReadValue(m, location) == m.vram[location - 0x8000]
  {
  }

  /** The columns of the sprite left of the screen edge, which push skips: those with `x + column < 8`. */
  function Skipped(sp: Oam.Sprite): (n: nat)
    ensures n <= 8
    ensures sp.xPosition >= 8 ==> n == 0
    ensures sp.xPosition < 8 ==> sp.xPosition + n == 8
  {
    if sp.xPosition >= 8 then 0 else 8 - sp.xPosition
  }

  /** The pixel for column j of the sprite: bit 7 - j of the planes, or bit j when flipped horizontally. */
  function SpritePixel(low: byte, high: byte, sp: Oam.Sprite, j: nat): (p: Pixel)
    requires j < 8
    ensures p.palette == (if sp.palette then Obp1 else Obp0) && !p.priority && p.bgPriority == sp.priority
  {
    Pixel(Tiles.ColorAt(low, high, if sp.xFlip then j else 7 - j), if !sp.palette then Obp0 else Obp1, false, sp.priority)
  }

  /** The pixels push merges into the FIFO: the sprite's visible columns, leftmost first. */
  function SpriteRow(low: byte, high: byte, sp: Oam.Sprite): (ps: seq<Pixel>)
    ensures |ps| == 8 - Skipped(sp) && |ps| <= 8
  {
    seq(8 - Skipped(sp), k requires 0 <= k < 8 - Skipped(sp) => SpritePixel(low, high, sp, Skipped(sp) + k))
  }

  /**
   * A sprite wholly on screen pushes its eight colours as the tile row
   * decodes them; flipped horizontally, the same colours in reverse order.
   */
  lemma RowColorsFlip(low: byte, high: byte, sp: Oam.Sprite)
    requires sp.xPosition >= 8
    ensures var plain := SpriteRow(low, high, sp.(xFlip := false));
      forall k :: 0 <= k < 8 ==> plain[k].color == Tiles.RowColors(low, high)[k]
    ensures var plain := SpriteRow(low, high, sp.(xFlip := false));
      var flipped := SpriteRow(low, high, sp.(xFlip := true));
      forall k :: 0 <= k < 8 ==> flipped[k].color == plain[7 - k].color
  {
    var plain := SpriteRow(low, high, sp.(xFlip := false));
    var flipped := SpriteRow(low, high, sp.(xFlip := true));
    forall k | 0 <= k < 8
      ensures plain[k].color == Tiles.RowColors(low, high)[k] && flipped[k].color == plain[7 - k].color
    {
      assert plain[k] == SpritePixel(low, high, sp.(xFlip := false), k);
      assert flipped[k] == SpritePixel(low, high, sp.(xFlip := true), k);
      assert plain[7 - k] == SpritePixel(low, high, sp.(xFlip := false), 7 - k);
    }
  }

  /** Column j of the sprite, whose colour is bit `exp` of the planes, is element `j - Skipped` of the pushed row. */
  lemma RowPixelAt(low: byte, high: byte, sp: Oam.Sprite, j: nat, exp: nat)
    requires Skipped(sp) <= j < 8 && exp == if sp.xFlip then j else 7 - j
    ensures j - Skipped(sp) < |SpriteRow(low, high, sp)|
    ensures SpriteRow(low, high, sp)[j - Skipped(sp)] ==
      Pixel(Tiles.ColorAt(low, high, exp), if !sp.palette then Obp0 else Obp1, false, sp.priority)
  {
    assert SpriteRow(low, high, sp)[j - Skipped(sp)] == SpritePixel(low, high, sp, j);
  }

  /** fetch_no: pick the tile for the sprite's line. */
  function FetchedNo(f: SpriteState, l: Lcd.LcdRegs, sp: Oam.Sprite): (r: SpriteState)
    requires ValidState(f) && (Lcd.SpriteSize(l) == 16 ==> LineInRange(l, sp))
    ensures ValidState(r)
  {
    f.(tileNo := SpriteTile(l, sp), state := FetchDataLow, ready := false)
  }

  /** fetch_data_low: read the low plane of the sprite's row. */
  function FetchedLow(f: SpriteState, m: Mmu.MmuState, sp: Oam.Sprite): (r: SpriteState)
    requires ValidState(f) && Mmu.WellSized(m)
    ensures ValidState(r)
  {
    var a := TileRowAddress(m.io.lcd, f.tileNo, sp);
    VramRead(m, a);
    f.(dataLow := Mmu.ReadValue(m, a), state := FetchDataHigh, ready := false)
  }

  /** fetch_data_high: work the row address out again and read the high plane from the byte after it. */
  function FetchedHigh(f: SpriteState, m: Mmu.MmuState, sp: Oam.Sprite): (r: SpriteState)
    requires ValidState(f) && Mmu.WellSized(m)
    ensures ValidState(r)
  {
    var a := TileRowAddress(m.io.lcd, f.tileNo, sp) + 1;
    VramRead(m, a);
    f.(dataHigh := Mmu.ReadValue(m, a), state := Push, ready := false)
  }

  /** push: a clear that rewinds the FIFO, then a merging push of each visible pixel. */
  function Pushed(f: SpriteState, sp: Oam.Sprite): (r: SpriteState)
    requires ValidState(f) && sp.xPosition + 7 < 0x100
    ensures ValidState(r)
  {
    MergeFifo.RewindToPop(f.fifo);
    f.(fifo := MergeFifo.MergePushedAll(MergeFifo.Rewound(f.fifo), SpriteRow(f.dataLow, f.dataHigh, sp)),
       state := FetchNo, ready := false)
  }

  /**
   * A push leaves one queued pixel per visible column, and the first of
   * them is merged over the pixel that was at the front of the queue.
   */
  lemma PushMerges(f: SpriteState, sp: Oam.Sprite)
    requires ValidState(f) && sp.xPosition + 7 < 0x100
    ensures |Ring.Queue(Pushed(f, sp).fifo)| == 8 - Skipped(sp)
    ensures var row := SpriteRow(f.dataLow, f.dataHigh, sp);
      f.fifo.len > 0 && |row| > 0 ==> Ring.Queue(Pushed(f, sp).fifo)[0] == MergeFifo.Merged(Ring.Queue(f.fifo)[0], row[0])
  {
    MergeFifo.ClearThenPushAllMerges(f.fifo, SpriteRow(f.dataLow, f.dataHigh, sp));
  }

  /** The work of a ready fetching stage. */
  function Staged(f: SpriteState, m: Mmu.MmuState, sp: Oam.Sprite): (r: SpriteState)
    requires ValidState(f) && Mmu.WellSized(m) && f.ready && f.state != Push && CanTick(f, m.io.lcd, sp)
    ensures ValidState(r)
  {
    match f.state
    case FetchNo => FetchedNo(f, m.io.lcd, sp)
    case FetchDataLow => FetchedLow(f, m, sp)
    case FetchDataHigh => FetchedHigh(f, m, sp)
  }

  /** tick as written: the stage runs, and then ready is set whatever the stage left in it. */
  function TickedAsWritten(f: SpriteState, m: Mmu.MmuState, sp: Oam.Sprite): (r: SpriteState)
    requires ValidState(f) && Mmu.WellSized(m) && CanTick(f, m.io.lcd, sp)
    ensures ValidState(r)
  {
    var g := f.(done := false);
    (if f.state == Push then Pushed(g, sp).(done := true)
     else if f.ready then Staged(g, m, sp)
     else g).(ready := true)
  }

  /**
   * tick: push runs at once and marks the fetcher done; a fetching stage
   * runs if ready, and otherwise the tick only makes the fetcher ready.
   */
  function Ticked(f: SpriteState, m: Mmu.MmuState, sp: Oam.Sprite): (r: SpriteState)
    requires ValidState(f) && Mmu.WellSized(m) && CanTick(f, m.io.lcd, sp)
    ensures ValidState(r)
  {
    var g := f.(done := false);
    if f.state == Push then Pushed(g, sp).(done := true)
    else if f.ready then Staged(g, m, sp)
    else g.(ready := true)
  }

  /**
   * done is set exactly by the tick that pushed; each fetching stage takes
   * two ticks, a waiting one and a working one, and push takes one.
   */
  lemma TickProtocol(f: SpriteState, m: Mmu.MmuState, sp: Oam.Sprite)
    requires ValidState(f) && Mmu.WellSized(m) && CanTick(f, m.io.lcd, sp)
    ensures Ticked(f, m, sp).done <==> f.state == Push
    ensures TickedAsWritten(f, m, sp).done <==> f.state == Push
    ensures f.state != Push && !f.ready ==> Ticked(f, m, sp) == f.(done := false, ready := true)
    ensures f.state != Push && f.ready ==> !Ticked(f, m, sp).ready && Ticked(f, m, sp).state == NextState(f.state)
    ensures f.state == Push ==> !Ticked(f, m, sp).ready && Ticked(f, m, sp).state == FetchNo
  {
  }

  /** A fetcher that is ready in FetchNo: the first tick of a sprite. */
  predicate StartsSprite(f: SpriteState, m: Mmu.MmuState, sp: Oam.Sprite)
  {
    ValidState(f) && Mmu.WellSized(m) && f.state == FetchNo && f.ready && CanTick(f, m.io.lcd, sp)
  }

  /**
   * As written, the final `ready = true` of tick undoes the `ready = false`
   * of the stage just run, so the sprite is pushed by the fourth tick,
   * where the two-tick protocol is still waiting in FetchDataHigh.
   */
  lemma ReadyOverwrittenAsWritten(f: SpriteState, m: Mmu.MmuState, sp: Oam.Sprite)
    requires StartsSprite(f, m, sp) && sp.xPosition + 7 < 0x100
    ensures var w1 := TickedAsWritten(f, m, sp);
      var w2 := TickedAsWritten(w1, m, sp);
      var w3 := TickedAsWritten(w2, m, sp);
      w1.ready && w3.state == Push && TickedAsWritten(w3, m, sp).done
    ensures var c1 := Ticked(f, m, sp);
      var c2 := Ticked(c1, m, sp);
      var c3 := Ticked(c2, m, sp);
      !c1.ready && c3.state == FetchDataHigh && !Ticked(c3, m, sp).done
  {
  }

  /** reset: every field back to its new() value; the FIFO is fully cleared. */
  function AfterReset(f: SpriteState): (r: SpriteState)
    requires ValidState(f)
    ensures ValidState(r)
  {
    MergeFifo.RewindToPop(f.fifo);
    New().(fifo := MergeFifo.FullCleared(f.fifo))
  }

  /**
   * A reset fetcher behaves as a new one: the same fields, nothing queued,
   * and no old pixel left for the next push to merge with.
   */
  lemma ResetForgets(f: SpriteState, p: Pixel)
    requires ValidState(f)
    ensures AfterReset(f).(fifo := New().fifo) == New()
    ensures Ring.Queue(AfterReset(f).fifo) == [] && Ring.Queue(MergeFifo.MergePushed(AfterReset(f).fifo, p)) == [Some(p)]
  {
    MergeFifo.FullClearForgets(f.fifo, p);
  }

  class SpriteFetcher {
    const fifo: MergeFifo.MergePixelFifo
    var state: FetchState
    var tileNo: byte
    var dataStartAdd: u16
    var dataLow: byte
    var dataHigh: byte
    var ready: bool
    var done: bool

    function Snapshot(): SpriteState
      reads this, fifo, fifo.buffer
    {
      SpriteState(fifo.Snapshot(), state, tileNo, dataStartAdd, dataLow, dataHigh, ready, done)
    }

    predicate Valid()
      reads this, fifo, fifo.buffer
    {
      ValidState(Snapshot())
    }

    /** new */
    constructor ()
      ensures Valid() && Snapshot() == New() && fresh(fifo) && fresh(fifo.buffer)
    {
      fifo := new MergeFifo.MergePixelFifo(8);
      state := FetchNo;
      tileNo := 0;
      dataStartAdd := 0;
      dataLow := 0;
      dataHigh := 0;
      ready := false;
      done := true;
    }

    /** shift: the next sprite pixel. */
    method Shift() returns (p: Option<Pixel>)
      requires Valid()
      modifies fifo, fifo.buffer
      ensures Valid() && (Snapshot().fifo, p) == Ring.Shifted(old(Snapshot()).fifo)
      ensures Snapshot() == old(Snapshot()).(fifo := Snapshot().fifo)
    {
      Ring.ShiftKeepsValid(fifo.Snapshot());
      p := fifo.Shift();
    }

    /** tick, for the sprite being fetched. */
    method Tick(mmu: Mmu.Mmu, sprite: Oam.Sprite)
      requires Valid() && mmu.Valid() && CanTick(Snapshot(), mmu.Snapshot().io.lcd, sprite)
      modifies this, fifo, fifo.buffer
      ensures Valid() && Snapshot() == Ticked(old(Snapshot()), old(mmu.Snapshot()), sprite)
    {
      mmu.io.ValidIsWellSized();
      ghost var m := mmu.Snapshot();
      var lcd := mmu.io.lcd.Snapshot();
      done := false;
      if state == Push {
        PushRow(sprite);
        done := true;
      } else if ready {
        Stage(mmu, lcd, sprite, m);
      } else {
        ready := true;
      }
    }

    /** The fetching stage a ready tick runs. */
    method Stage(mmu: Mmu.Mmu, lcd: Lcd.LcdRegs, sprite: Oam.Sprite, ghost m: Mmu.MmuState)
      requires Valid() && mmu.Valid() && m == mmu.Snapshot() && Mmu.WellSized(m) && lcd == m.io.lcd
      requires ready && state != Push && CanTick(Snapshot(), lcd, sprite)
      modifies this
      ensures Valid() && Snapshot() == Staged(old(Snapshot()), m, sprite)
    {
      match state
      case FetchNo => FetchTileNo(lcd, sprite);
      case FetchDataLow => FetchLow(mmu, lcd, sprite, m);
      case FetchDataHigh => FetchHigh(mmu, lcd, sprite, m);
    }

    method FetchTileNo(lcd: Lcd.LcdRegs, sprite: Oam.Sprite)
      requires Valid() && (Lcd.SpriteSize(lcd) == 16 ==> LineInRange(lcd, sprite))
      modifies this
      ensures Valid() && Snapshot() == FetchedNo(old(Snapshot()), lcd, sprite)
    {
      tileNo := SpriteTile(lcd, sprite);
      state := FetchDataLow;
      ready := false;
    }

    method FetchLow(mmu: Mmu.Mmu, lcd: Lcd.LcdRegs, sprite: Oam.Sprite, ghost m: Mmu.MmuState)
      requires Valid() && mmu.Valid() && m == mmu.Snapshot() && Mmu.WellSized(m) && lcd == m.io.lcd
      modifies this
      ensures Valid() && Snapshot() == FetchedLow(old(Snapshot()), m, sprite)
    {
      var a := TileRowAddress(lcd, tileNo, sprite);
      VramRead(m, a);
      var b := mmu.Read(a);
      dataLow := b;
      state := FetchDataHigh;
      ready := false;
    }

    method FetchHigh(mmu: Mmu.Mmu, lcd: Lcd.LcdRegs, sprite: Oam.Sprite, ghost m: Mmu.MmuState)
      requires Valid() && mmu.Valid() && m == mmu.Snapshot() && Mmu.WellSized(m) && lcd == m.io.lcd
      modifies this
      ensures Valid() && Snapshot() == FetchedHigh(old(Snapshot()), m, sprite)
    {
      var a := TileRowAddress(lcd, tileNo, sprite) + 1;
      VramRead(m, a);
      var b := mmu.Read(a);
      dataHigh := b;
      state := Push;
      ready := false;
    }

    /** push: clear, merge the visible pixels in, and go back to FetchNo. */
    method PushRow(sprite: Oam.Sprite)
      requires Valid() && sprite.xPosition + 7 < 0x100
      modifies this, fifo, fifo.buffer
      ensures Valid() && Snapshot() == Pushed(old(Snapshot()), sprite)
    {
      ghost var f0 := Snapshot();
      MergeFifo.RewindToPop(fifo.Snapshot());
      fifo.Clear();
      PushPixels(sprite);
      ghost var pushed := fifo.Snapshot();
      state := FetchNo;
      ready := false;
      assert fifo.Snapshot() == pushed;
      assert Snapshot() == f0.(fifo := pushed, state := FetchNo, ready := false);
    }

    /** The loop of push: for i from 7 down to 0, the pixel of column 7 - i when `x + (7 - i) >= 8`. */
    method PushPixels(sprite: Oam.Sprite)
      requires fifo.Valid() && sprite.xPosition + 7 < 0x100
      modifies fifo, fifo.buffer
      ensures fifo.Valid()
      ensures fifo.Snapshot() == MergeFifo.MergePushedAll(old(fifo.Snapshot()), SpriteRow(dataLow, dataHigh, sprite))
    {
      ghost var s0 := fifo.Snapshot();
      var low, high := dataLow, dataHigh;
      ghost var row := SpriteRow(low, high, sprite);
      ghost var skip := Skipped(sprite);
      for j := 0 to 8
        invariant fifo.Valid()
        invariant fifo.Snapshot() == MergeFifo.MergePushedAll(s0, row[..if j <= skip then 0 else j - skip])
      {
        var i := 7 - j;
        if sprite.xPosition + (7 - i) >= 8 {
          var exp := if sprite.xFlip then 7 - i else i;
          var pixel := Pixel(Tiles.ColorAt(low, high, exp), if !sprite.palette then Obp0 else Obp1, false, sprite.priority);
          RowPixelAt(low, high, sprite, j, exp);
          MergeFifo.MergePushedAllPrefix(s0, row, j - skip);
          fifo.Push(pixel);
        }
      }
      assert row[..8 - skip] == row;
    }

    /** reset */
    method Reset()
      requires Valid()
      modifies this, fifo, fifo.buffer
      ensures Valid() && Snapshot() == AfterReset(old(Snapshot()))
    {
      fifo.FullClear();
      state := FetchNo;
      tileNo := 0;
      dataStartAdd := 0;
      dataLow := 0;
      dataHigh := 0;
      ready := false;
      done := true;
    }
  }
}
