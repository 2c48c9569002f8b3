/**
 * The background/window pixel fetcher: a four-stage state machine that
 * reads a tile number from the tile map, the two bit planes of one row of
 * that tile, and pushes the row's eight pixels into the background FIFO.
 * Each stage waits one tick for `ready` before it runs.
 */
module BgFetch {
  import opened Bits
  import opened Wrappers
  import opened Pixels
  import Ring
  import StandardFifo
  import Lcd
  import Tiles
  import Mmu

  datatype BgState = BgState(
    fifo: Ring.RingState, state: FetchState, tileNo: byte, dataStartAdd: u16,
    dataLow: byte, dataHigh: byte, xCounter: byte, window: bool, ready: bool)

  /** new: an empty 8-pixel FIFO, stage FetchNo, every field zero. */
  function New(): (f: BgState)
    ensures ValidState(f) && Ring.Queue(f.fifo) == []
  {
    BgState(Ring.Empty(8), FetchNo, 0, 0, 0, 0, 0, false, false)
  }

  /** The FIFO holds 8 pixels, and a FetchDataHigh stage reads a tile row inside the tile data area. */
  predicate ValidState(f: BgState)
  {
    && Ring.Valid(f.fifo) && f.fifo.capacity == 8
    && (f.state == FetchDataHigh ==> 0x8000 <= f.dataStartAdd <= 0x97FE)
  }

  /** The stage after each stage, once it has done its work. */
  function NextState(s: FetchState): FetchState
  {
    match s
    case FetchNo => FetchDataLow
    case FetchDataLow => FetchDataHigh
    case FetchDataHigh => Push
    case Push => FetchNo
  }

  /** The u8 additions of fetch_no and push that would overflow are excluded. */
  predicate CanTick(f: BgState, l: Lcd.LcdRegs)
  {
    f.ready ==>
      match f.state
      case FetchNo => f.window || f.xCounter + l.scx / 8 < 0x100
      case Push => f.fifo.len == 0 ==> f.xCounter < 0xFF
      case _ => true
  }

  /** The masks `& 0x1f`, `& 0xFF` and `& 0x3ff` of fetch_no are remainders. */
  lemma MasksAreRemainders(column: byte, line: u16, offset: u16)
    ensures Pow2(8) == 0x100 && Pow2(16) == 0x1_0000
    ensures And(column, 0x1F, 8) == column % 32
    ensures And(line, 0xFF, 16) == line % 0x100
    ensures And(offset, 0x3FF, 16) == offset % 0x400
  {
    Pow2Byte();
    AndLowMask(column, 8, 5);
    AndLowMask(line, 16, 8);
    Pow2Increasing(10, 16);
    assert Pow2(10) == 0x400;
    AndLowMask(offset, 16, 10);
  }

  /** The tile map fetch_no reads: the window's or the background's, 32x32 tiles each. */
  function MapBase(l: Lcd.LcdRegs, window: bool): (base: u16)
    ensures base == 0x9800 || base == 0x9C00
  {
    if window then Lcd.WindowTileMap(l) else Lcd.BgTileMap(l)
  }

  /** The tile column: x_counter, plus the scroll `scx / 8` for the background, wrapping at 32 tiles. */
  function MapColumn(l: Lcd.LcdRegs, xCounter: byte, window: bool): nat
    requires window || xCounter + l.scx / 8 < 0x100
  {
    if window then xCounter else (xCounter + l.scx / 8) % 32
  }

  /** The tile row: the window line counter, or the screen line scrolled by scy and wrapped at 256, over 8. */
  function MapRow(l: Lcd.LcdRegs, window: bool, wlc: byte): (r: nat)
    ensures r < 32
  {
    if window then wlc / 8 else ((l.ly + l.scy) % 0x100) / 8
  }

  /** fetch_no's tile-map address: entry `column + 32 * row` of the map, masked to 0x3FF. */
  function TileMapAddress(l: Lcd.LcdRegs, xCounter: byte, window: bool, wlc: byte): (a: u16)
    requires window || xCounter + l.scx / 8 < 0x100
    ensures MapBase(l, window) <= a < MapBase(l, window) + 0x400
    ensures 0x9800 <= a <= 0x9FFF
  {
    MapBase(l, window) + (MapColumn(l, xCounter, window) + 32 * MapRow(l, window, wlc)) % 0x400
  }

  /**
   * For the background the mask never bites: the entry is at tile row
   * `(ly + scy) / 8`, wrapping at 256 lines, and tile column `x + scx / 8`,
   * wrapping at 32 tiles, both inside the map.
   */
  lemma BackgroundEntry(l: Lcd.LcdRegs, xCounter: byte, wlc: byte)
    requires xCounter + l.scx / 8 < 0x100
    ensures MapColumn(l, xCounter, false) < 32 && MapRow(l, false, wlc) < 32
    ensures TileMapAddress(l, xCounter, false, wlc) ==
      Lcd.BgTileMap(l) + 32 * MapRow(l, false, wlc) + MapColumn(l, xCounter, false)
  {
    var offset := MapColumn(l, xCounter, false) + 32 * MapRow(l, false, wlc);
    ModUnique(offset, 0x400, 0, offset);
  }

  /** The pixel row inside the tile: the window line counter or the screen line, modulo 8. */
  function TileLine(l: Lcd.LcdRegs, window: bool, wlc: byte): (r: nat)
    ensures r < 8
  {
    if window then wlc % 8 else (l.ly + l.scy) % 8
  }

  /** A tile number read as an i8. */
  function Signed(tileNo: byte): (r: int)
    ensures -128 <= r < 128 && (r - tileNo) % 0x100 == 0
  {
    if tileNo < 0x80 then tileNo else tileNo - 0x100
  }

  /** The u16 wrap-arounds of the signed addressing mode, worked out. */
  lemma SignedWraps(tileNo: byte)
    ensures var extended := if tileNo < 0x80 then tileNo else tileNo + 0xFF00;
      (0x9000 + (extended * 16) % 0x1_0000) % 0x1_0000 == 0x9000 + 16 * Signed(tileNo)
  {
    var extended := if tileNo < 0x80 then tileNo else tileNo + 0xFF00;
    if tileNo >= 0x80 {
      ModUnique(extended * 16, 0x1_0000, 15, 16 * tileNo + 0xF000);
      ModUnique(0x9000 + 16 * tileNo + 0xF000, 0x1_0000, 1, 0x8000 + 16 * tileNo);
    } else {
      ModUnique(extended * 16, 0x1_0000, 0, 16 * tileNo);
      ModUnique(0x9000 + 16 * tileNo, 0x1_0000, 0, 0x9000 + 16 * tileNo);
    }
  }

  /** `(tile as i8) as u16`, sign-extended, times 16 with u16 wrap-around, added to 0x9000 with wrap-around. */
  function SignedBase(tileNo: byte): (a: u16)
    ensures a == 0x9000 + 16 * Signed(tileNo)
  {
    SignedWraps(tileNo);
    var extended := if tileNo < 0x80 then tileNo else tileNo + 0xFF00;
    (0x9000 + (extended * 16) % 0x1_0000) % 0x1_0000
  }

  /** Where a tile's 16 bytes start: 0x8000 plus the unsigned tile number, or 0x9000 plus the signed one, times 16. */
  function TileBase(l: Lcd.LcdRegs, tileNo: byte): (a: u16)
    ensures Lcd.TileData(l) == 0x8000 ==> a == 0x8000 + 16 * tileNo
    ensures Lcd.TileData(l) != 0x8000 ==> a == 0x9000 + 16 * Signed(tileNo)
    ensures 0x8000 <= a <= 0x97F0
  {
    if Lcd.TileData(l) == 0x8000 then 0x8000 + tileNo * 16 else SignedBase(tileNo)
  }

  /** get_tile_data_start_address: the tile's bytes, two per pixel row. */
  function TileDataAddress(l: Lcd.LcdRegs, tileNo: byte, window: bool, wlc: byte): (a: u16)
    ensures 0x8000 <= a <= 0x97FE
  {
    TileBase(l, tileNo) + 2 * TileLine(l, window, wlc)
  }

  /** Both addressing modes agree on tiles 128-255; tiles 0-127 sit 0x1000 higher in the signed mode. */
  lemma TileDataModes(tileNo: byte)
    ensures tileNo < 0x80 ==> SignedBase(tileNo) == 0x8000 + 16 * tileNo + 0x1000
    ensures tileNo >= 0x80 ==> SignedBase(tileNo) == 0x8000 + 16 * tileNo
  {
  }

  /** Every address the fetcher reads is in video RAM, where the memory map's read returns the stored byte. */
  lemma VramRead(m: Mmu.MmuState, location: u16)
    requires Mmu.WellSized(m) && 0x8000 <= location <= 0x9FFF
    ensures Mmu.CanRead(m, location) && Mmu.ReadValue(m, location) == m.vram[location - 0x8000]
  {
  }

  /** The eight background pixels of a tile row, leftmost first. */
  function RowPixels(low: byte, high: byte): (ps: seq<Pixel>)
    ensures |ps| == 8
  {
    seq(8, k requires 0 <= k < 8 => Pixel(Tiles.ColorAt(low, high, 7 - k), Bgp, false, false))
  }

  /** The row's pixels are BGP pixels without priority, coloured as the tile row decodes. */
  lemma RowPixelColors(low: byte, high: byte)
    ensures forall k :: 0 <= k < 8 ==> RowPixels(low, high)[k] == Pixel(Tiles.RowColors(low, high)[k], Bgp, false, false)
    ensures forall k :: 0 <= k < 8 ==> RowPixels(low, high)[k].color == 2 * Bit(high, 7 - k) + Bit(low, 7 - k)
  {
  }

  /** fetch_no: read the tile number from the tile map. */
  function FetchedNo(f: BgState, m: Mmu.MmuState, wlc: byte): (r: BgState)
    requires ValidState(f) && Mmu.WellSized(m) && f.state == FetchNo && f.ready && CanTick(f, m.io.lcd)
    ensures ValidState(r)
  {
    var a := TileMapAddress(m.io.lcd, f.xCounter, f.window, wlc);
    VramRead(m, a);
    f.(tileNo := Mmu.ReadValue(m, a), state := FetchDataLow, ready := false)
  }

  /** fetch_data_low: compute the row address and read the low plane there. */
  function FetchedLow(f: BgState, m: Mmu.MmuState, wlc: byte): (r: BgState)
    requires ValidState(f) && Mmu.WellSized(m) && f.state == FetchDataLow
    ensures ValidState(r)
  {
    var a := TileDataAddress(m.io.lcd, f.tileNo, f.window, wlc);
    VramRead(m, a);
    f.(dataStartAdd := a, dataLow := Mmu.ReadValue(m, a), state := FetchDataHigh, ready := false)
  }

  /** fetch_data_high: read the high plane from the byte after the low one. */
  function FetchedHigh(f: BgState, m: Mmu.MmuState): (r: BgState)
    requires ValidState(f) && Mmu.WellSized(m) && f.state == FetchDataHigh
    ensures ValidState(r)
  {
    VramRead(m, f.dataStartAdd + 1);
    f.(dataHigh := Mmu.ReadValue(m, f.dataStartAdd + 1), state := Push, ready := false)
  }

  /** push: with an empty FIFO, push the row and move on to the next tile; otherwise wait. */
  function Pushed(f: BgState): (r: BgState)
    requires ValidState(f) && f.state == Push && (f.fifo.len == 0 ==> f.xCounter < 0xFF)
    ensures ValidState(r)
  {
    if f.fifo.len == 0 then
      f.(fifo := StandardFifo.PushedAll(f.fifo, RowPixels(f.dataLow, f.dataHigh)), xCounter := f.xCounter + 1,
         state := FetchNo, ready := false)
    else
      f.(ready := false)
  }

  /** The work of the current stage. */
  function Staged(f: BgState, m: Mmu.MmuState, wlc: byte): (r: BgState)
    requires ValidState(f) && Mmu.WellSized(m) && f.ready && CanTick(f, m.io.lcd)
    ensures ValidState(r)
  {
    match f.state
    case FetchNo => FetchedNo(f, m, wlc)
    case FetchDataLow => FetchedLow(f, m, wlc)
    case FetchDataHigh => FetchedHigh(f, m)
    case Push => Pushed(f)
  }

  /** tick as written: the stage runs if ready, and then ready is set whatever the stage left in it. */
  function BgTickedAsWritten(f: BgState, m: Mmu.MmuState, wlc: byte): (r: BgState)
    requires ValidState(f) && Mmu.WellSized(m) && CanTick(f, m.io.lcd)
  {
    (if f.ready then Staged(f, m, wlc) else f).(ready := true)
  }

  /** tick: the stage runs if ready; otherwise the tick only makes the fetcher ready. */
  function BgTicked(f: BgState, m: Mmu.MmuState, wlc: byte): (r: BgState)
    requires ValidState(f) && Mmu.WellSized(m) && CanTick(f, m.io.lcd)
    ensures ValidState(r)
  {
    if f.ready then Staged(f, m, wlc) else f.(ready := true)
  }

  /**
   * Two ticks per stage: a tick that is not ready changes nothing but
   * `ready`, and a ready tick always leaves the fetcher waiting again.
   */
  lemma TwoTicksPerStage(f: BgState, m: Mmu.MmuState, wlc: byte)
    requires ValidState(f) && Mmu.WellSized(m) && CanTick(f, m.io.lcd)
    ensures !f.ready ==> BgTicked(f, m, wlc) == f.(ready := true)
    ensures f.ready ==> !BgTicked(f, m, wlc).ready
  {
  }

  /**
   * The stages cycle FetchNo, FetchDataLow, FetchDataHigh, Push and back,
   * except that Push with pixels still queued stays in Push and pushes nothing.
   */
  lemma StagesCycle(f: BgState, m: Mmu.MmuState, wlc: byte)
    requires ValidState(f) && Mmu.WellSized(m) && f.ready && CanTick(f, m.io.lcd)
    ensures f.state == Push && f.fifo.len > 0 ==> Staged(f, m, wlc) == f.(ready := false)
    ensures !(f.state == Push && f.fifo.len > 0) ==> Staged(f, m, wlc).state == NextState(f.state)
    ensures Staged(f, m, wlc).window == f.window
  {
  }

  /**
   * A push into an empty FIFO queues the row's eight pixels, leftmost
   * first, each the 2-bit colour `high bit << 1 | low bit` in palette BGP,
   * and moves to the next tile.
   */
  lemma PushFills(f: BgState)
    requires ValidState(f) && f.state == Push && f.fifo.len == 0 && f.xCounter < 0xFF
    ensures Ring.Queue(Pushed(f).fifo) == StandardFifo.Present(RowPixels(f.dataLow, f.dataHigh))
    ensures forall k :: 0 <= k < 8 ==>
      Ring.Queue(Pushed(f).fifo)[k].value.color == 2 * Bit(f.dataHigh, 7 - k) + Bit(f.dataLow, 7 - k)
    ensures Pushed(f).xCounter == f.xCounter + 1 && Pushed(f).state == FetchNo
  {
    var row := RowPixels(f.dataLow, f.dataHigh);
    RowPixelColors(f.dataLow, f.dataHigh);
    StandardFifo.PushedAllAppends(f.fifo, row);
    var q := Ring.Queue(Pushed(f).fifo);
    assert q == StandardFifo.Present(row);
  }

  /** The pushed colours are exactly the two plane bytes, read back. */
  lemma PushedRowEncodes(f: BgState)
    requires ValidState(f) && f.state == Push && f.fifo.len == 0 && f.xCounter < 0xFF
    ensures var colors := seq(8, k requires 0 <= k < 8 => RowPixels(f.dataLow, f.dataHigh)[k].color);
      && (forall k :: 0 <= k < 8 ==> colors[k] < 4)
      && Tiles.Encoded(colors) == (f.dataLow, f.dataHigh)
  {
    var colors := seq(8, k requires 0 <= k < 8 => RowPixels(f.dataLow, f.dataHigh)[k].color);
    RowPixelColors(f.dataLow, f.dataHigh);
    assert colors == Tiles.RowColors(f.dataLow, f.dataHigh);
    Tiles.EncodeDecoded(f.dataLow, f.dataHigh);
  }

  /** A fetcher that is ready in FetchNo: the first tick of a tile. */
  predicate StartsTile(f: BgState)
  {
    ValidState(f) && f.state == FetchNo && f.ready && !f.window
  }

  /**
   * As written, the final `ready = true` of tick undoes the `ready = false`
   * of the stage just run, so every tick leaves the fetcher ready and a
   * fetcher starting a tile is in FetchDataHigh after two ticks, where the
   * two-tick protocol leaves it in FetchDataLow.
   */
  lemma ReadyOverwrittenAsWritten(f: BgState, m: Mmu.MmuState, wlc: byte)
    requires StartsTile(f) && Mmu.WellSized(m) && CanTick(f, m.io.lcd)
    ensures BgTickedAsWritten(f, m, wlc).ready
    ensures ValidState(BgTickedAsWritten(f, m, wlc))
    ensures BgTickedAsWritten(BgTickedAsWritten(f, m, wlc), m, wlc).state == FetchDataHigh
    ensures BgTicked(BgTicked(f, m, wlc), m, wlc).state == FetchDataLow
  {
  }

  /** reset: every field back to its new() value; the FIFO is cleared, which empties its queue. */
  function AfterReset(f: BgState): (r: BgState)
    requires ValidState(f)
    ensures ValidState(r)
  {
    New().(fifo := StandardFifo.Cleared(f.fifo))
  }

  /** A reset fetcher behaves as a new one: the same fields and an empty queue. */
  lemma ResetIsNew(f: BgState)
    requires ValidState(f)
    ensures AfterReset(f).(fifo := New().fifo) == New()
    ensures Ring.Queue(AfterReset(f).fifo) == [] && AfterReset(f).fifo.capacity == 8
  {
    StandardFifo.ClearEmpties(f.fifo);
  }

  /** restart: back to FetchNo and waiting, everything else kept. */
  function Restarted(f: BgState): (r: BgState)
    requires ValidState(f)
    ensures ValidState(r)
  {
    f.(state := FetchNo, ready := false)
  }

  class BgFetcher {
    const fifo: StandardFifo.StandardPixelFifo
    var state: FetchState
    var tileNo: byte
    var dataStartAdd: u16
    var dataLow: byte
    var dataHigh: byte
    var xCounter: byte
    var window: bool
    var ready: bool

    function Snapshot(): BgState
      reads this, fifo, fifo.buffer
    {
      BgState(fifo.Snapshot(), state, tileNo, dataStartAdd, dataLow, dataHigh, xCounter, window, ready)
    }

    predicate Valid()
      reads this, fifo, fifo.buffer
    {
      ValidState(Snapshot())
    }

    /** new */
    constructor ()
      ensures Valid() && Snapshot() == New() && fresh(fifo) && fresh(fifo.buffer)
    {
      fifo := new StandardFifo.StandardPixelFifo(8);
      state := FetchNo;
      tileNo := 0;
      dataStartAdd := 0;
      dataLow := 0;
      dataHigh := 0;
      xCounter := 0;
      window := false;
      ready := false;
    }

    /** shift: the next background pixel. */
    method Shift() returns (p: Option<Pixel>)
      requires Valid()
      modifies fifo, fifo.buffer
      ensures Valid() && (Snapshot().fifo, p) == Ring.Shifted(old(Snapshot()).fifo)
      ensures Snapshot() == old(Snapshot()).(fifo := Snapshot().fifo)
    {
      Ring.ShiftKeepsValid(fifo.Snapshot());
      p := fifo.Shift();
    }

    /** tick, with each stage waiting one tick for `ready`. */
    method Tick(mmu: Mmu.Mmu, windowLineCounter: byte)
      requires Valid() && mmu.Valid() && CanTick(Snapshot(), mmu.Snapshot().io.lcd)
      modifies this, fifo, fifo.buffer
      ensures Valid() && Snapshot() == BgTicked(old(Snapshot()), old(mmu.Snapshot()), windowLineCounter)
    {
      mmu.io.ValidIsWellSized();
      ghost var m := mmu.Snapshot();
      var lcd := mmu.io.lcd.Snapshot();
      if ready {
        match state
        case FetchNo => FetchTileNo(mmu, lcd, windowLineCounter, m);
        case FetchDataLow => FetchLow(mmu, lcd, windowLineCounter, m);
        case FetchDataHigh => FetchHigh(mmu, m);
        case Push => PushRow();
      } else {
        ready := true;
      }
    }

    method FetchTileNo(mmu: Mmu.Mmu, lcd: Lcd.LcdRegs, windowLineCounter: byte, ghost m: Mmu.MmuState)
      requires Valid() && mmu.Valid() && m == mmu.Snapshot() && Mmu.WellSized(m) && lcd == m.io.lcd
      requires state == FetchNo && ready && CanTick(Snapshot(), lcd)
      modifies this
      ensures Valid() && Snapshot() == FetchedNo(old(Snapshot()), m, windowLineCounter)
    {
      ghost var f0 := Snapshot();
      var a := TileMapAddress(lcd, xCounter, window, windowLineCounter);
      VramRead(m, a);
      var b := mmu.Read(a);
      tileNo := b;
      state := FetchDataLow;
      ready := false;
      assert Snapshot() == f0.(tileNo := b, state := FetchDataLow, ready := false);
    }

    method FetchLow(mmu: Mmu.Mmu, lcd: Lcd.LcdRegs, windowLineCounter: byte, ghost m: Mmu.MmuState)
      requires Valid() && mmu.Valid() && m == mmu.Snapshot() && Mmu.WellSized(m) && lcd == m.io.lcd
      requires state == FetchDataLow
      modifies this
      ensures Valid() && Snapshot() == FetchedLow(old(Snapshot()), m, windowLineCounter)
    {
      var a := TileDataAddress(lcd, tileNo, window, windowLineCounter);
      VramRead(m, a);
      var b := mmu.Read(a);
      dataStartAdd := a;
      dataLow := b;
      state := FetchDataHigh;
      ready := false;
    }

    method FetchHigh(mmu: Mmu.Mmu, ghost m: Mmu.MmuState)
      requires Valid() && mmu.Valid() && m == mmu.Snapshot() && Mmu.WellSized(m) && state == FetchDataHigh
      modifies this
      ensures Valid() && Snapshot() == FetchedHigh(old(Snapshot()), m)
    {
      VramRead(m, dataStartAdd + 1);
      var b := mmu.Read(dataStartAdd + 1);
      dataHigh := b;
      state := Push;
      ready := false;
    }

    /** push: the row from bit 7 down to bit 0, when the FIFO is empty. */
    method PushRow()
      requires Valid() && state == Push && (fifo.len == 0 ==> xCounter < 0xFF)
      modifies this, fifo, fifo.buffer
      ensures Valid() && Snapshot() == Pushed(old(Snapshot()))
    {
      ghost var f0 := Snapshot();
      if fifo.len == 0 {
        PushPixels();
        ghost var pushed := fifo.Snapshot();
        xCounter := xCounter + 1;
        state := FetchNo;
        ready := false;
        assert fifo.Snapshot() == pushed;
        assert Snapshot() == f0.(fifo := pushed, xCounter := f0.xCounter + 1, state := FetchNo, ready := false);
      } else {
        ready := false;
      }
    }

    /** The loop of push: the pixel for bit 7 - j of both planes, for j from 0 to 7. */
    method PushPixels()
      requires fifo.Valid()
      modifies fifo, fifo.buffer
      ensures fifo.Valid() && fifo.Snapshot() == StandardFifo.PushedAll(old(fifo.Snapshot()), RowPixels(dataLow, dataHigh))
    {
      ghost var s0 := fifo.Snapshot();
      ghost var row := RowPixels(dataLow, dataHigh);
      for j := 0 to 8
        invariant fifo.Valid() && fifo.Snapshot() == StandardFifo.PushedAll(s0, row[..j])
      {
        StandardFifo.PushedAllPrefix(s0, row, j);
        fifo.Push(Pixel(Tiles.ColorAt(dataLow, dataHigh, 7 - j), Bgp, false, false));
      }
      assert row[..8] == row;
    }

    /** reset */
    method Reset()
      requires Valid()
      modifies this, fifo
      ensures Valid() && Snapshot() == AfterReset(old(Snapshot()))
    {
      fifo.Clear();
      state := FetchNo;
      dataStartAdd := 0;
      tileNo := 0;
      dataLow := 0;
      dataHigh := 0;
      xCounter := 0;
      window := false;
      ready := false;
    }

    /** switch_to_window_mode: a reset, then fetching from the window. */
    method SwitchToWindowMode()
      requires Valid()
      modifies this, fifo
      ensures Valid() && Snapshot() == AfterReset(old(Snapshot())).(window := true)
    {
      Reset();
      window := true;
    }

    /** restart */
    method Restart()
      requires Valid()
      modifies this
      ensures Valid() && Snapshot() == Restarted(old(Snapshot()))
    {
      state := FetchNo;
      ready := false;
    }
  }
}
