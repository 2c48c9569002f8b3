/**
 * The web page that drives the emulator: it scales the 160x144 screen by
 * four onto a canvas through a four-grey palette, keeps each cartridge's
 * RAM and clock in browser storage as JSON text, maps eight keyboard keys
 * to the joypad, and counts frames per second. The browser (clock, timers,
 * file reader, canvas, storage) is reduced to the values passed in and out.
 */
module Page {
  import opened Bits
  import opened Wrappers
  import Json
  import Wasm
  import Joypad

  /** The canvas: the screen scaled by four in each direction. */
  const Scale: nat := 4
  const ImageWidth: nat := 640
  const ImageHeight: nat := 576
  const ImageSize: nat := 368640

  lemma CanvasSize()
    ensures ImageWidth == Scale * Wasm.Width && ImageHeight == Scale * Wasm.Height
    ensures ImageSize == ImageWidth * ImageHeight
  {
  }

  /** A grey level the device writes. */
  predicate IsGrey(v: byte)
  {
    v == 0x00 || v == 0x55 || v == 0xAA || v == 0xFF
  }

  /**
   * The palette lookup, with the byte missing when it lies outside memory:
   * a grey level becomes the opaque pixel with that level in each channel;
   * any other key finds nothing in the palette, which the image stores as 0.
   */
  function Shade(v: Option<byte>): (r: Wasm.u32)
    ensures v.Some? && IsGrey(v.value) ==> r == 0xFF00_0000 + 0x01_0101 * v.value
    ensures !(v.Some? && IsGrey(v.value)) ==> r == 0
  {
    if v == Some(0x00) then 0xFF00_0000
    else if v == Some(0x55) then 0xFF55_5555
    else if v == Some(0xAA) then 0xFFAA_AAAA
    else if v == Some(0xFF) then 0xFFFF_FFFF
    else 0
  }

  /** The byte the page reads for screen pixel i: the lowest byte of its word, if within memory. */
  function SourceByte(pixels: seq<byte>, framePtr: nat, i: nat): (r: Option<byte>)
    ensures r.Some? <==> framePtr + 4 * i < |pixels|
    ensures r.Some? ==> r.value == pixels[framePtr + 4 * i]
  {
    if framePtr + 4 * i < |pixels| then Some(pixels[framePtr + 4 * i]) else None
  }

  /** Image word k, at row k / 640 and column k % 640, is the shade of screen pixel (column / 4, row / 4). */
  function ImageAt(pixels: seq<byte>, framePtr: nat, k: nat): Wasm.u32
  {
    var row, col := k / ImageWidth, k % ImageWidth;
    Shade(SourceByte(pixels, framePtr, col / Scale + (row / Scale) * Wasm.Width))
  }

  /** The whole image, row after row. */
  function Image(pixels: seq<byte>, framePtr: nat): (r: seq<Wasm.u32>)
    ensures |r| == ImageSize && forall k :: 0 <= k < ImageSize ==> r[k] == ImageAt(pixels, framePtr, k)
  {
    seq(ImageSize, k requires 0 <= k => ImageAt(pixels, framePtr, k))
  }

  /** Row-major positions: word r * w + c is row r, column c. */
  lemma RowMajor(r: nat, c: nat, w: nat)
    requires c < w
    ensures (r * w + c) / w == r && (r * w + c) % w == c
  {
    DivisionUnique(r * w + c, w, r, c);
    ModUnique(r * w + c, w, r, c);
  }

  /** Canvas pixel (r, c) shows screen pixel (c / 4, r / 4). */
  lemma ScaledPixel(pixels: seq<byte>, framePtr: nat, r: nat, c: nat)
    requires r < ImageHeight && c < ImageWidth
    ensures r * ImageWidth + c < ImageSize
    ensures ImageAt(pixels, framePtr, r * ImageWidth + c) == Shade(SourceByte(pixels, framePtr, c / 4 + (r / 4) * 160))
  {
    RowMajor(r, c, ImageWidth);
  }

  /** Every screen pixel fills a four-by-four block of the canvas with its shade. */
  lemma BlockReplicates(pixels: seq<byte>, framePtr: nat, i: nat, dy: nat, dx: nat)
    requires i < Wasm.Width * Wasm.Height && dy < Scale && dx < Scale
    ensures (i / 160) * 4 + dy < ImageHeight && (i % 160) * 4 + dx < ImageWidth
    ensures ImageAt(pixels, framePtr, ((i / 160) * 4 + dy) * ImageWidth + (i % 160) * 4 + dx)
            == Shade(SourceByte(pixels, framePtr, i))
  {
    var r, c := (i / 160) * 4 + dy, (i % 160) * 4 + dx;
    assert i == 160 * (i / 160) + i % 160;
    ScaledPixel(pixels, framePtr, r, c);
    DivisionUnique(r, 4, i / 160, dy);
    DivisionUnique(c, 4, i % 160, dx);
  }

  /** Memory holds the words from `framePtr` on, four little-endian bytes each. */
  predicate Holds(pixels: seq<byte>, framePtr: nat, words: seq<Wasm.u32>)
  {
    forall i :: 0 <= i < |words| ==>
      framePtr + 4 * i + 3 < |pixels|
      && pixels[framePtr + 4 * i] == words[i] % 0x100
      && pixels[framePtr + 4 * i + 1] == (words[i] / 0x100) % 0x100
      && pixels[framePtr + 4 * i + 2] == (words[i] / 0x1_0000) % 0x100
      && pixels[framePtr + 4 * i + 3] == words[i] / 0x100_0000
  }

  /** When memory holds the screen buffer, each canvas block shows the lowest byte of its pixel's word. */
  lemma ImageShowsBuffer(pixels: seq<byte>, framePtr: nat, words: seq<Wasm.u32>, i: nat, dy: nat, dx: nat)
    requires Holds(pixels, framePtr, words) && |words| == Wasm.Width * Wasm.Height
    requires i < |words| && dy < Scale && dx < Scale
    ensures ImageAt(pixels, framePtr, ((i / 160) * 4 + dy) * ImageWidth + (i % 160) * 4 + dx)
            == Shade(Some(words[i] % 0x100))
  {
    BlockReplicates(pixels, framePtr, i, dy, dx);
  }

  /** The buffer shown while the LCD is off draws a white canvas. */
  lemma ClearedIsWhite(pixels: seq<byte>, framePtr: nat, k: nat)
    requires Holds(pixels, framePtr, Wasm.EmptyBuffer()) && k < ImageSize
    ensures ImageAt(pixels, framePtr, k) == 0xFFFF_FFFF
  {
    var r, c := k / ImageWidth, k % ImageWidth;
    var i := c / 4 + (r / 4) * 160;
    assert i < Wasm.Width * Wasm.Height;
    assert pixels[framePtr + 4 * i] == 0xFF;
  }

  /** drawFrame: one palette lookup per canvas pixel, row by row. */
  method DrawFrame(pixels: seq<byte>, framePtr: nat) returns (data: array<Wasm.u32>)
    ensures fresh(data) && data[..] == Image(pixels, framePtr)
  {
    data := new Wasm.u32[ImageSize](_ => 0);
    for r := 0 to ImageHeight
      invariant forall k :: 0 <= k < r * ImageWidth ==> data[k] == ImageAt(pixels, framePtr, k)
    {
      for c := 0 to ImageWidth
        invariant forall k :: 0 <= k < r * ImageWidth + c ==> data[k] == ImageAt(pixels, framePtr, k)
      {
        var i := c / Scale + (r / Scale) * Wasm.Width;
        var color := Shade(if framePtr + i * 4 < |pixels| then Some(pixels[framePtr + i * 4]) else None);
        RowMajor(r, c, ImageWidth);
        data[r * ImageWidth + c] := color;
      }
    }
  }

  /** The storage keys of a cartridge's RAM and clock. */
  function SaveKey(name: string): string
  {
    name + ".sav"
  }

  function RtcKey(name: string): string
  {
    name + ".rtc"
  }

  /** A RAM key is never a clock key, whatever the two names. */
  lemma KeysDiffer(name: string, other: string)
    ensures SaveKey(name) != RtcKey(other)
  {
    assert SaveKey(name)[|SaveKey(name)| - 1] == 'v';
    assert RtcKey(other)[|RtcKey(other)| - 1] == 'c';
  }

  /** Storing a dump: its JSON text under the key, unless the dump is empty. */
  function Stored(storage: map<string, string>, key: string, bytes: seq<byte>): (m: map<string, string>)
    ensures |bytes| > 0 ==> m == storage[key := Json.Stringify(bytes)]
    ensures |bytes| == 0 ==> m == storage
  {
    if |bytes| > 0 then storage[key := Json.Stringify(bytes)] else storage
  }

  /** Loading a dump: absent is empty; text that does not parse is None (the load throws). */
  function Load(storage: map<string, string>, key: string): (r: Option<seq<byte>>)
    ensures key !in storage ==> r == Some([])
  {
    if key !in storage then Some([])
    else
      match Json.Parse(storage[key])
      case None => None
      case Some(ns) => Some(Json.Uint8(ns))
  }

  /** Loading what was stored gives the dump back; an empty dump leaves the old entry to be loaded. */
  lemma LoadStored(storage: map<string, string>, key: string, bytes: seq<byte>)
    ensures |bytes| > 0 ==> Load(Stored(storage, key, bytes), key) == Some(bytes)
    ensures |bytes| == 0 ==> Load(Stored(storage, key, bytes), key) == Load(storage, key)
  {
    Json.ParseStringify(bytes);
  }

  /** What the page knows: the emulator (if any), the ROM's name, storage, and the frame counter. */
  datatype PageState = PageState(
    emu: Option<Wasm.EmulatorState>, romName: Option<string>, storage: map<string, string>,
    startTime: int, frames: nat, fpsText: string)

  /** An emulator is only ever built after its ROM has been named. */
  predicate ValidState(p: PageState)
  {
    p.emu.Some? ==> p.romName.Some?
  }

  /** saveData: the emulator's non-empty RAM and clock dumps, stored under its ROM's name. */
  function SavedData(p: PageState): (m: map<string, string>)
    requires ValidState(p)
    ensures p.emu.None? ==> m == p.storage
    ensures p.emu.Some? ==> m.Keys <= p.storage.Keys + {SaveKey(p.romName.value), RtcKey(p.romName.value)}
    ensures forall key :: key in p.storage ==> key in m
  {
    if p.emu.None? then p.storage
    else
      var name, device := p.romName.value, p.emu.value.device;
      Stored(Stored(p.storage, SaveKey(name), Wasm.Dumped(device.ram)), RtcKey(name), Wasm.Dumped(device.rtc))
  }

  /** After saveData, loading the two keys gives back what the device held, or the older entry when it held nothing. */
  lemma SaveThenLoad(p: PageState)
    requires ValidState(p) && p.emu.Some?
    ensures var name, device := p.romName.value, p.emu.value.device;
      Load(SavedData(p), SaveKey(name))
        == (if |Wasm.Dumped(device.ram)| > 0 then Some(Wasm.Dumped(device.ram)) else Load(p.storage, SaveKey(name)))
    ensures var name, device := p.romName.value, p.emu.value.device;
      Load(SavedData(p), RtcKey(name))
        == (if |Wasm.Dumped(device.rtc)| > 0 then Some(Wasm.Dumped(device.rtc)) else Load(p.storage, RtcKey(name)))
  {
    var name, device := p.romName.value, p.emu.value.device;
    var s1 := Stored(p.storage, SaveKey(name), Wasm.Dumped(device.ram));
    KeysDiffer(name, name);
    LoadStored(p.storage, SaveKey(name), Wasm.Dumped(device.ram));
    LoadStored(s1, RtcKey(name), Wasm.Dumped(device.rtc));
    assert Load(SavedData(p), SaveKey(name)) == Load(s1, SaveKey(name));
  }

  /** The ROM's file was read: save the old cartridge's data, then drop the emulator. */
  function RomRead(p: PageState): (q: PageState)
    requires ValidState(p)
    ensures ValidState(q) && q.emu.None?
  {
    p.(storage := SavedData(p), emu := None)
  }

  /** A little later: name the ROM, load its saves and build the emulator; a failed load or boot builds none. */
  function Started(p: PageState, name: string, rom: seq<byte>,
                   boot: (seq<byte>, Option<seq<byte>>, Option<seq<byte>>) -> Result<Wasm.DeviceImage>): (q: PageState)
    ensures ValidState(p) ==> ValidState(q)
    ensures q.romName == Some(name) && q.storage == p.storage
    ensures q.emu != p.emu ==> q.emu.Some? && forall key: Wasm.Button :: !Wasm.Held(q.emu.value.buttons, key)
  {
    var ram, rtc := Load(p.storage, SaveKey(name)), Load(p.storage, RtcKey(name));
    var named := p.(romName := Some(name));
    if ram.None? || rtc.None? then named
    else
      var booted := boot(rom, Wasm.AsOption(ram.value), Wasm.AsOption(rtc.value));
      if booted.Err? then named else named.(emu := Some(Wasm.Created(booted.value)))
  }

  /**
   * Opening the same ROM again boots it with the RAM and clock the old
   * device held, provided it held no empty dump and nothing older was
   * stored for what it did not hold.
   */
  lemma ReopenRestores(p: PageState, rom: seq<byte>,
                       boot: (seq<byte>, Option<seq<byte>>, Option<seq<byte>>) -> Result<Wasm.DeviceImage>)
    requires ValidState(p) && p.emu.Some?
    requires p.emu.value.device.ram != Some([]) && p.emu.value.device.rtc != Some([])
    requires p.emu.value.device.ram.None? ==> SaveKey(p.romName.value) !in p.storage
    requires p.emu.value.device.rtc.None? ==> RtcKey(p.romName.value) !in p.storage
    ensures var name, device, q := p.romName.value, p.emu.value.device, RomRead(p);
      var booted := boot(rom, device.ram, device.rtc);
      Started(q, name, rom, boot)
        == q.(romName := Some(name), emu := if booted.Ok? then Some(Wasm.Created(booted.value)) else None)
  {
    var name, device := p.romName.value, p.emu.value.device;
    SaveThenLoad(p);
    Wasm.DumpRoundTrip([], device.ram);
    Wasm.DumpRoundTrip([], device.rtc);
  }

  /** The keyboard binding: w, s, a, d, j, k, Enter and Backspace. */
  function KeyButton(key: string): Option<Wasm.Button>
  {
    if key == "w" then Some(Wasm.Up)
    else if key == "s" then Some(Wasm.Down)
    else if key == "a" then Some(Wasm.Left)
    else if key == "d" then Some(Wasm.Right)
    else if key == "j" then Some(Wasm.A)
    else if key == "k" then Some(Wasm.B)
    else if key == "Enter" then Some(Wasm.Start)
    else if key == "Backspace" then Some(Wasm.Select)
    else None
  }

  /** The key bound to each button. */
  function KeyOf(button: Wasm.Button): string
  {
    match button
    case Up => "w"
    case Down => "s"
    case Left => "a"
    case Right => "d"
    case A => "j"
    case B => "k"
    case Start => "Enter"
    case Select => "Backspace"
  }

  /** Each button has exactly one key, and each bound key exactly one button. */
  lemma KeyBinding(key: string, button: Wasm.Button)
    ensures KeyButton(key) == Some(button) <==> key == KeyOf(button)
  {
    if key == KeyOf(button) {
      match button
      case Up =>
      case Down =>
      case Left =>
      case Right =>
      case A =>
      case B =>
      case Start =>
      case Select =>
    }
  }

  /** keydown (held) and keyup (released): the bound button's flag, when there is an emulator and a binding. */
  function Keyed(p: PageState, key: string, held: bool): (q: PageState)
    ensures q.emu.Some? <==> p.emu.Some?
    ensures q.(emu := p.emu) == p
    ensures p.emu.Some? && KeyButton(key).Some? ==> Wasm.Held(q.emu.value.buttons, KeyButton(key).value) == held
    ensures p.emu.Some? ==> forall other: Wasm.Button :: Some(other) != KeyButton(key) ==>
      Wasm.Held(q.emu.value.buttons, other) == Wasm.Held(p.emu.value.buttons, other)
  {
    if p.emu.Some? && KeyButton(key).Some? then
      Wasm.WithButtonKeepsOthers(p.emu.value.buttons, KeyButton(key).value, held);
      p.(emu := Some(p.emu.value.(buttons := Wasm.WithButton(p.emu.value.buttons, KeyButton(key).value, held))))
    else p
  }

  /** A key released after it was pressed leaves things as releasing it alone would. */
  lemma PressThenRelease(p: PageState, key: string)
    ensures Keyed(Keyed(p, key, true), key, false) == Keyed(p, key, false)
  {
    if p.emu.Some? && KeyButton(key).Some? {
      Wasm.WithButtonIdempotent(p.emu.value.buttons, KeyButton(key).value, true, false);
    }
  }

  /** One frame counted: at least a second after the window started, show the count and start a new window. */
  function Counted(p: PageState, now: int, later: int): (q: PageState)
    ensures q.emu == p.emu && q.romName == p.romName && q.storage == p.storage
    ensures now - p.startTime < 1000 ==> q.frames == p.frames + 1 && q.fpsText == p.fpsText && q.startTime == p.startTime
    ensures now - p.startTime >= 1000 ==> q.frames == 0 && q.startTime == later
  {
    var f := p.frames + 1;
    if now - p.startTime >= 1000 then p.(startTime := later, fpsText := Json.Decimal(f) + " FPS", frames := 0)
    else p.(frames := f)
  }

  /** The text shown reads back as the number of frames in the window just closed. */
  lemma FpsShowsCount(p: PageState, now: int, later: int)
    requires now - p.startTime >= 1000
    ensures var text := Counted(p, now, later).fpsText;
      |text| > 4 && text[|text| - 4..] == " FPS" && Json.AllDigits(text[..|text| - 4])
      && Json.Value(text[..|text| - 4]) == p.frames + 1
  {
    var text := Counted(p, now, later).fpsText;
    assert text[..|text| - 4] == Json.Decimal(p.frames + 1);
    Json.ValueOfDecimal(p.frames + 1);
  }

  /** Frames counted at the given times, in order. */
  function CountedAll(p: PageState, times: seq<(int, int)>): PageState
    decreases |times|
  {
    if |times| == 0 then p else CountedAll(Counted(p, times[0].0, times[0].1), times[1..])
  }

  /** Within one window every frame adds one to the count and the text stays. */
  lemma {:induction false} CountsWithinWindow(p: PageState, times: seq<(int, int)>)
    requires forall k :: 0 <= k < |times| ==> times[k].0 - p.startTime < 1000
    ensures CountedAll(p, times).frames == p.frames + |times|
    ensures CountedAll(p, times).fpsText == p.fpsText
    ensures CountedAll(p, times).startTime == p.startTime
    decreases |times|
  {
    if |times| > 0 {
      var q := Counted(p, times[0].0, times[0].1);
      assert times[0].0 - p.startTime < 1000;
      CountsWithinWindow(q, times[1..]);
    }
  }

  /** renderLoop: with an emulator, run a frame, draw it and count it; without, stop. */
  function Rendered(p: PageState, rtcNow: nat,
                    frame: (Wasm.DeviceImage, Wasm.LcdBuffer, Joypad.JoypadState) -> (Wasm.DeviceImage, Wasm.LcdBuffer),
                    now: int, later: int): (q: PageState)
    ensures p.emu.None? ==> q == p
    ensures p.emu.Some? ==> q.emu.Some? && q.emu.value.buttons == p.emu.value.buttons
  {
    if p.emu.None? then p
    else Counted(p.(emu := Some(Wasm.NextFramed(p.emu.value, rtcNow, frame))), now, later)
  }

  class Page {
    var emulator: Wasm.Emulator?
    var romName: Option<string>
    var storage: map<string, string>
    var startTime: int
    var frames: nat
    var fpsText: string

    function Snapshot(): PageState
      reads this, emulator
    {
      PageState(if emulator == null then None else Some(emulator.Snapshot()),
                romName, storage, startTime, frames, fpsText)
    }

    predicate Valid()
      reads this, emulator
    {
      ValidState(Snapshot())
    }

    /** Page load: no emulator and no ROM yet, the window starting now. */
    constructor (storage: map<string, string>, now: int)
      ensures Valid() && Snapshot() == PageState(None, None, storage, now, 0, "")
    {
      emulator := null;
      romName := None;
      this.storage := storage;
      startTime := now;
      frames := 0;
      fpsText := "";
    }

    /** saveData, also run before the page unloads. */
    method SaveData()
      requires Valid()
      modifies this
      ensures Valid() && Snapshot() == old(Snapshot()).(storage := SavedData(old(Snapshot())))
    {
      if emulator != null {
        var ram := emulator.DumpRam();
        var rtc := emulator.DumpRtc();
        if |ram| > 0 {
          storage := storage[romName.value + ".sav" := Json.Stringify(ram)];
        }
        if |rtc| > 0 {
          storage := storage[romName.value + ".rtc" := Json.Stringify(rtc)];
        }
      }
    }

    /** The new ROM's bytes have been read. */
    method OnRomRead()
      requires Valid()
      modifies this
      ensures Valid() && Snapshot() == RomRead(old(Snapshot()))
    {
      SaveData();
      emulator := null;
    }

    /** The deferred start: returns whether a render loop was scheduled. */
    method OnRomStart(name: string, rom: seq<byte>,
                      boot: (seq<byte>, Option<seq<byte>>, Option<seq<byte>>) -> Result<Wasm.DeviceImage>)
      returns (scheduled: bool)
      requires Valid()
      modifies this
      ensures Valid() && Snapshot() == Started(old(Snapshot()), name, rom, boot)
      ensures scheduled <==> emulator != old(emulator)
    {
      romName := Some(name);
      var ram := Load(storage, name + ".sav");
      var rtc := Load(storage, name + ".rtc");
      scheduled := false;
      if ram.Some? && rtc.Some? && boot(rom, Wasm.AsOption(ram.value), Wasm.AsOption(rtc.value)).Ok? {
        emulator := new Wasm.Emulator(rom, ram.value, rtc.value, boot);
        scheduled := true;
      }
    }

    /** keydown */
    method OnKeyDown(key: string)
      modifies emulator
      ensures Snapshot() == Keyed(old(Snapshot()), key, true)
    {
      if emulator != null {
        match KeyButton(key)
        case Some(Up) => emulator.SetUp();
        case Some(Down) => emulator.SetDown();
        case Some(Left) => emulator.SetLeft();
        case Some(Right) => emulator.SetRight();
        case Some(A) => emulator.SetA();
        case Some(B) => emulator.SetB();
        case Some(Start) => emulator.SetStart();
        case Some(Select) => emulator.SetSelect();
        case None =>
      }
    }

    /** keyup */
    method OnKeyUp(key: string)
      modifies emulator
      ensures Snapshot() == Keyed(old(Snapshot()), key, false)
    {
      if emulator != null {
        match KeyButton(key)
        case Some(Up) => emulator.UnsetUp();
        case Some(Down) => emulator.UnsetDown();
        case Some(Left) => emulator.UnsetLeft();
        case Some(Right) => emulator.UnsetRight();
        case Some(A) => emulator.UnsetA();
        case Some(B) => emulator.UnsetB();
        case Some(Start) => emulator.UnsetStart();
        case Some(Select) => emulator.UnsetSelect();
        case None =>
      }
    }

    /**
     * renderLoop, given the clock the device reads, the frame function, the
     * linear memory and buffer address after the frame, and the two times
     * the page reads. Returns whether it rescheduled itself and the image drawn.
     */
    method RenderLoop(rtcNow: nat,
                      frame: (Wasm.DeviceImage, Wasm.LcdBuffer, Joypad.JoypadState) -> (Wasm.DeviceImage, Wasm.LcdBuffer),
                      pixels: seq<byte>, framePtr: nat, now: int, later: int)
      returns (rescheduled: bool, image: seq<Wasm.u32>)
      requires Valid()
      modifies this, emulator
      ensures Valid() && Snapshot() == Rendered(old(Snapshot()), rtcNow, frame, now, later)
      ensures rescheduled <==> old(emulator) != null
      ensures rescheduled ==> image == Image(pixels, framePtr)
    {
      rescheduled, image := false, [];
      if emulator != null {
        emulator.NextFrame(rtcNow, frame);
        var data := DrawFrame(pixels, framePtr);
        image := data[..];
        frames := frames + 1;
        if now - startTime >= 1000 {
          startTime := later;
          fpsText := Json.Decimal(frames) + " FPS";
          frames := 0;
        }
        rescheduled := true;
      }
    }
  }
}
