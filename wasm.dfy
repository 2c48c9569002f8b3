/**
 * The WebAssembly front end: an `Emulator` object that owns the device,
 * the LCD buffer the device draws into, and one flag per key, which the
 * page sets and clears as keys go down and up. The device itself is a
 * collaborator seen only through what this glue passes it and gets back.
 */
module Wasm {
  import opened Bits
  import opened Wrappers
  import Joypad

  const Width: nat := 160
  const Height: nat := 144

  /** A 32-bit word. */
  type u32 = x: int | 0 <= x < 0x1_0000_0000

  /** What the glue sees of the device: its cartridge RAM and clock bytes, and the time it was last given. */
  datatype DeviceImage = DeviceImage(ram: Option<seq<byte>>, rtc: Option<seq<byte>>, now: nat)

  /** The LCD buffer: one word per screen pixel, and whether the screen was switched off this frame. */
  datatype LcdBuffer = LcdBuffer(buffer: seq<u32>, cleared: bool)

  /** The keys, one per flag. */
  datatype Button = Up | Down | Left | Right | A | B | Start | Select

  /** The white screen shown while the LCD is off: every word 0xFFFFFF. */
  function EmptyBuffer(): (r: seq<u32>)
    ensures |r| == Width * Height && forall i :: 0 <= i < |r| ==> r[i] == 0xFF_FFFF
  {
    seq(Width * Height, i => 0xFF_FFFF)
  }

  /** A byte slice as the device takes it: an empty one means none. */
  function AsOption(bytes: seq<byte>): (r: Option<seq<byte>>)
    ensures r.None? <==> |bytes| == 0
    ensures r.Some? ==> r.value == bytes
  {
    if |bytes| > 0 then Some(bytes) else None
  }

  /** A dump as the page gets it: none becomes an empty vector. */
  function Dumped(bytes: Option<seq<byte>>): (r: seq<byte>)
    ensures bytes.None? ==> r == []
    ensures bytes.Some? ==> r == bytes.value
  {
    if bytes.Some? then bytes.value else []
  }

  /**
   * The two conversions undo each other, except that a device holding an
   * empty dump hands it out as no dump at all.
   */
  lemma DumpRoundTrip(bytes: seq<byte>, held: Option<seq<byte>>)
    ensures Dumped(AsOption(bytes)) == bytes
    ensures held != Some([]) ==> AsOption(Dumped(held)) == held
    ensures AsOption(Dumped(Some([]))) == None
  {
  }

  /** Whether a key's flag is set. */
  function Held(j: Joypad.JoypadState, key: Button): bool
  {
    match key
    case Up => j.up
    case Down => j.down
    case Left => j.left
    case Right => j.right
    case A => j.a
    case B => j.b
    case Start => j.start
    case Select => j.select
  }

  /** The flags after one key's set_ or unset_: that key's flag is `held`, the others stay. */
  function WithButton(j: Joypad.JoypadState, key: Button, held: bool): (r: Joypad.JoypadState)
    ensures Held(r, key) == held
  {
    Joypad.JoypadState(
      if key == Up then held else j.up,
      if key == Down then held else j.down,
      if key == Left then held else j.left,
      if key == Right then held else j.right,
      if key == A then held else j.a,
      if key == B then held else j.b,
      if key == Start then held else j.start,
      if key == Select then held else j.select)
  }

  /** set_ and unset_ leave every other key's flag as it was. */
  lemma WithButtonKeepsOthers(j: Joypad.JoypadState, key: Button, held: bool)
    ensures forall other: Button :: other != key ==> Held(WithButton(j, key, held), other) == Held(j, other)
  {
  }

  /** Setting or clearing a flag twice is setting or clearing it once, and the last of two changes to one key wins. */
  lemma WithButtonIdempotent(j: Joypad.JoypadState, key: Button, held: bool, again: bool)
    ensures WithButton(WithButton(j, key, held), key, held) == WithButton(j, key, held)
    ensures WithButton(WithButton(j, key, held), key, again) == WithButton(j, key, again)
  {
  }

  /** Changes to two different keys commute. */
  lemma WithButtonsCommute(j: Joypad.JoypadState, key: Button, other: Button, hb: bool, hc: bool)
    requires key != other
    ensures WithButton(WithButton(j, key, hb), other, hc) == WithButton(WithButton(j, other, hc), key, hb)
  {
  }

  /** The state of the glue object. */
  datatype EmulatorState = EmulatorState(device: DeviceImage, lcd: LcdBuffer, buttons: Joypad.JoypadState)

  /** new: the device built from the ROM and the saved bytes, a black unswitched buffer, every flag clear. */
  function Created(device: DeviceImage): (e: EmulatorState)
    ensures forall key: Button :: !Held(e.buttons, key)
    ensures |e.lcd.buffer| == Width * Height && !e.lcd.cleared
  {
    EmulatorState(device, LcdBuffer(seq(Width * Height, _ => 0), false), Joypad.Released)
  }

  /** next_frame: the clock handed to the device, cleared reset, and one frame run with the flags as the joypad. */
  function NextFramed(e: EmulatorState, now: nat, frame: (DeviceImage, LcdBuffer, Joypad.JoypadState) -> (DeviceImage, LcdBuffer))
    : (r: EmulatorState)
    ensures r.buttons == e.buttons
    ensures r.device == frame(e.device.(now := now), e.lcd.(cleared := false), e.buttons).0
    ensures r.lcd == frame(e.device.(now := now), e.lcd.(cleared := false), e.buttons).1
  {
    e.(device := frame(e.device.(now := now), e.lcd.(cleared := false), e.buttons).0,
       lcd := frame(e.device.(now := now), e.lcd.(cleared := false), e.buttons).1)
  }

  /** buffer: what the address it returns holds. */
  function Shown(lcd: LcdBuffer): (r: seq<u32>)
    ensures lcd.cleared ==> r == EmptyBuffer()
    ensures !lcd.cleared ==> r == lcd.buffer
  {
    if !lcd.cleared then lcd.buffer else EmptyBuffer()
  }

  class Emulator {
    var device: DeviceImage
    var lcdBuffer: LcdBuffer
    var up: bool
    var down: bool
    var left: bool
    var right: bool
    var a: bool
    var b: bool
    var start: bool
    var select: bool

    function Buttons(): Joypad.JoypadState
      reads this
    {
      Joypad.JoypadState(up, down, left, right, a, b, start, select)
    }

    function Snapshot(): EmulatorState
      reads this
    {
      EmulatorState(device, lcdBuffer, Buttons())
    }

    /** new: Device::new with the empty-means-none conversions, unwrapped. */
    constructor (rom: seq<byte>, ram: seq<byte>, rtc: seq<byte>,
                 boot: (seq<byte>, Option<seq<byte>>, Option<seq<byte>>) -> Result<DeviceImage>)
      requires boot(rom, AsOption(ram), AsOption(rtc)).Ok?
      ensures Snapshot() == Created(boot(rom, AsOption(ram), AsOption(rtc)).value)
    {
      var created := boot(rom, AsOption(ram), AsOption(rtc));
      device := created.value;
      lcdBuffer := LcdBuffer(seq(Width * Height, _ => 0), false);
      up, down, left, right := false, false, false, false;
      a, b, start, select := false, false, false, false;
    }

    method NextFrame(now: nat, frame: (DeviceImage, LcdBuffer, Joypad.JoypadState) -> (DeviceImage, LcdBuffer))
      modifies this
      ensures Snapshot() == NextFramed(old(Snapshot()), now, frame)
    {
      device := device.(now := now);
      lcdBuffer := lcdBuffer.(cleared := false);
      var next := frame(device, lcdBuffer, Joypad.JoypadState(up, down, left, right, a, b, start, select));
      device := next.0;
      lcdBuffer := next.1;
    }

    /** buffer */
    function Buffer(): (r: seq<u32>)
      reads this
      ensures r == Shown(lcdBuffer)
    {
      if !lcdBuffer.cleared then lcdBuffer.buffer else EmptyBuffer()
    }

    /** dump_ram */
    function DumpRam(): (r: seq<byte>)
      reads this
      ensures r == Dumped(device.ram)
    {
      if device.ram.Some? then device.ram.value else []
    }

    /** dump_rtc */
    function DumpRtc(): (r: seq<byte>)
      reads this
      ensures r == Dumped(device.rtc)
    {
      if device.rtc.Some? then device.rtc.value else []
    }

    method SetUp()
      modifies this
      ensures Snapshot() == old(Snapshot()).(buttons := WithButton(old(Buttons()), Up, true))
    {
      up := true;
    }

    method UnsetUp()
      modifies this
      ensures Snapshot() == old(Snapshot()).(buttons := WithButton(old(Buttons()), Up, false))
    {
      up := false;
    }

    method SetDown()
      modifies this
      ensures Snapshot() == old(Snapshot()).(buttons := WithButton(old(Buttons()), Down, true))
    {
      down := true;
    }

    method UnsetDown()
      modifies this
      ensures Snapshot() == old(Snapshot()).(buttons := WithButton(old(Buttons()), Down, false))
    {
      down := false;
    }

    method SetLeft()
      modifies this
      ensures Snapshot() == old(Snapshot()).(buttons := WithButton(old(Buttons()), Left, true))
    {
      left := true;
    }

    method UnsetLeft()
      modifies this
      ensures Snapshot() == old(Snapshot()).(buttons := WithButton(old(Buttons()), Left, false))
    {
      left := false;
    }

    method SetRight()
      modifies this
      ensures Snapshot() == old(Snapshot()).(buttons := WithButton(old(Buttons()), Right, true))
    {
      right := true;
    }

    method UnsetRight()
      modifies this
      ensures Snapshot() == old(Snapshot()).(buttons := WithButton(old(Buttons()), Right, false))
    {
      right := false;
    }

    method SetA()
      modifies this
      ensures Snapshot() == old(Snapshot()).(buttons := WithButton(old(Buttons()), A, true))
    {
      a := true;
    }

    method UnsetA()
      modifies this
      ensures Snapshot() == old(Snapshot()).(buttons := WithButton(old(Buttons()), A, false))
    {
      a := false;
    }

    method SetB()
      modifies this
      ensures Snapshot() == old(Snapshot()).(buttons := WithButton(old(Buttons()), B, true))
    {
      b := true;
    }

    method UnsetB()
      modifies this
      ensures Snapshot() == old(Snapshot()).(buttons := WithButton(old(Buttons()), B, false))
    {
      b := false;
    }

    method SetStart()
      modifies this
      ensures Snapshot() == old(Snapshot()).(buttons := WithButton(old(Buttons()), Start, true))
    {
      start := true;
    }

    method UnsetStart()
      modifies this
      ensures Snapshot() == old(Snapshot()).(buttons := WithButton(old(Buttons()), Start, false))
    {
      start := false;
    }

    method SetSelect()
      modifies this
      ensures Snapshot() == old(Snapshot()).(buttons := WithButton(old(Buttons()), Select, true))
    {
      select := true;
    }

    method UnsetSelect()
      modifies this
      ensures Snapshot() == old(Snapshot()).(buttons := WithButton(old(Buttons()), Select, false))
    {
      select := false;
    }
  }
}
