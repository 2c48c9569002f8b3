/**
 * The I/O page 0xFF00-0xFF7F: the joypad, the serial bytes, the timers,
 * the interrupt request register IF, the sound registers (plain memory
 * here), the LCD registers and the rest of the page as plain memory.
 */
module Io {
  import opened Bits
  import opened Generic
  import Joypad
  import Timers
  import Lcd

  /** The five interrupt sources, in IF bit order. */
  datatype Interrupt = VBlank | LcdStat | Timer | Serial | JoypadPress

  function BitOf(i: Interrupt): (k: nat)
    ensures k < 5
  {
    match i
    case VBlank => 0
    case LcdStat => 1
    case Timer => 2
    case Serial => 3
    case JoypadPress => 4
  }

  datatype IoState = IoState(
    joypad: Joypad.JoypadRegs, i1: seq<byte>, timers: Timers.TimerState, i2: seq<byte>,
    lcd: Lcd.LcdRegs, i3: seq<byte>, ifFlag: byte, test: string)

  /** i1 is 0xFF01-0xFF02, i2 is 0xFF10-0xFF3F and i3 is 0xFF4C-0xFF7F. */
  predicate WellSized(s: IoState)
  {
    |s.i1| == 2 && |s.i2| == 0x30 && |s.i3| == 0x34
  }

  /** new: IF starts at 0xE1 and the test output is empty. */
  const Initial: IoState := IoState(
    Joypad.Initial, seq(2, _ => 0), Timers.Initial, seq(0x30, _ => 0),
    Lcd.Initial, seq(0x34, _ => 0), 0xE1, "")

  /** `if_flag |= 1 << k` */
  function Requested(s: IoState, i: Interrupt): (r: IoState)
    ensures r == s.(ifFlag := r.ifFlag)
  {
    s.(ifFlag := SetBit(s.ifFlag, BitOf(i)))
  }

  /** get_*_interrupt: `if_flag & (1 << k) != 0`. */
  predicate Pending(s: IoState, i: Interrupt)
  {
    Pow2Byte();
    And8(s.ifFlag, Pow2(BitOf(i))) != 0
  }

  /** Each getter tests its own IF bit. */
  lemma PendingIsBit(s: IoState, i: Interrupt)
    ensures Pending(s, i) <==> Bit(s.ifFlag, BitOf(i)) == 1
  {
    MaskTest(s.ifFlag, BitOf(i));
  }

  /** A request makes its interrupt pending and leaves the others and bits 7-5 as they were. */
  lemma RequestThenPending(s: IoState, i: Interrupt, other: Interrupt)
    ensures Pending(Requested(s, i), i)
    ensures other != i ==> (Pending(Requested(s, i), other) <==> Pending(s, other))
    ensures forall j :: 5 <= j < 8 ==> Bit(Requested(s, i).ifFlag, j) == Bit(s.ifFlag, j)
  {
    PendingIsBit(Requested(s, i), i);
    PendingIsBit(Requested(s, i), other);
    PendingIsBit(s, other);
  }

  /** get_test: hand over the captured text and start again from empty. */
  function TestTaken(s: IoState): (r: (IoState, string))
    ensures r.1 == s.test && r.0 == s.(test := "")
  {
    (s.(test := ""), s.test)
  }

  predicate InPage(location: u16)
  {
    0xFF00 <= location <= 0xFF7F
  }

  /** 0xFF46 falls in the LCD's range and panics there. */
  predicate CanRead(location: u16)
  {
    InPage(location) && location != 0xFF46
  }

  /** read: the joypad, i1, zeros at 0xFF03 and 0xFF08-0xFF0E, the timers, IF, i2, the LCD and i3. */
  function RegisterValue(s: IoState, location: u16): byte
    requires WellSized(s) && CanRead(location)
  {
    if location == 0xFF00 then Joypad.ReadValue(s.joypad)
    else if location <= 0xFF02 then s.i1[location - 0xFF01]
    else if location == 0xFF03 then 0
    else if location <= 0xFF07 then Timers.RegisterValue(s.timers, location)
    else if location <= 0xFF0E then 0
    else if location == 0xFF0F then s.ifFlag
    else if location <= 0xFF3F then s.i2[location - 0xFF10]
    else if location <= 0xFF4B then Lcd.RegisterValue(s.lcd, location)
    else s.i3[location - 0xFF4C]
  }

  /** Starting a transfer with 0x81 at 0xFF02 decodes the byte at 0xFF01 as UTF-8, which panics above 0x7F. */
  predicate CanWrite(s: IoState, location: u16, b: byte)
  {
    && WellSized(s) && InPage(location) && location != 0xFF46
    && (location == 0xFF02 && b == 0x81 ==> s.i1[0] < 0x80)
  }

  /**
   * write: 0x81 at 0xFF02 captures the byte at 0xFF01 as the test output
   * and clears 0xFF02; 0xFF03 and 0xFF08-0xFF0E drop the byte.
   */
  function Written(s: IoState, location: u16, b: byte): (r: IoState)
    requires CanWrite(s, location, b)
    ensures WellSized(r)
  {
    if location == 0xFF00 then s.(joypad := Joypad.Written(s.joypad, b))
    else if location <= 0xFF02 then
      if location == 0xFF02 && b == 0x81 then s.(test := [s.i1[0] as char], i1 := s.i1[1 := 0])
      else s.(i1 := s.i1[location - 0xFF01 := b])
    else if location == 0xFF03 then s
    else if location <= 0xFF07 then s.(timers := Timers.Written(s.timers, location, b))
    else if location <= 0xFF0E then s
    else if location == 0xFF0F then s.(ifFlag := b)
    else if location <= 0xFF3F then s.(i2 := s.i2[location - 0xFF10 := b])
    else if location <= 0xFF4B then s.(lcd := Lcd.Written(s.lcd, location, b))
    else s.(i3 := s.i3[location - 0xFF4C := b])
  }

  /** Writes to 0xFF03 and 0xFF08-0xFF0E change nothing, and those addresses read 0. */
  lemma UnmappedIgnored(s: IoState, location: u16, b: byte)
    requires WellSized(s) && (location == 0xFF03 || 0xFF08 <= location <= 0xFF0E)
    ensures CanWrite(s, location, b) && Written(s, location, b) == s
    ensures CanRead(location) && RegisterValue(s, location) == 0
  {
  }

  /** IF reads back the byte last written to 0xFF0F, as do the plain memory blocks. */
  lemma WriteThenRead(s: IoState, location: u16, b: byte)
    requires WellSized(s)
    requires location == 0xFF01 || location == 0xFF0F || 0xFF10 <= location <= 0xFF3F || 0xFF4C <= location <= 0xFF7F
    ensures CanWrite(s, location, b) && CanRead(location)
    ensures RegisterValue(Written(s, location, b), location) == b
  {
  }

  /** Starting a serial transfer records the byte at 0xFF01 as a one-character test output and clears 0xFF02. */
  lemma SerialCapture(s: IoState)
    requires WellSized(s) && s.i1[0] < 0x80
    ensures CanWrite(s, 0xFF02, 0x81)
    ensures Written(s, 0xFF02, 0x81).test == [s.i1[0] as char]
    ensures RegisterValue(Written(s, 0xFF02, 0x81), 0xFF02) == 0
    ensures RegisterValue(Written(s, 0xFF02, 0x81), 0xFF01) == RegisterValue(s, 0xFF01)
  {
  }

  /** Any other byte at 0xFF02 is stored like memory and captures nothing. */
  lemma SerialControlStored(s: IoState, b: byte)
    requires WellSized(s) && b != 0x81
    ensures CanWrite(s, 0xFF02, b)
    ensures Written(s, 0xFF02, b).test == s.test
    ensures RegisterValue(Written(s, 0xFF02, b), 0xFF02) == b
  {
  }

  class Io {
    const joypad: Joypad.Joypad
    const i1: GenericAddressable
    const timers: Timers.Timers
    const i2: GenericAddressable
    const lcd: Lcd.Lcd
    const i3: GenericAddressable
    var ifFlag: byte
    var test: string

    /** The objects that make up the I/O page. */
    function Repr(): set<object>
    {
      {this, joypad, i1, timers, i2, lcd, i3}
    }

    predicate Valid()
      reads Repr()
    {
      && i1.Valid() && i1.start == 0xFF01 && i1.end == 0xFF02
      && i2.Valid() && i2.start == 0xFF10 && i2.end == 0xFF3F
      && i3.Valid() && i3.start == 0xFF4C && i3.end == 0xFF7F
    }

    function Snapshot(): IoState
      reads Repr()
    {
      IoState(joypad.Snapshot(), i1.memory, timers.Snapshot(), i2.memory, lcd.Snapshot(), i3.memory, ifFlag, test)
    }

    lemma ValidIsWellSized()
      requires Valid()
      ensures WellSized(Snapshot())
    {
    }

    constructor ()
      ensures Valid() && Snapshot() == Initial
      ensures fresh(joypad) && fresh(i1) && fresh(timers) && fresh(i2) && fresh(lcd) && fresh(i3)
    {
      joypad := new Joypad.Joypad();
      i1 := new GenericAddressable(0xFF01, 0xFF02);
      timers := new Timers.Timers();
      i2 := new GenericAddressable(0xFF10, 0xFF3F);
      lcd := new Lcd.Lcd();
      i3 := new GenericAddressable(0xFF4C, 0xFF7F);
      ifFlag := 0xE1;
      test := "";
    }

    method GetTest() returns (res: string)
      modifies this
      ensures (Snapshot(), res) == TestTaken(old(Snapshot()))
    {
      res := test;
      test := "";
    }

    /** request_vblank_interrupt and the four like it. */
    method RequestInterrupt(i: Interrupt)
      modifies this
      ensures Snapshot() == Requested(old(Snapshot()), i)
    {
      ifFlag := SetBit(ifFlag, BitOf(i));
    }

    /** get_vblank_interrupt and the four like it. */
    function GetInterrupt(i: Interrupt): (r: bool)
      reads Repr()
      ensures r == Pending(Snapshot(), i)
      ensures r <==> Bit(ifFlag, BitOf(i)) == 1
    {
      Pow2Byte();
      PendingIsBit(Snapshot(), i);
      And8(ifFlag, Pow2(BitOf(i))) != 0
    }

    /** read: each location is answered by its owner, and 0xFF03 and 0xFF08-0xFF0E by 0. */
    function Read(location: u16): (r: byte)
      reads Repr()
      requires Valid() && CanRead(location)
      ensures r == RegisterValue(Snapshot(), location)
    {
      if location == 0xFF00 then joypad.Read(location)
      else if location <= 0xFF02 then i1.Read(location)
      else if location == 0xFF03 then 0
      else if location <= 0xFF07 then timers.Read(location)
      else if location <= 0xFF0E then 0
      else if location == 0xFF0F then ifFlag
      else if location <= 0xFF3F then i2.Read(location)
      else if location <= 0xFF4B then lcd.Read(location)
      else i3.Read(location)
    }

    method Write(location: u16, b: byte)
      requires Valid() && CanWrite(Snapshot(), location, b)
      modifies Repr()
      ensures Valid() && Snapshot() == Written(old(Snapshot()), location, b)
    {
      if location == 0xFF00 {
        joypad.Write(location, b);
      } else if location <= 0xFF02 {
        if location == 0xFF02 && b == 0x81 {
          var c := i1.Read(0xFF01);
          test := [c as char];
          i1.Write(0xFF02, 0);
        } else {
          i1.Write(location, b);
        }
      } else if location == 0xFF03 {
      } else if location <= 0xFF07 {
        timers.Write(location, b);
      } else if location <= 0xFF0E {
      } else if location == 0xFF0F {
        ifFlag := b;
      } else if location <= 0xFF3F {
        i2.Write(location, b);
      } else if location <= 0xFF4B {
        lcd.Write(location, b);
      } else {
        i3.Write(location, b);
      }
    }
  }
}
