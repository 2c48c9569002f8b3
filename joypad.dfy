/**
 * The joypad register P1 (0xFF00): a write selects the direction keys,
 * the action buttons or both, and the four low lines read 0 while a key
 * wired to them is held in a selected group. A line falling from 1 to 0
 * raises the joypad interrupt.
 */
module Joypad {
  import opened Bits

  /** Which of the eight keys are held. */
  datatype JoypadState = JoypadState(
    up: bool, down: bool, left: bool, right: bool, a: bool, b: bool, start: bool, select: bool)

  const Released: JoypadState := JoypadState(false, false, false, false, false, false, false, false)

  datatype JoypadRegs = JoypadRegs(
    state: JoypadState, p13: byte, p12: byte, p11: byte, p10: byte,
    interrupt: bool, directionSelected: bool, actionSelected: bool)

  /** new: nothing held, nothing selected, all four lines 0. */
  const Initial: JoypadRegs := JoypadRegs(Released, 0, 0, 0, 0, false, false, false)

  /** A line is pulled low by its direction key when directions are selected, or its button when actions are. */
  predicate Low(j: JoypadRegs, direction: bool, action: bool)
  {
    (j.directionSelected && direction) || (j.actionSelected && action)
  }

  /** The line's new value and whether it fell from 1 to 0. */
  function LineUpdate(line: byte, low: bool): (r: (byte, bool))
    ensures r.0 == (if low then 0 else 1)
    ensures r.1 <==> line == 1 && low
  {
    if low then (0, line == 1) else (1, false)
  }

  /** The step of compute_value for P13, the down key and the start button. */
  function Line13(j: JoypadRegs): JoypadRegs
  {
    var (p, fell) := LineUpdate(j.p13, Low(j, j.state.down, j.state.start));
    j.(p13 := p, interrupt := j.interrupt || fell)
  }

  /** The step for P12, up and select. */
  function Line12(j: JoypadRegs): JoypadRegs
  {
    var (p, fell) := LineUpdate(j.p12, Low(j, j.state.up, j.state.select));
    j.(p12 := p, interrupt := j.interrupt || fell)
  }

  /** The step for P11, left and B. */
  function Line11(j: JoypadRegs): JoypadRegs
  {
    var (p, fell) := LineUpdate(j.p11, Low(j, j.state.left, j.state.b));
    j.(p11 := p, interrupt := j.interrupt || fell)
  }

  /** The step for P10, right and A. */
  function Line10(j: JoypadRegs): JoypadRegs
  {
    var (p, fell) := LineUpdate(j.p10, Low(j, j.state.right, j.state.a));
    j.(p10 := p, interrupt := j.interrupt || fell)
  }

  /** compute_value: the four lines in turn. */
  function Computed(j: JoypadRegs): (r: JoypadRegs)
    ensures r.state == j.state && r.directionSelected == j.directionSelected && r.actionSelected == j.actionSelected
    ensures r.p13 == 0 <==> Low(j, j.state.down, j.state.start)
    ensures r.p12 == 0 <==> Low(j, j.state.up, j.state.select)
    ensures r.p11 == 0 <==> Low(j, j.state.left, j.state.b)
    ensures r.p10 == 0 <==> Low(j, j.state.right, j.state.a)
    ensures r.p13 <= 1 && r.p12 <= 1 && r.p11 <= 1 && r.p10 <= 1
  {
    Line10(Line11(Line12(Line13(j))))
  }

  /** The interrupt is raised only by a line that was 1 and is now 0, and is never lowered here. */
  lemma InterruptOnlyOnFall(j: JoypadRegs)
    ensures j.interrupt ==> Computed(j).interrupt
    ensures Computed(j).interrupt && !j.interrupt ==>
      (j.p13 == 1 && Computed(j).p13 == 0) || (j.p12 == 1 && Computed(j).p12 == 0)
      || (j.p11 == 1 && Computed(j).p11 == 0) || (j.p10 == 1 && Computed(j).p10 == 0)
    ensures (j.p13 == 1 && Computed(j).p13 == 0) ==> Computed(j).interrupt
  {
  }

  /** Recomputing without a change of keys or selection changes nothing more. */
  lemma ComputedIdempotent(j: JoypadRegs)
    ensures Computed(Computed(j)) == Computed(j)
  {
  }

  /** set_state */
  function StateSet(j: JoypadRegs, s: JoypadState): (r: JoypadRegs)
    ensures r.state == s
  {
    Computed(j.(state := s))
  }

  /** write: bit 5 clear selects the action buttons and bit 4 clear the direction keys; the address is not looked at. */
  function Written(j: JoypadRegs, b: byte): (r: JoypadRegs)
  {
    Computed(j.(actionSelected := And8(b, 0x20) == 0, directionSelected := And8(b, 0x10) == 0))
  }

  /** The selection a write makes is bits 5 and 4 of the byte, clear meaning selected. */
  lemma WriteSelects(j: JoypadRegs, b: byte)
    ensures Written(j, b).actionSelected <==> Bit(b, 5) == 0
    ensures Written(j, b).directionSelected <==> Bit(b, 4) == 0
  {
    Pow2Byte();
    MaskTest(b, 5);
    MaskTest(b, 4);
  }

  /** read: `p13 << 3 | p12 << 2 | p11 << 1 | p10` in a u8. */
  function ReadValue(j: JoypadRegs): (r: byte)
  {
    Pow2Byte();
    Or(Or(Or((j.p13 * 8) % 0x100, (j.p12 * 4) % 0x100, 8), (j.p11 * 2) % 0x100, 8), j.p10, 8)
  }

  /** With 0/1 lines the ors add up: the value is the four lines as a nibble. */
  lemma ReadIsLines(j: JoypadRegs)
    requires j.p13 <= 1 && j.p12 <= 1 && j.p11 <= 1 && j.p10 <= 1
    ensures ReadValue(j) == 8 * j.p13 + 4 * j.p12 + 2 * j.p11 + j.p10
    ensures ReadValue(j) < 0x10
  {
    Pow2Byte();
    var a, b, c, d := 8 * j.p13, 4 * j.p12, 2 * j.p11, j.p10;
    ModUnique(j.p13 * 8, 0x100, 0, a);
    ModUnique(j.p12 * 4, 0x100, 0, b);
    ModUnique(j.p11 * 2, 0x100, 0, c);
    ModUnique(a, 8, j.p13, 0);
    OrDisjoint(a, b, 8, 3);
    var ab := Or(a, b, 8);
    ModUnique(ab, 4, 2 * j.p13 + j.p12, 0);
    OrDisjoint(ab, c, 8, 2);
    var abc := Or(ab, c, 8);
    ModUnique(abc, 2, 4 * j.p13 + 2 * j.p12 + j.p11, 0);
    OrDisjoint(abc, d, 8, 1);
  }

  /** With only the direction keys selected, the value is the complement of down, up, left, right. */
  lemma DirectionsRead(j: JoypadRegs)
    requires j.directionSelected && !j.actionSelected
    ensures var s := j.state;
      ReadValue(Computed(j)) == 0xF - (8 * Bit01(s.down) + 4 * Bit01(s.up) + 2 * Bit01(s.left) + Bit01(s.right))
  {
    ReadIsLines(Computed(j));
  }

  /** With only the action buttons selected, the value is the complement of start, select, B, A. */
  lemma ActionsRead(j: JoypadRegs)
    requires !j.directionSelected && j.actionSelected
    ensures var s := j.state;
      ReadValue(Computed(j)) == 0xF - (8 * Bit01(s.start) + 4 * Bit01(s.select) + 2 * Bit01(s.b) + Bit01(s.a))
  {
    ReadIsLines(Computed(j));
  }

  /** With neither group selected every line is high. */
  lemma NothingSelectedReadsHigh(j: JoypadRegs)
    requires !j.directionSelected && !j.actionSelected
    ensures ReadValue(Computed(j)) == 0xF && !Computed(j).interrupt == !j.interrupt
  {
    ReadIsLines(Computed(j));
  }

  function Bit01(held: bool): nat
  {
    if held then 1 else 0
  }

  /** purge_interrupt: report the flag and clear it. */
  function Purged(j: JoypadRegs): (r: (JoypadRegs, bool))
    ensures r.1 == j.interrupt && !r.0.interrupt
    ensures r.0 == j.(interrupt := false)
  {
    (j.(interrupt := false), j.interrupt)
  }

  class Joypad {
    var state: JoypadState
    var p13: byte
    var p12: byte
    var p11: byte
    var p10: byte
    var interrupt: bool
    var directionSelected: bool
    var actionSelected: bool

    function Snapshot(): JoypadRegs
      reads this
    {
      JoypadRegs(state, p13, p12, p11, p10, interrupt, directionSelected, actionSelected)
    }

    constructor ()
      ensures Snapshot() == Initial
    {
      state := Released;
      p13, p12, p11, p10 := 0, 0, 0, 0;
      interrupt, directionSelected, actionSelected := false, false, false;
    }

    method SetState(s: JoypadState)
      modifies this
      ensures Snapshot() == StateSet(old(Snapshot()), s)
    {
      state := s;
      ComputeValue();
    }

    method PurgeInterrupt() returns (res: bool)
      modifies this
      ensures (Snapshot(), res) == Purged(old(Snapshot()))
    {
      res := interrupt;
      interrupt := false;
    }

    /** compute_value, one line after the other. */
    method ComputeValue()
      modifies this
      ensures Snapshot() == Computed(old(Snapshot()))
    {
      ComputeP13();
      ComputeP12();
      ComputeP11();
      ComputeP10();
    }

    method ComputeP13()
      modifies this
      ensures Snapshot() == Line13(old(Snapshot()))
    {
      if (directionSelected && state.down) || (actionSelected && state.start) {
        if p13 == 1 {
          interrupt := true;
        }
        p13 := 0;
      } else {
        p13 := 1;
      }
    }

    method ComputeP12()
      modifies this
      ensures Snapshot() == Line12(old(Snapshot()))
    {
      if (directionSelected && state.up) || (actionSelected && state.select) {
        if p12 == 1 {
          interrupt := true;
        }
        p12 := 0;
      } else {
        p12 := 1;
      }
    }

    method ComputeP11()
      modifies this
      ensures Snapshot() == Line11(old(Snapshot()))
    {
      if (directionSelected && state.left) || (actionSelected && state.b) {
        if p11 == 1 {
          interrupt := true;
        }
        p11 := 0;
      } else {
        p11 := 1;
      }
    }

    method ComputeP10()
      modifies this
      ensures Snapshot() == Line10(old(Snapshot()))
    {
      if (directionSelected && state.right) || (actionSelected && state.a) {
        if p10 == 1 {
          interrupt := true;
        }
        p10 := 0;
      } else {
        p10 := 1;
      }
    }

    method Write(location: u16, b: byte)
      modifies this
      ensures Snapshot() == Written(old(Snapshot()), b)
    {
      actionSelected := And8(b, 0x20) == 0;
      directionSelected := And8(b, 0x10) == 0;
      ComputeValue();
    }

    /** read: the four lines P13-P10 as the low nibble, whatever the location. */
    function Read(location: u16): (r: byte)
      reads this
      ensures r == ReadValue(Snapshot())
      ensures p13 <= 1 && p12 <= 1 && p11 <= 1 && p10 <= 1 ==> r == 8 * p13 + 4 * p12 + 2 * p11 + p10 && r < 0x10
    {
      if p13 <= 1 && p12 <= 1 && p11 <= 1 && p10 <= 1 then
        ReadIsLines(Snapshot());
        ReadValue(Snapshot())
      else
        ReadValue(Snapshot())
    }
  }
}
