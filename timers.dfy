/**
 * The timer registers: the 16-bit system clock whose high byte is DIV
 * (0xFF04), the counter TIMA (0xFF05), its reload value TMA (0xFF06) and
 * the control register TAC (0xFF07).
 */
module Timers {
  import opened Bits

  datatype TimerState = TimerState(sysclk: u16, tima: byte, tma: byte, tac: byte)

  /** new: the values the boot ROM leaves behind. */
  const Initial: TimerState := TimerState(0x00AB, 0, 0, 0xF8)

  /** inc_sysclk: one more machine cycle on the system clock, wrapping at 16 bits. */
  function SysclkTicked(t: TimerState): (r: TimerState)
    ensures r.sysclk == (t.sysclk + 1) % 0x1_0000
    ensures r == t.(sysclk := r.sysclk)
  {
    t.(sysclk := if t.sysclk == 0xFFFF then 0 else t.sysclk + 1)
  }

  /** inc_tima: 0xFF reloads from TMA and reports the overflow; anything else counts up. */
  function TimaTicked(t: TimerState): (r: (TimerState, bool))
    ensures r.1 <==> t.tima == 0xFF
    ensures r.0 == t.(tima := r.0.tima)
    ensures r.0.tima == if r.1 then t.tma else t.tima + 1
  {
    if t.tima == 0xFF then (t.(tima := t.tma), true) else (t.(tima := t.tima + 1), false)
  }

  /** `n` calls of inc_tima, with whether the last of them overflowed. */
  function TimaTickedTimes(t: TimerState, n: nat): (r: (TimerState, bool))
    decreases n
  {
    if n == 0 then (t, false) else TimaTicked(TimaTickedTimes(t, n - 1).0)
  }

  /**
   * TIMA counts up by one per increment and overflows exactly on the
   * increment that would take it to 0x100, which reloads it from TMA.
   */
  lemma {:induction false} TimaCountsUp(t: TimerState, n: nat)
    requires 0 < n <= 0x100 - t.tima
    ensures var r := TimaTickedTimes(t, n);
      && (r.1 <==> n == 0x100 - t.tima)
      && r.0.tima == (if r.1 then t.tma else t.tima + n)
      && r.0 == t.(tima := r.0.tima)
  {
    if n > 1 {
      TimaCountsUp(t, n - 1);
    }
  }

  /** get_tima_clock: the system-clock period of one TIMA increment selected by TAC bits 1-0. */
  function TimaClock(tac: byte): (r: nat)
    ensures r == Pow2(4 + 2 * ((tac % 4 + 3) % 4))
    ensures r == 16 || r == 64 || r == 256 || r == 1024
  {
    Pow2Byte();
    assert Pow2(10) == 1024 by { assert Pow2(9) == 512; }
    match tac % 4
    case 0 => 1024
    case 1 => 16
    case 2 => 64
    case 3 => 256
  }

  /** get_tima_enabled: `tac & 0x4 != 0`. */
  predicate TimaEnabled(tac: byte)
  {
    And8(tac, 4) != 0
  }

  /** The timer is enabled exactly when TAC bit 2 is set. */
  lemma TimaEnabledIsBit2(tac: byte)
    ensures TimaEnabled(tac) <==> Bit(tac, 2) == 1
    ensures TimaEnabled(tac) <==> (tac / 4) % 2 == 1
  {
    Pow2Byte();
    MaskTest(tac, 2);
    BitAsDivision(tac, 2);
  }

  predicate IsRegister(location: u16)
  {
    0xFF04 <= location <= 0xFF07
  }

  /** read: DIV is the high byte of the system clock; the others read back as stored. */
  function RegisterValue(t: TimerState, location: u16): (r: byte)
    requires IsRegister(location)
    ensures location == 0xFF04 ==> r * 0x100 <= t.sysclk < (r + 1) * 0x100
  {
    match location
    case 0xFF04 => t.sysclk / 0x100
    case 0xFF05 => t.tima
    case 0xFF06 => t.tma
    case 0xFF07 => t.tac
  }

  /** write: any write to DIV clears the whole system clock. */
  function Written(t: TimerState, location: u16, b: byte): (r: TimerState)
    requires IsRegister(location)
    ensures location == 0xFF04 ==> r == t.(sysclk := 0)
  {
    match location
    case 0xFF04 => t.(sysclk := 0)
    case 0xFF05 => t.(tima := b)
    case 0xFF06 => t.(tma := b)
    case 0xFF07 => t.(tac := b)
  }

  /** DIV reads 0 after any write to it; TIMA, TMA and TAC read back the byte written; the other registers keep their values. */
  lemma WriteThenRead(t: TimerState, location: u16, other: u16, b: byte)
    requires IsRegister(location) && IsRegister(other)
    ensures RegisterValue(Written(t, location, b), location) == if location == 0xFF04 then 0 else b
    ensures other != location ==> RegisterValue(Written(t, location, b), other) == RegisterValue(t, other)
  {
  }

  class Timers {
    var sysclk: u16
    var tima: byte
    var tma: byte
    var tac: byte

    function Snapshot(): TimerState
      reads this
    {
      TimerState(sysclk, tima, tma, tac)
    }

    constructor ()
      ensures Snapshot() == Initial
    {
      sysclk, tima, tma, tac := 0x00AB, 0, 0, 0xF8;
    }

    method IncSysclk()
      modifies this
      ensures Snapshot() == SysclkTicked(old(Snapshot()))
    {
      sysclk := if sysclk == 0xFFFF then 0 else sysclk + 1;
    }

    method IncTima() returns (overflow: bool)
      modifies this
      ensures (Snapshot(), overflow) == TimaTicked(old(Snapshot()))
    {
      if tima == 0xFF {
        tima := tma;
        overflow := true;
      } else {
        tima := tima + 1;
        overflow := false;
      }
    }

    /** read: DIV is the high byte of the system clock, the others are held whole. */
    function Read(location: u16): (r: byte)
      reads this
      requires IsRegister(location)
      ensures r == RegisterValue(Snapshot(), location)
      ensures location == 0xFF04 ==> r * 0x100 <= sysclk < (r + 1) * 0x100
    {
      match location
      case 0xFF04 => sysclk / 0x100
      case 0xFF05 => tima
      case 0xFF06 => tma
      case 0xFF07 => tac
    }

    method Write(location: u16, b: byte)
      requires IsRegister(location)
      modifies this
      ensures Snapshot() == Written(old(Snapshot()), location, b)
    {
      match location {
        case 0xFF04 => sysclk := 0;
        case 0xFF05 => tima := b;
        case 0xFF06 => tma := b;
        case 0xFF07 => tac := b;
      }
    }
  }
}
