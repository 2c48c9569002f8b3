/**
 * The device loop: each CPU step's cycles drive the timers, and a frame
 * runs steps until it has spent 70221 cycles. The CPU and the MMU's
 * per-step hook are inputs here: a frame is given the cycle counts the
 * CPU reports.
 */
module Device {
  import opened Bits
  import Timers
  import Io

  /** CYCLE_LIMIT: the cycles in one frame. */
  const CycleLimit: nat := 70221

  /** One turn of update_timers' loop as written: the flag takes inc_tima's latest result. */
  function StepAsWritten(p: (Timers.TimerState, bool), enabled: bool, clock: nat): (Timers.TimerState, bool)
    requires clock > 0
  {
    var t1 := Timers.SysclkTicked(p.0);
    if enabled && t1.sysclk % clock == 0 then Timers.TimaTicked(t1) else (t1, p.1)
  }

  /** One turn of the loop with an overflow already seen in this call kept. */
  function Step(p: (Timers.TimerState, bool), enabled: bool, clock: nat): (r: (Timers.TimerState, bool))
    requires clock > 0
    ensures p.1 ==> r.1
  {
    var t1 := Timers.SysclkTicked(p.0);
    if enabled && t1.sysclk % clock == 0 then
      var (t2, o) := Timers.TimaTicked(t1);
      (t2, p.1 || o)
    else
      (t1, p.1)
  }

  function StepsAsWritten(t: Timers.TimerState, overflow: bool, enabled: bool, clock: nat, n: nat): (Timers.TimerState, bool)
    requires clock > 0
  {
    if n == 0 then (t, overflow)
    else
      StepAsWritten(StepsAsWritten(t, overflow, enabled, clock, n - 1), enabled, clock)
  }

  function Steps(t: Timers.TimerState, overflow: bool, enabled: bool, clock: nat, n: nat): (Timers.TimerState, bool)
    requires clock > 0
  {
    if n == 0 then (t, overflow)
    else
      Step(Steps(t, overflow, enabled, clock, n - 1), enabled, clock)
  }

  /** How many of the system-clock values after 1..n ticks from `sysclk` are multiples of `clock`. */
  function Multiples(sysclk: nat, clock: nat, n: nat): nat
    requires clock > 0
  {
    if n == 0 then 0
    else Multiples(sysclk, clock, n - 1) + (if ((sysclk + n) % 0x1_0000) % clock == 0 then 1 else 0)
  }

  /** Ticking a wrapped 16-bit count once is ticking the unwrapped count and wrapping. */
  lemma WrapSucc(x: nat)
    ensures (x % 0x1_0000 + 1) % 0x1_0000 == (x + 1) % 0x1_0000
  {
    var q, r := x / 0x1_0000, x % 0x1_0000;
    if r + 1 < 0x1_0000 {
      DivisionUnique(x + 1, 0x1_0000, q, r + 1);
    } else {
      DivisionUnique(x + 1, 0x1_0000, q + 1, 0);
    }
  }

  /** The loop ticks the system clock once per cycle, wrapping at 16 bits, and touches neither TMA nor TAC. */
  lemma {:induction false} SysclkAdvances(t: Timers.TimerState, overflow: bool, enabled: bool, clock: nat, n: nat)
    requires clock > 0
    ensures var r := Steps(t, overflow, enabled, clock, n).0;
      r.sysclk == (t.sysclk + n) % 0x1_0000 && r.tma == t.tma && r.tac == t.tac
  {
    if n > 0 {
      SysclkAdvances(t, overflow, enabled, clock, n - 1);
      WrapSucc(t.sysclk + n - 1);
    }
  }

  /** With the timer disabled TIMA and the flag are left alone. */
  lemma {:induction false} DisabledKeepsTima(t: Timers.TimerState, overflow: bool, clock: nat, n: nat)
    requires clock > 0
    ensures Steps(t, overflow, false, clock, n).0.tima == t.tima
    ensures Steps(t, overflow, false, clock, n).1 == overflow
  {
    if n > 0 {
      DisabledKeepsTima(t, overflow, clock, n - 1);
    }
  }

  /** Enabled, TIMA goes up by one for each multiple of the clock period passed, while it does not overflow. */
  lemma {:induction false} CountsMultiples(t: Timers.TimerState, overflow: bool, clock: nat, n: nat)
    requires clock > 0 && t.tima + Multiples(t.sysclk, clock, n) <= 0xFF
    ensures Steps(t, overflow, true, clock, n).0.tima == t.tima + Multiples(t.sysclk, clock, n)
    ensures Steps(t, overflow, true, clock, n).1 == overflow
  {
    if n > 0 {
      CountsMultiples(t, overflow, clock, n - 1);
      SysclkAdvances(t, overflow, true, clock, n - 1);
      WrapSucc(t.sysclk + n - 1);
    }
  }

  /** Once TIMA has passed 0xFF within a call, the flag reports it at the end of the call. */
  lemma {:induction false} OverflowRecorded(t: Timers.TimerState, overflow: bool, clock: nat, n: nat)
    requires clock > 0 && t.tima + Multiples(t.sysclk, clock, n) >= 0x100
    ensures Steps(t, overflow, true, clock, n).1
  {
    var m := Multiples(t.sysclk, clock, n - 1);
    if t.tima + m >= 0x100 {
      OverflowRecorded(t, overflow, clock, n - 1);
    } else {
      CountsMultiples(t, overflow, clock, n - 1);
      SysclkAdvances(t, overflow, true, clock, n - 1);
      WrapSucc(t.sysclk + n - 1);
    }
  }

  /** TAC = 0x05, TIMA = 0xFF, TMA = 0, and the system clock one short of a 16-cycle boundary. */
  const NearOverflow: Timers.TimerState := Timers.TimerState(0x000F, 0xFF, 0, 0x05)

  /**
   * As written, the first tick from NearOverflow overflows, the next fifteen
   * leave TIMA at 0, and the seventeenth increments it and clears the flag.
   */
  lemma {:induction false} TicksAsWritten(n: nat)
    requires 1 <= n <= 17
    ensures StepsAsWritten(NearOverflow, false, true, 16, n) ==
      if n <= 16 then (Timers.TimerState(0x000F + n, 0, 0, 0x05), true) else (Timers.TimerState(0x0020, 1, 0, 0x05), false)
  {
    if n > 1 {
      TicksAsWritten(n - 1);
    }
  }

  /** Corrected, the overflow at the first tick from NearOverflow stays recorded. */
  lemma {:induction false} FirstOverflowKept(n: nat)
    requires 1 <= n
    ensures Steps(NearOverflow, false, true, 16, n).1
  {
    if n > 1 {
      FirstOverflowKept(n - 1);
    }
  }

  /**
   * Finding: with TAC = 0x05 (enabled, a 16-cycle period), TIMA = 0xFF and
   * the system clock at 0x000F, a 17-cycle step increments TIMA at 0x0010
   * (overflow, reload from TMA = 0) and again at 0x0020; the second
   * increment overwrites the flag, so the timer interrupt is never requested.
   */
  lemma OverflowLostAsWritten()
    ensures Timers.TimaEnabled(NearOverflow.tac) && Timers.TimaClock(NearOverflow.tac) == 16
    ensures !StepsAsWritten(NearOverflow, false, true, 16, 17).1
    ensures Steps(NearOverflow, false, true, 16, 17).1
  {
    Timers.TimaEnabledIsBit2(NearOverflow.tac);
    TicksAsWritten(17);
    FirstOverflowKept(17);
  }

  datatype DeviceState = DeviceState(io: Io.IoState, timaOverflow: bool)

  /**
   * update_timers: enable bit and period are read once from TAC; an
   * overflow left by the previous call is turned into a timer interrupt
   * request first.
   */
  function TimersUpdated(d: DeviceState, cycles: nat): DeviceState
  {
    var tac := d.io.timers.tac;
    var io1 := if d.timaOverflow then Io.Requested(d.io, Io.Timer) else d.io;
    var (t, o) := Steps(io1.timers, false, Timers.TimaEnabled(tac), Timers.TimaClock(tac), cycles);
    DeviceState(io1.(timers := t), o)
  }

  /**
   * A pending overflow sets IF bit 2 at the start of the next call and is
   * then cleared; apart from the timers and IF the I/O page is untouched.
   */
  lemma TimerInterruptRequested(d: DeviceState, cycles: nat)
    ensures TimersUpdated(d, cycles).io.ifFlag == if d.timaOverflow then SetBit(d.io.ifFlag, 2) else d.io.ifFlag
    ensures TimersUpdated(d, cycles).io == d.io.(ifFlag := TimersUpdated(d, cycles).io.ifFlag, timers := TimersUpdated(d, cycles).io.timers)
    ensures d.timaOverflow ==> Io.Pending(TimersUpdated(d, cycles).io, Io.Timer)
  {
    Io.RequestThenPending(d.io, Io.Timer, Io.Timer);
  }

  /** The cycles of a sequence of steps. */
  function Sum(steps: seq<byte>): nat
  {
    if |steps| == 0 then 0 else Sum(steps[..|steps| - 1]) + steps[|steps| - 1]
  }

  /** The timer updates of a sequence of steps, in order. */
  function Run(d: DeviceState, steps: seq<byte>): DeviceState
  {
    if |steps| == 0 then d else TimersUpdated(Run(d, steps[..|steps| - 1]), steps[|steps| - 1])
  }

  /** One more step adds its cycles and its timer update. */
  lemma PrefixStep(d: DeviceState, steps: seq<byte>, i: nat)
    requires i < |steps|
    ensures Sum(steps[..i + 1]) == Sum(steps[..i]) + steps[i]
    ensures Run(d, steps[..i + 1]) == TimersUpdated(Run(d, steps[..i]), steps[i])
  {
    assert steps[..i + 1][..i] == steps[..i];
  }

  class Device {
    const io: Io.Io
    var timaOverflow: bool

    function Snapshot(): DeviceState
      reads this, io.Repr()
    {
      DeviceState(io.Snapshot(), timaOverflow)
    }

    /** new, around the CPU's I/O page: no overflow pending. */
    constructor (io: Io.Io)
      ensures this.io == io && Snapshot() == DeviceState(io.Snapshot(), false)
    {
      this.io := io;
      timaOverflow := false;
    }

    method UpdateTimers(cycles: byte)
      modifies this, io, io.timers
      ensures Snapshot() == TimersUpdated(old(Snapshot()), cycles)
    {
      var timaEnabled := Timers.TimaEnabled(io.timers.tac);
      var timaClock := Timers.TimaClock(io.timers.tac);
      if timaOverflow {
        io.RequestInterrupt(Io.Timer);
        timaOverflow := false;
      }
      ghost var io1 := io.Snapshot();
      for i := 0 to cycles
        invariant io.Snapshot() == io1.(timers := io.timers.Snapshot())
        invariant (io.timers.Snapshot(), timaOverflow) == Steps(io1.timers, false, timaEnabled, timaClock, i)
      {
        io.timers.IncSysclk();
        var sysclk := io.timers.sysclk;
        if timaEnabled && sysclk % timaClock == 0 {
          var overflow := io.timers.IncTima();
          timaOverflow := timaOverflow || overflow;
        }
      }
    }

    /**
     * frame: run steps until the frame's cycles are spent. `steps` are the
     * cycle counts the CPU reports, and must add up to a whole frame.
     */
    method Frame(steps: seq<byte>) returns (used: nat)
      requires Sum(steps) >= CycleLimit
      modifies this, io, io.timers
      ensures 0 < used <= |steps|
      ensures Sum(steps[..used]) >= CycleLimit && Sum(steps[..used - 1]) < CycleLimit
      ensures Snapshot() == Run(old(Snapshot()), steps[..used])
    {
      var totalCycles := 0;
      used := 0;
      assert steps[..|steps|] == steps;
      while totalCycles < CycleLimit
        invariant used <= |steps| && totalCycles == Sum(steps[..used])
        invariant used > 0 ==> Sum(steps[..used - 1]) < CycleLimit
        invariant Snapshot() == Run(old(Snapshot()), steps[..used])
        decreases |steps| - used
      {
        var cycles := steps[used];
        UpdateTimers(cycles);
        totalCycles := totalCycles + cycles;
        PrefixStep(old(Snapshot()), steps, used);
        used := used + 1;
      }
    }
  }
}
