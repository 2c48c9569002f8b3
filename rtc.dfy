/**
 * The MBC3 real-time clock: seconds, minutes, hours and a day counter that
 * keep running while the cartridge is off, a latch that copies them into
 * the registers the game reads, and the 21-byte record kept in the save
 * file. Instants are whole seconds since the Unix epoch.
 */
module Rtc {
  import opened Bits

  const U64: nat := 0x1_0000_0000_0000_0000
  type u64 = x: int | 0 <= x < U64

  /** The 512 days the 9-bit day counter covers, in seconds. */
  const Period: nat := 0x200 * 86400

  datatype RtcState = RtcState(
    s: byte, m: byte, h: byte, dl: u16,
    latchedS: byte, latchedM: byte, latchedH: byte, latchedDl: byte, latchedDh: byte,
    lastUpdate: u64, now: u64,
    timerHalt: bool, dayCarry: bool,
    latchState: bool)

  /** new: everything zero, both instants at the epoch. */
  const Initial := RtcState(0, 0, 0, 0, 0, 0, 0, 0, 0, 0, 0, false, false, false)

  /** The time the counters show, in seconds. */
  function Seconds(st: RtcState): nat
  {
    st.s + 60 * st.m + 3600 * st.h + 86400 * st.dl
  }

  /** Every counter below its modulus. */
  predicate InRange(st: RtcState)
  {
    st.s < 60 && st.m < 60 && st.h < 24 && st.dl < 0x200
  }

  lemma InRangeBelowPeriod(st: RtcState)
    requires InRange(st)
    ensures Seconds(st) < Period
  {
  }

  // ---------------------------------------------------------------------
  // Carrying elapsed time through the counters (inc_s, inc_m, inc_h, inc_d)
  // ---------------------------------------------------------------------

  /** `dl += inc as u16` panics when the 16-bit sum overflows. */
  predicate DaysFit(st: RtcState, inc: nat)
  {
    st.dl + inc % 0x1_0000 < 0x1_0000
  }

  /** `inc + h` is a u64 sum, and the days it carries must fit. */
  predicate HoursFit(st: RtcState, inc: nat)
  {
    inc + st.h < U64 && DaysFit(st, (inc + st.h) / 24)
  }

  predicate MinutesFit(st: RtcState, inc: nat)
  {
    inc + st.m < U64 && HoursFit(st, (inc + st.m) / 60)
  }

  predicate SecondsFit(st: RtcState, inc: nat)
  {
    inc + st.s < U64 && MinutesFit(st, (inc + st.s) / 60)
  }

  /** Whole days that adding inc seconds carries into the day counter. */
  function CarryDays(st: RtcState, inc: nat): nat
  {
    (((inc + st.s) / 60 + st.m) / 60 + st.h) / 24
  }

  /** inc_d, with the day counter wrapping at 512 days. */
  function AddDays(st: RtcState, inc: nat): (r: RtcState)
    requires DaysFit(st, inc)
    ensures r.dl < 0x200
    ensures r.dayCarry <==> st.dayCarry || st.dl + inc % 0x1_0000 > 0x1FF
    ensures r == st.(dl := r.dl, dayCarry := r.dayCarry)
  {
    var d := st.dl + inc % 0x1_0000;
    if d > 0x1FF then st.(dl := d % 0x200, dayCarry := true) else st.(dl := d)
  }

  /** inc_d as written: the remainder is taken modulo 0x1FF, not 512. */
  function AddDaysAsWritten(st: RtcState, inc: nat): RtcState
    requires DaysFit(st, inc)
  {
    var d := st.dl + inc % 0x1_0000;
    if d > 0x1FF then st.(dl := d % 0x1FF, dayCarry := true) else st.(dl := d)
  }

  function AddHours(st: RtcState, inc: nat): (r: RtcState)
    requires HoursFit(st, inc)
    ensures r.h < 24 && r.dl < 0x200
    ensures r == st.(h := r.h, dl := r.dl, dayCarry := r.dayCarry)
  {
    var days := (inc + st.h) / 24;
    AddDays(st.(h := inc + st.h - days * 24), days)
  }

  function AddMinutes(st: RtcState, inc: nat): (r: RtcState)
    requires MinutesFit(st, inc)
    ensures r.m < 60 && r.h < 24 && r.dl < 0x200
    ensures r == st.(m := r.m, h := r.h, dl := r.dl, dayCarry := r.dayCarry)
  {
    var hours := (inc + st.m) / 60;
    AddHours(st.(m := inc + st.m - hours * 60), hours)
  }

  function AddSeconds(st: RtcState, inc: nat): (r: RtcState)
    requires SecondsFit(st, inc)
    ensures InRange(r)
    ensures r == st.(s := r.s, m := r.m, h := r.h, dl := r.dl, dayCarry := r.dayCarry)
  {
    var minutes := (inc + st.s) / 60;
    AddMinutes(st.(s := inc + st.s - minutes * 60), minutes)
  }

  /** Carrying through 60 seconds, 60 minutes and 24 hours loses no time. */
  lemma CarriesTelescope(inc: nat, s: nat, m: nat, h: nat, dl: nat)
    ensures var a := inc + s; var b := a / 60 + m; var c := b / 60 + h;
      inc + s + 60 * m + 3600 * h + 86400 * dl ==
      86400 * (dl + c / 24) + a % 60 + 60 * (b % 60) + 3600 * (c % 24)
  {
  }

  /** The counters after adding inc seconds, digit by digit. */
  lemma AddSecondsDigits(st: RtcState, inc: nat)
    requires SecondsFit(st, inc)
    ensures var a := inc + st.s; var b := a / 60 + st.m; var c := b / 60 + st.h;
      var d := st.dl + (c / 24) % 0x1_0000; var r := AddSeconds(st, inc);
      r.s == a % 60 && r.m == b % 60 && r.h == c % 24 &&
      r.dl == (if d > 0x1FF then d % 0x200 else d) &&
      (r.dayCarry <==> st.dayCarry || d > 0x1FF)
  {
  }

  /** Splitting a day count at 512 days. */
  lemma WrapDays(total: nat, rest: nat, d: nat)
    requires rest < 86400 && total == 86400 * d + rest
    ensures total % Period == rest + 86400 * (if d > 0x1FF then d % 0x200 else d)
    ensures d > 0x1FF <==> total >= Period
  {
    var q, dr := d / 0x200, d % 0x200;
    assert 86400 * d == 44236800 * q + 86400 * dr;
    DivisionUnique(total, Period, q, rest + 86400 * dr);
  }

  /**
   * Adding inc seconds advances the clock by inc seconds modulo 512 days,
   * and the day-carry flag is raised exactly when the sum reaches 512 days
   * (as long as the days carried fit the 16-bit counter, so that the
   * `as u16` truncation does not bite).
   */
  lemma AddSecondsKeepsTime(st: RtcState, inc: nat)
    requires SecondsFit(st, inc) && CarryDays(st, inc) < 0x1_0000
    ensures Seconds(AddSeconds(st, inc)) == (Seconds(st) + inc) % Period
    ensures AddSeconds(st, inc).dayCarry <==> st.dayCarry || Seconds(st) + inc >= Period
  {
    AddSecondsDigits(st, inc);
    DigitsKeepTime(st, inc, AddSeconds(st, inc));
  }

  /** Counters that hold the digits of the sum show the sum modulo 512 days. */
  lemma DigitsKeepTime(st: RtcState, inc: nat, r: RtcState)
    requires CarryDays(st, inc) < 0x1_0000
    requires var a := inc + st.s; var b := a / 60 + st.m; var c := b / 60 + st.h;
      var d := st.dl + (c / 24) % 0x1_0000;
      r.s == a % 60 && r.m == b % 60 && r.h == c % 24 &&
      r.dl == (if d > 0x1FF then d % 0x200 else d) &&
      (r.dayCarry <==> st.dayCarry || d > 0x1FF)
    ensures Seconds(r) == (Seconds(st) + inc) % Period
    ensures r.dayCarry <==> st.dayCarry || Seconds(st) + inc >= Period
  {
    var a := inc + st.s;
    var b := a / 60 + st.m;
    var c := b / 60 + st.h;
    var d := st.dl + c / 24;
    var rest := a % 60 + 60 * (b % 60) + 3600 * (c % 24);
    CarriesTelescope(inc, st.s, st.m, st.h, st.dl);
    ModUnique(c / 24, 0x1_0000, 0, c / 24);
    var wrapped := if d > 0x1FF then d % 0x200 else d;
    assert r.dl == wrapped;
    assert Seconds(r) == rest + 86400 * wrapped;
    WrapDays(Seconds(st) + inc, rest, d);
  }

  /**
   * Finding: with the day counter at 511 and the clock at 23:59:59, one
   * more second should read as day 0, 00:00:00; the remainder by 0x1FF
   * leaves day 1 instead, a whole day ahead.
   */
  lemma DayWrapAsWrittenIsOneDayAhead()
    ensures AddDaysAsWritten(Initial.(dl := 0x1FF), 1).dl == 1
    ensures AddDays(Initial.(dl := 0x1FF), 1).dl == 0
    ensures Seconds(AddDaysAsWritten(Initial.(dl := 0x1FF), 1)) == Seconds(AddDays(Initial.(dl := 0x1FF), 1)) + 86400
  {
    var st := Initial.(dl := 0x1FF);
    assert st.dl + 1 % 0x1_0000 == 0x200;
    assert 0x200 % 0x1FF == 1 && 0x200 % 0x200 == 0;
    assert AddDaysAsWritten(st, 1) == st.(dl := 1, dayCarry := true);
    assert AddDays(st, 1) == st.(dl := 0, dayCarry := true);
  }

  // ---------------------------------------------------------------------
  // update_timer, update_now
  // ---------------------------------------------------------------------

  /**
   * update_timer panics when `now` is before the last update, or when the
   * carry overflows one of its u64 or u16 sums.
   */
  predicate CanUpdate(st: RtcState)
  {
    st.timerHalt ||
    (st.lastUpdate <= st.now &&
     (st.now - st.lastUpdate > 0 ==> SecondsFit(st, st.now - st.lastUpdate)))
  }

  /** update_timer: a running clock absorbs the whole seconds since its last update. */
  function Updated(st: RtcState): (r: RtcState)
    requires CanUpdate(st)
    ensures st.timerHalt ==> r == st
    ensures !st.timerHalt ==> r.lastUpdate == st.now
  {
    if st.timerHalt then st
    else
      var elapsed := st.now - st.lastUpdate;
      if elapsed > 0 then AddSeconds(st, elapsed).(lastUpdate := st.now) else st
  }

  /**
   * A running clock whose counters are in range shows, after an update,
   * the old time plus the seconds elapsed, modulo 512 days.
   */
  lemma UpdatedKeepsTime(st: RtcState)
    requires CanUpdate(st) && InRange(st) && !st.timerHalt
    requires CarryDays(st, st.now - st.lastUpdate) < 0x1_0000
    ensures InRange(Updated(st))
    ensures Seconds(Updated(st)) == (Seconds(st) + (st.now - st.lastUpdate)) % Period
  {
    InRangeBelowPeriod(st);
    if st.now - st.lastUpdate > 0 {
      AddSecondsKeepsTime(st, st.now - st.lastUpdate);
    }
  }

  /** A second update at the same instant changes nothing. */
  lemma UpdatedIdempotent(st: RtcState)
    requires CanUpdate(st)
    ensures CanUpdate(Updated(st)) && Updated(Updated(st)) == Updated(st)
  {
  }

  // ---------------------------------------------------------------------
  // Latching
  // ---------------------------------------------------------------------

  /**
   * latched_dh: bit 0 is bit 8 of the day counter, bit 6 the halt flag and
   * bit 7 the day carry; the three ORs touch disjoint bits, so they add.
   */
  function LatchedDh(dl: u16, halt: bool, carry: bool): (r: byte)
    ensures r == (dl / 0x100) % 2 + (if halt then 0x40 else 0) + (if carry then 0x80 else 0)
  {
    Pow2Byte();
    var day8 := (dl / 0x100) % 2;
    var haltBit := if halt then 0x40 else 0;
    var carryBit := if carry then 0x80 else 0;
    var withHalt := Or8(day8, haltBit);
    OrCommutes(day8, haltBit, 8);
    OrDisjoint(haltBit, day8, 8, 1);
    var r := Or8(withHalt, carryBit);
    OrCommutes(withHalt, carryBit, 8);
    OrDisjoint(carryBit, withHalt, 8, 7);
    r
  }

  /** The fields of a DH byte built from day bit 8, the halt flag and the carry. */
  lemma DhFields(x: nat, day8: nat, halt: bool, carry: bool)
    requires day8 < 2 && x == day8 + (if halt then 0x40 else 0) + (if carry then 0x80 else 0)
    ensures x % 2 == day8
    ensures (x / 0x40) % 2 == 1 <==> halt
    ensures x / 0x80 == 1 <==> carry
  {
    if halt {
      if carry { assert x == day8 + 0xC0; } else { assert x == day8 + 0x40; }
    } else {
      if carry { assert x == day8 + 0x80; } else { assert x == day8; }
    }
  }

  /** Keeping bits 7, 6 and 0 of a byte, written bit by bit. */
  lemma DhMaskSplit(value: byte)
    ensures (value / 0x40) * 0x40 + value % 2 ==
      value % 2 + (if (value / 0x40) % 2 == 1 then 0x40 else 0) + (if value / 0x80 == 1 then 0x80 else 0)
  {
    var q := value / 0x40;
    assert q < 4;
    assert value / 0x80 == q / 2;
  }

  /** `0b11000000 | x` and `0b11100000 | x` add when x is below the mask. */
  lemma OrHighBits(x: byte)
    ensures x < 0x40 ==> Or8(0xC0, x) == 0xC0 + x
    ensures x < 0x20 ==> Or8(0xE0, x) == 0xE0 + x
  {
    Pow2Byte();
    if x < 0x40 {
      OrDisjoint(0xC0, x, 8, 6);
    }
    if x < 0x20 {
      OrDisjoint(0xE0, x, 8, 5);
    }
  }

  /** latch_registers: update, then copy the counters with their unused bits set. */
  function Latch(st: RtcState): (r: RtcState)
    requires CanUpdate(st)
    ensures r == Updated(st).(latchedS := r.latchedS, latchedM := r.latchedM, latchedH := r.latchedH,
                              latchedDl := r.latchedDl, latchedDh := r.latchedDh)
  {
    Copied(Updated(st))
  }

  /** The copies latch_registers takes of the counters it has just updated. */
  function Copied(u: RtcState): RtcState
  {
    u.(latchedS := Or8(0xC0, u.s), latchedM := Or8(0xC0, u.m), latchedH := Or8(0xE0, u.h),
       latchedDl := u.dl % 0x100, latchedDh := LatchedDh(u.dl, u.timerHalt, u.dayCarry))
  }

  /**
   * The copies spell out counters that are in range: clearing the
   * always-set high bits gives seconds, minutes and hours back, the day
   * counter is split over DL and bit 0 of DH, and bits 6 and 7 of DH are
   * the halt and carry flags.
   */
  lemma CopiedShowsCounters(u: RtcState)
    requires InRange(u)
    ensures var r := Copied(u);
      r.latchedS == 0xC0 + u.s && r.latchedM == 0xC0 + u.m && r.latchedH == 0xE0 + u.h &&
      r.latchedDl + 0x100 * (r.latchedDh % 2) == u.dl &&
      ((r.latchedDh / 0x40) % 2 == 1 <==> u.timerHalt) &&
      (r.latchedDh / 0x80 == 1 <==> u.dayCarry)
  {
    CopiedShowsTime(u);
    CopiedShowsDays(u);
  }

  /** The seconds, minutes and hours copies are the counters with their unused bits set. */
  lemma CopiedShowsTime(u: RtcState)
    requires InRange(u)
    ensures var r := Copied(u);
      r.latchedS == 0xC0 + u.s && r.latchedM == 0xC0 + u.m && r.latchedH == 0xE0 + u.h
  {
    OrHighBits(u.s);
    OrHighBits(u.m);
    OrHighBits(u.h);
  }

  /** DL, bit 0 of DH and bits 6 and 7 of DH hold the day counter and the two flags. */
  lemma CopiedShowsDays(u: RtcState)
    requires InRange(u)
    ensures var r := Copied(u);
      r.latchedDl + 0x100 * (r.latchedDh % 2) == u.dl &&
      ((r.latchedDh / 0x40) % 2 == 1 <==> u.timerHalt) &&
      (r.latchedDh / 0x80 == 1 <==> u.dayCarry)
  {
    var dh := LatchedDh(u.dl, u.timerHalt, u.dayCarry);
    var high := u.dl / 0x100;
    assert high < 2;
    ModUnique(high, 2, 0, high);
    DhFields(dh, high, u.timerHalt, u.dayCarry);
  }

  /** Latching a clock whose counters are in range shows the updated counters. */
  lemma LatchShowsCounters(st: RtcState)
    requires CanUpdate(st) && InRange(st)
    ensures var u, r := Updated(st), Latch(st);
      r.latchedS == 0xC0 + u.s && r.latchedM == 0xC0 + u.m && r.latchedH == 0xE0 + u.h &&
      r.latchedDl + 0x100 * (r.latchedDh % 2) == u.dl &&
      ((r.latchedDh / 0x40) % 2 == 1 <==> u.timerHalt) &&
      (r.latchedDh / 0x80 == 1 <==> u.dayCarry)
  {
    var u := Updated(st);
    assert InRange(u);
    CopiedShowsCounters(u);
  }

  /** update_latch_state: a write of 0 arms the latch, the next write of 1 fires it. */
  function LatchWrite(st: RtcState, value: byte): (r: RtcState)
    requires st.latchState && value == 1 ==> CanUpdate(st)
    ensures !(st.latchState && value == 1) ==> r.(latchState := st.latchState) == st
    ensures r.latchState <==> (st.latchState && value != 1) || (!st.latchState && value == 0)
  {
    if !st.latchState && value == 0 then st.(latchState := true)
    else if st.latchState && value == 1 then Latch(st.(latchState := false))
    else st
  }

  /** Writing 0 then 1 to the latch register latches the counters and disarms the latch. */
  lemma ZeroThenOneLatches(st: RtcState)
    requires !st.latchState && CanUpdate(st)
    ensures LatchWrite(LatchWrite(st, 0), 1) == Latch(st)
    ensures !LatchWrite(LatchWrite(st, 0), 1).latchState
  {
    assert LatchWrite(st, 0).(latchState := false) == st;
  }

  // ---------------------------------------------------------------------
  // Register reads and writes
  // ---------------------------------------------------------------------

  /** read: registers 0x08-0x0C give the latched copies; any other register reads 0. */
  function Read(st: RtcState, add: byte): (r: byte)
    ensures add == 0x08 ==> r == st.latchedS
    ensures add == 0x0C ==> r == st.latchedDh
    ensures !(0x08 <= add <= 0x0C) ==> r == 0
  {
    match add
    case 0x08 => st.latchedS
    case 0x09 => st.latchedM
    case 0x0A => st.latchedH
    case 0x0B => st.latchedDl
    case 0x0C => st.latchedDh
    case _ => 0
  }

  /** The writes that run update_timer, and so can panic. */
  predicate WriteRuns(st: RtcState, add: byte, value: byte)
  {
    (0x08 <= add <= 0x0C || (add == 0x0D && st.latchState && value == 1)) ==> CanUpdate(st)
  }

  /**
   * write_dh: keeps bits 7, 6 and 0 of the value; bit 6 halts the timer,
   * bit 7 is the day carry and bit 0 becomes bit 8 of the day counter.
   */
  function DhWritten(st: RtcState, value: byte): (r: RtcState)
    ensures r.latchedDh == (value / 0x40) * 0x40 + value % 2
    ensures r.timerHalt <==> (value / 0x40) % 2 == 1
    ensures r.dayCarry <==> value / 0x80 == 1
    ensures r.dl % 0x100 == st.dl % 0x100 && (r.dl / 0x100) % 2 == value % 2
    ensures r == st.(latchedDh := r.latchedDh, timerHalt := r.timerHalt, dayCarry := r.dayCarry, dl := r.dl)
  {
    var dh := (value / 0x40) * 0x40 + value % 2;
    var dl: u16 :=
      if dh % 2 == 1 then
        if (st.dl / 0x100) % 2 == 1 then st.dl else st.dl + 0x100
      else st.dl % 0x100;
    st.(latchedDh := dh, timerHalt := (dh / 0x40) % 2 == 1, dayCarry := (dh / 0x80) % 2 == 1, dl := dl)
  }

  /** write_dh as written: the day carry is read through mask 0x60 (bits 5 and 6). */
  function DhWrittenAsWritten(st: RtcState, value: byte): RtcState
  {
    var dh := (value / 0x40) * 0x40 + value % 2;
    var dl: u16 :=
      if dh % 2 == 1 then
        if (st.dl / 0x100) % 2 == 1 then st.dl else st.dl + 0x100
      else st.dl % 0x100;
    st.(latchedDh := dh, timerHalt := (dh / 0x40) % 2 == 1, dayCarry := (dh / 0x20) % 4 != 0, dl := dl)
  }

  /** write: registers 0x08-0x0C update the timer, then set a counter; 0x0D drives the latch. */
  function Written(st: RtcState, add: byte, value: byte): (r: RtcState)
    requires WriteRuns(st, add, value)
    ensures add == 0x08 ==> r.s == value % 0x40
    ensures add == 0x09 ==> r.m == value % 0x40
    ensures add == 0x0A ==> r.h == value % 0x20
    ensures add == 0x0B ==> r.dl == value
    ensures !(0x08 <= add <= 0x0D) ==> r == st
  {
    match add
    case 0x08 => var u := Updated(st); u.(s := value % 0x40, latchedS := Or8(0xC0, value % 0x40))
    case 0x09 => var u := Updated(st); u.(m := value % 0x40, latchedM := Or8(0xC0, value % 0x40))
    case 0x0A => var u := Updated(st); u.(h := value % 0x20, latchedH := Or8(0xE0, value % 0x20))
    case 0x0B => var u := Updated(st); u.(dl := value, latchedDl := value)
    case 0x0C => DhWritten(Updated(st), value)
    case 0x0D => LatchWrite(st, value)
    case _ => st
  }

  /** A counter written through 0x08-0x0B reads back, masked, with its unused bits set. */
  lemma WriteThenRead(st: RtcState, add: byte, value: byte)
    requires 0x08 <= add <= 0x0B && WriteRuns(st, add, value)
    ensures Read(Written(st, add, value), add) ==
      match add
      case 0x08 => 0xC0 + value % 0x40
      case 0x09 => 0xC0 + value % 0x40
      case 0x0A => 0xE0 + value % 0x20
      case _ => value
  {
    OrHighBits(value % 0x40);
    OrHighBits(value % 0x20);
  }

  /**
   * Bits 7, 6 and 0 written to DH come back on the next latch, provided the
   * clock does not advance in between.
   */
  lemma WriteDhThenLatch(st: RtcState, value: byte)
    requires CanUpdate(st) && (!st.timerHalt || st.lastUpdate == st.now)
    ensures CanUpdate(Written(st, 0x0C, value))
    ensures Latch(Written(st, 0x0C, value)).latchedDh == (value / 0x40) * 0x40 + value % 2
  {
    var u := Updated(st);
    var w := Written(st, 0x0C, value);
    assert w == DhWritten(u, value);
    assert w.timerHalt || w.lastUpdate == w.now;
    assert Updated(w) == w;
    assert Latch(w).latchedDh == LatchedDh(w.dl, w.timerHalt, w.dayCarry);
    DhMaskSplit(value);
    DhFields((value / 0x40) * 0x40 + value % 2, value % 2, w.timerHalt, w.dayCarry);
  }

  /**
   * Finding: writing DH with bit 7 set should raise the day carry, and a
   * halt (bit 6) should not; mask 0x60 gets both wrong, so the carry bit
   * written is lost on the next latch.
   */
  lemma DayCarryMaskAsWritten()
    ensures !DhWrittenAsWritten(Initial, 0x80).dayCarry && DhWritten(Initial, 0x80).dayCarry
    ensures DhWrittenAsWritten(Initial, 0x40).dayCarry && !DhWritten(Initial, 0x40).dayCarry
    ensures Latch(DhWrittenAsWritten(Initial, 0x80)).latchedDh == 0
    ensures Latch(DhWritten(Initial, 0x80)).latchedDh == 0x80
  {
    assert DhWrittenAsWritten(Initial, 0x40) == Initial.(latchedDh := 0x40, timerHalt := true, dayCarry := true);
    assert DhWritten(Initial, 0x40) == Initial.(latchedDh := 0x40, timerHalt := true);
    var w := DhWrittenAsWritten(Initial, 0x80);
    assert w == Initial.(latchedDh := 0x80);
    assert Updated(w) == w;
    assert Latch(w).latchedDh == LatchedDh(0, false, false);
    var c := DhWritten(Initial, 0x80);
    assert c == Initial.(latchedDh := 0x80, dayCarry := true);
    assert Updated(c) == c;
    assert Latch(c).latchedDh == LatchedDh(0, false, true);
  }

  // ---------------------------------------------------------------------
  // The save record (serialize, deserialize)
  // ---------------------------------------------------------------------

  function Flag(b: bool): byte
  {
    if b then 1 else 0
  }

  /**
   * serialize: the counters, the latched registers, the last update as a
   * little-endian u64 in bytes 10-17, then the three flags.
   */
  function Encode(st: RtcState): (r: seq<byte>)
    ensures |r| == 21
  {
    var t := st.lastUpdate;
    [st.s, st.m, st.h, st.dl % 0x100, st.dl / 0x100,
     st.latchedS, st.latchedM, st.latchedH, st.latchedDl, st.latchedDh,
     t % 0x100, (t / 0x100) % 0x100, (t / 0x1_0000) % 0x100, (t / 0x100_0000) % 0x100,
     (t / 0x1_0000_0000) % 0x100, (t / 0x100_0000_0000) % 0x100,
     (t / 0x1_0000_0000_0000) % 0x100, (t / 0x100_0000_0000_0000) % 0x100,
     Flag(st.timerHalt), Flag(st.dayCarry), Flag(st.latchState)]
  }

  /** The little-endian u64 in data[10..18]; the shifted bytes are disjoint, so the ORs add. */
  function Unix(data: seq<byte>): (r: u64)
    requires |data| >= 18
  {
    data[17] as int * 0x100_0000_0000_0000 + data[16] as int * 0x1_0000_0000_0000 +
    data[15] as int * 0x100_0000_0000 + data[14] as int * 0x1_0000_0000 +
    data[13] as int * 0x100_0000 + data[12] as int * 0x1_0000 + data[11] as int * 0x100 + data[10]
  }

  /**
   * deserialize: indexing panics on a record shorter than 21 bytes; a flag
   * is set only by the byte 1; the clock resumes from the saved instant.
   */
  function Deserialize(data: seq<byte>): (r: RtcState)
    requires |data| >= 21
    ensures r.now == r.lastUpdate
    ensures r.dl % 0x100 == data[3] && r.dl / 0x100 == data[4]
  {
    var t := Unix(data);
    RtcState(data[0], data[1], data[2], data[4] as int * 0x100 + data[3],
             data[5], data[6], data[7], data[8], data[9],
             t, t, data[18] == 1, data[19] == 1, data[20] == 1)
  }

  /** Dividing by p and then by 256 is dividing by 256p. */
  lemma DivideTwice(t: nat, p: nat)
    requires p > 0
    ensures t / (p * 0x100) == (t / p) / 0x100
  {
    var q := t / p;
    var r1 := t % p;
    var q2 := q / 0x100;
    var r2 := q % 0x100;
    assert t == p * q + r1;
    assert q == 0x100 * q2 + r2;
    assert t == (p * 0x100) * q2 + (p * r2 + r1);
    MulMonotone(p, r2, 0xFF);
    DivisionUnique(t, p * 0x100, q2, p * r2 + r1);
  }

  /** A u64 is the sum of its eight bytes, each in its place. */
  lemma Bytes64(t: u64)
    ensures t == t % 0x100 + 0x100 * ((t / 0x100) % 0x100) + 0x1_0000 * ((t / 0x1_0000) % 0x100) +
      0x100_0000 * ((t / 0x100_0000) % 0x100) + 0x1_0000_0000 * ((t / 0x1_0000_0000) % 0x100) +
      0x100_0000_0000 * ((t / 0x100_0000_0000) % 0x100) +
      0x1_0000_0000_0000 * ((t / 0x1_0000_0000_0000) % 0x100) +
      0x100_0000_0000_0000 * ((t / 0x100_0000_0000_0000) % 0x100)
  {
    DivideTwice(t, 0x100);
    DivideTwice(t, 0x1_0000);
    DivideTwice(t, 0x100_0000);
    DivideTwice(t, 0x1_0000_0000);
    DivideTwice(t, 0x100_0000_0000);
    DivideTwice(t, 0x1_0000_0000_0000);
    var t1 := t / 0x100;
    var t2 := t1 / 0x100;
    var t3 := t2 / 0x100;
    var t4 := t3 / 0x100;
    var t5 := t4 / 0x100;
    var t6 := t5 / 0x100;
    var t7 := t6 / 0x100;
    assert t7 < 0x100;
    assert t6 == t7 * 0x100 + t6 % 0x100;
    assert t5 == t6 * 0x100 + t5 % 0x100;
    assert t4 == t5 * 0x100 + t4 % 0x100;
    assert t3 == t4 * 0x100 + t3 % 0x100;
    assert t2 == t3 * 0x100 + t2 % 0x100;
    assert t1 == t2 * 0x100 + t1 % 0x100;
    assert t == t1 * 0x100 + t % 0x100;
  }

  /** The last update is the sum of the eight bytes the record stores for it. */
  lemma UnixOfEncode(st: RtcState)
    ensures Unix(Encode(st)) == st.lastUpdate
  {
    Bytes64(st.lastUpdate);
  }

  /** Saving and then restoring gives the clock back, resumed at its last update. */
  lemma DeserializeEncode(st: RtcState)
    ensures Deserialize(Encode(st)) == st.(now := st.lastUpdate)
  {
    UnixOfEncode(st);
    var e := Encode(st);
    assert e[4] as int * 0x100 + e[3] == st.dl;
  }

  /** Byte k of t, when t is hi, then b, then lo below place p. */
  lemma DigitOf(t: nat, p: nat, hi: nat, b: nat, lo: nat)
    requires p > 0 && b < 0x100 && lo < p && t == p * (0x100 * hi + b) + lo
    ensures (t / p) % 0x100 == b
  {
    DivisionUnique(t, p, 0x100 * hi + b, lo);
  }

  /** Each byte of the stored last update is recovered from the u64 it makes. */
  lemma UnixDigits(data: seq<byte>)
    requires |data| >= 18
    ensures var t := Unix(data);
      t % 0x100 == data[10] && (t / 0x100) % 0x100 == data[11] &&
      (t / 0x1_0000) % 0x100 == data[12] && (t / 0x100_0000) % 0x100 == data[13] &&
      (t / 0x1_0000_0000) % 0x100 == data[14] && (t / 0x100_0000_0000) % 0x100 == data[15] &&
      (t / 0x1_0000_0000_0000) % 0x100 == data[16] && (t / 0x100_0000_0000_0000) % 0x100 == data[17]
  {
    var t := Unix(data);
    var b0: int, b1: int, b2: int, b3: int := data[10], data[11], data[12], data[13];
    var b4: int, b5: int, b6: int, b7: int := data[14], data[15], data[16], data[17];
    DigitOf(t, 1, b7 * 0x1_0000_0000_0000 + b6 * 0x100_0000_0000 + b5 * 0x1_0000_0000 +
      b4 * 0x100_0000 + b3 * 0x1_0000 + b2 * 0x100 + b1, b0, 0);
    DigitOf(t, 0x100, b7 * 0x100_0000_0000 + b6 * 0x1_0000_0000 + b5 * 0x100_0000 +
      b4 * 0x1_0000 + b3 * 0x100 + b2, b1, b0);
    DigitOf(t, 0x1_0000, b7 * 0x1_0000_0000 + b6 * 0x100_0000 + b5 * 0x1_0000 +
      b4 * 0x100 + b3, b2, b1 * 0x100 + b0);
    DigitOf(t, 0x100_0000, b7 * 0x100_0000 + b6 * 0x1_0000 + b5 * 0x100 + b4, b3,
      b2 * 0x1_0000 + b1 * 0x100 + b0);
    DigitOf(t, 0x1_0000_0000, b7 * 0x1_0000 + b6 * 0x100 + b5, b4,
      b3 * 0x100_0000 + b2 * 0x1_0000 + b1 * 0x100 + b0);
    DigitOf(t, 0x100_0000_0000, b7 * 0x100 + b6, b5,
      b4 * 0x1_0000_0000 + b3 * 0x100_0000 + b2 * 0x1_0000 + b1 * 0x100 + b0);
    DigitOf(t, 0x1_0000_0000_0000, b7, b6,
      b5 * 0x100_0000_0000 + b4 * 0x1_0000_0000 + b3 * 0x100_0000 + b2 * 0x1_0000 + b1 * 0x100 + b0);
    DigitOf(t, 0x100_0000_0000_0000, 0, b7,
      b6 * 0x1_0000_0000_0000 + b5 * 0x100_0000_0000 + b4 * 0x1_0000_0000 + b3 * 0x100_0000 +
      b2 * 0x1_0000 + b1 * 0x100 + b0);
  }

  /** Restoring and then saving gives back any record whose flag bytes are 0 or 1. */
  lemma EncodeDeserialize(data: seq<byte>)
    requires |data| == 21 && data[18] <= 1 && data[19] <= 1 && data[20] <= 1
    ensures Encode(Deserialize(data)) == data
  {
    UnixDigits(data);
    var e := Encode(Deserialize(data));
    assert forall i | 0 <= i < 21 :: e[i] == data[i];
  }

  // ---------------------------------------------------------------------
  // The clock as the cartridge holds it
  // ---------------------------------------------------------------------

  class Clock {
    var s: byte
    var m: byte
    var h: byte
    var dl: u16
    var latchedS: byte
    var latchedM: byte
    var latchedH: byte
    var latchedDl: byte
    var latchedDh: byte
    var lastUpdate: u64
    var now: u64
    var timerHalt: bool
    var dayCarry: bool
    var latchState: bool

    function Snapshot(): RtcState
      reads this
    {
      RtcState(s, m, h, dl, latchedS, latchedM, latchedH, latchedDl, latchedDh,
               lastUpdate, now, timerHalt, dayCarry, latchState)
    }

    constructor ()
      ensures Snapshot() == Initial
    {
      s, m, h, dl := 0, 0, 0, 0;
      latchedS, latchedM, latchedH, latchedDl, latchedDh := 0, 0, 0, 0, 0;
      lastUpdate, now := 0, 0;
      timerHalt, dayCarry, latchState := false, false, false;
    }

    /** deserialize */
    constructor Restore(data: seq<byte>)
      requires |data| >= 21
      ensures Snapshot() == Deserialize(data)
    {
      var t := Unix(data);
      s, m, h, dl := data[0], data[1], data[2], data[4] as int * 0x100 + data[3];
      latchedS, latchedM, latchedH, latchedDl, latchedDh := data[5], data[6], data[7], data[8], data[9];
      lastUpdate, now := t, t;
      timerHalt, dayCarry, latchState := data[18] == 1, data[19] == 1, data[20] == 1;
    }

    method UpdateTimer()
      requires CanUpdate(Snapshot())
      modifies this
      ensures Snapshot() == Updated(old(Snapshot()))
    {
      if !timerHalt {
        var elapsed := now - lastUpdate;
        if elapsed > 0 {
          IncS(elapsed);
          lastUpdate := now;
        }
      }
    }

    /** update_now: the host's clock, in seconds since the epoch. */
    method UpdateNow(elapsedSecs: u64)
      modifies this
      ensures Snapshot() == old(Snapshot()).(now := elapsedSecs)
    {
      now := elapsedSecs;
    }

    method IncS(inc: u64)
      requires SecondsFit(Snapshot(), inc)
      modifies this
      ensures Snapshot() == AddSeconds(old(Snapshot()), inc)
    {
      var minutes := (inc + s) / 60;
      s := inc + s - minutes * 60;
      IncM(minutes);
    }

    method IncM(inc: u64)
      requires MinutesFit(Snapshot(), inc)
      modifies this
      ensures Snapshot() == AddMinutes(old(Snapshot()), inc)
    {
      var hours := (inc + m) / 60;
      m := inc + m - hours * 60;
      IncH(hours);
    }

    method IncH(inc: u64)
      requires HoursFit(Snapshot(), inc)
      modifies this
      ensures Snapshot() == AddHours(old(Snapshot()), inc)
    {
      var days := (inc + h) / 24;
      h := inc + h - days * 24;
      IncD(days);
    }

    /** inc_d, with the wrap at 512 days rather than the remainder by 0x1FF. */
    method IncD(inc: u64)
      requires DaysFit(Snapshot(), inc)
      modifies this
      ensures Snapshot() == AddDays(old(Snapshot()), inc)
    {
      dl := dl + inc % 0x1_0000;
      if dl > 0x1FF {
        dl := dl % 0x200;
        dayCarry := true;
      }
    }

    method UpdateLatchState(value: byte)
      requires latchState && value == 1 ==> CanUpdate(Snapshot())
      modifies this
      ensures Snapshot() == LatchWrite(old(Snapshot()), value)
    {
      if !latchState && value == 0 {
        latchState := true;
      } else if latchState && value == 1 {
        latchState := false;
        LatchRegisters();
      }
    }

    method LatchRegisters()
      requires CanUpdate(Snapshot())
      modifies this
      ensures Snapshot() == Latch(old(Snapshot()))
    {
      UpdateTimer();
      CopyCounters();
    }

    method CopyCounters()
      modifies this
      ensures Snapshot() == Copied(old(Snapshot()))
    {
      CopySeconds();
      CopyMinutes();
      CopyHours();
      CopyDays();
    }

    /** The seconds copy, bits 6 and 7 set. */
    method CopySeconds()
      modifies this
      ensures Snapshot() == old(Snapshot()).(latchedS := Or8(0xC0, s))
    {
      latchedS := Or8(0xC0, s);
    }

    /** The minutes copy, bits 6 and 7 set. */
    method CopyMinutes()
      modifies this
      ensures Snapshot() == old(Snapshot()).(latchedM := Or8(0xC0, m))
    {
      latchedM := Or8(0xC0, m);
    }

    /** The hours copy, bits 5 to 7 set. */
    method CopyHours()
      modifies this
      ensures Snapshot() == old(Snapshot()).(latchedH := Or8(0xE0, h))
    {
      latchedH := Or8(0xE0, h);
    }

    /** The two day-counter copies. */
    method CopyDays()
      modifies this
      ensures Snapshot() == old(Snapshot()).(latchedDl := dl % 0x100,
                                             latchedDh := LatchedDh(dl, timerHalt, dayCarry))
    {
      latchedDl := dl % 0x100;
      latchedDh := LatchedDh(dl, timerHalt, dayCarry);
    }

    method Write(add: byte, value: byte)
      requires WriteRuns(Snapshot(), add, value)
      modifies this
      ensures Snapshot() == Written(old(Snapshot()), add, value)
    {
      match add
      case 0x08 => WriteS(value);
      case 0x09 => WriteM(value);
      case 0x0A => WriteH(value);
      case 0x0B => WriteDl(value);
      case 0x0C => WriteDh(value);
      case 0x0D => UpdateLatchState(value);
      case _ =>
    }

    method WriteS(value: byte)
      requires CanUpdate(Snapshot())
      modifies this
      ensures Snapshot() == Written(old(Snapshot()), 0x08, value)
    {
      UpdateTimer();
      s := value % 0x40;
      latchedS := Or8(0xC0, s);
    }

    method WriteM(value: byte)
      requires CanUpdate(Snapshot())
      modifies this
      ensures Snapshot() == Written(old(Snapshot()), 0x09, value)
    {
      UpdateTimer();
      m := value % 0x40;
      latchedM := Or8(0xC0, m);
    }

    method WriteH(value: byte)
      requires CanUpdate(Snapshot())
      modifies this
      ensures Snapshot() == Written(old(Snapshot()), 0x0A, value)
    {
      UpdateTimer();
      h := value % 0x20;
      latchedH := Or8(0xE0, h);
    }

    method WriteDl(value: byte)
      requires CanUpdate(Snapshot())
      modifies this
      ensures Snapshot() == Written(old(Snapshot()), 0x0B, value)
    {
      UpdateTimer();
      dl := value;
      latchedDl := value;
    }

    /** write_dh, with the day carry taken from bit 7. */
    method WriteDh(value: byte)
      requires CanUpdate(Snapshot())
      modifies this
      ensures Snapshot() == Written(old(Snapshot()), 0x0C, value)
    {
      UpdateTimer();
      latchedDh := (value / 0x40) * 0x40 + value % 2;
      timerHalt := (latchedDh / 0x40) % 2 == 1;
      dayCarry := (latchedDh / 0x80) % 2 == 1;
      if latchedDh % 2 == 1 {
        if (dl / 0x100) % 2 == 0 {
          dl := dl + 0x100;
        }
      } else {
        dl := dl % 0x100;
      }
    }

    method Serialize() returns (data: seq<byte>)
      ensures data == Encode(Snapshot())
    {
      var t := lastUpdate;
      var dlLow: byte, dlHigh: byte := dl % 0x100, dl / 0x100;
      var unix: seq<byte> := [t % 0x100, (t / 0x100) % 0x100, (t / 0x1_0000) % 0x100, (t / 0x100_0000) % 0x100,
                              (t / 0x1_0000_0000) % 0x100, (t / 0x100_0000_0000) % 0x100,
                              (t / 0x1_0000_0000_0000) % 0x100, (t / 0x100_0000_0000_0000) % 0x100];
      data := [s, m, h, dlLow, dlHigh, latchedS, latchedM, latchedH, latchedDl, latchedDh] + unix +
              [Flag(timerHalt), Flag(dayCarry), Flag(latchState)];
    }
  }
}
