/**
 * The arithmetic and flag rules of the CPU's instruction helpers, as pure
 * functions of the operands and the old flags. Each function sets and clears
 * the flags in the order the helper does; its contract states the rule that
 * order implements. The CPU methods are proved to leave exactly these values
 * in the registers.
 */
module Alu {
  import opened Bits
  import opened Registers

  /** An 8-bit result and the new flags. */
  datatype Out = Out(value: byte, f: Flags)

  /** A 16-bit result and the new flags. */
  datatype Out16 = Out16(value: u16, f: Flags)

  /** The carry as the number 0 or 1, as `getf(&Flag::C)` returns it. */
  function CarryBit(f: Flags): (cy: nat)
    ensures cy < 2 && (cy == 1 <==> f.c)
  {
    if f.c then 1 else 0
  }

  /** The signed value of a byte read as `i8`. */
  function SignedOffset(b: byte): (r: int)
    ensures -128 <= r < 128
    ensures r % 256 == b
  {
    if b < 0x80 then b else b - 0x100
  }

  // ---------------------------------------------------------------- 8-bit add and subtract

  /** sum8_flags: C and H are computed only when asked for; N is cleared. */
  function Sum8(f: Flags, op1: byte, op2: byte, c: bool, h: bool): (r: Out)
    ensures r.value == (op1 + op2) % 0x100
    ensures r.f.z <==> r.value == 0
    ensures !r.f.n && r.f.low == f.low
    ensures r.f.c == if c then op1 + op2 > 0xFF else f.c
    ensures r.f.h == if h then op1 % 16 + op2 % 16 > 0xF else f.h
  {
    var res := (op1 + op2) % 0x100;
    var f1 := if c then f.(c := 0xFF - op1 < op2) else f;
    var f2 := if h then f1.(h := 0x10 - op1 % 16 <= op2 % 16) else f1;
    Out(res, f2.(z := res == 0).(n := false))
  }

  /** sub8_flags: C and H are borrows, computed only when asked for; N is set. */
  function Sub8(f: Flags, op1: byte, op2: byte, c: bool, h: bool): (r: Out)
    ensures r.value == (op1 - op2) % 0x100
    ensures r.f.z <==> op1 == op2
    ensures r.f.n && r.f.low == f.low
    ensures r.f.c == if c then op1 < op2 else f.c
    ensures r.f.h == if h then op1 % 16 < op2 % 16 else f.h
  {
    var res := (op1 - op2) % 0x100;
    var f1 := if h then f.(h := op1 % 16 < op2 % 16) else f;
    var f2 := if c then f1.(c := op1 < op2) else f1;
    Out(res, f2.(z := res == 0).(n := true))
  }

  /**
   * adc_flags: the carry is added first, then the operand, and the second
   * addition computes C (H) only when the first did not already set it.
   * Together they implement A + value + carry with its full carry rules.
   */
  function Adc(f: Flags, a: byte, v: byte): (r: Out)
    ensures r.value == (a + v + CarryBit(f)) % 0x100
    ensures r.f.c <==> a + v + CarryBit(f) > 0xFF
    ensures r.f.h <==> a % 16 + v % 16 + CarryBit(f) > 0xF
    ensures r.f.z <==> r.value == 0
    ensures !r.f.n && r.f.low == f.low
  {
    var cy := CarryBit(f);
    var first := Sum8(f.(c := false).(h := false), a, cy, true, true);
    AddWithCarry(a, v, cy);
    Sum8(first.f, first.value, v, !first.f.c, !first.f.h)
  }

  /** The carry rules of adding the carry first and the operand second. */
  lemma AddWithCarry(a: byte, v: byte, cy: nat)
    requires cy < 2
    ensures ((a + cy) % 0x100 + v) % 0x100 == (a + v + cy) % 0x100
    ensures (a + cy > 0xFF || (a + cy) % 0x100 + v > 0xFF) <==> a + v + cy > 0xFF
    ensures (a % 16 + cy > 0xF || (a + cy) % 0x100 % 16 + v % 16 > 0xF) <==> a % 16 + v % 16 + cy > 0xF
  {
    if a + cy <= 0xFF {
      DivMod(a + cy, 0x100, 0, a + cy);
      if a % 16 + cy <= 0xF {
        DivMod(a + cy, 16, a / 16, a % 16 + cy);
      } else {
        DivMod(a + cy, 16, a / 16 + 1, 0);
      }
    } else {
      DivMod(a + cy, 0x100, 1, 0);
      DivMod(a + v + cy, 0x100, 1, v);
    }
  }

  /** sbc_flags: the two-step analogue of Adc for A - value - carry. */
  function Sbc(f: Flags, a: byte, v: byte): (r: Out)
    ensures r.value == (a - v - CarryBit(f)) % 0x100
    ensures r.f.c <==> a < v + CarryBit(f)
    ensures r.f.h <==> a % 16 < v % 16 + CarryBit(f)
    ensures r.f.z <==> r.value == 0
    ensures r.f.n && r.f.low == f.low
  {
    var cy := CarryBit(f);
    var first := Sub8(f.(c := false).(h := false), a, cy, true, true);
    SubtractWithCarry(a, v, cy);
    Sub8(first.f, first.value, v, !first.f.c, !first.f.h)
  }

  /** The borrow rules of subtracting the carry first and the operand second. */
  lemma SubtractWithCarry(a: byte, v: byte, cy: nat)
    requires cy < 2
    ensures ((a - cy) % 0x100 - v) % 0x100 == (a - v - cy) % 0x100
    ensures (a < cy || (a - cy) % 0x100 < v) <==> a < v + cy
    ensures (a % 16 < cy || (a - cy) % 0x100 % 16 < v % 16) <==> a % 16 < v % 16 + cy
  {
  }

  /** Subtracting with a clear carry is plain subtraction, flags included. */
  lemma SbcWithoutCarry(f: Flags, a: byte, v: byte)
    requires !f.c
    ensures Sbc(f, a, v) == Sub8(f, a, v, true, true)
  {
  }

  /** Adding with a clear carry is plain addition, flags included. */
  lemma AdcWithoutCarry(f: Flags, a: byte, v: byte)
    requires !f.c
    ensures Adc(f, a, v) == Sum8(f, a, v, true, true)
  {
  }

  // ---------------------------------------------------------------- logic

  function AndFlags(f: Flags, op1: byte, op2: byte): (r: Out)
    ensures forall j :: 0 <= j < 8 ==> (Bit(r.value, j) == 1 <==> Bit(op1, j) == 1 && Bit(op2, j) == 1)
    ensures r.f.z <==> r.value == 0
    ensures !r.f.n && r.f.h && !r.f.c && r.f.low == f.low
  {
    var res := And8(op1, op2);
    Out(res, f.(z := res == 0).(n := false).(h := true).(c := false))
  }

  function OrFlags(f: Flags, op1: byte, op2: byte): (r: Out)
    ensures forall j :: 0 <= j < 8 ==> (Bit(r.value, j) == 1 <==> Bit(op1, j) == 1 || Bit(op2, j) == 1)
    ensures r.f.z <==> r.value == 0
    ensures !r.f.n && !r.f.h && !r.f.c && r.f.low == f.low
  {
    var res := Or8(op1, op2);
    Out(res, f.(z := res == 0).(n := false).(h := false).(c := false))
  }

  function XorFlags(f: Flags, op1: byte, op2: byte): (r: Out)
    ensures forall j :: 0 <= j < 8 ==> (Bit(r.value, j) == 1 <==> Bit(op1, j) != Bit(op2, j))
    ensures r.f.z <==> r.value == 0
    ensures !r.f.n && !r.f.h && !r.f.c && r.f.low == f.low
  {
    var res := Xor8(op1, op2);
    Out(res, f.(z := res == 0).(n := false).(h := false).(c := false))
  }

  /** XOR A with itself, the usual way to clear A, gives 0 and sets Z. */
  lemma XorSelfClears(f: Flags, a: byte)
    ensures XorFlags(f, a, a).value == 0 && XorFlags(f, a, a).f.z
  {
    var r := XorFlags(f, a, a);
    Pow2Byte();
    forall j | 0 <= j < 8 ensures Bit(r.value, j) == Bit(0, j) { BitOfZero(j); }
    BitsDetermine(r.value, 0, 8);
  }

  /** ccf: complement the carry, clear N and H. */
  function Ccf(f: Flags): (g: Flags)
    ensures g.c == !f.c && !g.n && !g.h
    ensures g.z == f.z && g.low == f.low
  {
    var f1 := f.(n := false).(h := false);
    f1.(c := !f1.c)
  }

  /** scf: set the carry, clear N and H. */
  function Scf(f: Flags): (g: Flags)
    ensures g.c && !g.n && !g.h
    ensures g.z == f.z && g.low == f.low
  {
    f.(n := false).(h := false).(c := true)
  }

  /** ccf undoes itself on the carry, and after scf it clears the carry. */
  lemma CcfTwiceAndAfterScf(f: Flags)
    ensures Ccf(Ccf(f)).c == f.c
    ensures !Ccf(Scf(f)).c
  {
  }

  /** cpl: A := !A, set N and H. */
  function Cpl(f: Flags, a: byte): (r: Out)
    ensures forall j :: 0 <= j < 8 ==> Bit(r.value, j) == 1 - Bit(a, j)
    ensures r.f.n && r.f.h
    ensures r.f.z == f.z && r.f.c == f.c && r.f.low == f.low
  {
    Pow2Byte();
    var res := 0xFF - a;
    assert forall j :: 0 <= j < 8 ==> Bit(res, j) == 1 - Bit(a, j) by {
      forall j | 0 <= j < 8 ensures Bit(res, j) == 1 - Bit(a, j) { ComplementBit(a, 8, j); }
    }
    Out(res, f.(n := true).(h := true))
  }

  // ---------------------------------------------------------------- 16-bit arithmetic

  /** add_r16_r16: H is the carry out of bit 11, C out of bit 15; Z is untouched. */
  function Add16(f: Flags, op1: u16, op2: u16): (r: Out16)
    ensures r.value == (op1 + op2) % 0x1_0000
    ensures r.f.h <==> op1 % 0x1000 + op2 % 0x1000 > 0xFFF
    ensures r.f.c <==> op1 + op2 > 0xFFFF
    ensures !r.f.n && r.f.z == f.z && r.f.low == f.low
  {
    var res := (op1 + op2) % 0x1_0000;
    Out16(res, f.(h := 0x0FFF - op1 % 0x1000 < op2 % 0x1000).(c := 0xFFFF - op1 < op2).(n := false))
  }

  /** signed_sum: `(op1 as i32 + offset as i8 as i32) as u16`. */
  function SignedSum(op1: u16, offset: byte): (r: u16)
    ensures (r - op1) % 0x1_0000 == SignedOffset(offset) % 0x1_0000
  {
    (op1 + SignedOffset(offset)) % 0x1_0000
  }

  /** Moving by an offset and then by its negation returns to the start. */
  lemma SignedSumCancels(x: u16, offset: byte)
    requires offset != 0x80
    ensures SignedOffset((0x100 - offset) % 0x100) == -SignedOffset(offset)
    ensures SignedSum(SignedSum(x, offset), (0x100 - offset) % 0x100) == x
  {
  }

  /**
   * signed_sum_flags: H and C come from adding the offset's byte to the low
   * nibble and the low byte of op1, whatever its sign; Z and N are cleared.
   */
  function SignedSumFlags(f: Flags, op1: u16, offset: byte): (r: Out16)
    ensures r.value == SignedSum(op1, offset)
    ensures r.f.h <==> op1 % 16 + offset % 16 > 0xF
    ensures r.f.c <==> op1 % 0x100 + offset > 0xFF
    ensures !r.f.z && !r.f.n && r.f.low == f.low
  {
    var f1 := f.(h := 0x0F - op1 % 16 < offset % 16).(c := 0xFF - op1 % 0x100 < offset);
    Out16(SignedSum(op1, offset), f1.(z := false).(n := false))
  }

  // ---------------------------------------------------------------- rotates and shifts (CB prefix)

  /** The flags every CB rotate and shift leaves: C from the bit shifted out, Z from the result. */
  function ShiftFlags(f: Flags, out: bool, res: byte): (g: Flags)
    ensures g.c == out && (g.z <==> res == 0)
    ensures !g.n && !g.h && g.low == f.low
  {
    f.(c := out).(z := res == 0).(n := false).(h := false)
  }

  /** rlc: bit 7 goes to bit 0 and to C. */
  function Rlc(f: Flags, v: byte): (r: Out)
    ensures r.value % 2 == v / 128 && r.value / 2 == v % 128
    ensures r.f.c == (v >= 0x80) && (r.f.z <==> v == 0)
    ensures !r.f.n && !r.f.h && r.f.low == f.low
  {
    // res is even, so `res |= 0x01` adds one
    var res := (v * 2) % 0x100;
    var res' := if v >= 0x80 then res + 1 else res;
    Out(res', ShiftFlags(f, v >= 0x80, res'))
  }

  /** rrc: bit 0 goes to bit 7 and to C. */
  function Rrc(f: Flags, v: byte): (r: Out)
    ensures r.value / 128 == v % 2 && r.value % 128 == v / 2
    ensures r.f.c == (v % 2 == 1) && (r.f.z <==> v == 0)
    ensures !r.f.n && !r.f.h && r.f.low == f.low
  {
    // res < 0x80, so `res |= 0x80` adds 0x80
    var res := v / 2;
    var res' := if v % 2 == 1 then res + 0x80 else res;
    Out(res', ShiftFlags(f, v % 2 == 1, res'))
  }

  /** rl: rotate left through the carry. */
  function Rl(f: Flags, v: byte): (r: Out)
    ensures r.value % 2 == CarryBit(f) && r.value / 2 == v % 128
    ensures r.f.c == (v >= 0x80) && (r.f.z <==> r.value == 0)
    ensures !r.f.n && !r.f.h && r.f.low == f.low
  {
    var res := (v * 2) % 0x100;
    var res' := if f.c then res + 1 else res;
    Out(res', ShiftFlags(f, v >= 0x80, res'))
  }

  /** rr: rotate right through the carry. */
  function Rr(f: Flags, v: byte): (r: Out)
    ensures r.value / 128 == CarryBit(f) && r.value % 128 == v / 2
    ensures r.f.c == (v % 2 == 1) && (r.f.z <==> r.value == 0)
    ensures !r.f.n && !r.f.h && r.f.low == f.low
  {
    var res := v / 2;
    var res' := if f.c then res + 0x80 else res;
    Out(res', ShiftFlags(f, v % 2 == 1, res'))
  }

  /** sla: shift left, bit 7 to C, 0 into bit 0. */
  function Sla(f: Flags, v: byte): (r: Out)
    ensures r.value % 2 == 0 && r.value / 2 == v % 128
    ensures r.f.c == (v >= 0x80) && (r.f.z <==> r.value == 0)
    ensures !r.f.n && !r.f.h && r.f.low == f.low
  {
    var res := (v * 2) % 0x100;
    Out(res, ShiftFlags(f, v >= 0x80, res))
  }

  /** sra: shift right keeping bit 7, bit 0 to C. */
  function Sra(f: Flags, v: byte): (r: Out)
    ensures r.value / 128 == v / 128 && r.value % 128 == v / 2 % 128
    ensures r.f.c == (v % 2 == 1) && (r.f.z <==> r.value == 0)
    ensures !r.f.n && !r.f.h && r.f.low == f.low
  {
    // v >> 1 is below 0x80, so `res |= 0x80` adds 0x80
    var res := v / 2;
    var res' := if v >= 0x80 then res + 0x80 else res;
    Out(res', ShiftFlags(f, v % 2 == 1, res'))
  }

  /** srl: shift right, 0 into bit 7, bit 0 to C. */
  function Srl(f: Flags, v: byte): (r: Out)
    ensures r.value < 0x80 && 2 * r.value + v % 2 == v
    ensures r.f.c == (v % 2 == 1) && (r.f.z <==> v < 2)
    ensures !r.f.n && !r.f.h && r.f.low == f.low
  {
    var res := v / 2;
    Out(res, ShiftFlags(f, v % 2 == 1, res))
  }

  /** swap: exchange the nibbles; C, N and H are cleared. */
  function Swap(f: Flags, v: byte): (r: Out)
    ensures r.value / 16 == v % 16 && r.value % 16 == v / 16
    ensures (r.f.z <==> v == 0) && !r.f.c
    ensures !r.f.n && !r.f.h && r.f.low == f.low
  {
    // the two nibbles do not overlap, so the OR is a sum
    var res := (v % 16) * 16 + v / 16;
    Out(res, ShiftFlags(f, false, res))
  }

  lemma SwapTwice(f: Flags, g: Flags, v: byte)
    ensures Swap(g, Swap(f, v).value).value == v
  {
  }

  /** rlc undoes rrc, and both move the same bit into C. */
  lemma RlcUndoesRrc(f: Flags, g: Flags, v: byte)
    ensures Rlc(g, Rrc(f, v).value).value == v
    ensures Rlc(g, Rrc(f, v).value).f.c == Rrc(f, v).f.c
  {
  }

  /** rl undoes rr, restoring the carry as well. */
  lemma RlUndoesRr(f: Flags, v: byte)
    ensures Rl(Rr(f, v).f, Rr(f, v).value).value == v
    ensures Rl(Rr(f, v).f, Rr(f, v).value).f.c == f.c
  {
  }

  /** srl after sla clears bit 7; sla after srl clears bit 0. */
  lemma ShiftsLoseOneBit(f: Flags, g: Flags, v: byte)
    ensures Srl(g, Sla(f, v).value).value == v % 0x80
    ensures Sla(g, Srl(f, v).value).value == v - v % 2
  {
  }

  // ---------------------------------------------------------------- accumulator rotates

  /** The flags rlca, rrca, rla and rra leave: like the CB forms, but Z is always cleared. */
  function AccFlags(f: Flags, out: bool): (g: Flags)
    ensures g.c == out && !g.z
    ensures !g.n && !g.h && g.low == f.low
  {
    f.(c := out).(z := false).(n := false).(h := false)
  }

  function Rlca(f: Flags, a: byte): (r: Out)
  {
    var res := (a * 2) % 0x100;
    var res' := if a >= 0x80 then res + 1 else res;
    Out(res', AccFlags(f, a >= 0x80))
  }

  function Rrca(f: Flags, a: byte): (r: Out)
  {
    var res := a / 2;
    var res' := if a % 2 == 1 then res + 0x80 else res;
    Out(res', AccFlags(f, a % 2 == 1))
  }

  function Rla(f: Flags, a: byte): (r: Out)
  {
    var res := (a * 2) % 0x100;
    var res' := if f.c then res + 1 else res;
    Out(res', AccFlags(f, a >= 0x80))
  }

  function Rra(f: Flags, a: byte): (r: Out)
  {
    var res := a / 2;
    var res' := if f.c then res + 0x80 else res;
    Out(res', AccFlags(f, a % 2 == 1))
  }

  /**
   * The accumulator rotates compute the same value and carry as their CB
   * forms applied to A, but always clear Z.
   */
  lemma AccumulatorRotates(f: Flags, a: byte)
    ensures Rlca(f, a) == Out(Rlc(f, a).value, Rlc(f, a).f.(z := false))
    ensures Rrca(f, a) == Out(Rrc(f, a).value, Rrc(f, a).f.(z := false))
    ensures Rla(f, a) == Out(Rl(f, a).value, Rl(f, a).f.(z := false))
    ensures Rra(f, a) == Out(Rr(f, a).value, Rr(f, a).f.(z := false))
  {
  }

  // ---------------------------------------------------------------- bit operations

  /** testb8_flags: Z is set iff the chosen bit is 0; N cleared, H set, C kept. */
  function TestBit(f: Flags, bit: nat, v: byte): (g: Flags)
    requires bit < 8
    ensures g.z <==> Bit(v, bit) == 0
    ensures !g.n && g.h && g.c == f.c && g.low == f.low
  {
    // (value & (1 << bit)) >> bit is the bit itself
    var res := Bit(v, bit);
    f.(z := res == 0).(n := false).(h := true)
  }

  // ---------------------------------------------------------------- decimal adjust

  /**
   * daa: after an addition add 0x60 when A > 0x99 or C (setting C), then 6
   * when the low nibble is above 9 or H; after a subtraction subtract 0x60
   * on C and 6 on H. Z follows the result, H is cleared, N is kept and C is
   * never cleared.
   */
  function Daa(f: Flags, a: byte): (r: Out)
    ensures (r.f.z <==> r.value == 0) && !r.f.h
    ensures r.f.n == f.n && r.f.low == f.low
    ensures r.f.c == (f.c || (!f.n && a > 0x99))
  {
    var up := !f.n && (a > 0x99 || f.c);
    var f1 := if up then f.(c := true) else f;
    var res: byte :=
      if !f.n then
        var r1 := if up then (a + 0x60) % 0x100 else a;
        if r1 % 16 > 9 || f1.h then (r1 + 0x06) % 0x100 else r1
      else
        var r1 := if f.c then (a - 0x60) % 0x100 else a;
        if f.h then (r1 - 0x06) % 0x100 else r1;
    Out(res, f1.(z := res == 0).(h := false))
  }

  /** A byte holding two decimal digits. */
  predicate IsBcd(x: byte) { x / 16 <= 9 && x % 16 <= 9 }

  function BcdValue(x: byte): nat requires IsBcd(x) { 10 * (x / 16) + x % 16 }

  /**
   * add followed by daa adds two decimal-coded bytes: the result is the
   * decimal code of the sum modulo 100, and C reports a sum of 100 or more.
   */
  lemma DaaAfterAdd(f: Flags, x: byte, y: byte)
    requires IsBcd(x) && IsBcd(y)
    ensures var s := Sum8(f, x, y, true, true);
      var d := Daa(s.f, s.value);
      && IsBcd(d.value)
      && BcdValue(d.value) == (BcdValue(x) + BcdValue(y)) % 100
      && (d.f.c <==> BcdValue(x) + BcdValue(y) >= 100)
  {
    var hi, lo := x / 16 + y / 16, x % 16 + y % 16;
    assert x + y == 16 * hi + lo;
    assert BcdValue(x) + BcdValue(y) == 10 * hi + lo;
    DaaDigits(hi, lo);
    var sum := Sum8(f, x, y, true, true);
    assert !sum.f.n && sum.f.h == (lo > 0xF) && sum.f.c == (x + y > 0xFF);
    var d := Daa(sum.f, sum.value);
    var dec := (10 * hi + lo) % 100;
    assert d.value == 16 * (dec / 10) + dec % 10;
    DivisionUnique(d.value, 16, dec / 10, dec % 10);
  }

  /**
   * The decimal adjustment of the binary sum 16 * hi + lo of two digit
   * pairs, where hi and lo are the sums of the high and of the low digits:
   * daa yields the digits of 10 * hi + lo modulo 100 and reports a carry
   * exactly when that sum reaches 100.
   */
  predicate DaaCorrect(hi: nat, lo: nat)
  {
    var sum := 16 * hi + lo;
    var s := sum % 0x100;
    var up := s > 0x99 || sum > 0xFF;
    var r1 := if up then (s + 0x60) % 0x100 else s;
    var r2 := if r1 % 16 > 9 || lo > 0xF then (r1 + 0x06) % 0x100 else r1;
    var dec := (10 * hi + lo) % 100;
    && r2 == 16 * (dec / 10) + dec % 10
    && (up <==> 10 * hi + lo >= 100)
  }

  lemma DaaDigits(hi: nat, lo: nat)
    requires hi <= 18 && lo <= 18
    ensures DaaCorrect(hi, lo)
  {
    if lo <= 9 && hi <= 9 {
      DaaNoAdjust(hi, lo);
    } else if lo <= 9 {
      DaaHighAdjust(hi, lo);
    } else if hi <= 8 {
      DaaLowAdjust(hi, lo);
    } else if hi == 9 {
      DaaBothAdjustNine(lo);
    } else {
      DaaBothAdjust(hi, lo);
    }
  }

  /** n is q times base plus r, with r below base. */
  lemma DivMod(n: nat, base: nat, q: nat, r: nat)
    requires base > 0 && r < base && n == base * q + r
    ensures n / base == q && n % base == r
  {
    DivisionUnique(n, base, q, r);
    ModUnique(n, base, q, r);
  }

  lemma DaaNoAdjust(hi: nat, lo: nat)
    requires hi <= 9 && lo <= 9
    ensures DaaCorrect(hi, lo)
  {
    var sum := 16 * hi + lo;
    DivMod(sum, 0x100, 0, sum);
    DivMod(sum, 16, hi, lo);
    var dec := 10 * hi + lo;
    DivMod(dec, 100, 0, dec);
    DivMod(dec, 10, hi, lo);
  }

  lemma DaaHighAdjust(hi: nat, lo: nat)
    requires 10 <= hi <= 18 && lo <= 9
    ensures DaaCorrect(hi, lo)
  {
    var sum := 16 * hi + lo;
    var r1 := 16 * (hi - 10) + lo;
    if sum < 0x100 {
      DivMod(sum, 0x100, 0, sum);
      DivMod(sum + 0x60, 0x100, 1, r1);
    } else {
      DivMod(sum, 0x100, 1, sum - 0x100);
      DivMod(sum - 0x100 + 0x60, 0x100, 0, r1);
    }
    DivMod(r1, 16, hi - 10, lo);
    DivMod(r1, 0x100, 0, r1);
    var dec := 10 * (hi - 10) + lo;
    DivMod(10 * hi + lo, 100, 1, dec);
    DivMod(dec, 10, hi - 10, lo);
  }

  lemma DaaLowAdjust(hi: nat, lo: nat)
    requires hi <= 8 && 10 <= lo <= 18
    ensures DaaCorrect(hi, lo)
  {
    var sum := 16 * hi + lo;
    DivMod(sum, 0x100, 0, sum);
    if lo < 16 {
      DivMod(sum, 16, hi, lo);
    }
    var r2 := 16 * (hi + 1) + (lo - 10);
    DivMod(sum + 6, 0x100, 0, r2);
    var dec := 10 * (hi + 1) + (lo - 10);
    DivMod(10 * hi + lo, 100, 0, dec);
    DivMod(dec, 10, hi + 1, lo - 10);
  }

  lemma DaaBothAdjustNine(lo: nat)
    requires 10 <= lo <= 18
    ensures DaaCorrect(9, lo)
  {
    var sum := 16 * 9 + lo;
    DivMod(sum, 0x100, 0, sum);
    var r1 := if lo >= 16 then lo - 16 else 240 + lo;
    if lo >= 16 {
      DivMod(sum + 0x60, 0x100, 1, r1);
    } else {
      DivMod(sum + 0x60, 0x100, 0, r1);
      DivMod(r1, 16, 15, lo);
    }
    if lo >= 16 {
      DivMod(r1 + 6, 0x100, 0, lo - 10);
    } else {
      DivMod(r1 + 6, 0x100, 1, lo - 10);
    }
    DivMod(10 * 9 + lo, 100, 1, lo - 10);
    DivMod(lo - 10, 10, 0, lo - 10);
  }

  lemma DaaBothAdjust(hi: nat, lo: nat)
    requires 10 <= hi <= 18 && 10 <= lo <= 18
    ensures DaaCorrect(hi, lo)
  {
    var sum := 16 * hi + lo;
    var r1 := 16 * (hi - 10) + lo;
    if sum < 0x100 {
      DivMod(sum, 0x100, 0, sum);
      DivMod(sum + 0x60, 0x100, 1, r1);
    } else {
      DivMod(sum, 0x100, 1, sum - 0x100);
      DivMod(sum - 0x100 + 0x60, 0x100, 0, r1);
    }
    if lo < 16 {
      DivMod(r1, 16, hi - 10, lo);
    }
    var r2 := 16 * (hi - 9) + (lo - 10);
    DivMod(r1 + 6, 0x100, 0, r2);
    var dec := 10 * (hi - 9) + (lo - 10);
    DivMod(10 * hi + lo, 100, 1, dec);
    DivMod(dec, 10, hi - 9, lo - 10);
  }
}
