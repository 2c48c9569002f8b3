/**
 * The SM83 register file: eight 8-bit registers, the four register pairs,
 * SP and PC, and the Z/N/H/C flags kept in the high nibble of F.
 */
module Registers {
  import opened Bits

  datatype Register8 = A | B | C | D | E | F | H | L
  datatype Register16 = AF | BC | HL | DE | SP | PC

  /** Z, N, H, C and their negations NZ, NN, NH, NC, as used by conditional jumps. */
  datatype Flag = Z | N | H | C | NZ | NN | NH | NC

  /** The bit of F that holds a flag: Z is bit 7, N bit 6, H bit 5, C bit 4. */
  function FlagPosition(flag: Flag): (k: nat)
    ensures 4 <= k <= 7
  {
    match flag
    case Z | NZ => 7
    case N | NN => 6
    case H | NH => 5
    case C | NC => 4
  }

  predicate IsNegated(flag: Flag)
  {
    flag.NZ? || flag.NN? || flag.NH? || flag.NC?
  }

  /** The flag a negated flag is the complement of. */
  function Base(flag: Flag): (b: Flag)
    ensures !IsNegated(b) && FlagPosition(b) == FlagPosition(flag)
  {
    match flag
    case NZ => Flag.Z
    case NN => Flag.N
    case NH => Flag.H
    case NC => Flag.C
    case _ => flag
  }

  /** The mask of a flag's bit in F. */
  function FlagMask(flag: Flag): (m: nat)
    ensures m == Pow2(FlagPosition(flag))
  {
    Pow2Byte();
    match flag
    case Z | NZ => 0x80
    case N | NN => 0x40
    case H | NH => 0x20
    case C | NC => 0x10
  }

  /**
   * getf: 1 when the flag holds, 0 when it does not. This is the intended
   * reading, in which a negated flag is the complement of its base flag.
   */
  function FlagValue(f: byte, flag: Flag): (r: nat)
    ensures r < 2
  {
    var bit := (f / FlagMask(flag)) % 2;
    if IsNegated(flag) then 1 - bit else bit
  }

  /** getf reads bit FlagPosition(flag) of F, complemented for a negated flag. */
  lemma FlagValueIsBit(f: byte, flag: Flag)
    ensures FlagValue(f, flag) == if IsNegated(flag) then 1 - Bit(f, FlagPosition(flag)) else Bit(f, FlagPosition(flag))
  {
    BitAsDivision(f, FlagPosition(flag));
  }

  /**
   * getf as written: the base flags are masked and shifted, but a negated
   * flag is `(f ^ mask) >> k` with no mask after the shift, so the bits of F
   * above the flag are read as well.
   */
  function FlagValueAsWritten(f: byte, flag: Flag): (r: int)
  {
    var k := FlagPosition(flag);
    if IsNegated(flag) then FlipBit(f, k) / Pow2(k) else Bit(f, k)
  }

  /** A negated flag reads the complement of its base flag. */
  lemma NegatedIsComplement(f: byte, flag: Flag)
    requires IsNegated(flag)
    ensures FlagValue(f, flag) == 1 - FlagValue(f, Base(flag))
  {
  }

  /**
   * A negated flag as written reads the complement of its bit plus twice the
   * bits of F above it, so it is right exactly when those higher bits are 0.
   */
  lemma NegatedFlagAsWritten(f: byte, flag: Flag)
    requires IsNegated(flag)
    ensures FlagValueAsWritten(f, flag) == FlagValue(f, flag) + 2 * (f / Pow2(FlagPosition(flag) + 1))
    ensures FlagValueAsWritten(f, flag) == FlagValue(f, flag) <==> f < Pow2(FlagPosition(flag) + 1)
  {
    var k := FlagPosition(flag);
    Pow2Byte();
    Pow2Increasing(k, 8);
    XorPow2(f, k, 8);
    FlagValueIsBit(f, flag);
    BitAsDivision(f, k);
    FlipDivision(f, Pow2(k), Bit(f, k));
  }

  /** The arithmetic behind NegatedFlagAsWritten, with p standing for 2^k. */
  lemma FlipDivision(f: nat, p: nat, bit: nat)
    requires p > 0 && bit == (f / p) % 2
    ensures (if bit == 1 then f - p else f + p) / p == (1 - bit) + 2 * (f / (2 * p))
    ensures (if bit == 1 then f - p else f + p) / p == 1 - bit <==> f < 2 * p
  {
    DivideTwice(f, p);
    ShiftByDivisor(f, p, bit == 1);
    if f < 2 * p {
      DivisionUnique(f, 2 * p, 0, f);
    } else {
      MulMonotone(2 * p, 1, f / (2 * p));
    }
  }

  /** `(f >> k) >> 1` is `f >> (k + 1)`, with p standing for 2^k. */
  lemma DivideTwice(f: nat, p: nat)
    requires p > 0
    ensures f / p == 2 * (f / (2 * p)) + (f / p) % 2
  {
    var q, s := f / p, f % p;
    var q2, b := q / 2, q % 2;
    assert f == p * q + s;
    assert q == 2 * q2 + b;
    assert p * q == (2 * p) * q2 + p * b;
    assert p * b + s < 2 * p by { MulMonotone(p, b, 1); }
    DivisionUnique(f, 2 * p, q2, p * b + s);
  }

  /** Subtracting or adding the divisor moves the quotient by one. */
  lemma ShiftByDivisor(f: nat, p: nat, down: bool)
    requires p > 0 && (down ==> f >= p)
    ensures (if down then f - p else f + p) / p == if down then f / p - 1 else f / p + 1
  {
    var q, s := f / p, f % p;
    assert f == p * q + s;
    if down {
      assert q >= 1;
      assert f - p == p * (q - 1) + s;
      DivisionUnique(f - p, p, q - 1, s);
    } else {
      assert f + p == p * (q + 1) + s;
      DivisionUnique(f + p, p, q + 1, s);
    }
  }

  /**
   * With only Z set (F = 0x80) the carry is clear, yet getf(NC) as written is
   * 9 rather than 1, so `jr nc`, `jp nc`, `call nc` and `ret nc` are not taken.
   */
  lemma NcMisreadWithZeroFlagSet()
    ensures FlagValue(0x80, Flag.C) == 0 && FlagValue(0x80, Flag.NC) == 1
    ensures FlagValueAsWritten(0x80, Flag.NC) == 9
  {
    Pow2Byte();
    DivisionUnique(0x80, 0x10, 8, 0);
    ModUnique(8, 2, 4, 0);
    DivisionUnique(0x80, 0x20, 4, 0);
    NegatedFlagAsWritten(0x80, Flag.NC);
  }

  /**
   * F after setf(flag) (on) or unsetf(flag) (not on): the flag's bit is set
   * (an or with its mask) or cleared (an and with the complement). For a
   * negated flag setf clears the base bit and unsetf sets it.
   */
  function SetFlag(f: byte, flag: Flag, on: bool): (r: byte)
    ensures FlagValue(r, flag) == if on then 1 else 0
    ensures FlagPosition(flag) != 7 ==> FlagValue(r, Flag.Z) == FlagValue(f, Flag.Z)
    ensures FlagPosition(flag) != 6 ==> FlagValue(r, Flag.N) == FlagValue(f, Flag.N)
    ensures FlagPosition(flag) != 5 ==> FlagValue(r, Flag.H) == FlagValue(f, Flag.H)
    ensures FlagPosition(flag) != 4 ==> FlagValue(r, Flag.C) == FlagValue(f, Flag.C)
    ensures r % 16 == f % 16
  {
    var k := FlagPosition(flag);
    var r := if on != IsNegated(flag) then SetBit(f, k) else ResetBit(f, k);
    FlagUpdate(f, flag, on, r);
    r
  }

  /** The flag bit of r is the one asked for, the other flags and the low nibble are f's. */
  lemma FlagUpdate(f: byte, flag: Flag, on: bool, r: byte)
    requires r == if on != IsNegated(flag) then SetBit(f, FlagPosition(flag)) else ResetBit(f, FlagPosition(flag))
    ensures FlagValue(r, flag) == if on then 1 else 0
    ensures FlagPosition(flag) != 7 ==> FlagValue(r, Flag.Z) == FlagValue(f, Flag.Z)
    ensures FlagPosition(flag) != 6 ==> FlagValue(r, Flag.N) == FlagValue(f, Flag.N)
    ensures FlagPosition(flag) != 5 ==> FlagValue(r, Flag.H) == FlagValue(f, Flag.H)
    ensures FlagPosition(flag) != 4 ==> FlagValue(r, Flag.C) == FlagValue(f, Flag.C)
    ensures r % 16 == f % 16
  {
    var k := FlagPosition(flag);
    FlagValueIsBit(r, flag);
    if k != 7 { FlagKept(f, r, Flag.Z); }
    if k != 6 { FlagKept(f, r, Flag.N); }
    if k != 5 { FlagKept(f, r, Flag.H); }
    if k != 4 { FlagKept(f, r, Flag.C); }
    NibbleKept(f, flag, on, r);
  }

  /** A flag whose bit is the same in f and r reads the same in both. */
  lemma FlagKept(f: byte, r: byte, g: Flag)
    requires Bit(r, FlagPosition(g)) == Bit(f, FlagPosition(g))
    ensures FlagValue(r, g) == FlagValue(f, g)
  {
    FlagValueIsBit(r, g);
    FlagValueIsBit(f, g);
  }

  /** Setting or clearing a flag bit adds or subtracts its mask, which spares the low nibble. */
  lemma NibbleKept(f: byte, flag: Flag, on: bool, r: byte)
    requires r == if on != IsNegated(flag) then SetBit(f, FlagPosition(flag)) else ResetBit(f, FlagPosition(flag))
    ensures r % 16 == f % 16
  {
    var k := FlagPosition(flag);
    SetBitArith(f, k);
    ResetBitArith(f, k);
    MaskKeepsLowNibble(f, FlagMask(flag), r);
  }

  /** Adding or subtracting a flag mask leaves bits 3..0 alone. */
  lemma MaskKeepsLowNibble(f: int, m: int, r: int)
    requires m == 0x80 || m == 0x40 || m == 0x20 || m == 0x10
    requires r == f || r == f + m || r == f - m
    ensures r % 16 == f % 16
  {
  }

  type nibble = x: int | 0 <= x < 16

  /** F seen as its four flags and its low nibble. */
  datatype Flags = Flags(z: bool, n: bool, h: bool, c: bool, low: nibble)

  function Unpack(f: byte): (fl: Flags)
  {
    Flags(FlagValue(f, Flag.Z) == 1, FlagValue(f, Flag.N) == 1,
          FlagValue(f, Flag.H) == 1, FlagValue(f, Flag.C) == 1, f % 16)
  }

  function Pack(fl: Flags): (f: byte)
  {
    (if fl.z then 0x80 else 0) + (if fl.n then 0x40 else 0)
      + (if fl.h then 0x20 else 0) + (if fl.c then 0x10 else 0) + fl.low
  }

  /** Every F register is the packing of its flags. */
  lemma PackUnpack(f: byte)
    ensures Pack(Unpack(f)) == f
  {
    var z, r1 := f / 0x80, f % 0x80;
    var n, r2 := r1 / 0x40, r1 % 0x40;
    var h, r3 := r2 / 0x20, r2 % 0x20;
    var c, low := r3 / 0x10, r3 % 0x10;
    var fl := Flags(z == 1, n == 1, h == 1, c == 1, low);
    assert f == Pack(fl);
    UnpackPack(fl);
  }

  /** Packing and unpacking flags gives them back. */
  lemma UnpackPack(fl: Flags)
    ensures Unpack(Pack(fl)) == fl
  {
    var z, n, h, c := if fl.z then 1 else 0, if fl.n then 1 else 0, if fl.h then 1 else 0, if fl.c then 1 else 0;
    PackedFlagValues(fl, z, n, h, c);
    ModUnique(Pack(fl), 0x10, 8 * z + 4 * n + 2 * h + c, fl.low);
  }

  /** Each flag bit of a packed F reads back as the flag it packed. */
  lemma PackedFlagValues(fl: Flags, z: nat, n: nat, h: nat, c: nat)
    requires z == (if fl.z then 1 else 0) && n == (if fl.n then 1 else 0)
    requires h == (if fl.h then 1 else 0) && c == (if fl.c then 1 else 0)
    ensures Pack(fl) == 0x80 * z + 0x40 * n + 0x20 * h + 0x10 * c + fl.low
    ensures FlagValue(Pack(fl), Flag.Z) == z && FlagValue(Pack(fl), Flag.N) == n
    ensures FlagValue(Pack(fl), Flag.H) == h && FlagValue(Pack(fl), Flag.C) == c
  {
    var f := Pack(fl);
    BitOfPacked(f, 0, z, 0x40 * n + 0x20 * h + 0x10 * c + fl.low, 0x80);
    BitOfPacked(f, z, n, 0x20 * h + 0x10 * c + fl.low, 0x40);
    BitOfPacked(f, 2 * z + n, h, 0x10 * c + fl.low, 0x20);
    BitOfPacked(f, 4 * z + 2 * n + h, c, fl.low, 0x10);
  }

  /** The bit just above the `rest` part of `f`, with p standing for its mask. */
  lemma BitOfPacked(f: nat, high: nat, bit: nat, rest: nat, p: nat)
    requires bit <= 1 && rest < p && f == (2 * high + bit) * p + rest
    ensures (f / p) % 2 == bit
  {
    DivisionUnique(f, p, 2 * high + bit, rest);
    ModUnique(2 * high + bit, 2, high, bit);
  }

  /** Whether a flag holds in the flags view; a negated flag holds when its base does not. */
  function Holds(fl: Flags, flag: Flag): bool
  {
    match flag
    case Z => fl.z
    case N => fl.n
    case H => fl.h
    case C => fl.c
    case NZ => !fl.z
    case NN => !fl.n
    case NH => !fl.h
    case NC => !fl.c
  }

  /** getf agrees with the flags view. */
  lemma HoldsIsFlagValue(f: byte, flag: Flag)
    ensures Holds(Unpack(f), flag) <==> FlagValue(f, flag) == 1
  {
  }

  /** setf (on) or unsetf (not on) in the flags view: one field changes. */
  function With(fl: Flags, flag: Flag, on: bool): (g: Flags)
    ensures Holds(g, flag) == on
  {
    match flag
    case Z => fl.(z := on)
    case N => fl.(n := on)
    case H => fl.(h := on)
    case C => fl.(c := on)
    case NZ => fl.(z := !on)
    case NN => fl.(n := !on)
    case NH => fl.(h := !on)
    case NC => fl.(c := !on)
  }

  /** Setting or clearing a flag's bit in F is With on its flags. */
  lemma UnpackSetFlag(f: byte, flag: Flag, on: bool)
    ensures Unpack(SetFlag(f, flag, on)) == With(Unpack(f), flag, on)
  {
  }

  /** The flags view pins F down: the only F whose flags are With(...) is SetFlag's. */
  lemma FlagsDetermineF(f: byte, g: byte, flag: Flag, on: bool)
    requires Unpack(g) == With(Unpack(f), flag, on)
    ensures g == SetFlag(f, flag, on)
  {
    UnpackSetFlag(f, flag, on);
    PackUnpack(g);
    PackUnpack(SetFlag(f, flag, on));
  }

  /** The contents of the register file. F's low nibble is stored as given. */
  datatype RegFile = RegFile(a: byte, b: byte, c: byte, d: byte, e: byte, f: byte,
                             h: byte, l: byte, sp: u16, pc: u16)

  /** The DMG register values right after the boot ROM. */
  const Boot := RegFile(0x01, 0x00, 0x13, 0x00, 0xD8, 0xB0, 0x01, 0x4D, 0xFFFE, 0x0100)

  /** get8 */
  function Read8(rf: RegFile, r: Register8): byte
  {
    match r
    case A => rf.a
    case B => rf.b
    case C => rf.c
    case D => rf.d
    case E => rf.e
    case F => rf.f
    case H => rf.h
    case L => rf.l
  }

  /** get16: a pair is its high register shifted left by 8, OR its low register. */
  function Read16(rf: RegFile, r: Register16): u16
  {
    match r
    case AF => rf.a * 256 + rf.f
    case BC => rf.b * 256 + rf.c
    case HL => rf.h * 256 + rf.l
    case DE => rf.d * 256 + rf.e
    case SP => rf.sp
    case PC => rf.pc
  }

  /** set8 */
  function Write8(rf: RegFile, r: Register8, v: byte): RegFile
  {
    match r
    case A => rf.(a := v)
    case B => rf.(b := v)
    case C => rf.(c := v)
    case D => rf.(d := v)
    case E => rf.(e := v)
    case F => rf.(f := v)
    case H => rf.(h := v)
    case L => rf.(l := v)
  }

  /** set16: the high byte goes to the pair's first register, the low byte to its second. */
  function Write16(rf: RegFile, r: Register16, v: u16): RegFile
  {
    match r
    case AF => rf.(a := v / 256, f := v % 256)
    case BC => rf.(b := v / 256, c := v % 256)
    case HL => rf.(h := v / 256, l := v % 256)
    case DE => rf.(d := v / 256, e := v % 256)
    case SP => rf.(sp := v)
    case PC => rf.(pc := v)
  }

  /** A register pair reads as its high register times 256 plus its low register. */
  lemma PairIsHighLow(rf: RegFile, r: Register16)
    requires IsPair(r)
    ensures Read16(rf, r) / 256 == Read8(rf, High(r)) && Read16(rf, r) % 256 == Read8(rf, Low(r))
  {
    var hi: int, lo: int := Read8(rf, High(r)), Read8(rf, Low(r));
    assert Read16(rf, r) == hi * 256 + lo;
    DivisionUnique(Read16(rf, r), 256, hi, lo);
  }

  /** set8 then get8 returns the value; every other register, SP and PC are unchanged. */
  lemma Write8ThenRead(rf: RegFile, r: Register8, v: byte)
    ensures Read8(Write8(rf, r, v), r) == v
    ensures forall q :: q != r ==> Read8(Write8(rf, r, v), q) == Read8(rf, q)
    ensures Write8(rf, r, v).sp == rf.sp && Write8(rf, r, v).pc == rf.pc
  {
  }

  /** set16 then get16 returns the value, and no 8-bit register outside the pair changes. */
  lemma Write16ThenRead(rf: RegFile, r: Register16, v: u16)
    ensures Read16(Write16(rf, r, v), r) == v
    ensures forall q :: !InPair(q, r) ==> Read8(Write16(rf, r, v), q) == Read8(rf, q)
    ensures !r.SP? ==> Write16(rf, r, v).sp == rf.sp
    ensures !r.PC? ==> Write16(rf, r, v).pc == rf.pc
  {
    if IsPair(r) {
      DivisionUnique(v, 256, v / 256, v % 256);
    }
  }

  /** Writing a pair with the value it holds changes nothing. */
  lemma Write16Read16(rf: RegFile, r: Register16)
    ensures Write16(rf, r, Read16(rf, r)) == rf
  {
    if IsPair(r) {
      PairIsHighLow(rf, r);
    }
  }

  /** The register file, updated in place. */
  class Registers {
    var a: byte
    var b: byte
    var c: byte
    var d: byte
    var e: byte
    var f: byte
    var h: byte
    var l: byte
    var sp: u16
    var pc: u16

    function Snapshot(): RegFile
      reads this
    {
      RegFile(a, b, c, d, e, f, h, l, sp, pc)
    }

    constructor ()
      ensures Snapshot() == Boot
    {
      a, b, c, d, e, f, h, l := 0x01, 0x00, 0x13, 0x00, 0xD8, 0xB0, 0x01, 0x4D;
      sp, pc := 0xFFFE, 0x0100;
    }

    /** get8: the named register as the register file holds it. */
    function Get8(r: Register8): (v: byte)
      reads this
      ensures v == Read8(Snapshot(), r)
    {
      match r
      case A => a
      case B => b
      case C => c
      case D => d
      case E => e
      case F => f
      case H => h
      case L => l
    }

    /** get16: a pair is its high register and its low register; SP and PC are held whole. */
    function Get16(r: Register16): (v: u16)
      reads this
      ensures v == Read16(Snapshot(), r)
      ensures IsPair(r) ==> v / 256 == Get8(High(r)) && v % 256 == Get8(Low(r))
    {
      var v := match r
        case AF => a * 256 + f
        case BC => b * 256 + c
        case HL => h * 256 + l
        case DE => d * 256 + e
        case SP => sp
        case PC => pc;
      if IsPair(r) then PairIsHighLow(Snapshot(), r); v else v
    }

    /** getf: the flag's bit of F, complemented for a negated flag. */
    function GetF(flag: Flag): (v: nat)
      reads this
      ensures v == FlagValue(f, flag)
      ensures IsNegated(flag) ==> v == 1 - FlagValue(f, Base(flag))
    {
      FlagValue(f, flag)
    }

    method Set8(r: Register8, v: byte)
      modifies this
      ensures Snapshot() == Write8(old(Snapshot()), r, v)
    {
      match r
      case A => a := v;
      case B => b := v;
      case C => c := v;
      case D => d := v;
      case E => e := v;
      case F => f := v;
      case H => h := v;
      case L => l := v;
    }

    method Set16(r: Register16, v: u16)
      modifies this
      ensures Snapshot() == Write16(old(Snapshot()), r, v)
    {
      match r
      case AF => a, f := v / 256, v % 256;
      case BC => b, c := v / 256, v % 256;
      case HL => h, l := v / 256, v % 256;
      case DE => d, e := v / 256, v % 256;
      case SP => sp := v;
      case PC => pc := v;
    }

    method SetF(flag: Flag)
      modifies this
      ensures Snapshot() == old(Snapshot()).(f := f)
      ensures f == SetFlag(old(f), flag, true)
      ensures Unpack(f) == With(Unpack(old(f)), flag, true)
      decreases if IsNegated(flag) then 1 else 0
    {
      UnpackSetFlag(f, flag, true);
      if IsNegated(flag) {
        UnsetF(Base(flag));
      } else {
        f := SetBit(f, FlagPosition(flag));
      }
    }

    method UnsetF(flag: Flag)
      modifies this
      ensures Snapshot() == old(Snapshot()).(f := f)
      ensures f == SetFlag(old(f), flag, false)
      ensures Unpack(f) == With(Unpack(old(f)), flag, false)
      decreases if IsNegated(flag) then 1 else 0
    {
      UnpackSetFlag(f, flag, false);
      if IsNegated(flag) {
        SetF(Base(flag));
      } else {
        f := ResetBit(f, FlagPosition(flag));
      }
    }

    /** The recurring `if cond { setf(flag) } else { unsetf(flag) }`, seen through the flags view. */
    method PutF(flag: Flag, on: bool)
      modifies this
      ensures Unpack(f) == With(Unpack(old(f)), flag, on)
      ensures Snapshot() == old(Snapshot()).(f := f)
    {
      if on {
        SetF(flag);
      } else {
        UnsetF(flag);
      }
    }
  }

  predicate IsPair(r: Register16)
  {
    r.AF? || r.BC? || r.HL? || r.DE?
  }

  function High(r: Register16): Register8
    requires IsPair(r)
  {
    match r
    case AF => Register8.A
    case BC => Register8.B
    case HL => Register8.H
    case DE => Register8.D
  }

  function Low(r: Register16): Register8
    requires IsPair(r)
  {
    match r
    case AF => Register8.F
    case BC => Register8.C
    case HL => Register8.L
    case DE => Register8.E
  }

  /** The 8-bit register q is one half of the pair r. */
  predicate InPair(q: Register8, r: Register16)
  {
    IsPair(r) && (q == High(r) || q == Low(r))
  }
}
