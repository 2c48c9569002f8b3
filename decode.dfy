/**
 * The instruction set as the CPU's decoder sees it: one constructor per
 * instruction helper of the CPU, the opcode tables that select them, and the
 * per-opcode cycle tables. Helpers that exist in register, (register) and
 * immediate variants take an operand instead.
 */
module Decode {
  import opened Bits
  import opened Registers

  /** What a load through (HL) does to HL afterwards: ld (HL+), ld (HL-). */
  datatype PostOp = Inc | Dec | None

  /** An 8-bit source: a register (_r8), memory at a pair (_ir16), or the next byte (_u8). */
  datatype Src8 = Reg(r: Register8) | At(pair: Register16) | Imm

  /** An 8-bit place read and written back: a register (_r8) or memory at a pair (_ir16). */
  datatype Loc8 = InReg(reg: Register8) | InMem(ptr: Register16)

  /** The CB-prefixed rotates and shifts, in opcode order. */
  datatype ShiftOp = Rlc | Rrc | Rl | Rr | Sla | Sra | Swap | Srl

  datatype Instr =
    | Nop | Stop | Halt | Di | Ei | Reti
    | Daa | Cpl | Scf | Ccf | Rlca | Rrca | Rla | Rra
    | LdR8R8(dst: Register8, src: Register8)
    | LdR8U8(dst: Register8)
    | LdR8Ir16(dst: Register8, from: Register16, post: PostOp)
    | LdIr16R8(to: Register16, src: Register8, post: PostOp)
    | LdIr16U8(to: Register16)
    | LdR8Iu16(dst: Register8)
    | LdIu16R8(src: Register8)
    | LdR8Ir8(dst: Register8, src: Register8)
    | LdIr8R8(dst: Register8, src: Register8)
    | LdhR8Iu8(dst: Register8)
    | LdhIu8R8(src: Register8)
    | LdR16U16(to: Register16)
    | LdIu16R16(from: Register16)
    | LdR16R16(to: Register16, from: Register16)
    | PushR16(from: Register16)
    | PopR16(to: Register16)
    | Add(operand: Src8) | Adc(operand: Src8) | Sub(operand: Src8) | Sbc(operand: Src8)
    | And(operand: Src8) | Xor(operand: Src8) | Or(operand: Src8) | Cp(operand: Src8)
    | Inc8(loc: Loc8) | Dec8(loc: Loc8)
    | IncR16(to: Register16) | DecR16(to: Register16)
    | AddR16R16(to: Register16, from: Register16)
    | AddR16I8(to: Register16)
    | LdR16R16I8(to: Register16, from: Register16)
    | JpU16 | JpR16(from: Register16) | JpFU16(flag: Flag)
    | JrI8 | JrFI8(flag: Flag)
    | CallU16 | CallFU16(flag: Flag)
    | Ret | RetF(flag: Flag)
    | RstF8(fixed: byte)
    | Prefix

  datatype CbInstr =
    | Shift(op: ShiftOp, loc: Loc8)
    | BitTest(bit: nat, loc: Loc8)
    | ResBit(bit: nat, loc: Loc8)
    | SetB(bit: nat, loc: Loc8)

  /** A cycle count from the tables; none is above 24. */
  type Cycles = n: nat | n <= 24

  /** OP_CYCLES, sixteen opcodes to a row: the base cost of every unprefixed opcode; 0xCB costs nothing itself. */
  const OpCyclesRows: seq<seq<Cycles>> := [
    [4, 12, 8, 8, 4, 4, 8, 4, 20, 8, 8, 8, 4, 4, 8, 4],
    [4, 12, 8, 8, 4, 4, 8, 4, 12, 8, 8, 8, 4, 4, 8, 4],
    [8, 12, 8, 8, 4, 4, 8, 4, 8, 8, 8, 8, 4, 4, 8, 4],
    [8, 12, 8, 8, 12, 12, 12, 4, 8, 8, 8, 8, 4, 4, 8, 4],
    [4, 4, 4, 4, 4, 4, 8, 4, 4, 4, 4, 4, 4, 4, 8, 4],
    [4, 4, 4, 4, 4, 4, 8, 4, 4, 4, 4, 4, 4, 4, 8, 4],
    [4, 4, 4, 4, 4, 4, 8, 4, 4, 4, 4, 4, 4, 4, 8, 4],
    [8, 8, 8, 8, 8, 8, 4, 8, 4, 4, 4, 4, 4, 4, 8, 4],
    [4, 4, 4, 4, 4, 4, 8, 4, 4, 4, 4, 4, 4, 4, 8, 4],
    [4, 4, 4, 4, 4, 4, 8, 4, 4, 4, 4, 4, 4, 4, 8, 4],
    [4, 4, 4, 4, 4, 4, 8, 4, 4, 4, 4, 4, 4, 4, 8, 4],
    [4, 4, 4, 4, 4, 4, 8, 4, 4, 4, 4, 4, 4, 4, 8, 4],
    [8, 12, 12, 16, 12, 16, 8, 16, 8, 16, 12, 0, 12, 24, 8, 16],
    [8, 12, 12, 4, 12, 16, 8, 16, 8, 16, 12, 4, 12, 4, 8, 16],
    [12, 12, 8, 4, 4, 16, 8, 16, 16, 4, 16, 4, 4, 4, 8, 16],
    [12, 12, 8, 4, 4, 16, 8, 16, 12, 8, 16, 4, 4, 4, 8, 16]
  ]

  /** CB_OP_CYCLES, sixteen opcodes to a row: the cost of every CB-prefixed opcode. */
  const CbOpCyclesRows: seq<seq<Cycles>> := [
    [8, 8, 8, 8, 8, 8, 16, 8, 8, 8, 8, 8, 8, 8, 16, 8],
    [8, 8, 8, 8, 8, 8, 16, 8, 8, 8, 8, 8, 8, 8, 16, 8],
    [8, 8, 8, 8, 8, 8, 16, 8, 8, 8, 8, 8, 8, 8, 16, 8],
    [8, 8, 8, 8, 8, 8, 16, 8, 8, 8, 8, 8, 8, 8, 16, 8],
    [8, 8, 8, 8, 8, 8, 12, 8, 8, 8, 8, 8, 8, 8, 12, 8],
    [8, 8, 8, 8, 8, 8, 12, 8, 8, 8, 8, 8, 8, 8, 12, 8],
    [8, 8, 8, 8, 8, 8, 12, 8, 8, 8, 8, 8, 8, 8, 12, 8],
    [8, 8, 8, 8, 8, 8, 12, 8, 8, 8, 8, 8, 8, 8, 12, 8],
    [8, 8, 8, 8, 8, 8, 16, 8, 8, 8, 8, 8, 8, 8, 16, 8],
    [8, 8, 8, 8, 8, 8, 16, 8, 8, 8, 8, 8, 8, 8, 16, 8],
    [8, 8, 8, 8, 8, 8, 16, 8, 8, 8, 8, 8, 8, 8, 16, 8],
    [8, 8, 8, 8, 8, 8, 16, 8, 8, 8, 8, 8, 8, 8, 16, 8],
    [8, 8, 8, 8, 8, 8, 16, 8, 8, 8, 8, 8, 8, 8, 16, 8],
    [8, 8, 8, 8, 8, 8, 16, 8, 8, 8, 8, 8, 8, 8, 16, 8],
    [8, 8, 8, 8, 8, 8, 16, 8, 8, 8, 8, 8, 8, 8, 16, 8],
    [8, 8, 8, 8, 8, 8, 16, 8, 8, 8, 8, 8, 8, 8, 16, 8]
  ]

  function OpCycles(op: byte): Cycles
  {
    OpCyclesRows[op / 16][op % 16]
  }

  function CbOpCycles(op: byte): Cycles
  {
    CbOpCyclesRows[op / 16][op % 16]
  }

  /** The operand encoded in the low three bits: B, C, D, E, H, L, (HL), A. */
  function Operand8(i: nat): (s: Src8)
    requires i < 8
    ensures s.At? <==> i == 6
  {
    match i
    case 0 => Reg(Register8.B)
    case 1 => Reg(Register8.C)
    case 2 => Reg(Register8.D)
    case 3 => Reg(Register8.E)
    case 4 => Reg(Register8.H)
    case 5 => Reg(Register8.L)
    case 6 => At(HL)
    case _ => Reg(Register8.A)
  }

  /** The same encoding as a place to read and write. */
  function Place8(i: nat): (l: Loc8)
    requires i < 8
    ensures l.InMem? <==> i == 6
  {
    match Operand8(i)
    case Reg(r) => InReg(r)
    case At(p) => InMem(p)
    case Imm => InMem(HL)
  }

  /** 0x40-0x7F: ld between registers and (HL); 0x76, which would be ld (HL),(HL), is halt. */
  function DecodeLoad(op: byte): (i: Instr)
    requires 0x40 <= op < 0x80
    ensures i.Halt? <==> op == 0x76
    ensures !i.Stop? && !i.Prefix?
  {
    var dst, src := (op - 0x40) / 8, op % 8;
    if op == 0x76 then Halt
    else if dst == 6 then LdIr16R8(HL, Operand8(src).r, None)
    else if src == 6 then LdR8Ir16(Operand8(dst).r, HL, None)
    else LdR8R8(Operand8(dst).r, Operand8(src).r)
  }

  /** The eight accumulator operations of 0x80-0xBF, in opcode order. */
  predicate IsAlu(i: Instr)
  {
    i.Add? || i.Adc? || i.Sub? || i.Sbc? || i.And? || i.Xor? || i.Or? || i.Cp?
  }

  /** Where an accumulator operation sits among the eight rows of 0x80-0xBF. */
  function AluRow(i: Instr): nat
    requires IsAlu(i)
  {
    match i
    case Add(_) => 0
    case Adc(_) => 1
    case Sub(_) => 2
    case Sbc(_) => 3
    case And(_) => 4
    case Xor(_) => 5
    case Or(_) => 6
    case Cp(_) => 7
  }

  /** The low three bits that encode an operand other than an immediate. */
  function OperandIndex(s: Src8): nat
    requires !s.Imm?
  {
    match s
    case Reg(r) =>
      (match r
       case B => 0
       case C => 1
       case D => 2
       case E => 3
       case H => 4
       case L => 5
       case A => 7
       case F => 7)
    case At(_) => 6
  }

  /** 0x80-0xBF: add, adc, sub, sbc, and, xor, or, cp of A with the operand. */
  function DecodeAlu(op: byte): (i: Instr)
    requires 0x80 <= op < 0xC0
    ensures IsAlu(i) && !i.operand.Imm?
    ensures i.operand == Operand8(op % 8)
    ensures 0x80 + 8 * AluRow(i) + OperandIndex(i.operand) == op
  {
    var s := Operand8(op % 8);
    match (op - 0x80) / 8
    case 0 => Add(s)
    case 1 => Adc(s)
    case 2 => Sub(s)
    case 3 => Sbc(s)
    case 4 => And(s)
    case 5 => Xor(s)
    case 6 => Or(s)
    case _ => Cp(s)
  }

  /** 0x00-0x3F: loads of immediates, 8- and 16-bit inc/dec, accumulator rotates, jr. */
  function DecodeLow(op: byte): (i: Instr)
    requires op < 0x40
    ensures i.Stop? <==> op == 0x10
    ensures !i.Halt? && !i.Prefix?
  {
    match op
    case 0x00 => Nop
    case 0x01 => LdR16U16(BC)
    case 0x02 => LdIr16R8(BC, Register8.A, None)
    case 0x03 => IncR16(BC)
    case 0x04 => Inc8(InReg(Register8.B))
    case 0x05 => Dec8(InReg(Register8.B))
    case 0x06 => LdR8U8(Register8.B)
    case 0x07 => Rlca
    case 0x08 => LdIu16R16(SP)
    case 0x09 => AddR16R16(HL, BC)
    case 0x0A => LdR8Ir16(Register8.A, BC, None)
    case 0x0B => DecR16(BC)
    case 0x0C => Inc8(InReg(Register8.C))
    case 0x0D => Dec8(InReg(Register8.C))
    case 0x0E => LdR8U8(Register8.C)
    case 0x0F => Rrca
    case 0x10 => Stop
    case 0x11 => LdR16U16(DE)
    case 0x12 => LdIr16R8(DE, Register8.A, None)
    case 0x13 => IncR16(DE)
    case 0x14 => Inc8(InReg(Register8.D))
    case 0x15 => Dec8(InReg(Register8.D))
    case 0x16 => LdR8U8(Register8.D)
    case 0x17 => Rla
    case 0x18 => JrI8
    case 0x19 => AddR16R16(HL, DE)
    case 0x1A => LdR8Ir16(Register8.A, DE, None)
    case 0x1B => DecR16(DE)
    case 0x1C => Inc8(InReg(Register8.E))
    case 0x1D => Dec8(InReg(Register8.E))
    case 0x1E => LdR8U8(Register8.E)
    case 0x1F => Rra
    case 0x20 => JrFI8(NZ)
    case 0x21 => LdR16U16(HL)
    case 0x22 => LdIr16R8(HL, Register8.A, Inc)
    case 0x23 => IncR16(HL)
    case 0x24 => Inc8(InReg(Register8.H))
    case 0x25 => Dec8(InReg(Register8.H))
    case 0x26 => LdR8U8(Register8.H)
    case 0x27 => Daa
    case 0x28 => JrFI8(Flag.Z)
    case 0x29 => AddR16R16(HL, HL)
    case 0x2A => LdR8Ir16(Register8.A, HL, Inc)
    case 0x2B => DecR16(HL)
    case 0x2C => Inc8(InReg(Register8.L))
    case 0x2D => Dec8(InReg(Register8.L))
    case 0x2E => LdR8U8(Register8.L)
    case 0x2F => Cpl
    case 0x30 => JrFI8(NC)
    case 0x31 => LdR16U16(SP)
    case 0x32 => LdIr16R8(HL, Register8.A, Dec)
    case 0x33 => IncR16(SP)
    case 0x34 => Inc8(InMem(HL))
    case 0x35 => Dec8(InMem(HL))
    case 0x36 => LdIr16U8(HL)
    case 0x37 => Scf
    case 0x38 => JrFI8(Flag.C)
    case 0x39 => AddR16R16(HL, SP)
    case 0x3A => LdR8Ir16(Register8.A, HL, Dec)
    case 0x3B => DecR16(SP)
    case 0x3C => Inc8(InReg(Register8.A))
    case 0x3D => Dec8(InReg(Register8.A))
    case 0x3E => LdR8U8(Register8.A)
    case _ => Ccf
  }

  /** 0xC0-0xFF: stack, control flow, immediate ALU operands, high-page loads. */
  function DecodeHigh(op: byte): (i: Instr)
    requires 0xC0 <= op
    ensures i.Prefix? <==> op == 0xCB
    ensures !i.Stop? && !i.Halt?
  {
    match op
    case 0xC0 => RetF(NZ)
    case 0xC1 => PopR16(BC)
    case 0xC2 => JpFU16(NZ)
    case 0xC3 => JpU16
    case 0xC4 => CallFU16(NZ)
    case 0xC5 => PushR16(BC)
    case 0xC6 => Add(Imm)
    case 0xC7 => RstF8(0x00)
    case 0xC8 => RetF(Flag.Z)
    case 0xC9 => Ret
    case 0xCA => JpFU16(Flag.Z)
    case 0xCB => Prefix
    case 0xCC => CallFU16(Flag.Z)
    case 0xCD => CallU16
    case 0xCE => Adc(Imm)
    case 0xCF => RstF8(0x08)
    case 0xD0 => RetF(NC)
    case 0xD1 => PopR16(DE)
    case 0xD2 => JpFU16(NC)
    case 0xD3 => Nop
    case 0xD4 => CallFU16(NC)
    case 0xD5 => PushR16(DE)
    case 0xD6 => Sub(Imm)
    case 0xD7 => RstF8(0x10)
    case 0xD8 => RetF(Flag.C)
    case 0xD9 => Reti
    case 0xDA => JpFU16(Flag.C)
    case 0xDB => Nop
    case 0xDC => CallFU16(Flag.C)
    case 0xDD => Nop
    case 0xDE => Sbc(Imm)
    case 0xDF => RstF8(0x18)
    case 0xE0 => LdhIu8R8(Register8.A)
    case 0xE1 => PopR16(HL)
    case 0xE2 => LdIr8R8(Register8.C, Register8.A)
    case 0xE3 => Nop
    case 0xE4 => Nop
    case 0xE5 => PushR16(HL)
    case 0xE6 => And(Imm)
    case 0xE7 => RstF8(0x20)
    case 0xE8 => AddR16I8(SP)
    case 0xE9 => JpR16(HL)
    case 0xEA => LdIu16R8(Register8.A)
    case 0xEB => Nop
    case 0xEC => Nop
    case 0xED => Nop
    case 0xEE => Xor(Imm)
    case 0xEF => RstF8(0x28)
    case 0xF0 => LdhR8Iu8(Register8.A)
    case 0xF1 => PopR16(AF)
    case 0xF2 => LdR8Ir8(Register8.A, Register8.C)
    case 0xF3 => Di
    case 0xF4 => Nop
    case 0xF5 => PushR16(AF)
    case 0xF6 => Or(Imm)
    case 0xF7 => RstF8(0x30)
    case 0xF8 => LdR16R16I8(HL, SP)
    case 0xF9 => LdR16R16(SP, HL)
    case 0xFA => LdR8Iu16(Register8.A)
    case 0xFB => Ei
    case 0xFC => Nop
    case 0xFD => Nop
    case 0xFE => Cp(Imm)
    case _ => RstF8(0x38)
  }

  /**
   * decode: the instruction each opcode runs. Only 0x10 is stop, which the
   * emulator does not implement, only 0x76 is halt and only 0xCB the prefix.
   */
  function Decode(op: byte): (i: Instr)
    ensures i.Stop? <==> op == 0x10
    ensures i.Halt? <==> op == 0x76
    ensures i.Prefix? <==> op == 0xCB
  {
    if op < 0x40 then DecodeLow(op)
    else if op < 0x80 then DecodeLoad(op)
    else if op < 0xC0 then DecodeAlu(op)
    else DecodeHigh(op)
  }

  /**
   * decode_cb: the two high bits choose the family (rotate/shift, bit, res,
   * set), bits 5-3 the shift or the bit number, bits 2-0 the place.
   */
  function DecodeCb(op: byte): (i: CbInstr)
    ensures i.loc.InMem? <==> op % 8 == 6
    ensures !i.Shift? ==> i.bit == (op / 8) % 8
  {
    var k, loc := (op / 8) % 8, Place8(op % 8);
    if op < 0x40 then
      var s := match k
        case 0 => Rlc case 1 => Rrc case 2 => Rl case 3 => Rr
        case 4 => Sla case 5 => Sra case 6 => Swap case _ => Srl;
      Shift(s, loc)
    else if op < 0x80 then BitTest(k, loc)
    else if op < 0xC0 then ResBit(k, loc)
    else SetB(k, loc)
  }

  /**
   * A conditional jp, jr or call that is taken costs as much as its
   * unconditional form; a ret cc costs 8 when not taken and 20 when taken.
   */
  lemma TakenBranchesCost()
    ensures OpCycles(0xC2) as int + 4 == OpCycles(0xCA) as int + 4 == OpCycles(0xC3)
    ensures OpCycles(0xD2) as int + 4 == OpCycles(0xDA) as int + 4 == OpCycles(0xC3)
    ensures OpCycles(0x20) as int + 4 == OpCycles(0x28) as int + 4 == OpCycles(0x18)
    ensures OpCycles(0x30) as int + 4 == OpCycles(0x38) as int + 4 == OpCycles(0x18)
    ensures OpCycles(0xC4) as int + 12 == OpCycles(0xCC) as int + 12 == OpCycles(0xCD)
    ensures OpCycles(0xD4) as int + 12 == OpCycles(0xDC) as int + 12 == OpCycles(0xCD)
    ensures OpCycles(0xC0) == OpCycles(0xC8) == OpCycles(0xD0) == OpCycles(0xD8) == 8
  {
  }

  /** The CB table charges 8 cycles on a register, 12 to test a bit in memory, 16 to rewrite memory. */
  lemma CbCyclesFollowPlace()
    ensures CbOpCycles(0x00) == CbOpCycles(0x7F) == CbOpCycles(0xFF) == 8
    ensures CbOpCycles(0x46) == CbOpCycles(0x7E) == 12
    ensures CbOpCycles(0x06) == CbOpCycles(0x3E) == CbOpCycles(0x86) == CbOpCycles(0xFE) == 16
  {
  }
}
