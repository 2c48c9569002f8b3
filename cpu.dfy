/**
 * The CPU: fetch, decode and execute one instruction per tick, interrupt
 * dispatch, the IME state machine, HALT, and cycle accounting. Memory is the
 * 64 KiB the CPU addresses; the routing of those addresses to cartridge,
 * RAM and I/O is the MMU's business (module Mmu), and the CPU sees only the
 * bytes. IE lives at 0xFFFF and IF at 0xFF0F.
 *
 * Each instruction helper is a method proved to leave the register file and
 * memory exactly as the pure functions below (and those of module Alu) say.
 */
module Cpu {
  import opened Bits
  import opened Registers
  import Alu
  import AddressSpaces
  import opened Decode
  import opened Wrappers

  /** The 64 KiB the CPU addresses. */
  type Memory = m: seq<byte> | |m| == 0x1_0000 witness seq(0x1_0000, _ => 0)

  const IeAddress: u16 := 0xFFFF
  const IfAddress: u16 := 0xFF0F

  /** wrapping_add(1) on a u16. */
  function Inc16(x: u16): u16 { (x + 1) % 0x1_0000 }

  /** wrapping_sub(1) on a u16. */
  function Dec16(x: u16): u16 { (x + 0xFFFF) % 0x1_0000 }

  /** PC after a 16-bit operand: wrapping_add(2). */
  function Skip16(x: u16): u16 { (x + 2) % 0x1_0000 }

  /** The 16-bit operand at PC, read little-endian (read_16). */
  function OperandWord(mem: Memory, pc: u16): u16
    requires pc < 0xFFFF
  {
    AddressSpaces.Word(mem[pc], mem[pc + 1])
  }

  /** `0xff00 | low`: the high page the ldh and ld (C) forms address. */
  function HighPage(low: byte): (a: u16)
    ensures a / 256 == 0xFF && a % 256 == low
  {
    0xFF00 + low
  }

  /** The CPU's memory; it stands for the MMU as the CPU sees it. */
  class Bus {
    var mem: Memory

    constructor (init: Memory)
      ensures mem == init
    {
      mem := init;
    }

    function Read(add: u16): byte
      reads this
    {
      mem[add]
    }

    method Write(add: u16, v: byte)
      modifies this
      ensures mem == old(mem)[add := v]
    {
      mem := mem[add := v];
    }
  }

  // ---------------------------------------------------------------- the stack

  /** stack_push_u16 on memory: the high byte goes to SP-1, the low byte to SP-2, both wrapping. */
  function PushedMem(mem: Memory, sp: u16, v: u16): Memory
  {
    mem[Dec16(sp) := v / 256][Dec16(Dec16(sp)) := v % 256]
  }

  /** stack_pop_u16: the low byte at SP, the high byte at SP+1 (wrapping). */
  function StackWord(mem: Memory, sp: u16): u16
  {
    AddressSpaces.Word(mem[sp], mem[Inc16(sp)])
  }

  /**
   * A pop after a push returns the pushed value and restores SP; the high
   * byte sits one above the low byte, and no other location changes.
   */
  lemma PopAfterPush(mem: Memory, sp: u16, v: u16)
    ensures var m, top := PushedMem(mem, sp, v), Dec16(Dec16(sp));
      StackWord(m, top) == v && Inc16(Inc16(top)) == sp
      && m[Dec16(sp)] == v / 256 && m[top] == v % 256 && Inc16(top) == Dec16(sp)
      && forall a: u16 :: a != Dec16(sp) && a != top ==> m[a] == mem[a]
  {
    var m, top := PushedMem(mem, sp, v), Dec16(Dec16(sp));
    assert Inc16(top) == Dec16(sp);
    assert m[top] == v % 256 && m[Dec16(sp)] == v / 256;
    AddressSpaces.WordOfBytes(v);
  }

  // ---------------------------------------------------------------- operands

  /** The value an 8-bit source supplies: a register, memory at a pair, or the byte at PC. */
  function OperandValue(rf: RegFile, mem: Memory, s: Src8): byte
  {
    match s
    case Reg(r) => Read8(rf, r)
    case At(p) => mem[Read16(rf, p)]
    case Imm => mem[rf.pc]
  }

  /** Reading an immediate operand moves PC past it; the other sources leave the registers. */
  function AfterOperand(rf: RegFile, s: Src8): RegFile
  {
    if s.Imm? then rf.(pc := Inc16(rf.pc)) else rf
  }

  function PlaceValue(rf: RegFile, mem: Memory, l: Loc8): byte
  {
    match l
    case InReg(r) => Read8(rf, r)
    case InMem(p) => mem[Read16(rf, p)]
  }

  /** The register file after storing a result in a place; a memory place leaves it alone. */
  function StoreReg(rf: RegFile, l: Loc8, v: byte): RegFile
  {
    if l.InReg? then Write8(rf, l.reg, v) else rf
  }

  /** Memory after storing a result in a place, addressed through the registers `rf`. */
  function StoreMem(rf: RegFile, mem: Memory, l: Loc8, v: byte): Memory
  {
    if l.InMem? then mem[Read16(rf, l.ptr) := v] else mem
  }

  /** handle_post_op: HL+ and HL- after a load through HL. */
  function Post(rf: RegFile, p: Register16, op: PostOp): RegFile
  {
    match op
    case Inc => Write16(rf, p, Inc16(Read16(rf, p)))
    case Dec => Write16(rf, p, Dec16(Read16(rf, p)))
    case None => rf
  }

  /** The value and flags of a CB rotate or shift. */
  function ShiftResult(op: ShiftOp, f: Flags, v: byte): Alu.Out
  {
    match op
    case Rlc => Alu.Rlc(f, v)
    case Rrc => Alu.Rrc(f, v)
    case Rl => Alu.Rl(f, v)
    case Rr => Alu.Rr(f, v)
    case Sla => Alu.Sla(f, v)
    case Sra => Alu.Sra(f, v)
    case Swap => Alu.Swap(f, v)
    case Srl => Alu.Srl(f, v)
  }

  /**
   * A push of a register pair followed by a pop into the same pair restores
   * the whole register file.
   */
  lemma PopRestoresPush(rf: RegFile, mem: Memory, p: Register16)
    ensures var v := Read16(rf, p);
      var pushed := rf.(sp := Dec16(Dec16(rf.sp)));
      Write16(pushed.(sp := Inc16(Inc16(pushed.sp))), p, StackWord(PushedMem(mem, rf.sp, v), pushed.sp)) == rf
  {
    PopAfterPush(mem, rf.sp, Read16(rf, p));
    Write16Read16(rf, p);
  }

  // ---------------------------------------------------------------- interrupts

  /** The interrupt master enable; ei makes it pending for one instruction. */
  datatype Ime = Enabled | Disabled | Pending

  /** tick first promotes a pending enable. */
  function ImeAtTick(ime: Ime): Ime
  {
    if ime == Pending then Enabled else ime
  }

  /** di, ei and reti set the IME; every other instruction keeps it. */
  function ImeAfter(i: Instr, ime: Ime): Ime
  {
    match i
    case Di => Disabled
    case Ei => Pending
    case Reti => Enabled
    case _ => ime
  }

  /** The IF/IE bit of interrupt k: vblank, LCD STAT, timer, serial, joypad. */
  function Mask(k: nat): byte
    requires k < 5
  {
    match k
    case 0 => 0x01
    case 1 => 0x02
    case 2 => 0x04
    case 3 => 0x08
    case _ => 0x10
  }

  /** Where interrupt k jumps: 0x40, 0x48, 0x50, 0x58, 0x60. */
  function Vector(k: nat): u16
    requires k < 5
  {
    0x40 + 8 * k
  }

  /** check_interrupts' test `(ie & mask) & (if & mask) != 0`. */
  predicate Requested(ie: byte, iflag: byte, k: nat)
    requires k < 5
  {
    And8(And8(ie, Mask(k)), And8(iflag, Mask(k))) != 0
  }

  /** The test holds exactly when bit k is set in both IE and IF. */
  lemma RequestedIffBothSet(ie: byte, iflag: byte, k: nat)
    requires k < 5
    ensures Requested(ie, iflag, k) <==> Bit(ie, k) == 1 && Bit(iflag, k) == 1
  {
    var m := Mask(k);
    Pow2Byte();
    assert m == Pow2(k);
    var c := And8(And8(ie, m), And8(iflag, m));
    forall j | 0 <= j < 8
      ensures Bit(c, j) == if j == k && Bit(ie, k) == 1 && Bit(iflag, k) == 1 then 1 else 0
    {
      BitOfPow2(k, j);
    }
    ZeroIffNoBits(c);
  }

  /** Interrupt k is enabled in IE and requested in IF. */
  predicate BothSet(ie: byte, iflag: byte, k: nat)
  {
    Bit(ie, k) == 1 && Bit(iflag, k) == 1
  }

  /** The interrupt check_interrupts services: the first of the five whose test holds. */
  function PendingInterrupt(ie: byte, iflag: byte): (r: Option<nat>)
    ensures r.Some? ==> r.value < 5
  {
    if Requested(ie, iflag, 0) then Some(0)
    else if Requested(ie, iflag, 1) then Some(1)
    else if Requested(ie, iflag, 2) then Some(2)
    else if Requested(ie, iflag, 3) then Some(3)
    else if Requested(ie, iflag, 4) then Some(4)
    else Option.None
  }

  /** The serviced interrupt is enabled in IE and requested in IF. */
  lemma PendingIsBothSet(ie: byte, iflag: byte)
    ensures var r := PendingInterrupt(ie, iflag); r.Some? ==> BothSet(ie, iflag, r.value)
  {
    RequestedIffBothSet(ie, iflag, 0);
    if Requested(ie, iflag, 0) {
      return;
    }
    RequestedIffBothSet(ie, iflag, 1);
    if Requested(ie, iflag, 1) {
      return;
    }
    RequestedIffBothSet(ie, iflag, 2);
    if Requested(ie, iflag, 2) {
      return;
    }
    RequestedIffBothSet(ie, iflag, 3);
    if Requested(ie, iflag, 3) {
      return;
    }
    RequestedIffBothSet(ie, iflag, 4);
  }

  /** Interrupt k is skipped: a lower-numbered interrupt is serviced, or none is. */
  predicate Skipped(r: Option<nat>, k: nat)
  {
    r.None? || k < r.value
  }

  /**
   * Priority: no interrupt numbered below the serviced one is both enabled
   * and requested, and none is serviced only when no interrupt is.
   */
  lemma PendingIsLowest(ie: byte, iflag: byte)
    ensures var r := PendingInterrupt(ie, iflag);
      (Skipped(r, 0) ==> !BothSet(ie, iflag, 0)) && (Skipped(r, 1) ==> !BothSet(ie, iflag, 1))
      && (Skipped(r, 2) ==> !BothSet(ie, iflag, 2)) && (Skipped(r, 3) ==> !BothSet(ie, iflag, 3))
      && (Skipped(r, 4) ==> !BothSet(ie, iflag, 4))
  {
    RequestedIffBothSet(ie, iflag, 0);
    RequestedIffBothSet(ie, iflag, 1);
    RequestedIffBothSet(ie, iflag, 2);
    RequestedIffBothSet(ie, iflag, 3);
    RequestedIffBothSet(ie, iflag, 4);
  }

  /** The registers and memory the CPU works on. */
  datatype Machine = Machine(rf: RegFile, mem: Memory)

  /** handle_interrupt: push PC, flip the IF bit (read after the push), jump to the vector. */
  function Service(m: Machine, k: nat): Machine
    requires k < 5
  {
    var pushed := PushedMem(m.mem, m.rf.sp, m.rf.pc);
    Machine(m.rf.(sp := Dec16(Dec16(m.rf.sp)), pc := Vector(k)),
            pushed[IfAddress := Xor8(pushed[IfAddress], Mask(k))])
  }

  /** Whether check_interrupts services an interrupt. */
  predicate Serviced(m: Machine, ime: Ime)
  {
    ime == Enabled && PendingInterrupt(m.mem[IeAddress], m.mem[IfAddress]).Some?
  }

  /** check_interrupts: with IME enabled, service the pending interrupt of highest priority. */
  function Checked(m: Machine, ime: Ime): Machine
  {
    if Serviced(m, ime) then Service(m, PendingInterrupt(m.mem[IeAddress], m.mem[IfAddress]).value) else m
  }

  /**
   * Servicing interrupt k jumps to its vector with the old PC on the stack
   * and clears its request bit in IF, leaving the other IF bits, unless the
   * push itself landed on IF.
   */
  lemma ServiceClearsRequest(m: Machine, k: nat)
    requires k < 5 && Bit(m.mem[IfAddress], k) == 1
    requires Dec16(m.rf.sp) != IfAddress && Dec16(Dec16(m.rf.sp)) != IfAddress
    ensures var s := Service(m, k);
      s.rf.pc == 0x40 + 8 * k && StackWord(s.mem, s.rf.sp) == m.rf.pc && Inc16(Inc16(s.rf.sp)) == m.rf.sp
      && Bit(s.mem[IfAddress], k) == 0
      && forall j :: 0 <= j < 8 && j != k ==> Bit(s.mem[IfAddress], j) == Bit(m.mem[IfAddress], j)
  {
    var s := Service(m, k);
    PopAfterPush(m.mem, m.rf.sp, m.rf.pc);
    var pushed := PushedMem(m.mem, m.rf.sp, m.rf.pc);
    assert pushed[IfAddress] == m.mem[IfAddress];
    assert StackWord(s.mem, s.rf.sp) == StackWord(pushed, s.rf.sp);
    forall j | 0 <= j < 8
      ensures Bit(s.mem[IfAddress], j) == if j == k then 0 else Bit(m.mem[IfAddress], j)
    {
      BitOfPow2(k, j);
    }
  }

  // ---------------------------------------------------------------- what a tick needs

  /** The instructions that read a 16-bit operand with consume_u16. */
  predicate NeedsWord(i: Instr)
  {
    i.LdR16U16? || i.LdIu16R16? || i.LdR8Iu16? || i.LdIu16R8? || i.JpU16? || i.JpFU16? || i.CallU16? || i.CallFU16?
  }

  /** The loads, push and pop: they touch no cycle count, IME or HALT state. */
  predicate IsLoad(i: Instr)
  {
    i.LdR8R8? || i.LdR8U8? || i.LdR8Ir16? || i.LdIr16R8? || i.LdIr16U8? || i.LdR8Iu16? || i.LdIu16R8?
    || i.LdR8Ir8? || i.LdIr8R8? || i.LdhR8Iu8? || i.LdhIu8R8? || i.LdR16U16? || i.LdIu16R16?
    || i.LdR16R16? || i.PushR16? || i.PopR16?
  }

  /** The arithmetic, logic and flag instructions: no cycle count, IME or HALT state either. */
  predicate IsArithmetic(i: Instr)
  {
    i.Add? || i.Adc? || i.Sub? || i.Sbc? || i.And? || i.Xor? || i.Or? || i.Cp? || i.Inc8? || i.Dec8?
    || i.IncR16? || i.DecR16? || i.AddR16R16? || i.AddR16I8? || i.LdR16R16I8?
    || i.Daa? || i.Cpl? || i.Scf? || i.Ccf? || i.Rlca? || i.Rrca? || i.Rla? || i.Rra?
  }

  /**
   * The instruction runs without a panic, PC being just past its opcode:
   * stop is unimplemented, read_16 at 0xFFFF overflows, and ld (u16),SP
   * overflows writing its high byte at 0x10000.
   */
  predicate Runs(i: Instr, m: Machine)
  {
    !i.Stop?
    && (NeedsWord(i) ==> m.rf.pc < 0xFFFF)
    && (i.LdIu16R16? && m.rf.pc < 0xFFFF ==> OperandWord(m.mem, m.rf.pc) < 0xFFFF)
  }

  /** The instruction a tick fetches after the interrupt check, and the machine just past its opcode. */
  function Fetched(m: Machine, ime: Ime): (byte, Machine)
  {
    var s := Checked(m, ImeAtTick(ime));
    (s.mem[s.rf.pc], Machine(s.rf.(pc := Inc16(s.rf.pc)), s.mem))
  }

  /** A running (not halted) tick does not panic. */
  predicate TickRuns(m: Machine, ime: Ime)
  {
    var (op, after) := Fetched(m, ime);
    Runs(Decode.Decode(op), after)
  }

  /** The cycles an instruction adds beyond OP_CYCLES: taken branches, and the CB opcode's own cost. */
  function ExtraCycles(i: Instr, m: Machine): (n: nat)
    ensures n <= 24
  {
    match i
    case JpFU16(fl) => if FlagValue(m.rf.f, fl) == 1 then 4 else 0
    case JrFI8(fl) => if FlagValue(m.rf.f, fl) == 1 then 4 else 0
    case CallFU16(fl) => if FlagValue(m.rf.f, fl) == 1 then 12 else 0
    case RetF(fl) => if FlagValue(m.rf.f, fl) == 1 then 12 else 0
    case Prefix => CbOpCycles(m.mem[m.rf.pc])
    case _ => 0
  }

  /** Loads and arithmetic take no extra cycles and leave IME and HALT alone. */
  lemma NoControlEffect(i: Instr, m: Machine, ime: Ime)
    requires IsLoad(i) || IsArithmetic(i)
    ensures ExtraCycles(i, m) == 0 && ImeAfter(i, ime) == ime && !i.Halt?
  {
  }

  // ---------------------------------------------------------------- what an instruction does

  /** Whether a conditional jump, call or return is taken. */
  predicate Taken(rf: RegFile, flag: Flag)
  {
    FlagValue(rf.f, flag) == 1
  }

  /** A with the value and F with the flags of an accumulator result. */
  function WithAccumulator(rf: RegFile, o: Alu.Out): RegFile
  {
    rf.(a := o.value, f := Pack(o.f))
  }

  /** Memory and registers after storing an 8-bit result, and its flags, in a place. */
  function Stored(m: Machine, l: Loc8, o: Alu.Out): Machine
  {
    Machine(StoreReg(m.rf.(f := Pack(o.f)), l, o.value), StoreMem(m.rf, m.mem, l, o.value))
  }

  /** ret: pop PC. */
  function Returned(m: Machine): Machine
  {
    Machine(m.rf.(sp := Inc16(Inc16(m.rf.sp)), pc := StackWord(m.mem, m.rf.sp)), m.mem)
  }

  /** call and rst: push the return address and jump. */
  function Called(m: Machine, back: u16, target: u16): Machine
  {
    Machine(m.rf.(sp := Dec16(Dec16(m.rf.sp)), pc := target), PushedMem(m.mem, m.rf.sp, back))
  }

  /** The 8-bit loads. */
  predicate LoadsByte(i: Instr)
  {
    i.LdR8R8? || i.LdR8U8? || i.LdR8Ir16? || i.LdIr16R8? || i.LdIr16U8? || i.LdR8Iu16? || i.LdIu16R8?
    || i.LdR8Ir8? || i.LdIr8R8? || i.LdhR8Iu8? || i.LdhIu8R8?
  }

  /** The machine after an 8-bit load, PC being just past its opcode. */
  function ByteLoadExecuted(i: Instr, m: Machine): Machine
    requires LoadsByte(i) && Runs(i, m)
  {
    var rf, mem := m.rf, m.mem;
    match i
    case LdR8R8(d, s) => Machine(Write8(rf, d, Read8(rf, s)), mem)
    case LdR8U8(d) => Machine(Write8(rf.(pc := Inc16(rf.pc)), d, mem[rf.pc]), mem)
    case LdR8Ir16(d, p, post) => Machine(Post(Write8(rf, d, mem[Read16(rf, p)]), p, post), mem)
    case LdIr16R8(p, s, post) => Machine(Post(rf, p, post), mem[Read16(rf, p) := Read8(rf, s)])
    case LdIr16U8(p) =>
      var rf1 := rf.(pc := Inc16(rf.pc));
      Machine(rf1, mem[Read16(rf1, p) := mem[rf.pc]])
    case LdR8Iu16(d) => Machine(Write8(rf.(pc := Skip16(rf.pc)), d, mem[OperandWord(mem, rf.pc)]), mem)
    case LdIu16R8(s) => Machine(rf.(pc := Skip16(rf.pc)), mem[OperandWord(mem, rf.pc) := Read8(rf, s)])
    case LdR8Ir8(d, s) => Machine(Write8(rf, d, mem[HighPage(Read8(rf, s))]), mem)
    case LdIr8R8(d, s) => Machine(rf, mem[HighPage(Read8(rf, d)) := Read8(rf, s)])
    case LdhR8Iu8(d) => Machine(Write8(rf.(pc := Inc16(rf.pc)), d, mem[HighPage(mem[rf.pc])]), mem)
    case LdhIu8R8(s) => Machine(rf.(pc := Inc16(rf.pc)), mem[HighPage(mem[rf.pc]) := Read8(rf, s)])
  }

  /** The machine after a 16-bit load, push or pop, PC being just past its opcode. */
  function WordLoadExecuted(i: Instr, m: Machine): Machine
    requires IsLoad(i) && !LoadsByte(i) && Runs(i, m)
  {
    var rf, mem := m.rf, m.mem;
    match i
    case LdR16U16(p) => Machine(Write16(rf.(pc := Skip16(rf.pc)), p, OperandWord(mem, rf.pc)), mem)
    case LdIu16R16(p) =>
      var add, v := OperandWord(mem, rf.pc), Read16(rf, p);
      Machine(rf.(pc := Skip16(rf.pc)), mem[add := v % 256][add + 1 := v / 256])
    case LdR16R16(p, q) => Machine(Write16(rf, p, Read16(rf, q)), mem)
    case PushR16(p) => Machine(rf.(sp := Dec16(Dec16(rf.sp))), PushedMem(mem, rf.sp, Read16(rf, p)))
    case PopR16(p) => Machine(Write16(rf.(sp := Inc16(Inc16(rf.sp))), p, StackWord(mem, rf.sp)), mem)
  }

  /** The machine after a load, push or pop. */
  function LoadExecuted(i: Instr, m: Machine): Machine
    requires IsLoad(i) && Runs(i, m)
  {
    if LoadsByte(i) then ByteLoadExecuted(i, m) else WordLoadExecuted(i, m)
  }

  /** The eight ALU instructions on A and an 8-bit source. */
  predicate OnSource(i: Instr)
  {
    i.Add? || i.Adc? || i.Sub? || i.Sbc? || i.And? || i.Xor? || i.Or? || i.Cp?
  }

  /** The machine after an ALU instruction on A and an 8-bit source; cp keeps A. */
  function AluExecuted(i: Instr, m: Machine): Machine
    requires OnSource(i)
  {
    var rf, mem := m.rf, m.mem;
    var fl := Unpack(rf.f);
    match i
    case Add(s) => Machine(WithAccumulator(AfterOperand(rf, s), Alu.Sum8(fl, rf.a, OperandValue(rf, mem, s), true, true)), mem)
    case Adc(s) => Machine(WithAccumulator(AfterOperand(rf, s), Alu.Adc(fl, rf.a, OperandValue(rf, mem, s))), mem)
    case Sub(s) => Machine(WithAccumulator(AfterOperand(rf, s), Alu.Sub8(fl, rf.a, OperandValue(rf, mem, s), true, true)), mem)
    case Sbc(s) => Machine(WithAccumulator(AfterOperand(rf, s), Alu.Sbc(fl, rf.a, OperandValue(rf, mem, s))), mem)
    case And(s) => Machine(WithAccumulator(AfterOperand(rf, s), Alu.AndFlags(fl, rf.a, OperandValue(rf, mem, s))), mem)
    case Xor(s) => Machine(WithAccumulator(AfterOperand(rf, s), Alu.XorFlags(fl, rf.a, OperandValue(rf, mem, s))), mem)
    case Or(s) => Machine(WithAccumulator(AfterOperand(rf, s), Alu.OrFlags(fl, rf.a, OperandValue(rf, mem, s))), mem)
    case Cp(s) => Machine(AfterOperand(rf, s).(f := Pack(Alu.Sub8(fl, rf.a, OperandValue(rf, mem, s), true, true).f)), mem)
  }

  /** inc and dec of a register or (HL), and the 16-bit inc, dec and adds. */
  predicate OnPlaceOrPair(i: Instr)
  {
    i.Inc8? || i.Dec8? || i.IncR16? || i.DecR16? || i.AddR16R16? || i.AddR16I8? || i.LdR16R16I8?
  }

  /** The machine after an 8-bit inc or dec in place, or a 16-bit inc, dec or add. */
  function PlaceOrPairExecuted(i: Instr, m: Machine): Machine
    requires OnPlaceOrPair(i)
  {
    var rf, mem := m.rf, m.mem;
    var fl := Unpack(rf.f);
    match i
    case Inc8(l) => Stored(m, l, Alu.Sum8(fl, PlaceValue(rf, mem, l), 1, false, true))
    case Dec8(l) => Stored(m, l, Alu.Sub8(fl, PlaceValue(rf, mem, l), 1, false, true))
    case IncR16(p) => Machine(Write16(rf, p, Inc16(Read16(rf, p))), mem)
    case DecR16(p) => Machine(Write16(rf, p, Dec16(Read16(rf, p))), mem)
    case AddR16R16(p, q) =>
      var o := Alu.Add16(fl, Read16(rf, p), Read16(rf, q));
      Machine(Write16(rf.(f := Pack(o.f)), p, o.value), mem)
    case AddR16I8(p) =>
      var o := Alu.SignedSumFlags(fl, Read16(rf, p), mem[rf.pc]);
      Machine(Write16(rf.(pc := Inc16(rf.pc), f := Pack(o.f)), p, o.value), mem)
    case LdR16R16I8(p, q) =>
      var o := Alu.SignedSumFlags(fl, Read16(rf, q), mem[rf.pc]);
      Machine(Write16(rf.(pc := Inc16(rf.pc), f := Pack(o.f)), p, o.value), mem)
  }

  /** The machine after an arithmetic, logic, flag or accumulator-rotate instruction. */
  function ArithmeticExecuted(i: Instr, m: Machine): Machine
    requires IsArithmetic(i)
  {
    if OnSource(i) then AluExecuted(i, m)
    else if OnPlaceOrPair(i) then PlaceOrPairExecuted(i, m)
    else Machine(AccumulatorExecuted(i, m.rf), m.mem)
  }

  /** The instructions that work on A and F alone: daa, cpl, scf, ccf and the accumulator rotates. */
  predicate OnAccumulator(i: Instr)
  {
    i.Daa? || i.Cpl? || i.Scf? || i.Ccf? || i.Rlca? || i.Rrca? || i.Rla? || i.Rra?
  }

  /** The registers after an instruction that works on A and F alone. */
  function AccumulatorExecuted(i: Instr, rf: RegFile): RegFile
    requires OnAccumulator(i)
  {
    var fl := Unpack(rf.f);
    match i
    case Daa => WithAccumulator(rf, Alu.Daa(fl, rf.a))
    case Cpl => WithAccumulator(rf, Alu.Cpl(fl, rf.a))
    case Scf => rf.(f := Pack(Alu.Scf(fl)))
    case Ccf => rf.(f := Pack(Alu.Ccf(fl)))
    case Rlca => WithAccumulator(rf, Alu.Rlca(fl, rf.a))
    case Rrca => WithAccumulator(rf, Alu.Rrca(fl, rf.a))
    case Rla => WithAccumulator(rf, Alu.Rla(fl, rf.a))
    case Rra => WithAccumulator(rf, Alu.Rra(fl, rf.a))
  }

  /** A CB-prefixed instruction the decoder can produce: its bit number is below 8. */
  predicate WellFormedCb(c: CbInstr)
  {
    c.Shift? || c.bit < 8
  }

  /** The machine after a CB-prefixed instruction, PC being just past its opcode. */
  function CbExecuted(c: CbInstr, m: Machine): Machine
    requires WellFormedCb(c)
  {
    var rf, mem := m.rf, m.mem;
    match c
    case Shift(op, l) => Stored(m, l, ShiftResult(op, Unpack(rf.f), PlaceValue(rf, mem, l)))
    case BitTest(b, l) => Machine(rf.(f := Pack(Alu.TestBit(Unpack(rf.f), b, PlaceValue(rf, mem, l)))), mem)
    case ResBit(b, l) =>
      var v := ResetBit(PlaceValue(rf, mem, l), b);
      Machine(StoreReg(rf, l, v), StoreMem(rf, mem, l, v))
    case SetB(b, l) =>
      var v := SetBit(PlaceValue(rf, mem, l), b);
      Machine(StoreReg(rf, l, v), StoreMem(rf, mem, l, v))
  }

  /** The machine after a jump, call, return, IME or HALT instruction, or a CB-prefixed one. */
  function ControlExecuted(i: Instr, m: Machine): Machine
    requires !IsLoad(i) && !IsArithmetic(i) && Runs(i, m)
  {
    var rf, mem := m.rf, m.mem;
    match i
    case Nop => m
    case Halt => m
    case Di => m
    case Ei => m
    case Reti => Returned(m)
    case JpU16 => Machine(rf.(pc := OperandWord(mem, rf.pc)), mem)
    case JpR16(p) => Machine(rf.(pc := Read16(rf, p)), mem)
    case JpFU16(fl) => Machine(rf.(pc := if Taken(rf, fl) then OperandWord(mem, rf.pc) else Skip16(rf.pc)), mem)
    case JrI8 => Machine(rf.(pc := Alu.SignedSum(Inc16(rf.pc), mem[rf.pc])), mem)
    case JrFI8(fl) => Machine(rf.(pc := if Taken(rf, fl) then Alu.SignedSum(Inc16(rf.pc), mem[rf.pc]) else Inc16(rf.pc)), mem)
    case CallU16 => Called(m, Skip16(rf.pc), OperandWord(mem, rf.pc))
    case CallFU16(fl) =>
      if Taken(rf, fl) then Called(m, Skip16(rf.pc), OperandWord(mem, rf.pc)) else Machine(rf.(pc := Skip16(rf.pc)), mem)
    case Ret => Returned(m)
    case RetF(fl) => if Taken(rf, fl) then Returned(m) else m
    case RstF8(v) => Called(m, rf.pc, v)
    case Prefix => CbExecuted(DecodeCb(mem[rf.pc]), Machine(rf.(pc := Inc16(rf.pc)), mem))
    case _ => assert false; m
  }

  /** decode's match as a function: the machine after instruction i, PC being just past its opcode. */
  function Executed(i: Instr, m: Machine): Machine
    requires Runs(i, m)
  {
    if IsLoad(i) then LoadExecuted(i, m)
    else if IsArithmetic(i) then ArithmeticExecuted(i, m)
    else ControlExecuted(i, m)
  }

  /**
   * pop rr after push rr gives back every register: the pair, SP and PC;
   * memory differs from before only in the two bytes just below SP.
   */
  lemma PopUndoesPush(m: Machine, p: Register16)
    ensures var after := Executed(PopR16(p), Executed(PushR16(p), m));
      after.rf == m.rf
      && forall a: u16 :: a != Dec16(m.rf.sp) && a != Dec16(Dec16(m.rf.sp)) ==> after.mem[a] == m.mem[a]
  {
  }

  /** ret after call u16 lands just past the call's operand with SP restored. */
  lemma RetUndoesCall(m: Machine)
    requires m.rf.pc < 0xFFFF
    ensures var c := Executed(CallU16, m);
      c.rf.pc == OperandWord(m.mem, m.rf.pc) && Executed(Ret, c).rf == m.rf.(pc := Skip16(m.rf.pc))
  {
    PopAfterPush(m.mem, m.rf.sp, Skip16(m.rf.pc));
  }

  /** ret after rst returns to the address the rst was fetched from, with SP restored. */
  lemma RetUndoesRst(m: Machine, v: byte)
    ensures var c := Executed(RstF8(v), m);
      c.rf.pc == v && Executed(Ret, c).rf == m.rf
      && forall a: u16 :: a != Dec16(m.rf.sp) && a != Dec16(Dec16(m.rf.sp)) ==> c.mem[a] == m.mem[a]
  {
  }

  /** bit b after set b of the same place clears Z; after res b it sets Z. */
  lemma BitTestAfterSetOrReset(m: Machine, b: nat, l: Loc8)
    requires b < 8
    ensures !Unpack(CbExecuted(BitTest(b, l), CbExecuted(SetB(b, l), m)).rf.f).z
    ensures Unpack(CbExecuted(BitTest(b, l), CbExecuted(ResBit(b, l), m)).rf.f).z
  {
    var v := PlaceValue(m.rf, m.mem, l);
    var withSet, withReset := CbExecuted(SetB(b, l), m), CbExecuted(ResBit(b, l), m);
    if l.InReg? {
      Write8ThenRead(m.rf, l.reg, SetBit(v, b));
      Write8ThenRead(m.rf, l.reg, ResetBit(v, b));
    }
    assert PlaceValue(withSet.rf, withSet.mem, l) == SetBit(v, b);
    assert PlaceValue(withReset.rf, withReset.mem, l) == ResetBit(v, b);
    UnpackPack(Alu.TestBit(Unpack(withSet.rf.f), b, SetBit(v, b)));
    UnpackPack(Alu.TestBit(Unpack(withReset.rf.f), b, ResetBit(v, b)));
  }

  class Cpu {
    const reg: Registers
    var cycles: nat
    var ops: nat
    var ime: Ime
    var halted: bool

    constructor ()
      ensures fresh(reg) && reg.Snapshot() == Boot
      ensures cycles == 0 && ops == 0 && ime == Disabled && !halted
    {
      reg := new Registers();
      cycles, ops, ime, halted := 0, 0, Disabled, false;
    }

    function State(bus: Bus): Machine
      reads reg, bus
    {
      Machine(reg.Snapshot(), bus.mem)
    }

    // ------------------------------------------------------------ tick and interrupts

    /**
     * tick: promote a pending IME; when running, check interrupts, fetch and
     * execute one instruction; when halted, wake up if IE & IF != 0 and spend
     * 8 cycles. Returns the cycles spent, which always fit the u8.
     */
    method Tick(bus: Bus) returns (r: byte)
      requires !halted ==> TickRuns(State(bus), ime)
      modifies this, reg, bus
      ensures r == cycles - old(cycles)
      ensures old(halted) ==>
        cycles == old(cycles) + 8 && ops == old(ops) && ime == ImeAtTick(old(ime))
        && reg.Snapshot() == old(reg.Snapshot()) && bus.mem == old(bus.mem)
        && (halted <==> And8(bus.mem[IeAddress], bus.mem[IfAddress]) == 0)
      ensures !old(halted) ==>
        var ime0 := ImeAtTick(old(ime));
        var (op, after) := Fetched(old(State(bus)), old(ime));
        var serviced := Serviced(old(State(bus)), ime0);
        cycles == old(cycles) + (if serviced then 20 else 0) + OpCycles(op) + ExtraCycles(Decode.Decode(op), after)
        && ops == old(ops) + 1
        && ime == ImeAfter(Decode.Decode(op), if serviced then Disabled else ime0)
        && (halted <==> op == 0x76)
        && State(bus) == Executed(Decode.Decode(op), after)
    {
      var start := cycles;
      ghost var tickIme := ime;
      if ime == Pending {
        ime := Enabled;
      }
      if !halted {
        FetchAndRun(bus, tickIme);
      } else {
        WaitHalted(bus);
      }
      // the `as u8` truncation, which never cuts: a tick spends at most 20 + 24 + 24 cycles
      var spent := cycles - start;
      ModUnique(spent, 256, 0, spent);
      r := spent % 256;
    }

    /** The running half of tick: check interrupts, fetch and execute one instruction. */
    method FetchAndRun(bus: Bus, ghost tickIme: Ime)
      requires !halted && ime == ImeAtTick(tickIme) && TickRuns(State(bus), tickIme)
      modifies this, reg, bus
      ensures old(cycles) <= cycles <= old(cycles) + 20 + 24 + 24
      ensures var (op, after) := Fetched(old(State(bus)), tickIme);
        var serviced := Serviced(old(State(bus)), ImeAtTick(tickIme));
        cycles == old(cycles) + (if serviced then 20 else 0) + OpCycles(op) + ExtraCycles(Decode.Decode(op), after)
        && ops == old(ops) + 1
        && ime == ImeAfter(Decode.Decode(op), if serviced then Disabled else ImeAtTick(tickIme))
        && (halted <==> op == 0x76)
        && State(bus) == Executed(Decode.Decode(op), after)
    {
      CheckInterrupts(bus);
      var op := ConsumeU8(bus);
      DecodeOp(bus, op);
    }

    /** The halted half of tick: wake up when an enabled interrupt is requested, and spend 8 cycles. */
    method WaitHalted(bus: Bus)
      modifies this
      ensures cycles == old(cycles) + 8 && ops == old(ops) && ime == old(ime)
      ensures halted <==> old(halted) && And8(bus.mem[IeAddress], bus.mem[IfAddress]) == 0
    {
      if And8(bus.Read(IeAddress), bus.Read(IfAddress)) != 0 {
        halted := false;
      }
      cycles := cycles + 8;
    }

    /** check_interrupts */
    method CheckInterrupts(bus: Bus)
      modifies this, reg, bus
      ensures State(bus) == Checked(old(State(bus)), old(ime))
      ensures var serviced := Serviced(old(State(bus)), old(ime));
        cycles == old(cycles) + (if serviced then 20 else 0)
        && ime == (if serviced then Disabled else old(ime))
      ensures ops == old(ops) && halted == old(halted)
    {
      var ieF := bus.Read(IeAddress);
      var ifF := bus.Read(IfAddress);
      if ime == Enabled {
        if Requested(ieF, ifF, 0) {
          HandleInterrupt(bus, 0x0040, 0x01);
        } else if Requested(ieF, ifF, 1) {
          HandleInterrupt(bus, 0x0048, 0x02);
        } else if Requested(ieF, ifF, 2) {
          HandleInterrupt(bus, 0x0050, 0x04);
        } else if Requested(ieF, ifF, 3) {
          HandleInterrupt(bus, 0x0058, 0x08);
        } else if Requested(ieF, ifF, 4) {
          HandleInterrupt(bus, 0x0060, 0x10);
        }
      }
    }

    /** handle_interrupt */
    method HandleInterrupt(bus: Bus, vector: u16, bit: byte)
      modifies this, reg, bus
      ensures var rf := old(reg.Snapshot()); var m := PushedMem(old(bus.mem), rf.sp, rf.pc);
        bus.mem == m[IfAddress := Xor8(m[IfAddress], bit)]
        && reg.Snapshot() == rf.(sp := Dec16(Dec16(rf.sp)), pc := vector)
      ensures ime == Disabled && cycles == old(cycles) + 20 && ops == old(ops) && halted == old(halted)
    {
      StackPushU16(bus, reg.pc);
      var iflag := bus.Read(IfAddress);
      bus.Write(IfAddress, Xor8(iflag, bit));
      reg.pc := vector;
      ime := Disabled;
      cycles := cycles + 20;
    }

    /** decode: run the instruction, then add its OP_CYCLES and count it. */
    method DecodeOp(bus: Bus, op: byte)
      requires Runs(Decode.Decode(op), State(bus))
      modifies this, reg, bus
      ensures cycles == old(cycles) + OpCycles(op) + ExtraCycles(Decode.Decode(op), old(State(bus)))
      ensures ops == old(ops) + 1 && ime == ImeAfter(Decode.Decode(op), old(ime))
      ensures halted == (old(halted) || op == 0x76)
      ensures State(bus) == Executed(Decode.Decode(op), old(State(bus)))
    {
      Execute(bus, Decode.Decode(op));
      cycles := cycles + OpCycles(op);
      ops := ops + 1;
    }

    /** The arms of decode's match, in three groups. */
    method Execute(bus: Bus, i: Instr)
      requires Runs(i, State(bus))
      modifies this, reg, bus
      ensures cycles == old(cycles) + ExtraCycles(i, old(State(bus)))
      ensures ops == old(ops) && ime == ImeAfter(i, old(ime))
      ensures halted == (old(halted) || i.Halt?)
      ensures State(bus) == Executed(i, old(State(bus)))
    {
      if IsLoad(i) {
        NoControlEffect(i, State(bus), ime);
        ExecuteLoad(bus, i);
      } else if IsArithmetic(i) {
        NoControlEffect(i, State(bus), ime);
        ExecuteArithmetic(bus, i);
      } else {
        ExecuteControl(bus, i);
      }
    }

    /** The 8- and 16-bit loads, push and pop. */
    method ExecuteLoad(bus: Bus, i: Instr)
      requires IsLoad(i) && Runs(i, State(bus))
      modifies reg, bus
      ensures State(bus) == LoadExecuted(i, old(State(bus)))
    {
      if LoadsByte(i) {
        ExecuteByteLoad(bus, i);
      } else {
        ExecuteWordLoad(bus, i);
      }
    }

    /** The 8-bit loads between registers, memory and immediates. */
    method ExecuteByteLoad(bus: Bus, i: Instr)
      requires LoadsByte(i) && Runs(i, State(bus))
      modifies reg, bus
      ensures State(bus) == ByteLoadExecuted(i, old(State(bus)))
    {
      match i
      case LdR8R8(d, s) => LdR8R8(d, s);
      case LdR8U8(d) => LdR8U8(bus, d);
      case LdR8Ir16(d, p, post) => LdR8Ir16(bus, d, p, post);
      case LdIr16R8(p, s, post) => LdIr16R8(bus, p, s, post);
      case LdIr16U8(p) => LdIr16U8(bus, p);
      case LdR8Iu16(d) => LdR8Iu16(bus, d);
      case LdIu16R8(s) => LdIu16R8(bus, s);
      case LdR8Ir8(d, s) => LdR8Ir8(bus, d, s);
      case LdIr8R8(d, s) => LdIr8R8(bus, d, s);
      case LdhR8Iu8(d) => LdhR8Iu8(bus, d);
      case LdhIu8R8(s) => LdhIu8R8(bus, s);
    }

    /** The 16-bit loads, push and pop. */
    method ExecuteWordLoad(bus: Bus, i: Instr)
      requires IsLoad(i) && !LoadsByte(i) && Runs(i, State(bus))
      modifies reg, bus
      ensures State(bus) == WordLoadExecuted(i, old(State(bus)))
    {
      match i
      case LdR16U16(p) => LdR16U16(bus, p);
      case LdIu16R16(p) => LdIu16R16(bus, p);
      case LdR16R16(p, q) => LdR16R16(p, q);
      case PushR16(p) => PushR16(bus, p);
      case PopR16(p) => PopR16(bus, p);
    }

    /** The 8- and 16-bit arithmetic, logic, flag and accumulator-rotate instructions. */
    method ExecuteArithmetic(bus: Bus, i: Instr)
      requires IsArithmetic(i)
      modifies reg, bus
      ensures State(bus) == ArithmeticExecuted(i, old(State(bus)))
    {
      if OnSource(i) {
        ExecuteAlu(bus, i);
      } else if OnPlaceOrPair(i) {
        ExecutePlaceOrPair(bus, i);
      } else {
        ExecuteAccumulator(i);
      }
    }

    /** add, adc, sub, sbc, and, xor, or and cp on A and a register, (HL) or an immediate. */
    method ExecuteAlu(bus: Bus, i: Instr)
      requires OnSource(i)
      modifies reg
      ensures State(bus) == AluExecuted(i, old(State(bus)))
    {
      match i
      case Add(s) => AddOp(bus, s);
      case Adc(s) => AdcOp(bus, s);
      case Sub(s) => SubOp(bus, s);
      case Sbc(s) => SbcOp(bus, s);
      case And(s) => AndOp(bus, s);
      case Xor(s) => XorOp(bus, s);
      case Or(s) => OrOp(bus, s);
      case Cp(s) => CpOp(bus, s);
    }

    /** 8-bit inc and dec in place, and the 16-bit inc, dec and adds. */
    method ExecutePlaceOrPair(bus: Bus, i: Instr)
      requires OnPlaceOrPair(i)
      modifies reg, bus
      ensures State(bus) == PlaceOrPairExecuted(i, old(State(bus)))
    {
      match i
      case Inc8(l) => IncOp(bus, l);
      case Dec8(l) => DecOp(bus, l);
      case IncR16(p) => IncR16(p);
      case DecR16(p) => DecR16(p);
      case AddR16R16(p, q) => AddR16R16(p, q);
      case AddR16I8(p) => AddR16I8(bus, p);
      case LdR16R16I8(p, q) => LdR16R16I8(bus, p, q);
    }

    /** daa, cpl, scf, ccf and the four accumulator rotates. */
    method ExecuteAccumulator(i: Instr)
      requires OnAccumulator(i)
      modifies reg
      ensures reg.Snapshot() == AccumulatorExecuted(i, old(reg.Snapshot()))
    {
      match i
      case Daa => DaaOp();
      case Cpl => CplOp();
      case Scf => ScfOp();
      case Ccf => CcfOp();
      case Rlca => RlcaOp();
      case Rrca => RrcaOp();
      case Rla => RlaOp();
      case Rra => RraOp();
    }

    /** Jumps, calls, returns, the IME and HALT, and the CB prefix. */
    method ExecuteControl(bus: Bus, i: Instr)
      requires !IsLoad(i) && !IsArithmetic(i) && Runs(i, State(bus))
      modifies this, reg, bus
      ensures cycles == old(cycles) + ExtraCycles(i, old(State(bus)))
      ensures ops == old(ops) && ime == ImeAfter(i, old(ime))
      ensures halted == (old(halted) || i.Halt?)
      ensures State(bus) == ControlExecuted(i, old(State(bus)))
    {
      match i
      case Nop =>
      case Stop => assert false;
      case Halt => halted := true;
      case Di => ime := Disabled;
      case Ei => ime := Pending;
      case Reti => Reti(bus);
      case JpU16 => JpU16(bus);
      case JpR16(p) => JpR16(p);
      case JpFU16(fl) => JpFU16(bus, fl);
      case JrI8 => JrI8(bus);
      case JrFI8(fl) => JrFI8(bus, fl);
      case CallU16 => CallU16(bus);
      case CallFU16(fl) => CallFU16(bus, fl);
      case Ret => Ret(bus);
      case RetF(fl) => RetF(bus, fl);
      case RstF8(v) => RstF8(bus, v);
      case Prefix =>
        var cb := ConsumeU8(bus);
        DecodeCbOp(bus, cb);
      case _ => assert false;
    }

    /** decode_cb: run the CB instruction, then add its CB_OP_CYCLES. */
    method DecodeCbOp(bus: Bus, op: byte)
      modifies this, reg, bus
      ensures cycles == old(cycles) + CbOpCycles(op)
      ensures ops == old(ops) && ime == old(ime) && halted == old(halted)
      ensures State(bus) == CbExecuted(DecodeCb(op), old(State(bus)))
    {
      var i := DecodeCb(op);
      match i {
        case Shift(s, l) => ShiftOnPlace(bus, s, l);
        case BitTest(b, l) => BitOnPlace(bus, b, l);
        case ResBit(b, l) => ResOnPlace(bus, b, l);
        case SetB(b, l) => SetOnPlace(bus, b, l);
      }
      cycles := cycles + CbOpCycles(op);
    }

    // ------------------------------------------------------------ operand fetch and the stack

    /** consume_u8, and consume_i8, which returns the same byte to be read as signed. */
    method ConsumeU8(bus: Bus) returns (v: byte)
      modifies reg
      ensures v == bus.mem[old(reg.pc)]
      ensures reg.Snapshot() == old(reg.Snapshot()).(pc := Inc16(old(reg.pc)))
    {
      v := bus.Read(reg.pc);
      reg.pc := Inc16(reg.pc);
    }

    /** consume_u16 */
    method ConsumeU16(bus: Bus) returns (v: u16)
      requires reg.pc < 0xFFFF
      modifies reg
      ensures v == OperandWord(bus.mem, old(reg.pc))
      ensures reg.Snapshot() == old(reg.Snapshot()).(pc := Skip16(old(reg.pc)))
    {
      v := AddressSpaces.Word(bus.Read(reg.pc), bus.Read(reg.pc + 1));
      reg.pc := Skip16(reg.pc);
    }

    /** stack_push_u8 */
    method StackPushU8(bus: Bus, v: byte)
      modifies reg, bus
      ensures bus.mem == old(bus.mem)[Dec16(old(reg.sp)) := v]
      ensures reg.Snapshot() == old(reg.Snapshot()).(sp := Dec16(old(reg.sp)))
    {
      reg.sp := Dec16(reg.sp);
      bus.Write(reg.sp, v);
    }

    /** stack_pop_u8 */
    method StackPopU8(bus: Bus) returns (v: byte)
      modifies reg
      ensures v == bus.mem[old(reg.sp)]
      ensures reg.Snapshot() == old(reg.Snapshot()).(sp := Inc16(old(reg.sp)))
    {
      v := bus.Read(reg.sp);
      reg.sp := Inc16(reg.sp);
    }

    /** stack_push_u16: high byte first. */
    method StackPushU16(bus: Bus, v: u16)
      modifies reg, bus
      ensures bus.mem == PushedMem(old(bus.mem), old(reg.sp), v)
      ensures reg.Snapshot() == old(reg.Snapshot()).(sp := Dec16(Dec16(old(reg.sp))))
    {
      var high := v / 256;
      var low := v % 256;
      StackPushU8(bus, high);
      StackPushU8(bus, low);
    }

    /** stack_pop_u16: low byte first. */
    method StackPopU16(bus: Bus) returns (v: u16)
      modifies reg
      ensures v == StackWord(bus.mem, old(reg.sp))
      ensures reg.Snapshot() == old(reg.Snapshot()).(sp := Inc16(Inc16(old(reg.sp))))
    {
      var low := StackPopU8(bus);
      var high := StackPopU8(bus);
      v := AddressSpaces.Word(low, high);
    }

    /** The shared first step of the _r8, _ir16 and _u8 forms: read the operand. */
    method Fetch(bus: Bus, s: Src8) returns (v: byte)
      modifies reg
      ensures v == OperandValue(old(reg.Snapshot()), bus.mem, s)
      ensures reg.Snapshot() == AfterOperand(old(reg.Snapshot()), s)
    {
      match s
      case Reg(r) => v := reg.Get8(r);
      case At(p) => v := bus.Read(reg.Get16(p));
      case Imm => v := ConsumeU8(bus);
    }

    // ------------------------------------------------------------ 8-bit loads

    /** handle_post_op */
    method HandlePostOp(p: Register16, op: PostOp)
      modifies reg
      ensures reg.Snapshot() == Post(old(reg.Snapshot()), p, op)
    {
      match op
      case Inc => reg.Set16(p, Inc16(reg.Get16(p)));
      case Dec => reg.Set16(p, Dec16(reg.Get16(p)));
      case None =>
    }

    method LdR8R8(dst: Register8, src: Register8)
      modifies reg
      ensures var rf := old(reg.Snapshot()); reg.Snapshot() == Write8(rf, dst, Read8(rf, src))
    {
      var value := reg.Get8(src);
      reg.Set8(dst, value);
    }

    method LdR8U8(bus: Bus, dst: Register8)
      modifies reg
      ensures var rf := old(reg.Snapshot());
        reg.Snapshot() == Write8(rf.(pc := Inc16(rf.pc)), dst, bus.mem[rf.pc])
    {
      var value := ConsumeU8(bus);
      reg.Set8(dst, value);
    }

    method LdR8Ir16(bus: Bus, dst: Register8, src: Register16, post: PostOp)
      modifies reg
      ensures var rf := old(reg.Snapshot());
        reg.Snapshot() == Post(Write8(rf, dst, bus.mem[Read16(rf, src)]), src, post)
    {
      var add := reg.Get16(src);
      var value := bus.Read(add);
      reg.Set8(dst, value);
      HandlePostOp(src, post);
    }

    method LdIr16R8(bus: Bus, dst: Register16, src: Register8, post: PostOp)
      modifies reg, bus
      ensures var rf := old(reg.Snapshot());
        bus.mem == old(bus.mem)[Read16(rf, dst) := Read8(rf, src)] && reg.Snapshot() == Post(rf, dst, post)
    {
      var value := reg.Get8(src);
      var add := reg.Get16(dst);
      bus.Write(add, value);
      HandlePostOp(dst, post);
    }

    method LdIr16U8(bus: Bus, dst: Register16)
      modifies reg, bus
      ensures var rf := old(reg.Snapshot()); var rf1 := rf.(pc := Inc16(rf.pc));
        bus.mem == old(bus.mem)[Read16(rf1, dst) := old(bus.mem)[rf.pc]] && reg.Snapshot() == rf1
    {
      var value := ConsumeU8(bus);
      var add := reg.Get16(dst);
      bus.Write(add, value);
    }

    method LdR8Iu16(bus: Bus, dst: Register8)
      requires reg.pc < 0xFFFF
      modifies reg
      ensures var rf := old(reg.Snapshot());
        reg.Snapshot() == Write8(rf.(pc := Skip16(rf.pc)), dst, bus.mem[OperandWord(bus.mem, rf.pc)])
    {
      var add := ConsumeU16(bus);
      var value := bus.Read(add);
      reg.Set8(dst, value);
    }

    method LdIu16R8(bus: Bus, src: Register8)
      requires reg.pc < 0xFFFF
      modifies reg, bus
      ensures var rf := old(reg.Snapshot());
        bus.mem == old(bus.mem)[OperandWord(old(bus.mem), rf.pc) := Read8(rf, src)]
        && reg.Snapshot() == rf.(pc := Skip16(rf.pc))
    {
      var value := reg.Get8(src);
      var add := ConsumeU16(bus);
      bus.Write(add, value);
    }

    /** ld A,(C): read from 0xFF00 | C. */
    method LdR8Ir8(bus: Bus, dst: Register8, src: Register8)
      modifies reg
      ensures var rf := old(reg.Snapshot());
        reg.Snapshot() == Write8(rf, dst, bus.mem[HighPage(Read8(rf, src))])
    {
      var addLow := reg.Get8(src);
      var value := bus.Read(HighPage(addLow));
      reg.Set8(dst, value);
    }

    /** ld (C),A: write to 0xFF00 | C. */
    method LdIr8R8(bus: Bus, dst: Register8, src: Register8)
      modifies bus
      ensures bus.mem == old(bus.mem)[HighPage(Read8(reg.Snapshot(), dst)) := Read8(reg.Snapshot(), src)]
    {
      var value := reg.Get8(src);
      var addLow := reg.Get8(dst);
      bus.Write(HighPage(addLow), value);
    }

    method LdhR8Iu8(bus: Bus, dst: Register8)
      modifies reg
      ensures var rf := old(reg.Snapshot());
        reg.Snapshot() == Write8(rf.(pc := Inc16(rf.pc)), dst, bus.mem[HighPage(bus.mem[rf.pc])])
    {
      var addLow := ConsumeU8(bus);
      var value := bus.Read(HighPage(addLow));
      reg.Set8(dst, value);
    }

    method LdhIu8R8(bus: Bus, src: Register8)
      modifies reg, bus
      ensures var rf := old(reg.Snapshot());
        bus.mem == old(bus.mem)[HighPage(old(bus.mem)[rf.pc]) := Read8(rf, src)]
        && reg.Snapshot() == rf.(pc := Inc16(rf.pc))
    {
      var value := reg.Get8(src);
      var addLow := ConsumeU8(bus);
      bus.Write(HighPage(addLow), value);
    }

    // ------------------------------------------------------------ 16-bit loads

    method LdR16U16(bus: Bus, dst: Register16)
      requires reg.pc < 0xFFFF
      modifies reg
      ensures var rf := old(reg.Snapshot());
        reg.Snapshot() == Write16(rf.(pc := Skip16(rf.pc)), dst, OperandWord(bus.mem, rf.pc))
    {
      var value := ConsumeU16(bus);
      reg.Set16(dst, value);
    }

    /** ld (u16),SP: low byte at the address, high byte above it; `add + 1` must not overflow. */
    method LdIu16R16(bus: Bus, src: Register16)
      requires reg.pc < 0xFFFF && OperandWord(bus.mem, reg.pc) < 0xFFFF
      modifies reg, bus
      ensures var rf := old(reg.Snapshot()); var add := OperandWord(old(bus.mem), rf.pc);
        var v := Read16(rf, src);
        bus.mem == old(bus.mem)[add := v % 256][add + 1 := v / 256]
        && reg.Snapshot() == rf.(pc := Skip16(rf.pc))
    {
      var value := reg.Get16(src);
      var low := value % 256;
      var high := value / 256;
      var add := ConsumeU16(bus);
      bus.Write(add, low);
      bus.Write(add + 1, high);
    }

    method LdR16R16(dst: Register16, src: Register16)
      modifies reg
      ensures var rf := old(reg.Snapshot()); reg.Snapshot() == Write16(rf, dst, Read16(rf, src))
    {
      var value := reg.Get16(src);
      reg.Set16(dst, value);
    }

    method PushR16(bus: Bus, src: Register16)
      modifies reg, bus
      ensures var rf := old(reg.Snapshot());
        bus.mem == PushedMem(old(bus.mem), rf.sp, Read16(rf, src))
        && reg.Snapshot() == rf.(sp := Dec16(Dec16(rf.sp)))
    {
      var value := reg.Get16(src);
      StackPushU16(bus, value);
    }

    method PopR16(bus: Bus, dst: Register16)
      modifies reg
      ensures var rf := old(reg.Snapshot());
        reg.Snapshot() == Write16(rf.(sp := Inc16(Inc16(rf.sp))), dst, StackWord(bus.mem, rf.sp))
    {
      var value := StackPopU16(bus);
      reg.Set16(dst, value);
    }

    // ------------------------------------------------------------ 8-bit arithmetic

    /** sum8_flags */
    method Sum8Flags(op1: byte, op2: byte, c: bool, h: bool) returns (res: byte)
      modifies reg
      ensures var o := Alu.Sum8(Unpack(old(reg.f)), op1, op2, c, h);
        res == o.value && reg.Snapshot() == old(reg.Snapshot()).(f := Pack(o.f))
    {
      res := (op1 + op2) % 0x100;
      if c {
        reg.PutF(Flag.C, 0xFF - op1 < op2);
      }
      if h {
        reg.PutF(Flag.H, 0x10 - op1 % 16 <= op2 % 16);
      }
      reg.PutF(Flag.Z, res == 0);
      reg.UnsetF(Flag.N);
      PackUnpack(reg.f);
    }

    /** sub8_flags */
    method Sub8Flags(op1: byte, op2: byte, c: bool, h: bool) returns (res: byte)
      modifies reg
      ensures var o := Alu.Sub8(Unpack(old(reg.f)), op1, op2, c, h);
        res == o.value && reg.Snapshot() == old(reg.Snapshot()).(f := Pack(o.f))
    {
      res := (op1 - op2) % 0x100;
      if h {
        reg.PutF(Flag.H, op1 % 16 < op2 % 16);
      }
      if c {
        reg.PutF(Flag.C, op1 < op2);
      }
      reg.PutF(Flag.Z, res == 0);
      reg.SetF(Flag.N);
      PackUnpack(reg.f);
    }

    /** add_r8, add_ir16, add_u8 */
    method AddOp(bus: Bus, s: Src8)
      modifies reg
      ensures var rf := old(reg.Snapshot());
        var o := Alu.Sum8(Unpack(rf.f), rf.a, OperandValue(rf, bus.mem, s), true, true);
        reg.Snapshot() == AfterOperand(rf, s).(a := o.value, f := Pack(o.f))
      ensures State(bus) == AluExecuted(Instr.Add(s), old(State(bus)))
    {
      var acc := reg.Get8(Register8.A);
      var value := Fetch(bus, s);
      var res := Sum8Flags(acc, value, true, true);
      reg.Set8(Register8.A, res);
    }

    /** adc_flags: add the carry first, then the operand. */
    method AdcFlags(value: byte)
      modifies reg
      ensures var rf := old(reg.Snapshot()); var o := Alu.Adc(Unpack(rf.f), rf.a, value);
        reg.Snapshot() == rf.(a := o.value, f := Pack(o.f))
    {
      ghost var f0 := Unpack(reg.f);
      var acc := reg.Get8(Register8.A);
      var cValue := reg.GetF(Flag.C);
      assert cValue == Alu.CarryBit(f0);
      reg.UnsetF(Flag.C);
      reg.UnsetF(Flag.H);
      assert Unpack(reg.f) == f0.(c := false).(h := false);
      var res := Sum8Flags(acc, cValue, true, true);
      ghost var first := Alu.Sum8(f0.(c := false).(h := false), acc, cValue, true, true);
      UnpackPack(first.f);
      assert Unpack(reg.f) == first.f;
      HoldsIsFlagValue(reg.f, Flag.C);
      HoldsIsFlagValue(reg.f, Flag.H);
      res := Sum8Flags(res, value, reg.GetF(Flag.C) != 1, reg.GetF(Flag.H) != 1);
      reg.Set8(Register8.A, res);
    }

    /** adc_r8, adc_ir16, adc_u8 */
    method AdcOp(bus: Bus, s: Src8)
      modifies reg
      ensures var rf := old(reg.Snapshot());
        var o := Alu.Adc(Unpack(rf.f), rf.a, OperandValue(rf, bus.mem, s));
        reg.Snapshot() == AfterOperand(rf, s).(a := o.value, f := Pack(o.f))
      ensures State(bus) == AluExecuted(Instr.Adc(s), old(State(bus)))
    {
      var value := Fetch(bus, s);
      AdcFlags(value);
    }

    /** sub_r8, sub_ir16, sub_u8 */
    method SubOp(bus: Bus, s: Src8)
      modifies reg
      ensures var rf := old(reg.Snapshot());
        var o := Alu.Sub8(Unpack(rf.f), rf.a, OperandValue(rf, bus.mem, s), true, true);
        reg.Snapshot() == AfterOperand(rf, s).(a := o.value, f := Pack(o.f))
      ensures State(bus) == AluExecuted(Instr.Sub(s), old(State(bus)))
    {
      var acc := reg.Get8(Register8.A);
      var value := Fetch(bus, s);
      var res := Sub8Flags(acc, value, true, true);
      reg.Set8(Register8.A, res);
    }

    /** sbc_flags: subtract the carry first, then the operand. */
    method SbcFlags(value: byte)
      modifies reg
      ensures var rf := old(reg.Snapshot()); var o := Alu.Sbc(Unpack(rf.f), rf.a, value);
        reg.Snapshot() == rf.(a := o.value, f := Pack(o.f))
    {
      ghost var f0 := Unpack(reg.f);
      var acc := reg.Get8(Register8.A);
      var cValue := reg.GetF(Flag.C);
      assert cValue == Alu.CarryBit(f0);
      reg.UnsetF(Flag.C);
      reg.UnsetF(Flag.H);
      assert Unpack(reg.f) == f0.(c := false).(h := false);
      var res := Sub8Flags(acc, cValue, true, true);
      ghost var first := Alu.Sub8(f0.(c := false).(h := false), acc, cValue, true, true);
      UnpackPack(first.f);
      assert Unpack(reg.f) == first.f;
      HoldsIsFlagValue(reg.f, Flag.C);
      HoldsIsFlagValue(reg.f, Flag.H);
      res := Sub8Flags(res, value, reg.GetF(Flag.C) != 1, reg.GetF(Flag.H) != 1);
      reg.Set8(Register8.A, res);
    }

    /** sbc_r8, sbc_ir16, sbc_u8 */
    method SbcOp(bus: Bus, s: Src8)
      modifies reg
      ensures var rf := old(reg.Snapshot());
        var o := Alu.Sbc(Unpack(rf.f), rf.a, OperandValue(rf, bus.mem, s));
        reg.Snapshot() == AfterOperand(rf, s).(a := o.value, f := Pack(o.f))
      ensures State(bus) == AluExecuted(Instr.Sbc(s), old(State(bus)))
    {
      var value := Fetch(bus, s);
      SbcFlags(value);
    }

    /** cp_r8, cp_ir16, cp_u8: the flags of A - operand; A is unchanged. */
    method CpOp(bus: Bus, s: Src8)
      modifies reg
      ensures var rf := old(reg.Snapshot());
        var o := Alu.Sub8(Unpack(rf.f), rf.a, OperandValue(rf, bus.mem, s), true, true);
        reg.Snapshot() == AfterOperand(rf, s).(f := Pack(o.f))
      ensures State(bus) == AluExecuted(Instr.Cp(s), old(State(bus)))
    {
      var acc := reg.Get8(Register8.A);
      var value := Fetch(bus, s);
      var _ := Sub8Flags(acc, value, true, true);
    }

    /** inc_r8, inc_ir16: C is left alone. */
    method IncOp(bus: Bus, l: Loc8)
      modifies reg, bus
      ensures var rf := old(reg.Snapshot());
        var o := Alu.Sum8(Unpack(rf.f), PlaceValue(rf, old(bus.mem), l), 1, false, true);
        reg.Snapshot() == StoreReg(rf.(f := Pack(o.f)), l, o.value)
        && bus.mem == StoreMem(rf, old(bus.mem), l, o.value)
    {
      match l
      case InReg(r) =>
        var value := reg.Get8(r);
        var res := Sum8Flags(value, 1, false, true);
        reg.Set8(r, res);
      case InMem(p) =>
        var add := reg.Get16(p);
        var value := bus.Read(add);
        var res := Sum8Flags(value, 1, false, true);
        bus.Write(add, res);
    }

    /** dec_r8, dec_ir16: C is left alone. */
    method DecOp(bus: Bus, l: Loc8)
      modifies reg, bus
      ensures var rf := old(reg.Snapshot());
        var o := Alu.Sub8(Unpack(rf.f), PlaceValue(rf, old(bus.mem), l), 1, false, true);
        reg.Snapshot() == StoreReg(rf.(f := Pack(o.f)), l, o.value)
        && bus.mem == StoreMem(rf, old(bus.mem), l, o.value)
    {
      match l
      case InReg(r) =>
        var value := reg.Get8(r);
        var res := Sub8Flags(value, 1, false, true);
        reg.Set8(r, res);
      case InMem(p) =>
        var add := reg.Get16(p);
        var value := bus.Read(add);
        var res := Sub8Flags(value, 1, false, true);
        bus.Write(add, res);
    }

    // ------------------------------------------------------------ 8-bit logic

    /** and8_flags */
    method And8Flags(op1: byte, op2: byte) returns (res: byte)
      modifies reg
      ensures var o := Alu.AndFlags(Unpack(old(reg.f)), op1, op2);
        res == o.value && reg.Snapshot() == old(reg.Snapshot()).(f := Pack(o.f))
    {
      res := And8(op1, op2);
      reg.PutF(Flag.Z, res == 0);
      reg.UnsetF(Flag.N);
      reg.SetF(Flag.H);
      reg.UnsetF(Flag.C);
      PackUnpack(reg.f);
    }

    /** or8_flags */
    method Or8Flags(op1: byte, op2: byte) returns (res: byte)
      modifies reg
      ensures var o := Alu.OrFlags(Unpack(old(reg.f)), op1, op2);
        res == o.value && reg.Snapshot() == old(reg.Snapshot()).(f := Pack(o.f))
    {
      res := Or8(op1, op2);
      reg.PutF(Flag.Z, res == 0);
      reg.UnsetF(Flag.N);
      reg.UnsetF(Flag.H);
      reg.UnsetF(Flag.C);
      PackUnpack(reg.f);
    }

    /** xor8_flags */
    method Xor8Flags(op1: byte, op2: byte) returns (res: byte)
      modifies reg
      ensures var o := Alu.XorFlags(Unpack(old(reg.f)), op1, op2);
        res == o.value && reg.Snapshot() == old(reg.Snapshot()).(f := Pack(o.f))
    {
      res := Xor8(op1, op2);
      reg.PutF(Flag.Z, res == 0);
      reg.UnsetF(Flag.N);
      reg.UnsetF(Flag.H);
      reg.UnsetF(Flag.C);
      PackUnpack(reg.f);
    }

    /** and_r8, and_ir16, and_u8 */
    method AndOp(bus: Bus, s: Src8)
      modifies reg
      ensures var rf := old(reg.Snapshot());
        var o := Alu.AndFlags(Unpack(rf.f), rf.a, OperandValue(rf, bus.mem, s));
        reg.Snapshot() == AfterOperand(rf, s).(a := o.value, f := Pack(o.f))
      ensures State(bus) == AluExecuted(Instr.And(s), old(State(bus)))
    {
      var acc := reg.Get8(Register8.A);
      var value := Fetch(bus, s);
      var res := And8Flags(acc, value);
      reg.Set8(Register8.A, res);
    }

    /** or_r8, or_ir16, or_u8 */
    method OrOp(bus: Bus, s: Src8)
      modifies reg
      ensures var rf := old(reg.Snapshot());
        var o := Alu.OrFlags(Unpack(rf.f), rf.a, OperandValue(rf, bus.mem, s));
        reg.Snapshot() == AfterOperand(rf, s).(a := o.value, f := Pack(o.f))
      ensures State(bus) == AluExecuted(Instr.Or(s), old(State(bus)))
    {
      var acc := reg.Get8(Register8.A);
      var value := Fetch(bus, s);
      var res := Or8Flags(acc, value);
      reg.Set8(Register8.A, res);
    }

    /** xor_r8, xor_ir16, xor_u8 */
    method XorOp(bus: Bus, s: Src8)
      modifies reg
      ensures var rf := old(reg.Snapshot());
        var o := Alu.XorFlags(Unpack(rf.f), rf.a, OperandValue(rf, bus.mem, s));
        reg.Snapshot() == AfterOperand(rf, s).(a := o.value, f := Pack(o.f))
      ensures State(bus) == AluExecuted(Instr.Xor(s), old(State(bus)))
    {
      var acc := reg.Get8(Register8.A);
      var value := Fetch(bus, s);
      var res := Xor8Flags(acc, value);
      reg.Set8(Register8.A, res);
    }

    method CcfOp()
      modifies reg
      ensures var rf := old(reg.Snapshot()); reg.Snapshot() == rf.(f := Pack(Alu.Ccf(Unpack(rf.f))))
    {
      reg.UnsetF(Flag.N);
      reg.UnsetF(Flag.H);
      if reg.GetF(Flag.C) == 0 {
        reg.SetF(Flag.C);
      } else {
        reg.UnsetF(Flag.C);
      }
      PackUnpack(reg.f);
    }

    method ScfOp()
      modifies reg
      ensures var rf := old(reg.Snapshot()); reg.Snapshot() == rf.(f := Pack(Alu.Scf(Unpack(rf.f))))
    {
      reg.UnsetF(Flag.N);
      reg.UnsetF(Flag.H);
      reg.SetF(Flag.C);
      PackUnpack(reg.f);
    }

    /** cpl: A := !A. */
    method CplOp()
      modifies reg
      ensures var rf := old(reg.Snapshot()); var o := Alu.Cpl(Unpack(rf.f), rf.a);
        reg.Snapshot() == rf.(a := o.value, f := Pack(o.f))
    {
      reg.Set8(Register8.A, 0xFF - reg.Get8(Register8.A));
      reg.SetF(Flag.N);
      reg.SetF(Flag.H);
      PackUnpack(reg.f);
    }

    /** daa */
    method DaaOp()
      modifies reg
      ensures var rf := old(reg.Snapshot()); var o := Alu.Daa(Unpack(rf.f), rf.a);
        reg.Snapshot() == rf.(a := o.value, f := Pack(o.f))
    {
      ghost var f0 := Unpack(reg.f);
      var res := reg.Get8(Register8.A);
      if reg.GetF(Flag.N) == 0 {
        if res > 0x99 || reg.GetF(Flag.C) == 1 {
          res := (res as int + 0x60) % 0x100;
          reg.SetF(Flag.C);
        }
        if res % 16 > 9 || reg.GetF(Flag.H) == 1 {
          res := (res as int + 0x06) % 0x100;
        }
      } else {
        if reg.GetF(Flag.C) == 1 {
          res := (res as int - 0x60) % 0x100;
        }
        if reg.GetF(Flag.H) == 1 {
          res := (res as int - 0x06) % 0x100;
        }
      }
      assert res == Alu.Daa(f0, old(reg.a)).value;
      assert Unpack(reg.f) == Alu.Daa(f0, old(reg.a)).f.(z := Unpack(reg.f).z).(h := Unpack(reg.f).h);
      FinishDaa(res);
    }

    /** The end of daa: Z from the result, H cleared, A written. */
    method FinishDaa(res: byte)
      modifies reg
      ensures var rf := old(reg.Snapshot());
        reg.Snapshot() == rf.(a := res, f := Pack(Unpack(rf.f).(z := res == 0).(h := false)))
    {
      reg.PutF(Flag.Z, res == 0);
      reg.UnsetF(Flag.H);
      reg.Set8(Register8.A, res);
      PackUnpack(reg.f);
    }

    // ------------------------------------------------------------ 16-bit arithmetic

    method IncR16(r: Register16)
      modifies reg
      ensures var rf := old(reg.Snapshot()); reg.Snapshot() == Write16(rf, r, Inc16(Read16(rf, r)))
    {
      var value := reg.Get16(r);
      reg.Set16(r, Inc16(value));
    }

    method DecR16(r: Register16)
      modifies reg
      ensures var rf := old(reg.Snapshot()); reg.Snapshot() == Write16(rf, r, Dec16(Read16(rf, r)))
    {
      var value := reg.Get16(r);
      reg.Set16(r, Dec16(value));
    }

    method AddR16R16(dst: Register16, src: Register16)
      modifies reg
      ensures var rf := old(reg.Snapshot());
        var o := Alu.Add16(Unpack(rf.f), Read16(rf, dst), Read16(rf, src));
        reg.Snapshot() == Write16(rf.(f := Pack(o.f)), dst, o.value)
    {
      var op1 := reg.Get16(dst);
      var op2 := reg.Get16(src);
      ghost var fl := Unpack(reg.f);
      var res := (op1 as int + op2) % 0x1_0000;
      reg.PutF(Flag.H, 0x0FFF - op1 % 0x1000 < op2 % 0x1000);
      reg.PutF(Flag.C, 0xFFFF - op1 < op2);
      reg.UnsetF(Flag.N);
      ghost var o := Alu.Add16(fl, op1, op2);
      assert Unpack(reg.f) == o.f;
      PackUnpack(reg.f);
      assert reg.Snapshot() == old(reg.Snapshot()).(f := Pack(o.f));
      reg.Set16(dst, res);
    }

    /** signed_sum_flags */
    method SignedAddFlags(op1: u16, offset: byte) returns (res: u16)
      modifies reg
      ensures var o := Alu.SignedSumFlags(Unpack(old(reg.f)), op1, offset);
        res == o.value && reg.Snapshot() == old(reg.Snapshot()).(f := Pack(o.f))
    {
      res := Alu.SignedSum(op1, offset);
      reg.PutF(Flag.H, 0x0F - op1 % 16 < offset % 16);
      reg.PutF(Flag.C, 0xFF - op1 % 0x100 < offset);
      reg.UnsetF(Flag.Z);
      reg.UnsetF(Flag.N);
      PackUnpack(reg.f);
    }

    /** add SP,i8 */
    method AddR16I8(bus: Bus, r: Register16)
      modifies reg
      ensures var rf := old(reg.Snapshot());
        var o := Alu.SignedSumFlags(Unpack(rf.f), Read16(rf, r), bus.mem[rf.pc]);
        reg.Snapshot() == Write16(rf.(pc := Inc16(rf.pc), f := Pack(o.f)), r, o.value)
    {
      var regValue := reg.Get16(r);
      var op := ConsumeU8(bus);
      var res := SignedAddFlags(regValue, op);
      reg.Set16(r, res);
    }

    /** ld HL,SP+i8 */
    method LdR16R16I8(bus: Bus, dst: Register16, src: Register16)
      modifies reg
      ensures var rf := old(reg.Snapshot());
        var o := Alu.SignedSumFlags(Unpack(rf.f), Read16(rf, src), bus.mem[rf.pc]);
        reg.Snapshot() == Write16(rf.(pc := Inc16(rf.pc), f := Pack(o.f)), dst, o.value)
    {
      var op1 := reg.Get16(src);
      var op2 := ConsumeU8(bus);
      var res := SignedAddFlags(op1, op2);
      reg.Set16(dst, res);
    }

    // ------------------------------------------------------------ control flow

    method JpU16(bus: Bus)
      requires reg.pc < 0xFFFF
      modifies reg
      ensures var rf := old(reg.Snapshot()); reg.Snapshot() == rf.(pc := OperandWord(bus.mem, rf.pc))
    {
      var add := ConsumeU16(bus);
      reg.pc := add;
    }

    method JpR16(r: Register16)
      modifies reg
      ensures var rf := old(reg.Snapshot()); reg.Snapshot() == rf.(pc := Read16(rf, r))
    {
      reg.pc := reg.Get16(r);
    }

    /** jp cc: 4 more cycles when taken. */
    method JpFU16(bus: Bus, flag: Flag)
      requires reg.pc < 0xFFFF
      modifies this, reg
      ensures var rf := old(reg.Snapshot()); var taken := FlagValue(rf.f, flag) == 1;
        reg.Snapshot() == rf.(pc := if taken then OperandWord(bus.mem, rf.pc) else Skip16(rf.pc))
        && cycles == old(cycles) + (if taken then 4 else 0)
      ensures ops == old(ops) && ime == old(ime) && halted == old(halted)
    {
      var add := ConsumeU16(bus);
      if reg.GetF(flag) == 1 {
        cycles := cycles + 4;
        reg.pc := add;
      }
    }

    /** jr: PC moves by the signed offset from the address after the operand. */
    method JrI8(bus: Bus)
      modifies reg
      ensures var rf := old(reg.Snapshot());
        reg.Snapshot() == rf.(pc := Alu.SignedSum(Inc16(rf.pc), bus.mem[rf.pc]))
    {
      var offset := ConsumeU8(bus);
      var add := Alu.SignedSum(reg.pc, offset);
      reg.pc := add;
    }

    /** jr cc: 4 more cycles when taken. */
    method JrFI8(bus: Bus, flag: Flag)
      modifies this, reg
      ensures var rf := old(reg.Snapshot()); var taken := FlagValue(rf.f, flag) == 1;
        reg.Snapshot() == rf.(pc := if taken then Alu.SignedSum(Inc16(rf.pc), bus.mem[rf.pc]) else Inc16(rf.pc))
        && cycles == old(cycles) + (if taken then 4 else 0)
      ensures ops == old(ops) && ime == old(ime) && halted == old(halted)
    {
      var offset := ConsumeU8(bus);
      var add := Alu.SignedSum(reg.pc, offset);
      if reg.GetF(flag) == 1 {
        cycles := cycles + 4;
        reg.pc := add;
      }
    }

    /** call: push the address after the operand and jump. */
    method CallU16(bus: Bus)
      requires reg.pc < 0xFFFF
      modifies reg, bus
      ensures var rf := old(reg.Snapshot());
        bus.mem == PushedMem(old(bus.mem), rf.sp, Skip16(rf.pc))
        && reg.Snapshot() == rf.(sp := Dec16(Dec16(rf.sp)), pc := OperandWord(old(bus.mem), rf.pc))
    {
      var add := ConsumeU16(bus);
      StackPushU16(bus, reg.pc);
      reg.pc := add;
    }

    /** call cc: 12 more cycles when taken. */
    method CallFU16(bus: Bus, flag: Flag)
      requires reg.pc < 0xFFFF
      modifies this, reg, bus
      ensures var rf := old(reg.Snapshot()); var taken := FlagValue(rf.f, flag) == 1;
        (taken ==>
          bus.mem == PushedMem(old(bus.mem), rf.sp, Skip16(rf.pc))
          && reg.Snapshot() == rf.(sp := Dec16(Dec16(rf.sp)), pc := OperandWord(old(bus.mem), rf.pc)))
        && (!taken ==> bus.mem == old(bus.mem) && reg.Snapshot() == rf.(pc := Skip16(rf.pc)))
        && cycles == old(cycles) + (if taken then 12 else 0)
      ensures ops == old(ops) && ime == old(ime) && halted == old(halted)
    {
      var add := ConsumeU16(bus);
      if reg.GetF(flag) == 1 {
        cycles := cycles + 12;
        StackPushU16(bus, reg.pc);
        reg.pc := add;
      }
    }

    method Ret(bus: Bus)
      modifies reg
      ensures var rf := old(reg.Snapshot());
        reg.Snapshot() == rf.(sp := Inc16(Inc16(rf.sp)), pc := StackWord(bus.mem, rf.sp))
    {
      var add := StackPopU16(bus);
      reg.pc := add;
    }

    /** ret cc: 12 more cycles when taken. */
    method RetF(bus: Bus, flag: Flag)
      modifies this, reg
      ensures var rf := old(reg.Snapshot()); var taken := FlagValue(rf.f, flag) == 1;
        reg.Snapshot() == (if taken then rf.(sp := Inc16(Inc16(rf.sp)), pc := StackWord(bus.mem, rf.sp)) else rf)
        && cycles == old(cycles) + (if taken then 12 else 0)
      ensures ops == old(ops) && ime == old(ime) && halted == old(halted)
    {
      if reg.GetF(flag) == 1 {
        cycles := cycles + 12;
        var add := StackPopU16(bus);
        reg.pc := add;
      }
    }

    method RstF8(bus: Bus, fixed: byte)
      modifies reg, bus
      ensures var rf := old(reg.Snapshot());
        bus.mem == PushedMem(old(bus.mem), rf.sp, rf.pc)
        && reg.Snapshot() == rf.(sp := Dec16(Dec16(rf.sp)), pc := fixed)
    {
      StackPushU16(bus, reg.pc);
      reg.pc := fixed;
    }

    /** reti: enable interrupts at once, then return. */
    method Reti(bus: Bus)
      modifies this, reg
      ensures var rf := old(reg.Snapshot());
        reg.Snapshot() == rf.(sp := Inc16(Inc16(rf.sp)), pc := StackWord(bus.mem, rf.sp))
      ensures ime == Enabled && cycles == old(cycles) && ops == old(ops) && halted == old(halted)
    {
      ime := Enabled;
      var add := StackPopU16(bus);
      reg.pc := add;
    }

    // ------------------------------------------------------------ CB prefix

    /** rotatelc8_flags, rotaterc8_flags, rotatel8_flags, rotater8_flags, shiftla8_flags, shiftra8_flags, swap8_flags, shiftrl8_flags */
    method Shift8Flags(op: ShiftOp, value: byte) returns (res: byte)
      modifies reg
      ensures var o := ShiftResult(op, Unpack(old(reg.f)), value);
        res == o.value && reg.Snapshot() == old(reg.Snapshot()).(f := Pack(o.f))
    {
      var carryIn := reg.GetF(Flag.C) == 1;
      var out: bool;
      match op {
        case Rlc =>
          res := (value as int * 2) % 0x100;
          out := value >= 0x80;
          if out { res := res + 1; }
        case Rrc =>
          res := value / 2;
          out := value % 2 == 1;
          if out { res := res + 0x80; }
        case Rl =>
          res := (value as int * 2) % 0x100;
          if carryIn { res := res + 1; }
          out := value >= 0x80;
        case Rr =>
          res := value / 2;
          if carryIn { res := res + 0x80; }
          out := value % 2 == 1;
        case Sla =>
          res := (value as int * 2) % 0x100;
          out := value >= 0x80;
        case Sra =>
          res := value / 2;
          if value >= 0x80 { res := res + 0x80; }
          out := value % 2 == 1;
        case Swap =>
          res := (value % 16) * 16 + value / 16;
          out := false;
        case Srl =>
          res := value / 2;
          out := value % 2 == 1;
      }
      assert ShiftResult(op, Unpack(reg.f), value) == Alu.Out(res, Alu.ShiftFlags(Unpack(reg.f), out, res));
      PutShiftFlags(out, res);
    }

    /** The flag writes every CB rotate and shift ends with: C, Z, then N and H cleared. */
    method PutShiftFlags(out: bool, res: byte)
      modifies reg
      ensures reg.Snapshot() == old(reg.Snapshot()).(f := Pack(Alu.ShiftFlags(Unpack(old(reg.f)), out, res)))
    {
      reg.PutF(Flag.C, out);
      reg.PutF(Flag.Z, res == 0);
      reg.UnsetF(Flag.N);
      reg.UnsetF(Flag.H);
      PackUnpack(reg.f);
    }

    /** rlc_r8 ... srl_ir16: rotate or shift a register or (HL) in place. */
    method ShiftOnPlace(bus: Bus, op: ShiftOp, l: Loc8)
      modifies reg, bus
      ensures var rf := old(reg.Snapshot());
        var o := ShiftResult(op, Unpack(rf.f), PlaceValue(rf, old(bus.mem), l));
        reg.Snapshot() == StoreReg(rf.(f := Pack(o.f)), l, o.value)
        && bus.mem == StoreMem(rf, old(bus.mem), l, o.value)
    {
      match l
      case InReg(r) =>
        var value := reg.Get8(r);
        var res := Shift8Flags(op, value);
        reg.Set8(r, res);
      case InMem(p) =>
        var add := reg.Get16(p);
        var value := bus.Read(add);
        var res := Shift8Flags(op, value);
        bus.Write(add, res);
    }

    /** testb8_flags */
    method TestB8Flags(bit: nat, value: byte)
      requires bit < 8
      modifies reg
      ensures var rf := old(reg.Snapshot());
        reg.Snapshot() == rf.(f := Pack(Alu.TestBit(Unpack(rf.f), bit, value)))
    {
      var res := Bit(value, bit);
      reg.PutF(Flag.Z, res == 0);
      reg.UnsetF(Flag.N);
      reg.SetF(Flag.H);
      PackUnpack(reg.f);
    }

    /** bit_b_r8, bit_b_ir16 */
    method BitOnPlace(bus: Bus, bit: nat, l: Loc8)
      requires bit < 8
      modifies reg
      ensures var rf := old(reg.Snapshot());
        reg.Snapshot() == rf.(f := Pack(Alu.TestBit(Unpack(rf.f), bit, PlaceValue(rf, bus.mem, l))))
    {
      var value := if l.InReg? then reg.Get8(l.reg) else bus.Read(reg.Get16(l.ptr));
      TestB8Flags(bit, value);
    }

    /** res_b_r8, res_b_ir16: resetb8 is `value & !(1 << bit)`. */
    method ResOnPlace(bus: Bus, bit: nat, l: Loc8)
      requires bit < 8
      modifies reg, bus
      ensures var rf := old(reg.Snapshot()); var res := ResetBit(PlaceValue(rf, old(bus.mem), l), bit);
        reg.Snapshot() == StoreReg(rf, l, res) && bus.mem == StoreMem(rf, old(bus.mem), l, res)
    {
      match l
      case InReg(r) =>
        var val := reg.Get8(r);
        reg.Set8(r, ResetBit(val, bit));
      case InMem(p) =>
        var add := reg.Get16(p);
        var val := bus.Read(add);
        bus.Write(add, ResetBit(val, bit));
    }

    /** set_b_r8, set_b_ir16: setb8 is `value | (1 << bit)`. */
    method SetOnPlace(bus: Bus, bit: nat, l: Loc8)
      requires bit < 8
      modifies reg, bus
      ensures var rf := old(reg.Snapshot()); var res := SetBit(PlaceValue(rf, old(bus.mem), l), bit);
        reg.Snapshot() == StoreReg(rf, l, res) && bus.mem == StoreMem(rf, old(bus.mem), l, res)
    {
      match l
      case InReg(r) =>
        var val := reg.Get8(r);
        reg.Set8(r, SetBit(val, bit));
      case InMem(p) =>
        var add := reg.Get16(p);
        var val := bus.Read(add);
        bus.Write(add, SetBit(val, bit));
    }

    // ------------------------------------------------------------ accumulator rotates

    /** The four flag writes of an accumulator rotate, taken together. */
    static lemma AccumulatorFlags(fl: Flags, out: bool)
      ensures With(With(With(With(fl, Flag.C, out), Flag.Z, false), Flag.N, false), Flag.H, false)
        == Alu.AccFlags(fl, out)
    {
    }

    /** Shifting a byte left by one drops its top bit. */
    static lemma ShiftedLeft(value: byte)
      ensures (value * 2) % 0x100 == if value >= 0x80 then value * 2 - 0x100 else value * 2
    {
      if value >= 0x80 {
        ModUnique(value * 2, 0x100, 1, value * 2 - 0x100);
      } else {
        ModUnique(value * 2, 0x100, 0, value * 2);
      }
    }

    method RlcaOp()
      modifies reg
      ensures var rf := old(reg.Snapshot()); var o := Alu.Rlca(Unpack(rf.f), rf.a);
        reg.Snapshot() == rf.(a := o.value, f := Pack(o.f))
    {
      var value := reg.Get8(Register8.A);
      ghost var fl := Unpack(reg.f);
      var res := (value as int * 2) % 0x100;
      ShiftedLeft(value);
      if value >= 0x80 {
        reg.SetF(Flag.C);
        res := res + 1;
      } else {
        reg.UnsetF(Flag.C);
      }
      reg.UnsetF(Flag.Z);
      reg.UnsetF(Flag.N);
      reg.UnsetF(Flag.H);
      AccumulatorFlags(fl, value >= 0x80);
      reg.Set8(Register8.A, res);
      PackUnpack(reg.f);
    }

    method RrcaOp()
      modifies reg
      ensures var rf := old(reg.Snapshot()); var o := Alu.Rrca(Unpack(rf.f), rf.a);
        reg.Snapshot() == rf.(a := o.value, f := Pack(o.f))
    {
      var value := reg.Get8(Register8.A);
      ghost var fl := Unpack(reg.f);
      var res := value / 2;
      if value % 2 == 1 {
        reg.SetF(Flag.C);
        res := res + 0x80;
      } else {
        reg.UnsetF(Flag.C);
      }
      reg.UnsetF(Flag.Z);
      reg.UnsetF(Flag.N);
      reg.UnsetF(Flag.H);
      AccumulatorFlags(fl, value % 2 == 1);
      reg.Set8(Register8.A, res);
      PackUnpack(reg.f);
    }

    method RlaOp()
      modifies reg
      ensures var rf := old(reg.Snapshot()); var o := Alu.Rla(Unpack(rf.f), rf.a);
        reg.Snapshot() == rf.(a := o.value, f := Pack(o.f))
    {
      var value := reg.Get8(Register8.A);
      ghost var fl := Unpack(reg.f);
      var res := (value as int * 2) % 0x100;
      ShiftedLeft(value);
      if reg.GetF(Flag.C) == 1 {
        res := res + 1;
      }
      reg.PutF(Flag.C, value >= 0x80);
      reg.UnsetF(Flag.Z);
      reg.UnsetF(Flag.N);
      reg.UnsetF(Flag.H);
      AccumulatorFlags(fl, value >= 0x80);
      reg.Set8(Register8.A, res);
      PackUnpack(reg.f);
    }

    method RraOp()
      modifies reg
      ensures var rf := old(reg.Snapshot()); var o := Alu.Rra(Unpack(rf.f), rf.a);
        reg.Snapshot() == rf.(a := o.value, f := Pack(o.f))
    {
      var value := reg.Get8(Register8.A);
      ghost var fl := Unpack(reg.f);
      var res := value / 2;
      if reg.GetF(Flag.C) == 1 {
        res := res + 0x80;
      }
      reg.PutF(Flag.C, value % 2 == 1);
      reg.UnsetF(Flag.Z);
      reg.UnsetF(Flag.N);
      reg.UnsetF(Flag.H);
      AccumulatorFlags(fl, value % 2 == 1);
      reg.Set8(Register8.A, res);
      PackUnpack(reg.f);
    }
  }
}
