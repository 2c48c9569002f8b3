# nth-boy core, modelled in Dafny

This project models the core of nth-boy, a Game Boy emulator written in Rust with a WebAssembly
front end and a small web page. The model covers:

- the SM83 CPU: fetch, decode and execute of every base and CB-prefixed opcode, the flag rules
  of the arithmetic helpers, DAA, the stack, interrupt dispatch, the IME state machine, HALT and
  cycle accounting (`cpu.dfy`, `decode.dfy`, `alu.dfy`, `registers.dfy`);
- the memory map and its address spaces: the MMU's routing, echo RAM, the unusable area, the IE
  register and OAM DMA (`mmu.dfy`), the `Addressable` interface (`addressable.dfy`), plain RAM
  blocks (`generic.dfy`) and object attribute memory (`oam.dfy`);
- the cartridge: the header and the sizes it implies (`header.dfy`), the MBC1 bank controller
  (`banking.dfy`), the ROM/RAM dispatch (`cart.dfy`) and the MBC3 real-time clock with its
  latch and its 21-byte save record (`rtc.dfy`);
- the I/O page: IF and the serial capture (`io.dfy`), the joypad register (`joypad.dfy`), the
  timers (`timers.dfy`) and the LCD registers (`lcd.dfy`);
- the device loop that feeds each CPU step's cycles to the timers and runs a frame's cycle
  budget (`device.dfy`);
- the pixel pipeline: the ring buffer under both FIFOs (`ring.dfy`), the background FIFO
  (`standard_fifo.dfy`), the merging sprite FIFO (`merge_fifo.dfy`), tile rows (`tiles.dfy`) and
  the background and sprite fetchers (`bg_fetcher.dfy`, `sprite_fetcher.dfy`);
- the WebAssembly glue object with its key flags and save dumps (`wasm.dfy`), and the web page
  that draws the frames, stores saves as JSON text and maps the keyboard (`page.dfy`,
  `json.dfy`).

Shared pieces: bytes and 16-bit words as bounded integers with a bit-by-bit library for the
bitwise operators (`bits.dfy`), `Option`/`Result` (`wrappers.dfy`) and the pixel values
(`pixels.dfy`).

Code that changes state in place is modelled as classes with `modifies` clauses: each class has
a `Snapshot()` value, and each method is proved to leave exactly the state a pure function of
the old snapshot describes. The properties the source relies on are then proved about those
functions. Integer widths are explicit: every 8- and 16-bit wrap-around is written as a modulo,
and Rust's overflow panics and explicit panics become preconditions.

## Model

| member | source | states |
|---|---|---|
| AddressSpaces.Word | gbcore/src/mmu/address_spaces/mod.rs:13 | the word's low byte is `low` and its high byte is `high` |
| AddressSpaces.WordOfBytes | gbcore/src/mmu/address_spaces/mod.rs:13 | every 16-bit word is rebuilt from its own low and high bytes, so `Word` loses nothing |
| AddressSpaces.Read16 | gbcore/src/mmu/address_spaces/mod.rs:10-14 | `read_16` is little-endian: the low byte is the byte read at `loc`, the high byte the byte read at `loc + 1`; `loc = 0xFFFF` is excluded because `loc + 1` overflows |
| AddressSpaces.Read16OnlyReads | gbcore/src/mmu/address_spaces/mod.rs:10-14 | `read_16` depends only on the two bytes it reads |
| Generic.GenericAddressable.constructor | gbcore/src/mmu/address_spaces/generic_addressable.rs:10-19 | a block of `end - start + 1` zero bytes covering `start..end` |
| Generic.GenericAddressable.Write | gbcore/src/mmu/address_spaces/generic_addressable.rs:21-32 | an in-range write replaces exactly the byte at `location - start`; the written location then reads back the byte and every other location reads as before |
| Generic.New | gbcore/src/mmu/address_spaces/generic_addressable.rs:10-19 | `new` fails exactly when `end < start`; otherwise it yields a fresh block of `end - start + 1` zeroes with that range |
| Generic.GenericAddressable.Read | gbcore/src/mmu/address_spaces/generic_addressable.rs:34-37 | an in-range read is the byte held at `location - start`, the one the last `Write` to that location left |
| Ring.Empty | gbcore/src/ppu/pixel_fetcher/pixel_fifo/standard_pixel_fifo.rs:14-22 | `with_capacity` gives a valid ring with the requested capacity and nothing queued |
| Ring.StoredAppends | gbcore/src/ppu/pixel_fetcher/pixel_fifo/standard_pixel_fifo.rs:27-31 | storing into the push slot and advancing the push index modulo the capacity appends exactly that value to the queue, oldest first, and keeps push index = pop index + len (mod capacity) |
| Ring.ShiftTakesFront | gbcore/src/ppu/pixel_fetcher/pixel_fifo/standard_pixel_fifo.rs:34-43 | `shift` on an empty ring returns `None` and changes nothing; otherwise it returns the oldest queued pixel (always present), empties its slot and leaves the rest of the queue in order |
| Ring.ShiftedAllTakesPrefix | gbcore/src/ppu/pixel_fetcher/pixel_fifo/standard_pixel_fifo.rs:34-43 | `n` shifts in a row return the queue's first `n` pixels in order and leave the remaining ones queued |
| StandardFifo.PushAppends | gbcore/src/ppu/pixel_fetcher/pixel_fifo/standard_pixel_fifo.rs:26-32 | a push into a FIFO with room appends the pixel at the back of the queue; a push into a full FIFO changes nothing; the ring invariant is kept |
| StandardFifo.PushedAllAppends | gbcore/src/ppu/pixel_fetcher/pixel_fifo/standard_pixel_fifo.rs:26-32 | pushes that fit append all their pixels to the queue in order |
| StandardFifo.FifoOrder | gbcore/src/ppu/pixel_fetcher/pixel_fifo/standard_pixel_fifo.rs:26-43 | first in, first out: pixels pushed into an empty FIFO come out of as many shifts in the order they went in |
| StandardFifo.ClearEmpties | gbcore/src/ppu/pixel_fetcher/pixel_fifo/standard_pixel_fifo.rs:45-49 | resetting the three indices empties the queue and keeps the invariant, although the slots keep their contents |
| StandardFifo.StandardPixelFifo.constructor | gbcore/src/ppu/pixel_fetcher/pixel_fifo/standard_pixel_fifo.rs:14-22 | a fresh buffer of `capacity` empty slots with all indices 0 |
| StandardFifo.StandardPixelFifo.Push | gbcore/src/ppu/pixel_fetcher/pixel_fifo/standard_pixel_fifo.rs:26-32 | the in-place push leaves the state `Pushed` describes and keeps the ring invariant |
| StandardFifo.StandardPixelFifo.Shift | gbcore/src/ppu/pixel_fetcher/pixel_fifo/standard_pixel_fifo.rs:34-43 | the in-place shift returns the pixel and leaves the state `Ring.Shifted` describes, keeping the invariant |
| StandardFifo.StandardPixelFifo.Clear | gbcore/src/ppu/pixel_fetcher/pixel_fifo/standard_pixel_fifo.rs:45-49 | the in-place clear leaves the state `Cleared` describes |
| StandardFifo.StandardPixelFifo.Len | gbcore/src/ppu/pixel_fetcher/pixel_fifo/standard_pixel_fifo.rs:51-53 | `len` is the number of queued pixels |
| MergeFifo.MergeKeepsOpaque | gbcore/src/ppu/pixel_fetcher/pixel_fifo/merge_pixel_fifo.rs:34-43 | a merge always leaves a pixel in the slot; an opaque pixel already there wins, otherwise the pushed pixel is stored; the result is opaque iff either pixel is; merging the same pixel again changes nothing |
| MergeFifo.MergePushAppends | gbcore/src/ppu/pixel_fetcher/pixel_fifo/merge_pixel_fifo.rs:32-48 | a push into a FIFO with room appends the merged pixel to the queue; a push into a full FIFO changes nothing; the ring invariant is kept |
| MergeFifo.MergePushedAllLength | gbcore/src/ppu/pixel_fetcher/pixel_fifo/merge_pixel_fifo.rs:32-48 | pushes that fit each queue exactly one more pixel and leave the pixels already queued in front, unchanged |
| MergeFifo.RewindToPop | gbcore/src/ppu/pixel_fetcher/pixel_fifo/merge_pixel_fifo.rs:61-79 | `clear` moves both indices back to the slot of the oldest queued pixel, empties the queue and leaves the slots untouched |
| MergeFifo.ClearThenPushMerges | gbcore/src/ppu/pixel_fetcher/pixel_fifo/merge_pixel_fifo.rs:32-79 | after a clear, the next push merges with the pixel that was at the front of the queue before the clear |
| MergeFifo.ClearThenPushAllMerges | gbcore/src/ppu/pixel_fetcher/pixel_fifo/merge_pixel_fifo.rs:32-79 | after a clear, pushes that fit queue one slot per pixel and the first merges with the old front pixel |
| MergeFifo.FullClearForgets | gbcore/src/ppu/pixel_fetcher/pixel_fifo/merge_pixel_fifo.rs:23-28 | after `full_clear` nothing is queued and the next push stores its pixel unmerged |
| MergeFifo.MergePixelFifo.constructor | gbcore/src/ppu/pixel_fetcher/pixel_fifo/merge_pixel_fifo.rs:13-21 | a fresh buffer of `capacity` empty slots with all indices 0 |
| MergeFifo.MergePixelFifo.FullClear | gbcore/src/ppu/pixel_fetcher/pixel_fifo/merge_pixel_fifo.rs:23-28 | the clear and the loop emptying every slot leave the state `FullCleared` describes |
| MergeFifo.MergePixelFifo.Push | gbcore/src/ppu/pixel_fetcher/pixel_fifo/merge_pixel_fifo.rs:32-48 | the in-place merging push leaves the state `MergePushed` describes and keeps the ring invariant |
| MergeFifo.MergePixelFifo.Shift | gbcore/src/ppu/pixel_fetcher/pixel_fifo/merge_pixel_fifo.rs:50-59 | the in-place shift returns the pixel and leaves the state `Ring.Shifted` describes |
| MergeFifo.MergePixelFifo.Clear | gbcore/src/ppu/pixel_fetcher/pixel_fifo/merge_pixel_fifo.rs:61-79 | the index rewind leaves the state `Rewound` describes, with the invariant kept |
| MergeFifo.MergePixelFifo.Len | gbcore/src/ppu/pixel_fetcher/pixel_fifo/merge_pixel_fifo.rs:81-83 | `len` is the number of queued pixels |
| Decode.DecodeLow | gbcore/src/cpu/mod.rs:114-177 | opcodes 0x00-0x3F decode to the loads of immediates, inc/dec, accumulator rotates and relative jumps; of them only 0x10 is `stop` and none is `halt` or the prefix |
| Decode.DecodeLoad | gbcore/src/cpu/mod.rs:178-241 | opcodes 0x40-0x7F are the register/(HL) loads, except 0x76, which alone is `halt` |
| Decode.DecodeHigh | gbcore/src/cpu/mod.rs:306-372 | opcodes 0xC0-0xFF decode to stack, control-flow, immediate-ALU and high-page instructions; of them only 0xCB is the prefix |
| Decode.Decode | gbcore/src/cpu/mod.rs:111-376 | `decode` selects one instruction per opcode: exactly 0x10 is `stop`, exactly 0x76 is `halt`, exactly 0xCB reads a second opcode for `decode_cb` |
| Decode.DecodeCb | gbcore/src/cpu/mod.rs:378-637 | `decode_cb` works on (HL) exactly when the low three bits are 6, and the `bit`/`res`/`set` families take their bit number from bits 5-3 |
| Decode.TakenBranchesCost | gbcore/src/cpu/mod.rs:7-17 | with the extra cycles added when a branch is taken (4 for `jp cc`/`jr cc`, 12 for `call cc` and `ret cc`), a taken conditional branch costs as much as its unconditional form; an untaken `ret cc` costs 8 |
| Decode.CbCyclesFollowPlace | gbcore/src/cpu/mod.rs:19-28 | the CB table charges 8 cycles on a register, 12 to test a bit in memory and 16 to rewrite memory |
| Decode.DecodeAlu | gbcore/src/cpu/mod.rs:242-305 | opcodes 0x80-0xBF are the eight accumulator operations with a register or (HL) operand taken from the low three bits; operation row and operand index give back the opcode, so no two opcodes decode alike |
| Bits.SetBit | gbcore/src/cpu/mod.rs:1408-1410 | `setb8`: bit `k` of the result is 1 and the other seven bits are those of the value |
| Bits.ResetBit | gbcore/src/cpu/mod.rs:1425-1427 | `resetb8`: bit `k` of the result is 0 and the other seven bits are those of the value |
| Bits.And8 | gbcore/src/cpu/mod.rs:1066-1079 | the byte `&` used by `and8_flags`: a result bit is 1 iff both operand bits are |
| Bits.Or8 | gbcore/src/cpu/mod.rs:1103-1116 | the byte `\|` used by `or8_flags`: a result bit is 1 iff either operand bit is |
| Bits.Xor8 | gbcore/src/cpu/mod.rs:1140-1153 | the byte `^` used by `xor8_flags`: a result bit is 1 iff the operand bits differ |
| Bits.MaskTest | gbcore/src/cpu/mod.rs:1442-1451 | `x & (1 << k) != 0`, the test `bit` performs, holds iff bit `k` of `x` is 1 |
| Registers.FlagPosition | src/cpu/registers.rs:134-171 | every flag, negated or not, lives in the high nibble of F (bits 7 to 4) |
| Registers.Base | src/cpu/registers.rs:153-156 | the base flag of a negated flag is not negated and sits at the same bit |
| Registers.FlagMask | src/cpu/registers.rs:136-143 | the mask getf/setf use for a flag is 2 to the power of its bit position |
| Registers.FlagValue | src/cpu/registers.rs:134-145 | the intended getf yields 0 or 1 |
| Registers.FlagValueIsBit | src/cpu/registers.rs:136-143 | the intended getf reads the flag's bit of F, complemented for a negated flag |
| Registers.NegatedIsComplement | src/cpu/registers.rs:140-143 | intended reading: a negated flag is 1 exactly when its base flag is 0 |
| Registers.NegatedFlagAsWritten | src/cpu/registers.rs:140-143 | getf of NZ/NN/NH/NC as written returns the complemented bit plus twice the bits of F above it, so it agrees with the intended value iff those higher bits are all 0 |
| Registers.NcMisreadWithZeroFlagSet | src/cpu/registers.rs:139-143 | with F = 0x80 (only Z set) the carry is clear and NC should read 1, but getf(NC) as written is 9, so conditional branches on NC are not taken |
| Registers.SetFlag | src/cpu/registers.rs:147-171 | after setf (unsetf) the flag reads 1 (0); every other flag and the low nibble of F are unchanged |
| Registers.UnpackSetFlag | src/cpu/registers.rs:147-171 | setting or clearing a flag's bit in F changes exactly that flag in the four-flag view |
| Registers.FlagsDetermineF | src/cpu/registers.rs:147-171 | the flags view pins F down: an F whose flags are those of a setf/unsetf is the F that setf/unsetf produce |
| Registers.PackUnpack | src/cpu/registers.rs:33-44 | F is exactly its four flags and its low nibble: packing its flags gives F back |
| Registers.UnpackPack | src/cpu/registers.rs:33-44 | flags packed into F read back unchanged |
| Registers.HoldsIsFlagValue | src/cpu/registers.rs:134-145 | the flags view agrees with the intended getf for all eight flags |
| Registers.With | src/cpu/registers.rs:147-171 | after setf (unsetf) in the flags view, the flag holds (does not hold) |
| Registers.PairIsHighLow | src/cpu/registers.rs:87-96 | get16 of AF, BC, HL or DE is its high register times 256 plus its low register |
| Registers.Write8ThenRead | src/cpu/registers.rs:74-109 | get8 after set8 returns the value written; every other register, SP and PC are unchanged |
| Registers.Write16ThenRead | src/cpu/registers.rs:87-132 | get16 after set16 returns the value written; no 8-bit register outside the pair changes, nor SP or PC unless written |
| Registers.Write16Read16 | src/cpu/registers.rs:87-132 | set16 of a register with the value get16 reads from it changes nothing |
| Registers.Registers.constructor | src/cpu/registers.rs:60-71 | the registers start at the post-boot values A=0x01, F=0xB0, B=0x00, C=0x13, D=0x00, E=0xD8, H=0x01, L=0x4D, SP=0xFFFE, PC=0x0100 |
| Registers.Registers.Set8 | src/cpu/registers.rs:98-109 | the in-place set8 leaves the register file `Write8` describes |
| Registers.Registers.Set16 | src/cpu/registers.rs:111-132 | the in-place set16 leaves the register file `Write16` describes: high byte to the first register, low byte to the second |
| Registers.Registers.SetF | src/cpu/registers.rs:147-158 | only F changes, and it becomes what `SetFlag` gives: the named flag reads 1 (a negated flag's base bit is cleared), the other flags and the low nibble are kept |
| Registers.Registers.UnsetF | src/cpu/registers.rs:160-171 | only F changes, and it becomes what `SetFlag` gives: the named flag reads 0 (a negated flag's base bit is set), the other flags and the low nibble are kept |
| Registers.Registers.PutF | src/cpu/registers.rs:147-171 | the recurring `if cond { setf } else { unsetf }`: only F changes, and exactly the named flag becomes `cond` |
| Registers.Registers.Get8 | src/cpu/registers.rs:74-85 | `get8` returns the named register as the register file holds it |
| Registers.Registers.Get16 | src/cpu/registers.rs:87-96 | `get16` is the register file's 16-bit value; for a pair its high byte is the first register and its low byte the second |
| Registers.Registers.GetF | src/cpu/registers.rs:134-145 | `getf` (corrected for negated flags, see Findings) is the flag's 0/1 value, and a negated flag reads 1 minus its base flag |
| Alu.SignedOffset | gbcore/src/cpu/mod.rs:650-654 | a byte read as `i8` lies in -128..127 and is congruent to the byte modulo 256 |
| Alu.Sum8 | gbcore/src/cpu/mod.rs:805-832 | `sum8_flags`: the result is the sum modulo 256; Z iff the result is 0; N cleared; C (H) is the carry out of bit 7 (bit 3) when asked for and kept otherwise |
| Alu.Sub8 | gbcore/src/cpu/mod.rs:834-861 | `sub8_flags`: the result is the difference modulo 256; Z iff the operands are equal; N set; C (H) is the borrow of the byte (low nibble) when asked for and kept otherwise |
| Alu.Adc | gbcore/src/cpu/mod.rs:885-898 | adding the carry first and the operand second with the conditional flag updates computes A + value + carry modulo 256, with C iff that sum exceeds 0xFF and H iff the nibble sum plus carry exceeds 0xF |
| Alu.Sbc | gbcore/src/cpu/mod.rs:965-978 | the two-step subtraction computes A - value - carry modulo 256, with C iff A < value + carry and H iff the low nibble of A is below the operand's nibble plus carry; N set |
| Alu.AddWithCarry | gbcore/src/cpu/mod.rs:885-898 | adding the carry and then the operand gives the single-step sum, and the carry (half-carry) of either step is the carry (half-carry) of the whole |
| Alu.SubtractWithCarry | gbcore/src/cpu/mod.rs:965-978 | subtracting the carry and then the operand gives the single-step difference, and the borrow of either step is the borrow of the whole |
| Alu.AdcWithoutCarry | gbcore/src/cpu/mod.rs:885-898 | with the carry clear, `adc` is exactly `add`, flags included |
| Alu.SbcWithoutCarry | gbcore/src/cpu/mod.rs:965-978 | with the carry clear, `sbc` is exactly `sub`, flags included |
| Alu.AndFlags | gbcore/src/cpu/mod.rs:1066-1079 | `and8_flags`: each result bit is the AND of the operand bits; Z iff the result is 0; N and C cleared; H set |
| Alu.OrFlags | gbcore/src/cpu/mod.rs:1103-1116 | `or8_flags`: each result bit is the OR of the operand bits; Z iff the result is 0; N, H and C cleared |
| Alu.XorFlags | gbcore/src/cpu/mod.rs:1140-1153 | `xor8_flags`: each result bit is the XOR of the operand bits; Z iff the result is 0; N, H and C cleared |
| Alu.XorSelfClears | gbcore/src/cpu/mod.rs:1140-1153 | `xor a` with itself leaves 0 and sets Z |
| Alu.Ccf | gbcore/src/cpu/mod.rs:1177-1186 | `ccf` complements C and clears N and H; Z is kept |
| Alu.Scf | gbcore/src/cpu/mod.rs:1188-1192 | `scf` sets C and clears N and H; Z is kept |
| Alu.CcfTwiceAndAfterScf | gbcore/src/cpu/mod.rs:1177-1192 | `ccf` twice restores C, and `ccf` after `scf` leaves C clear |
| Alu.Cpl | gbcore/src/cpu/mod.rs:1194-1198 | `cpl` complements every bit of A and sets N and H; Z and C are kept |
| Alu.Add16 | gbcore/src/cpu/mod.rs:1216-1236 | `add_r16_r16`: the sum modulo 0x10000, H iff there is a carry out of bit 11, C iff there is a carry out of bit 15, N cleared, Z kept |
| Alu.SignedSum | gbcore/src/cpu/mod.rs:1319-1321 | `signed_sum`: the result differs from `op1` by the signed offset, modulo 0x10000 |
| Alu.SignedSumCancels | gbcore/src/cpu/mod.rs:1319-1321 | moving by an offset and then by its negation returns to the start (for every offset except -128, whose negation is not an `i8`) |
| Alu.SignedSumFlags | gbcore/src/cpu/mod.rs:1238-1281 | `signed_sum_flags`: the value is `signed_sum`; H and C are the carries of adding the offset's raw byte to the low nibble and the low byte of `op1`, whatever the offset's sign; Z and N cleared |
| Alu.Rlc | gbcore/src/cpu/mod.rs:1706-1725 | `rlc`: bit 7 moves to bit 0 and into C, the other bits move up one; Z iff the value was 0; N and H cleared |
| Alu.Rrc | gbcore/src/cpu/mod.rs:1672-1691 | `rrc`: bit 0 moves to bit 7 and into C, the other bits move down one; Z iff the value was 0 |
| Alu.Rl | gbcore/src/cpu/mod.rs:1635-1657 | `rl`: the old carry enters bit 0 and bit 7 goes into C; Z iff the result is 0 |
| Alu.Rr | gbcore/src/cpu/mod.rs:1598-1620 | `rr`: the old carry enters bit 7 and bit 0 goes into C; Z iff the result is 0 |
| Alu.Sla | gbcore/src/cpu/mod.rs:1565-1583 | `sla`: shift left with 0 into bit 0 and bit 7 into C; Z iff the result is 0 |
| Alu.Sra | gbcore/src/cpu/mod.rs:1528-1550 | `sra`: shift right keeping bit 7, bit 0 into C; Z iff the result is 0 |
| Alu.Srl | gbcore/src/cpu/mod.rs:1495-1513 | `srl`: shift right with 0 into bit 7 and bit 0 into C; Z iff the value was below 2 |
| Alu.Swap | gbcore/src/cpu/mod.rs:1464-1480 | `swap` exchanges the nibbles; Z iff the value was 0; C, N and H cleared |
| Alu.SwapTwice | gbcore/src/cpu/mod.rs:1464-1480 | swapping twice gives the value back |
| Alu.RlcUndoesRrc | gbcore/src/cpu/mod.rs:1672-1725 | `rlc` after `rrc` gives the value back, and both put the same bit into C |
| Alu.RlUndoesRr | gbcore/src/cpu/mod.rs:1598-1657 | `rl` after `rr` gives back both the value and the old carry |
| Alu.ShiftsLoseOneBit | gbcore/src/cpu/mod.rs:1495-1583 | `srl` after `sla` loses bit 7 and `sla` after `srl` loses bit 0; nothing else changes |
| Alu.AccumulatorRotates | gbcore/src/cpu/mod.rs:1740-1816 | `rlca`, `rrca`, `rla` and `rra` compute the same value and carry as `rlc`, `rrc`, `rl` and `rr` on A, but always clear Z |
| Alu.TestBit | gbcore/src/cpu/mod.rs:1442-1451 | `testb8_flags`: Z iff the chosen bit is 0; N cleared, H set, C kept |
| Alu.Daa | gbcore/src/cpu/mod.rs:1818-1848 | `daa`: Z follows the result, H is cleared, N is kept, and C is set when it was set or when A > 0x99 after an addition; it is never cleared |
| Alu.DaaDigits | gbcore/src/cpu/mod.rs:1818-1848 | for every pair of digit sums up to 18, `daa` turns the binary sum into the decimal digits of the sum modulo 100 and sets C exactly when the sum reaches 100 |
| Alu.DaaAfterAdd | gbcore/src/cpu/mod.rs:1818-1848 | `add` followed by `daa` adds two decimal-coded bytes: the result is the decimal code of the sum modulo 100, and C is set iff the decimal sum is 100 or more |
| Cpu.HighPage | gbcore/src/cpu/mod.rs:740-766 | the address `0xFF00 \| low` has high byte 0xFF and low byte `low` |
| Cpu.Bus.constructor | gbcore/src/mmu/mod.rs:50-87 | the CPU's view of memory starts as the given 64 KiB |
| Cpu.Bus.Write | gbcore/src/mmu/mod.rs:51-69 | a write replaces exactly the addressed byte of the CPU's view of memory |
| Cpu.PopAfterPush | gbcore/src/cpu/mod.rs:662-684 | a 16-bit pop after a 16-bit push returns the pushed value and restores SP; the high byte sits at SP-1 and the low byte at SP-2 (both wrapping), and no other location changes |
| Cpu.PopRestoresPush | gbcore/src/cpu/mod.rs:791-799 | `push rr` followed by `pop rr` restores the whole register file |
| Cpu.PopUndoesPush | gbcore/src/cpu/mod.rs:791-799 | executing `pop rr` after `push rr` gives back every register, and memory differs only in the two bytes below SP |
| Cpu.RetUndoesCall | gbcore/src/cpu/mod.rs:1343-1361 | `call u16` jumps to the operand, and a `ret` after it lands just past the operand with SP restored and every other register as before |
| Cpu.RetUndoesRst | gbcore/src/cpu/mod.rs:1359-1374 | `rst` jumps to its vector, a `ret` after it returns to the address after the rst with every register restored, and the rst wrote only the two bytes below SP |
| Cpu.BitTestAfterSetOrReset | gbcore/src/cpu/mod.rs:1412-1462 | `bit b,x` after `set b,x` of the same register or (HL) clears Z, and after `res b,x` sets it |
| Cpu.RequestedIffBothSet | gbcore/src/cpu/mod.rs:84-101 | the test `(ie & mask) & (if & mask) != 0` holds exactly when the interrupt's bit is set in both IE and IF |
| Cpu.PendingInterrupt | gbcore/src/cpu/mod.rs:84-101 | the interrupt picked is one of the five (vblank, LCD STAT, timer, serial, joypad) or none |
| Cpu.PendingIsBothSet | gbcore/src/cpu/mod.rs:84-101 | the interrupt picked is enabled in IE and requested in IF |
| Cpu.PendingIsLowest | gbcore/src/cpu/mod.rs:84-101 | priority: no interrupt with a lower number than the one picked is both enabled and requested, and none is picked only when no interrupt is |
| Cpu.ServiceClearsRequest | gbcore/src/cpu/mod.rs:103-109 | servicing interrupt k jumps to 0x40 + 8k with the old PC on the stack and clears its IF bit (the `^=` flips a set bit), leaving the other IF bits, unless the push itself wrote IF |
| Cpu.ExtraCycles | gbcore/src/cpu/mod.rs:1310-1368 | a taken branch or the prefix adds at most 24 cycles beyond the table |
| Cpu.Cpu.constructor | gbcore/src/cpu/mod.rs:53-61 | a new CPU has the post-boot registers, zero cycles and ops, IME disabled and is not halted |
| Cpu.Cpu.Tick | gbcore/src/cpu/mod.rs:63-82 | `tick` returns the cycles it spent; a pending IME becomes enabled first; when halted it spends 8 cycles, changes no register or memory and stays halted iff IE & IF is 0; when running it services at most one interrupt (20 cycles), fetches the opcode, leaves registers and memory exactly as `Executed` says of the decoded instruction on the machine just past the opcode, adds the table cost plus any taken-branch cost, counts one op, updates IME as di/ei/reti say and halts iff the opcode was 0x76 |
| Cpu.Cpu.FetchAndRun | gbcore/src/cpu/mod.rs:70-73 | the running half of `tick`: after an interrupt check and one instruction the registers and memory are `Executed` of the fetched instruction, and the cycles, op count, IME and HALT state are as `tick` promises, the cycles spent being at most 68 |
| Cpu.Cpu.WaitHalted | gbcore/src/cpu/mod.rs:74-79 | the halted half of `tick`: wake when IE & IF is non-zero, and spend 8 cycles |
| Cpu.Cpu.CheckInterrupts | gbcore/src/cpu/mod.rs:84-101 | with IME enabled and an interrupt pending, the highest-priority one is serviced (20 cycles, IME disabled); otherwise nothing changes |
| Cpu.Cpu.HandleInterrupt | gbcore/src/cpu/mod.rs:103-109 | `handle_interrupt` pushes PC, flips the interrupt's IF bit in the memory after the push, jumps to the vector, disables IME and spends 20 cycles |
| Cpu.Cpu.DecodeOp | gbcore/src/cpu/mod.rs:111-376 | `decode` leaves registers and memory as `Executed` says of the decoded instruction, then adds the opcode's OP_CYCLES entry and counts one op; IME changes only for di/ei/reti and HALT is entered only by 0x76 |
| Cpu.Cpu.Execute | gbcore/src/cpu/mod.rs:111-372 | running an instruction leaves registers and memory as `Executed` says, adds only its taken-branch or CB cycles, changes IME only for di/ei/reti and enters HALT only for `halt` |
| Cpu.Cpu.ExecuteLoad | gbcore/src/cpu/mod.rs:115-372 | the load, push and pop arms of `decode` leave registers and memory as `LoadExecuted` says |
| Cpu.Cpu.ExecuteByteLoad | gbcore/src/cpu/mod.rs:115-372 | the 8-bit load arms (register, (rr) with HL+/HL-, u8, (u16), (C) and ldh forms) leave registers and memory as `ByteLoadExecuted` says |
| Cpu.Cpu.ExecuteWordLoad | gbcore/src/cpu/mod.rs:115-372 | the 16-bit load, push and pop arms leave registers and memory as `WordLoadExecuted` says |
| Cpu.Cpu.ExecuteArithmetic | gbcore/src/cpu/mod.rs:115-372 | the arithmetic, logic, flag and accumulator-rotate arms leave registers and memory as `ArithmeticExecuted` says |
| Cpu.Cpu.ExecuteAlu | gbcore/src/cpu/mod.rs:242-372 | the add/adc/sub/sbc/and/xor/or/cp arms on a register, (HL) or u8 leave the registers as `AluExecuted` says and memory unchanged |
| Cpu.Cpu.ExecutePlaceOrPair | gbcore/src/cpu/mod.rs:115-372 | the 8-bit inc/dec arms on a register or (HL) and the 16-bit inc, dec and add arms leave registers and memory as `PlaceOrPairExecuted` says |
| Cpu.Cpu.ExecuteAccumulator | gbcore/src/cpu/mod.rs:115-177 | the daa, cpl, scf, ccf and accumulator-rotate arms change only A and F, as `AccumulatorExecuted` says |
| Cpu.Cpu.ExecuteControl | gbcore/src/cpu/mod.rs:306-372 | the control-flow arms leave registers and memory as `ControlExecuted` says (jumps, calls, returns, rst, and the CB prefix through `CbExecuted`), with taken-branch cycles, IME after di/ei/reti, HALT after `halt` |
| Cpu.Cpu.DecodeCbOp | gbcore/src/cpu/mod.rs:378-638 | `decode_cb` leaves registers and memory as `CbExecuted` says of the decoded CB instruction and adds its CB_OP_CYCLES entry; nothing else in the CPU's counters changes |
| Cpu.Cpu.ConsumeU8 | gbcore/src/cpu/mod.rs:644-654 | `consume_u8`/`consume_i8` return the byte at PC and advance PC by one, wrapping |
| Cpu.Cpu.ConsumeU16 | gbcore/src/cpu/mod.rs:656-660 | `consume_u16` returns the little-endian word at PC and advances PC by two |
| Cpu.Cpu.StackPushU8 | gbcore/src/cpu/mod.rs:675-678 | SP is decremented (wrapping) and the byte written at the new SP |
| Cpu.Cpu.StackPopU8 | gbcore/src/cpu/mod.rs:680-684 | the byte at SP is returned and SP incremented (wrapping) |
| Cpu.Cpu.StackPushU16 | gbcore/src/cpu/mod.rs:662-667 | the high byte is pushed first, then the low byte; SP moves down by two |
| Cpu.Cpu.StackPopU16 | gbcore/src/cpu/mod.rs:669-673 | the low byte is popped first, then the high byte; SP moves up by two |
| Cpu.Cpu.Fetch | gbcore/src/cpu/mod.rs:863-883 | the shared operand read of the `_r8`, `_ir16` and `_u8` forms: the register, the byte at the pair's address, or the byte at PC (which advances PC) |
| Cpu.Cpu.HandlePostOp | gbcore/src/cpu/mod.rs:690-696 | `(HL+)` and `(HL-)` increment or decrement the pair, wrapping; otherwise nothing changes |
| Cpu.Cpu.LdR8R8 | gbcore/src/cpu/mod.rs:698-701 | the destination register gets the source register; nothing else changes |
| Cpu.Cpu.LdR8U8 | gbcore/src/cpu/mod.rs:703-706 | the destination register gets the byte at PC and PC advances |
| Cpu.Cpu.LdR8Ir16 | gbcore/src/cpu/mod.rs:708-713 | the destination register gets the byte at the pair's address, then the post-op adjusts the pair |
| Cpu.Cpu.LdIr16R8 | gbcore/src/cpu/mod.rs:715-720 | the register is written at the pair's address, then the post-op adjusts the pair |
| Cpu.Cpu.LdIr16U8 | gbcore/src/cpu/mod.rs:722-726 | the byte at PC is written at the pair's address and PC advances |
| Cpu.Cpu.LdR8Iu16 | gbcore/src/cpu/mod.rs:728-732 | the register gets the byte at the 16-bit operand address and PC advances by two |
| Cpu.Cpu.LdIu16R8 | gbcore/src/cpu/mod.rs:734-738 | the register is written at the 16-bit operand address and PC advances by two |
| Cpu.Cpu.LdR8Ir8 | gbcore/src/cpu/mod.rs:740-745 | `ld A,(C)` reads 0xFF00 + C |
| Cpu.Cpu.LdIr8R8 | gbcore/src/cpu/mod.rs:747-752 | `ld (C),A` writes A at 0xFF00 + C and changes no register |
| Cpu.Cpu.LdhR8Iu8 | gbcore/src/cpu/mod.rs:754-759 | `ldh A,(u8)` reads 0xFF00 + the operand and PC advances |
| Cpu.Cpu.LdhIu8R8 | gbcore/src/cpu/mod.rs:761-766 | `ldh (u8),A` writes A at 0xFF00 + the operand and PC advances |
| Cpu.Cpu.LdR16U16 | gbcore/src/cpu/mod.rs:772-775 | the register pair gets the 16-bit operand and PC advances by two |
| Cpu.Cpu.LdIu16R16 | gbcore/src/cpu/mod.rs:777-784 | `ld (u16),SP` writes the low byte at the address and the high byte above it; an address of 0xFFFF overflows and is excluded |
| Cpu.Cpu.LdR16R16 | gbcore/src/cpu/mod.rs:786-789 | the destination pair gets the source pair |
| Cpu.Cpu.PushR16 | gbcore/src/cpu/mod.rs:791-794 | the pair's value is pushed and SP moves down by two |
| Cpu.Cpu.PopR16 | gbcore/src/cpu/mod.rs:796-799 | the pair gets the word at SP and SP moves up by two |
| Cpu.Cpu.Sum8Flags | gbcore/src/cpu/mod.rs:805-832 | returns the value and leaves F as `Alu.Sum8` says; no other register changes |
| Cpu.Cpu.Sub8Flags | gbcore/src/cpu/mod.rs:834-861 | returns the value and leaves F as `Alu.Sub8` says; no other register changes |
| Cpu.Cpu.AddOp | gbcore/src/cpu/mod.rs:863-883 | `add A,x` leaves A and F as `Alu.Sum8` says, with both carries computed |
| Cpu.Cpu.AdcFlags | gbcore/src/cpu/mod.rs:885-898 | the two-step add with carry leaves A and F as `Alu.Adc` says |
| Cpu.Cpu.AdcOp | gbcore/src/cpu/mod.rs:900-940 | `adc A,x` leaves A and F as `Alu.Adc` says |
| Cpu.Cpu.SubOp | gbcore/src/cpu/mod.rs:942-963 | `sub A,x` leaves A and F as `Alu.Sub8` says |
| Cpu.Cpu.SbcFlags | gbcore/src/cpu/mod.rs:965-978 | the two-step subtract with carry leaves A and F as `Alu.Sbc` says |
| Cpu.Cpu.SbcOp | gbcore/src/cpu/mod.rs:980-1019 | `sbc A,x` leaves A and F as `Alu.Sbc` says |
| Cpu.Cpu.CpOp | gbcore/src/cpu/mod.rs:1021-1038 | `cp x` sets the flags of A - x and leaves A unchanged |
| Cpu.Cpu.IncOp | gbcore/src/cpu/mod.rs:1040-1051 | `inc` of a register or (HL) adds 1 modulo 256, sets Z and H as `Alu.Sum8` says, clears N and leaves C alone |
| Cpu.Cpu.DecOp | gbcore/src/cpu/mod.rs:1053-1064 | `dec` of a register or (HL) subtracts 1 modulo 256, sets Z and H as `Alu.Sub8` says, sets N and leaves C alone |
| Cpu.Cpu.And8Flags | gbcore/src/cpu/mod.rs:1066-1079 | returns the AND and leaves F as `Alu.AndFlags` says |
| Cpu.Cpu.Or8Flags | gbcore/src/cpu/mod.rs:1103-1116 | returns the OR and leaves F as `Alu.OrFlags` says |
| Cpu.Cpu.Xor8Flags | gbcore/src/cpu/mod.rs:1140-1153 | returns the XOR and leaves F as `Alu.XorFlags` says |
| Cpu.Cpu.AndOp | gbcore/src/cpu/mod.rs:1081-1101 | `and A,x` leaves A and F as `Alu.AndFlags` says |
| Cpu.Cpu.OrOp | gbcore/src/cpu/mod.rs:1118-1138 | `or A,x` leaves A and F as `Alu.OrFlags` says |
| Cpu.Cpu.XorOp | gbcore/src/cpu/mod.rs:1155-1175 | `xor A,x` leaves A and F as `Alu.XorFlags` says |
| Cpu.Cpu.CcfOp | gbcore/src/cpu/mod.rs:1177-1186 | only F changes, as `Alu.Ccf` says |
| Cpu.Cpu.ScfOp | gbcore/src/cpu/mod.rs:1188-1192 | only F changes, as `Alu.Scf` says |
| Cpu.Cpu.CplOp | gbcore/src/cpu/mod.rs:1194-1198 | A and F change as `Alu.Cpl` says |
| Cpu.Cpu.DaaOp | gbcore/src/cpu/mod.rs:1818-1848 | A and F change as `Alu.Daa` says |
| Cpu.Cpu.FinishDaa | gbcore/src/cpu/mod.rs:1837-1847 | the end of `daa`: A gets the result, Z follows it and H is cleared |
| Cpu.Cpu.IncR16 | gbcore/src/cpu/mod.rs:1204-1208 | the 16-bit register is incremented modulo 0x10000; flags untouched |
| Cpu.Cpu.DecR16 | gbcore/src/cpu/mod.rs:1210-1214 | the 16-bit register is decremented modulo 0x10000; flags untouched |
| Cpu.Cpu.AddR16R16 | gbcore/src/cpu/mod.rs:1216-1236 | the destination pair and F change as `Alu.Add16` says |
| Cpu.Cpu.SignedAddFlags | gbcore/src/cpu/mod.rs:1238-1281 | returns the value and leaves F as `Alu.SignedSumFlags` says |
| Cpu.Cpu.AddR16I8 | gbcore/src/cpu/mod.rs:1283-1288 | `add SP,i8`: SP and F change as `Alu.SignedSumFlags` says and PC advances |
| Cpu.Cpu.LdR16R16I8 | gbcore/src/cpu/mod.rs:1290-1295 | `ld HL,SP+i8`: HL gets SP moved by the offset, F as `Alu.SignedSumFlags` says, and PC advances |
| Cpu.Cpu.JpU16 | gbcore/src/cpu/mod.rs:1301-1304 | PC gets the 16-bit operand |
| Cpu.Cpu.JpR16 | gbcore/src/cpu/mod.rs:1306-1308 | PC gets the pair's value |
| Cpu.Cpu.JpFU16 | gbcore/src/cpu/mod.rs:1310-1317 | when the condition holds PC gets the operand and 4 cycles are added; otherwise PC only skips the operand |
| Cpu.Cpu.JrI8 | gbcore/src/cpu/mod.rs:1327-1331 | PC moves by the signed offset from the address after the operand |
| Cpu.Cpu.JrFI8 | gbcore/src/cpu/mod.rs:1333-1341 | when the condition holds PC moves by the offset and 4 cycles are added; otherwise PC only skips the operand |
| Cpu.Cpu.CallU16 | gbcore/src/cpu/mod.rs:1343-1347 | the address after the operand is pushed and PC gets the operand |
| Cpu.Cpu.CallFU16 | gbcore/src/cpu/mod.rs:1349-1357 | when the condition holds it calls as `call` does and adds 12 cycles; otherwise memory is unchanged and PC only skips the operand |
| Cpu.Cpu.Ret | gbcore/src/cpu/mod.rs:1359-1361 | PC gets the popped word and SP moves up by two |
| Cpu.Cpu.RetF | gbcore/src/cpu/mod.rs:1363-1368 | when the condition holds it returns as `ret` does and adds 12 cycles; otherwise nothing changes |
| Cpu.Cpu.RstF8 | gbcore/src/cpu/mod.rs:1370-1374 | PC is pushed and PC gets the fixed vector |
| Cpu.Cpu.Reti | gbcore/src/cpu/mod.rs:1393-1396 | IME is enabled at once (not pending) and then it returns as `ret` does |
| Cpu.Cpu.Shift8Flags | gbcore/src/cpu/mod.rs:1464-1725 | each of the eight CB rotate/shift helpers returns the value and leaves F as the matching `Alu` function says |
| Cpu.Cpu.PutShiftFlags | gbcore/src/cpu/mod.rs:1495-1513 | the flag writes every CB rotate and shift ends with: C from the bit shifted out, Z from the result, N and H cleared |
| Cpu.Cpu.ShiftOnPlace | gbcore/src/cpu/mod.rs:1482-1738 | `rlc` ... `srl` on a register or (HL) store the rotated value back in that place and set F |
| Cpu.Cpu.TestB8Flags | gbcore/src/cpu/mod.rs:1442-1451 | only F changes, as `Alu.TestBit` says |
| Cpu.Cpu.BitOnPlace | gbcore/src/cpu/mod.rs:1453-1462 | `bit b,x` changes only F, as `Alu.TestBit` says of the register or (HL) |
| Cpu.Cpu.ResOnPlace | gbcore/src/cpu/mod.rs:1429-1440 | `res b,x` stores the value with bit b cleared back in the register or (HL) |
| Cpu.Cpu.SetOnPlace | gbcore/src/cpu/mod.rs:1412-1423 | `set b,x` stores the value with bit b set back in the register or (HL) |
| Cpu.Cpu.AccumulatorFlags | gbcore/src/cpu/mod.rs:1761-1777 | the four flag writes of an accumulator rotate (C, then Z, N and H cleared) give the flags `Alu.AccFlags` describes |
| Cpu.Cpu.ShiftedLeft | gbcore/src/cpu/mod.rs:1761-1777 | `value << 1` on a byte drops its top bit |
| Cpu.Cpu.RlcaOp | gbcore/src/cpu/mod.rs:1761-1777 | A and F change as `Alu.Rlca` says |
| Cpu.Cpu.RrcaOp | gbcore/src/cpu/mod.rs:1800-1816 | A and F change as `Alu.Rrca` says |
| Cpu.Cpu.RlaOp | gbcore/src/cpu/mod.rs:1779-1798 | A and F change as `Alu.Rla` says |
| Cpu.Cpu.RraOp | gbcore/src/cpu/mod.rs:1740-1759 | A and F change as `Alu.Rra` says |
| Rtc.InRangeBelowPeriod | gbcore/src/mmu/address_spaces/cart/rtc.rs:4-22 | counters within their ranges (seconds and minutes below 60, hours below 24, days below 512) show less than 512 days |
| Rtc.AddDays | gbcore/src/mmu/address_spaces/cart/rtc.rs:79-85 | `inc_d` (corrected): the day counter stays below 512, the day-carry flag is raised exactly when it was already set or the day counter plus the increment (taken modulo 2^16) passes 0x1FF, and nothing else changes |
| Rtc.AddHours | gbcore/src/mmu/address_spaces/cart/rtc.rs:73-77 | `inc_h`: hours stay below 24 and only the hours, days and carry change |
| Rtc.AddMinutes | gbcore/src/mmu/address_spaces/cart/rtc.rs:67-71 | `inc_m`: minutes stay below 60 and only minutes, hours, days and carry change |
| Rtc.AddSeconds | gbcore/src/mmu/address_spaces/cart/rtc.rs:61-65 | `inc_s`: every counter ends in range and only the counters and the carry change |
| Rtc.CarriesTelescope | gbcore/src/mmu/address_spaces/cart/rtc.rs:61-77 | carrying through 60 seconds, 60 minutes and 24 hours loses no time |
| Rtc.AddSecondsDigits | gbcore/src/mmu/address_spaces/cart/rtc.rs:61-85 | after `inc_s` each counter holds its digit of the sum in the mixed base 60/60/24, the days wrapping at 512 |
| Rtc.WrapDays | gbcore/src/mmu/address_spaces/cart/rtc.rs:79-85 | splitting a time at 512 days: the wrapped day count is the time modulo 512 days, and a wrap happens iff the time reaches 512 days |
| Rtc.AddSecondsKeepsTime | gbcore/src/mmu/address_spaces/cart/rtc.rs:61-85 | adding `inc` seconds advances the clock by `inc` seconds modulo 512 days, and the day carry is raised exactly when the sum reaches 512 days (as long as the carried days fit the 16-bit counter) |
| Rtc.DigitsKeepTime | gbcore/src/mmu/address_spaces/cart/rtc.rs:61-85 | counters holding the mixed-base digits of a sum show that sum modulo 512 days, with the carry raised iff it reached 512 days |
| Rtc.DayWrapAsWrittenIsOneDayAhead | gbcore/src/mmu/address_spaces/cart/rtc.rs:79-85 | at day 511, 23:59:59 one more second should read day 0, 00:00:00; the `%= 0x1FF` as written gives day 1, a whole day ahead |
| Rtc.Updated | gbcore/src/mmu/address_spaces/cart/rtc.rs:44-55 | `update_timer`: a halted clock is unchanged; a running one is brought up to `now` |
| Rtc.UpdatedKeepsTime | gbcore/src/mmu/address_spaces/cart/rtc.rs:44-55 | after `update_timer` a running clock shows the old time plus the seconds elapsed, modulo 512 days, with its counters in range |
| Rtc.UpdatedIdempotent | gbcore/src/mmu/address_spaces/cart/rtc.rs:44-55 | a second `update_timer` at the same instant changes nothing |
| Rtc.LatchedDh | gbcore/src/mmu/address_spaces/cart/rtc.rs:101-104 | latched DH: bit 0 is bit 8 of the day counter, bit 6 the halt flag and bit 7 the day carry; the ORs touch disjoint bits, so they add |
| Rtc.DhFields | gbcore/src/mmu/address_spaces/cart/rtc.rs:102-104 | the fields of a DH byte read back: bit 0, bit 6 (halt) and bit 7 (carry) |
| Rtc.DhMaskSplit | gbcore/src/mmu/address_spaces/cart/rtc.rs:159 | `value & 0b11000001` keeps bits 7, 6 and 0 of the value |
| Rtc.OrHighBits | gbcore/src/mmu/address_spaces/cart/rtc.rs:98-100 | `0b11000000 \| x` and `0b11100000 \| x` add the mask when x is below it |
| Rtc.Latch | gbcore/src/mmu/address_spaces/cart/rtc.rs:96-105 | `latch_registers` updates the timer and then only the five latched registers change |
| Rtc.CopiedShowsCounters | gbcore/src/mmu/address_spaces/cart/rtc.rs:98-104 | the latched copies spell out in-range counters: clearing the high bits gives seconds, minutes and hours back, the day counter is split over DL and bit 0 of DH, and bits 6 and 7 of DH are the halt and carry flags |
| Rtc.CopiedShowsTime | gbcore/src/mmu/address_spaces/cart/rtc.rs:98-100 | the seconds, minutes and hours copies are the counters with their unused bits set |
| Rtc.CopiedShowsDays | gbcore/src/mmu/address_spaces/cart/rtc.rs:101-104 | DL and bits 0, 6 and 7 of DH hold the day counter and the two flags |
| Rtc.LatchShowsCounters | gbcore/src/mmu/address_spaces/cart/rtc.rs:96-105 | latching a clock whose counters are in range shows the updated counters |
| Rtc.LatchWrite | gbcore/src/mmu/address_spaces/cart/rtc.rs:87-94 | `update_latch_state`: the latch is armed by a write of 0 and stays armed until a write of 1, which disarms it and latches; no other write changes anything else |
| Rtc.ZeroThenOneLatches | gbcore/src/mmu/address_spaces/cart/rtc.rs:87-105 | writing 0 then 1 to the latch register latches the counters and disarms the latch |
| Rtc.Read | gbcore/src/mmu/address_spaces/cart/rtc.rs:107-116 | `read`: registers 0x08 to 0x0C give the latched copies and any other register reads 0 |
| Rtc.DhWritten | gbcore/src/mmu/address_spaces/cart/rtc.rs:157-167 | `write_dh` (corrected): keeps bits 7, 6 and 0; bit 6 halts the timer, bit 7 is the day carry, bit 0 becomes bit 8 of the day counter and its low byte is kept |
| Rtc.Written | gbcore/src/mmu/address_spaces/cart/rtc.rs:118-155 | `write`: 0x08/0x09 set seconds/minutes to the value's low 6 bits, 0x0A the hours to its low 5 bits, 0x0B the day low byte; other registers except 0x0C and 0x0D change nothing |
| Rtc.WriteThenRead | gbcore/src/mmu/address_spaces/cart/rtc.rs:118-155 | a counter written through 0x08-0x0B reads back masked, with its unused bits set |
| Rtc.WriteDhThenLatch | gbcore/src/mmu/address_spaces/cart/rtc.rs:157-167 | bits 7, 6 and 0 written to DH come back on the next latch, provided the clock does not advance in between |
| Rtc.DayCarryMaskAsWritten | gbcore/src/mmu/address_spaces/cart/rtc.rs:161 | writing DH = 0x80 should raise the day carry and DH = 0x40 should not; mask 0x60 as written gets both wrong, so a carry written is lost on the next latch |
| Rtc.Encode | gbcore/src/mmu/address_spaces/cart/rtc.rs:203-238 | `serialize` produces a 21-byte record |
| Rtc.Deserialize | gbcore/src/mmu/address_spaces/cart/rtc.rs:169-201 | `deserialize` resumes the clock at the saved instant and rebuilds the day counter from bytes 3 and 4 |
| Rtc.Bytes64 | gbcore/src/mmu/address_spaces/cart/rtc.rs:222-229 | a u64 is the sum of its eight bytes, each in its place |
| Rtc.UnixOfEncode | gbcore/src/mmu/address_spaces/cart/rtc.rs:171-178 | the eight stored bytes of the last update rebuild it |
| Rtc.DeserializeEncode | gbcore/src/mmu/address_spaces/cart/rtc.rs:169-238 | saving and then restoring gives the clock back, resumed at its last update |
| Rtc.UnixDigits | gbcore/src/mmu/address_spaces/cart/rtc.rs:171-178 | each stored byte of the last update is recovered from the u64 it makes |
| Rtc.EncodeDeserialize | gbcore/src/mmu/address_spaces/cart/rtc.rs:169-238 | restoring and then saving gives back any 21-byte record whose flag bytes are 0 or 1 |
| Rtc.Clock.constructor | gbcore/src/mmu/address_spaces/cart/rtc.rs:25-42 | `new`: every counter, copy and flag zero, both instants at the epoch |
| Rtc.Clock.Restore | gbcore/src/mmu/address_spaces/cart/rtc.rs:169-201 | restoring from a record gives the state `Deserialize` describes |
| Rtc.Clock.UpdateTimer | gbcore/src/mmu/address_spaces/cart/rtc.rs:44-55 | the in-place `update_timer` leaves the state `Updated` describes |
| Rtc.Clock.UpdateNow | gbcore/src/mmu/address_spaces/cart/rtc.rs:57-59 | only `now` changes, to the given seconds since the epoch |
| Rtc.Clock.IncS | gbcore/src/mmu/address_spaces/cart/rtc.rs:61-65 | the in-place `inc_s` leaves the state `AddSeconds` describes |
| Rtc.Clock.IncM | gbcore/src/mmu/address_spaces/cart/rtc.rs:67-71 | the in-place `inc_m` leaves the state `AddMinutes` describes |
| Rtc.Clock.IncH | gbcore/src/mmu/address_spaces/cart/rtc.rs:73-77 | the in-place `inc_h` leaves the state `AddHours` describes |
| Rtc.Clock.IncD | gbcore/src/mmu/address_spaces/cart/rtc.rs:79-85 | the in-place `inc_d` (corrected) leaves the state `AddDays` describes |
| Rtc.Clock.UpdateLatchState | gbcore/src/mmu/address_spaces/cart/rtc.rs:87-94 | the in-place `update_latch_state` leaves the state `LatchWrite` describes |
| Rtc.Clock.LatchRegisters | gbcore/src/mmu/address_spaces/cart/rtc.rs:96-105 | the in-place `latch_registers` leaves the state `Latch` describes |
| Rtc.Clock.CopyCounters | gbcore/src/mmu/address_spaces/cart/rtc.rs:98-104 | the five copies of `latch_registers` leave the state `Copied` describes |
| Rtc.Clock.CopySeconds | gbcore/src/mmu/address_spaces/cart/rtc.rs:98 | only the latched seconds change, to the seconds with bits 6 and 7 set |
| Rtc.Clock.CopyMinutes | gbcore/src/mmu/address_spaces/cart/rtc.rs:99 | only the latched minutes change, to the minutes with bits 6 and 7 set |
| Rtc.Clock.CopyHours | gbcore/src/mmu/address_spaces/cart/rtc.rs:100 | only the latched hours change, to the hours with bits 5 to 7 set |
| Rtc.Clock.CopyDays | gbcore/src/mmu/address_spaces/cart/rtc.rs:101-104 | only the latched DL and DH change |
| Rtc.Clock.Write | gbcore/src/mmu/address_spaces/cart/rtc.rs:118-128 | the in-place `write` leaves the state `Written` describes |
| Rtc.Clock.WriteS | gbcore/src/mmu/address_spaces/cart/rtc.rs:130-135 | `write_s` leaves the state `Written` describes for register 0x08 |
| Rtc.Clock.WriteM | gbcore/src/mmu/address_spaces/cart/rtc.rs:137-142 | `write_m` leaves the state `Written` describes for register 0x09 |
| Rtc.Clock.WriteH | gbcore/src/mmu/address_spaces/cart/rtc.rs:144-149 | `write_h` leaves the state `Written` describes for register 0x0A |
| Rtc.Clock.WriteDl | gbcore/src/mmu/address_spaces/cart/rtc.rs:151-155 | `write_dl` leaves the state `Written` describes for register 0x0B |
| Rtc.Clock.WriteDh | gbcore/src/mmu/address_spaces/cart/rtc.rs:157-167 | `write_dh` (corrected) leaves the state `Written` describes for register 0x0C |
| Rtc.Clock.Serialize | gbcore/src/mmu/address_spaces/cart/rtc.rs:203-238 | the 21 bytes `serialize` fills in are the record `Encode` describes |
| Banking.UpperBank | gbcore/src/mmu/address_spaces/cart/mbc.rs:27 | `(s2 << 5) \| s1` in a byte: with s1 below 32 it is bank 32 * (s2 mod 8) + s1 |
| Banking.Read | gbcore/src/mmu/address_spaces/cart/mbc.rs:17-41 | `read`: RAM offsets and the controller's own answer only come from an MBC1 in 0xA000-0xBFFF; ROM offsets only from 0x0000-0x7FFF, or any address without a controller |
| Banking.SelectLow | gbcore/src/mmu/address_spaces/cart/mbc.rs:51-58 | the bank register a write to 0x2000-0x3FFF sets (corrected): always 1 to 31, the low five bits of the value when they are not zero |
| Banking.Written | gbcore/src/mmu/address_spaces/cart/mbc.rs:43-78 | `write`: without a controller nothing happens; register writes below 0x8000 reach no memory, writes above leave the registers alone, and an MBC1 stays an MBC1 |
| Banking.BankSelectWrite | gbcore/src/mmu/address_spaces/cart/mbc.rs:26-58 | after a write to 0x2000-0x3FFF an upper-area read is bank 32 * s2 + SelectLow(b) at offset a - 0x4000, while lower-area and RAM reads are unchanged |
| Banking.RamEnableWrite | gbcore/src/mmu/address_spaces/cart/mbc.rs:30-50 | after a write to 0x0000-0x1FFF a 0xA000-0xBFFF read reaches RAM exactly when the value's low nibble is 0xA, otherwise the controller answers 0xFF; ROM reads are unchanged |
| Banking.WrittenKeepsValid | gbcore/src/mmu/address_spaces/cart/mbc.rs:43-78 | writes keep the low bank register in 1-31 and the high one in 0-3 |
| Banking.UpperAreaBank | gbcore/src/mmu/address_spaces/cart/mbc.rs:26-29 | a 0x4000-0x7FFF read is bank 32 * s2 + s1 at offset add - 0x4000, and that bank is never a multiple of 32 |
| Banking.LowerAreaBank | gbcore/src/mmu/address_spaces/cart/mbc.rs:21-25 | a 0x0000-0x3FFF read is bank 0, or bank s2 in mode 1, at offset add |
| Banking.RamAreaAgrees | gbcore/src/mmu/address_spaces/cart/mbc.rs:30-73 | in 0xA000-0xBFFF reads and writes reach the same RAM offset, bank 0 or bank s2 in mode 1, when RAM is enabled; when disabled a read answers 0xFF and a write goes nowhere |
| Banking.NoMbcIsPlainRom | gbcore/src/mmu/address_spaces/cart/mbc.rs:19-45 | without a controller a read is the ROM at the address itself and a write goes nowhere |
| Banking.ZeroBankAsWritten | gbcore/src/mmu/address_spaces/cart/mbc.rs:52-56 | writing 0x20 leaves bank register 0 as written, so 0x4000 shows bank 0; the intended bank 1 is shown by the corrected selection |
| Banking.Controller.constructor | gbcore/src/mmu/address_spaces/cart/mbc.rs:11-14 | a controller holds the given state |
| Banking.Controller.Write | gbcore/src/mmu/address_spaces/cart/mbc.rs:43-78 | the in-place `write` leaves the state and gives the result `Written` describes |
| Cartridge.HexDigit | gbcore/src/mmu/address_spaces/cart/mod.rs:28 | a hexadecimal digit of `{:X}` is 0-9 or A-F |
| Cartridge.Hex | gbcore/src/mmu/address_spaces/cart/mod.rs:28 | `{:#02X}` of a byte: "0x" and then one digit below 16, two otherwise |
| Cartridge.GetMbc | gbcore/src/mmu/address_spaces/cart/mod.rs:24-30 | `get_mbc`: types 0-3 are accepted and no others; type 0 has no controller, 1-3 an MBC1 with RAM disabled, bank 1, high bits 0 and mode 0; the error names the type |
| Cartridge.Loaded | gbcore/src/mmu/address_spaces/cart/mod.rs:32-42 | `from_file` after reading the file: succeeds iff the type byte at 0x147 is at most 3, keeps the image, parses the header and allocates zeroed RAM of the header's size, with the controller in range |
| Cartridge.ReadAt | gbcore/src/mmu/address_spaces/cart/mod.rs:56-63 | `read` (corrected): unmapped addresses read 0, and a RAM read on a cartridge without RAM reads 0xFF |
| Cartridge.WriteAt | gbcore/src/mmu/address_spaces/cart/mod.rs:46-55 | `write`: the image and header are kept, the controller takes the write, the RAM keeps its length and changes only on a RAM result |
| Cartridge.RamSizedCanWrite | gbcore/src/mmu/address_spaces/cart/mod.rs:46-55 | RAM allocated at the header's size takes every write without indexing outside it |
| Cartridge.CompleteCartCanRead | gbcore/src/mmu/address_spaces/cart/mod.rs:56-63 | an image holding every declared bank and RAM of the header's size can be read at any address |
| Cartridge.WriteKeepsRamSized | gbcore/src/mmu/address_spaces/cart/mod.rs:46-55 | a write keeps the RAM at the header's size |
| Cartridge.WriteThenReadRam | gbcore/src/mmu/address_spaces/cart/mod.rs:46-63 | with RAM enabled a byte written into 0xA000-0xBFFF reads back from the same address |
| Cartridge.WriteKeepsOtherRam | gbcore/src/mmu/address_spaces/cart/mod.rs:46-63 | a RAM write leaves every RAM address that maps to another cell unchanged |
| Cartridge.RegisterWriteKeepsRam | gbcore/src/mmu/address_spaces/cart/mod.rs:46-55 | writes outside 0xA000-0xBFFF leave the RAM as it was |
| Cartridge.LowerAreaReadsRom | gbcore/src/mmu/address_spaces/cart/mod.rs:56-63 | in mode 0, 0x0000-0x3FFF reads the first 16 KiB of the image |
| Cartridge.LoadedRamDisabled | gbcore/src/mmu/address_spaces/cart/mod.rs:32-63 | a freshly loaded MBC1 cartridge reads 0xFF in its RAM area, since RAM starts disabled |
| Cartridge.NoRamReadAsWritten | gbcore/src/mmu/address_spaces/cart/mod.rs:59 | an MBC1 cartridge without RAM that enables RAM and reads 0xA000 indexes an empty vector as written; the corrected read gives 0xFF, as the write path's guard on line 49 intends |
| Cartridge.Cart.constructor | gbcore/src/mmu/address_spaces/cart/mod.rs:16-21 | a cartridge holds the given image, RAM buffer, header and controller |
| Cartridge.Cart.FromFile | gbcore/src/mmu/address_spaces/cart/mod.rs:32-42 | the in-place `from_file` succeeds exactly when `Loaded` does, with the same error, and builds fresh RAM and controller in the state `Loaded` describes |
| Cartridge.Cart.Read | gbcore/src/mmu/address_spaces/cart/mod.rs:56-63 | reading the object gives what `ReadAt` gives on its state |
| Cartridge.Cart.Write | gbcore/src/mmu/address_spaces/cart/mod.rs:46-55 | the in-place `write` leaves the state `WriteAt` describes |
| CartHeader.AsciiLength | gbcore/src/mmu/address_spaces/cart/header.rs:18-24 | the length of the leading run of bytes that are UTF-8 on their own (ASCII): every byte before it is ASCII and the one at it is not |
| CartHeader.AsciiLengthUnique | gbcore/src/mmu/address_spaces/cart/header.rs:18-24 | that run is the only prefix that is all ASCII and stops at a non-ASCII byte or the end |
| CartHeader.Title | gbcore/src/mmu/address_spaces/cart/header.rs:15-24 | the title is at most 16 characters, each the ASCII byte at 0x134 + i, and stops early only at a byte that is not ASCII |
| CartHeader.New | gbcore/src/mmu/address_spaces/cart/header.rs:14-32 | `new`: the title loop builds exactly `Title`, and the type and the two size codes are the bytes at 0x147, 0x148 and 0x149 |
| CartHeader.RomBanksDouble | gbcore/src/mmu/address_spaces/cart/header.rs:34-47 | `get_rom_banks` (corrected): code n gives 2 << n banks and 32 KiB << n bytes up to code 8, and 0 for unknown codes |
| CartHeader.RamBanks | gbcore/src/mmu/address_spaces/cart/header.rs:49-58 | `get_ram_banks`: no banks exactly for codes 0, 1 and above 5 |
| CartHeader.RamSizeBytes | gbcore/src/mmu/address_spaces/cart/header.rs:64-70 | `get_ram_size_bytes`: 512 for types 5 and 6, otherwise whole 8 KiB banks, as many as `get_ram_banks` gives |
| CartHeader.RomSizeBytes | gbcore/src/mmu/address_spaces/cart/header.rs:72-74 | `get_rom_size_bytes`: whole 16 KiB banks, as many as `get_rom_banks` gives |
| CartHeader.RamAddress | gbcore/src/mmu/address_spaces/cart/header.rs:76-82 | `get_ram_address`: with banks, an address congruent to the given one inside the RAM, the address itself when already inside; without banks 0 |
| CartHeader.RomAddress | gbcore/src/mmu/address_spaces/cart/header.rs:84-86 | `get_rom_address`: for a known size code, an address congruent to the given one inside the ROM, the address itself when already inside |
| CartHeader.RamAddressInside | gbcore/src/mmu/address_spaces/cart/header.rs:76-82 | whenever there is RAM, the wrapped address falls inside it |
| CartHeader.RomBanksAsWrittenMisread | gbcore/src/mmu/address_spaces/cart/header.rs:41-44 | as written code 5 (1 MiB, 64 banks) reads as 512 banks, so bank 65 is not wrapped and lies past the end of the image, and code 6 (128 banks) reads as 64; the corrected table wraps bank 65 to bank 1 |
| CartHeader.HasBattery | gbcore/src/mmu/address_spaces/cart/header.rs:60-62 | `has_battery` (with the type list at line 4) holds exactly for cartridge types 0x03, 0x06, 0x0F, 0x10 and 0x13; of the two built-in-RAM types only 0x06 has one |
| Mmu.DmaSource | gbcore/src/mmu/mod.rs:41-43 | `(dma << 8) \| i` is the address dma * 0x100 + i |
| Mmu.DmaDestination | gbcore/src/mmu/mod.rs:44 | `0xFE00 \| i` is OAM byte i |
| Mmu.DmaCopied | gbcore/src/mmu/mod.rs:40-47 | `dma_run`: OAM byte i becomes the byte read at `(dma << 8) \| i` for i up to 0x9F, every block keeping its size |
| Mmu.Written | gbcore/src/mmu/mod.rs:51-69 | `write` routes each address to its owner and keeps every block at its size |
| Mmu.EchoMirrorsWram | gbcore/src/mmu/mod.rs:57-58 | echo RAM 0xE000-0xFDFF reads and writes the work-RAM byte 0x2000 below it |
| Mmu.UnusableIgnored | gbcore/src/mmu/mod.rs:60-80 | 0xFEA0-0xFEFF drops writes and reads 0 |
| Mmu.PlainWriteThenRead | gbcore/src/mmu/mod.rs:51-86 | a byte written to video, work, OAM or high RAM reads back at its address and at its echo, and every other address reads as before |
| Mmu.IeWriteThenRead | gbcore/src/mmu/mod.rs:67-84 | 0xFFFF is the IE register: a write replaces it, a read returns it, nothing else changes |
| Mmu.DmaWriteThenRead | gbcore/src/mmu/mod.rs:62-65 | writing b to 0xFF46 stores it (read back at 0xFF46), fills OAM byte i with the byte at `DmaSource(b, i)`, that is b * 0x100 + i, and changes nothing outside OAM and the DMA register |
| Mmu.DmaCopiedReads | gbcore/src/mmu/mod.rs:40-47 | after the copy OAM byte i reads what the source byte read before, and 0xFF46 reads the DMA register |
| Mmu.OamRead | gbcore/src/mmu/mod.rs:79 | 0xFE00 + i reads OAM byte i |
| Mmu.DmaRegisterRead | gbcore/src/mmu/mod.rs:82 | 0xFF46 reads the DMA register |
| Mmu.DmaWritten | gbcore/src/mmu/mod.rs:62-65 | a write to 0xFF46 is storing the register and then the copy |
| Mmu.Routing | gbcore/src/mmu/mod.rs:51-69 | cartridge addresses change only the cartridge and I/O addresses only the I/O page; no other write touches either |
| Mmu.DmaSourceInOam | gbcore/src/mmu/mod.rs:41-45 | the copy reads from OAM only when DMA is 0xFE, and then it reads the byte it is about to overwrite |
| Mmu.ReadIgnoresOtherOam | gbcore/src/mmu/mod.rs:71-86 | a read does not depend on OAM bytes other than the one it addresses |
| Mmu.CopiedByte | gbcore/src/mmu/mod.rs:42-46 | part way through the copy, the source byte for OAM byte i (not yet written) is the one the whole copy puts there, so the loop's earlier writes do not disturb its reads |
| Mmu.Mmu.constructor | gbcore/src/mmu/mod.rs:23-38 | `new` given the cartridge: video, work, OAM and high RAM zero, the I/O page at its start values, DMA and IE 0 |
| Mmu.Mmu.New | gbcore/src/mmu/mod.rs:23-38 | `new` succeeds exactly when the cartridge loads, with the loaded cartridge, IE 0 and DMA 0 |
| Mmu.Mmu.Read | gbcore/src/mmu/mod.rs:71-86 | reading the object gives what the routed `read` gives on its state |
| Mmu.Mmu.DmaRun | gbcore/src/mmu/mod.rs:40-47 | the in-place copy loop leaves the state `DmaCopied` describes |
| Mmu.Mmu.CopyByte | gbcore/src/mmu/mod.rs:43-45 | one turn of the loop extends the copied prefix of OAM by byte i and changes nothing else |
| Mmu.Mmu.Write | gbcore/src/mmu/mod.rs:51-69 | the in-place `write` leaves the state `Written` describes |
| Mmu.Mmu.WriteCart | gbcore/src/mmu/mod.rs:53-56 | a cartridge write changes only the cartridge, as `WriteAt` describes |
| Mmu.Mmu.WriteVram | gbcore/src/mmu/mod.rs:55 | a video-RAM write changes only byte location - 0x8000 of video RAM |
| Mmu.Mmu.WriteWram | gbcore/src/mmu/mod.rs:57-58 | a work-RAM write changes only byte location - 0xC000 of work RAM |
| Mmu.Mmu.WriteOam | gbcore/src/mmu/mod.rs:59 | an OAM write changes only byte location - 0xFE00 of OAM |
| Mmu.Mmu.WriteHram | gbcore/src/mmu/mod.rs:66 | a high-RAM write changes only byte location - 0xFF80 of high RAM |
| Mmu.Mmu.WriteIo | gbcore/src/mmu/mod.rs:61 | an I/O write changes only the I/O page, as `Io.Written` describes |
| Mmu.Mmu.WriteDma | gbcore/src/mmu/mod.rs:62-65 | a DMA write stores the register and leaves the state `DmaCopied` describes |
| Oam.FlagBits | gbcore/src/mmu/address_spaces/oam.rs:31-40 | a sprite's position and tile are its first three bytes, and priority, y-flip, x-flip and palette are bits 7, 6, 5 and 4 of its fourth |
| Oam.FlagsByte | gbcore/src/mmu/address_spaces/oam.rs:36-39 | the flags byte that stores a sprite's flags leaves bits 3-0 clear |
| Oam.FlagsByteBits | gbcore/src/mmu/address_spaces/oam.rs:36-39 | bits 7-4 of that byte are the four flags, in order |
| Oam.DecodeEncoded | gbcore/src/mmu/address_spaces/oam.rs:27-41 | decoding the four bytes a sprite is stored as gives the sprite back |
| Oam.Placed | gbcore/src/mmu/address_spaces/oam.rs:49-52 | storing a sprite's four bytes keeps OAM at 0xA0 bytes |
| Oam.PlacedThenRead | gbcore/src/mmu/address_spaces/oam.rs:27-52 | a sprite stored at an id is read back by `get_sprite`, and the other 39 sprites are untouched |
| Oam.Oam.constructor | gbcore/src/mmu/address_spaces/oam.rs:21-25 | `new`: a fresh, zeroed block at 0xFE00-0xFE9F |
| Oam.Oam.GetSprite | gbcore/src/mmu/address_spaces/oam.rs:27-41 | `get_sprite` for ids up to 39 reads sprite `id` from bytes 4 * id to 4 * id + 3 |
| Oam.Oam.FakeRead | gbcore/src/mmu/address_spaces/oam.rs:43-45 | `fake_read` gives the same byte as `read`, the stored byte at location - 0xFE00 |
| Oam.Oam.Write | gbcore/src/mmu/address_spaces/oam.rs:49-52 | a write changes only byte location - 0xFE00 |
| Oam.Oam.Read | gbcore/src/mmu/address_spaces/oam.rs:54-56 | a read of 0xFE00-0xFE9F is sprite-table byte `location - 0xFE00` |
| Io.BitOf | gbcore/src/mmu/address_spaces/io/mod.rs:43-61 | each of the five interrupts owns one of IF bits 0-4 |
| Io.Requested | gbcore/src/mmu/address_spaces/io/mod.rs:43-61 | `request_*_interrupt` changes only IF |
| Io.PendingIsBit | gbcore/src/mmu/address_spaces/io/mod.rs:63-81 | `get_*_interrupt` is true exactly when that interrupt's IF bit is set |
| Io.RequestThenPending | gbcore/src/mmu/address_spaces/io/mod.rs:43-81 | a request makes its own interrupt pending, leaves every other interrupt's pending state and IF bits 7-5 as they were |
| Io.TestTaken | gbcore/src/mmu/address_spaces/io/mod.rs:37-41 | `get_test` hands over the captured text and leaves it empty, nothing else changed |
| Io.Written | gbcore/src/mmu/address_spaces/io/mod.rs:85-107 | `write` routes each I/O address to its owner and keeps the plain blocks at their sizes |
| Io.UnmappedIgnored | gbcore/src/mmu/address_spaces/io/mod.rs:98-115 | 0xFF03 and 0xFF08-0xFF0E drop writes and read 0 |
| Io.WriteThenRead | gbcore/src/mmu/address_spaces/io/mod.rs:85-119 | a byte written to 0xFF01, IF, 0xFF10-0xFF3F or 0xFF4C-0xFF7F reads back |
| Io.SerialCapture | gbcore/src/mmu/address_spaces/io/mod.rs:89-93 | 0x81 at 0xFF02 captures the byte at 0xFF01 as a one-character text, clears 0xFF02 and keeps 0xFF01 |
| Io.SerialControlStored | gbcore/src/mmu/address_spaces/io/mod.rs:94-96 | any other byte at 0xFF02 is stored, reads back and captures nothing |
| Io.Io.ValidIsWellSized | gbcore/src/mmu/address_spaces/io/mod.rs:12-21 | the object's three plain blocks have the sizes of their ranges |
| Io.Io.constructor | gbcore/src/mmu/address_spaces/io/mod.rs:24-35 | `new`: fresh parts, IF 0xE1, empty text, every register at its start value |
| Io.Io.GetTest | gbcore/src/mmu/address_spaces/io/mod.rs:37-41 | the in-place `get_test` returns and clears the text as `TestTaken` describes |
| Io.Io.RequestInterrupt | gbcore/src/mmu/address_spaces/io/mod.rs:43-61 | the in-place request leaves the state `Requested` describes |
| Io.Io.Write | gbcore/src/mmu/address_spaces/io/mod.rs:85-107 | the in-place `write` leaves the state `Written` describes |
| Io.Io.GetInterrupt | gbcore/src/mmu/address_spaces/io/mod.rs:63-81 | `get_*_interrupt` is `Pending` of the state: true exactly when the interrupt's IF bit is set |
| Io.Io.Read | gbcore/src/mmu/address_spaces/io/mod.rs:109-122 | the in-place `read`, delegating to the joypad, timers, LCD and plain blocks, answers every readable I/O location as `RegisterValue` does |
| Joypad.LineUpdate | gbcore/src/mmu/address_spaces/io/joypad.rs:60-69 | a line is 0 exactly when pulled low, and it signals a fall exactly when it was 1 and is pulled low |
| Joypad.Computed | gbcore/src/mmu/address_spaces/io/joypad.rs:59-98 | `compute_value`: keys and selection are kept; each line is 0 exactly when a selected key wired to it is held (P13 down/start, P12 up/select, P11 left/B, P10 right/A), and 1 otherwise |
| Joypad.InterruptOnlyOnFall | gbcore/src/mmu/address_spaces/io/joypad.rs:59-98 | the interrupt is never lowered here and is newly raised only when some line falls from 1 to 0, and always when P13 does |
| Joypad.ComputedIdempotent | gbcore/src/mmu/address_spaces/io/joypad.rs:59-98 | recomputing with the same keys and selection changes nothing more |
| Joypad.StateSet | gbcore/src/mmu/address_spaces/io/joypad.rs:48-51 | `set_state` installs the given keys |
| Joypad.WriteSelects | gbcore/src/mmu/address_spaces/io/joypad.rs:102-106 | a write selects the action buttons when bit 5 is clear and the direction keys when bit 4 is clear |
| Joypad.ReadIsLines | gbcore/src/mmu/address_spaces/io/joypad.rs:108-110 | with 0/1 lines the read value is the four lines as a nibble, P13 highest |
| Joypad.DirectionsRead | gbcore/src/mmu/address_spaces/io/joypad.rs:59-110 | with only directions selected P1 reads the complement of down, up, left, right |
| Joypad.ActionsRead | gbcore/src/mmu/address_spaces/io/joypad.rs:59-110 | with only actions selected P1 reads the complement of start, select, B, A |
| Joypad.NothingSelectedReadsHigh | gbcore/src/mmu/address_spaces/io/joypad.rs:59-110 | with nothing selected every line reads 1 and the interrupt flag is unchanged |
| Joypad.Purged | gbcore/src/mmu/address_spaces/io/joypad.rs:53-57 | `purge_interrupt` reports the flag and clears it, nothing else changed |
| Joypad.Joypad.constructor | gbcore/src/mmu/address_spaces/io/joypad.rs:26-46 | `new`: nothing held, nothing selected, all lines 0, no interrupt |
| Joypad.Joypad.SetState | gbcore/src/mmu/address_spaces/io/joypad.rs:48-51 | the in-place `set_state` leaves the state `StateSet` describes |
| Joypad.Joypad.PurgeInterrupt | gbcore/src/mmu/address_spaces/io/joypad.rs:53-57 | the in-place `purge_interrupt` returns and clears as `Purged` describes |
| Joypad.Joypad.ComputeValue | gbcore/src/mmu/address_spaces/io/joypad.rs:59-98 | the in-place `compute_value` leaves the state `Computed` describes |
| Joypad.Joypad.ComputeP13 | gbcore/src/mmu/address_spaces/io/joypad.rs:60-69 | the P13 step updates P13 and the interrupt as `LineUpdate` says |
| Joypad.Joypad.ComputeP12 | gbcore/src/mmu/address_spaces/io/joypad.rs:71-79 | the P12 step updates P12 and the interrupt as `LineUpdate` says |
| Joypad.Joypad.ComputeP11 | gbcore/src/mmu/address_spaces/io/joypad.rs:81-88 | the P11 step updates P11 and the interrupt as `LineUpdate` says |
| Joypad.Joypad.ComputeP10 | gbcore/src/mmu/address_spaces/io/joypad.rs:90-97 | the P10 step updates P10 and the interrupt as `LineUpdate` says |
| Joypad.Joypad.Write | gbcore/src/mmu/address_spaces/io/joypad.rs:102-106 | the in-place `write` selects the groups and recomputes the lines, as `Written` describes |
| Joypad.Joypad.Read | gbcore/src/mmu/address_spaces/io/joypad.rs:108-110 | the in-place `read` is `ReadValue` of the state; with 0/1 lines it is the nibble 8 * P13 + 4 * P12 + 2 * P11 + P10 |
| Timers.SysclkTicked | gbcore/src/mmu/address_spaces/io/timers.rs:24-26 | `inc_sysclk`: the system clock goes up by one modulo 2^16 and nothing else changes |
| Timers.TimaTicked | gbcore/src/mmu/address_spaces/io/timers.rs:28-36 | `inc_tima`: overflow is reported exactly at 0xFF, which reloads TIMA from TMA; otherwise TIMA goes up by one; nothing else changes |
| Timers.TimaCountsUp | gbcore/src/mmu/address_spaces/io/timers.rs:28-36 | n increments take TIMA up by n, and the last one overflows (reloading TMA) exactly when n reaches 0x100 - TIMA |
| Timers.TimaClock | gbcore/src/mmu/address_spaces/io/timers.rs:38-46 | `get_tima_clock`: TAC bits 1-0 select a period of 2^(4 + 2 * ((tac + 3) mod 4)) clocks: 16, 64, 256 or 1024 |
| Timers.TimaEnabledIsBit2 | gbcore/src/mmu/address_spaces/io/timers.rs:48-50 | `get_tima_enabled` is TAC bit 2 |
| Timers.RegisterValue | gbcore/src/mmu/address_spaces/io/timers.rs:63-71 | DIV (0xFF04) is the high byte of the system clock |
| Timers.Written | gbcore/src/mmu/address_spaces/io/timers.rs:54-62 | any write to DIV clears the whole system clock and nothing else |
| Timers.WriteThenRead | gbcore/src/mmu/address_spaces/io/timers.rs:54-71 | DIV reads 0 after any write, TIMA, TMA and TAC read back the byte written, and the other registers keep their values |
| Timers.Timers.constructor | gbcore/src/mmu/address_spaces/io/timers.rs:11-18 | `new`: system clock 0x00AB, TIMA and TMA 0, TAC 0xF8 |
| Timers.Timers.IncSysclk | gbcore/src/mmu/address_spaces/io/timers.rs:24-26 | the in-place `inc_sysclk` leaves the state `SysclkTicked` describes |
| Timers.Timers.IncTima | gbcore/src/mmu/address_spaces/io/timers.rs:28-36 | the in-place `inc_tima` leaves the state and reports the overflow `TimaTicked` describes |
| Timers.Timers.Write | gbcore/src/mmu/address_spaces/io/timers.rs:54-62 | the in-place `write` leaves the state `Written` describes |
| Timers.Timers.Read | gbcore/src/mmu/address_spaces/io/timers.rs:63-71 | the in-place `read` answers as `RegisterValue` does; DIV is the high byte of the system clock (DIV * 256 <= clock < (DIV + 1) * 256) |
| Lcd.ControlBits | gbcore/src/mmu/address_spaces/io/lcd.rs:34-119 | each LCDC and STAT getter reads one bit: LCDC bits 7 to 0 give display, window map, window, tile data, background map, sprite size, sprites and background; STAT bits 6 to 3 the four interrupt sources |
| Lcd.CoincidenceUpdated | gbcore/src/mmu/address_spaces/io/lcd.rs:121-127 | `update_coincidence_flag`: STAT bit 2 is set exactly when LY equals LYC, its other bits and the other registers are kept |
| Lcd.LySet | gbcore/src/mmu/address_spaces/io/lcd.rs:46-49 | `set_ly` sets LY and leaves the coincidence bit right |
| Lcd.WrappingAdd | gbcore/src/mmu/address_spaces/io/lcd.rs:52 | `u8::wrapping_add` is the sum modulo 256 |
| Lcd.LyIncremented | gbcore/src/mmu/address_spaces/io/lcd.rs:51-54 | `inc_ly` adds modulo 256 and leaves the coincidence bit right |
| Lcd.LycSet | gbcore/src/mmu/address_spaces/io/lcd.rs:60-63 | `set_lyc` sets LYC and leaves the coincidence bit right |
| Lcd.LineSettersFrame | gbcore/src/mmu/address_spaces/io/lcd.rs:46-63 | the line setters change only their register and STAT bit 2 |
| Lcd.ModeSet | gbcore/src/mmu/address_spaces/io/lcd.rs:129-150 | setting a PPU mode changes only STAT |
| Lcd.ClearedModeBits | gbcore/src/mmu/address_spaces/io/lcd.rs:130 | `stat & 0xFC` clears bits 1-0 and keeps bits 7-2 |
| Lcd.ModeOrBits | gbcore/src/mmu/address_spaces/io/lcd.rs:137-150 | or-ing a mode below 4 into a byte with bits 1-0 clear puts the mode in bits 1-0 and keeps bits 7-2 |
| Lcd.ModeSetBits | gbcore/src/mmu/address_spaces/io/lcd.rs:129-150 | each mode setter puts its mode (0 h-blank, 1 v-blank, 2 OAM scan, 3 drawing) in STAT bits 1-0 and leaves bits 7-2 alone |
| Lcd.Shade | gbcore/src/mmu/address_spaces/io/lcd.rs:152-178 | shade i of a palette is `(p >> 2i) & 3`, below 4 |
| Lcd.BgpIndex | gbcore/src/mmu/address_spaces/io/lcd.rs:152-160 | `get_bgp_index` for indexes 0-3 is a two-bit shade |
| Lcd.Obp0Index | gbcore/src/mmu/address_spaces/io/lcd.rs:162-169 | `get_obp0_index` for indexes 1-3 is a two-bit shade |
| Lcd.Obp1Index | gbcore/src/mmu/address_spaces/io/lcd.rs:171-178 | `get_obp1_index` for indexes 1-3 is a two-bit shade |
| Lcd.ShadesRebuildPalette | gbcore/src/mmu/address_spaces/io/lcd.rs:152-160 | the four shades together rebuild the palette byte |
| Lcd.Written | gbcore/src/mmu/address_spaces/io/lcd.rs:182-197 | `write`: LY ignores writes, LYC goes through `set_lyc` |
| Lcd.WriteThenRead | gbcore/src/mmu/address_spaces/io/lcd.rs:182-214 | every register but LY reads back the byte written, LY keeps its value, and the other registers are untouched except STAT's coincidence bit after a LYC write |
| Lcd.Lcd.constructor | gbcore/src/mmu/address_spaces/io/lcd.rs:18-32 | `new`: LCDC 0x91, STAT 0x85, BGP 0xFC, all else 0 |
| Lcd.Lcd.SetLy | gbcore/src/mmu/address_spaces/io/lcd.rs:46-49 | the in-place `set_ly` leaves the state `LySet` describes |
| Lcd.Lcd.IncLy | gbcore/src/mmu/address_spaces/io/lcd.rs:51-54 | the in-place `inc_ly` leaves the state `LyIncremented` describes |
| Lcd.Lcd.SetLyc | gbcore/src/mmu/address_spaces/io/lcd.rs:60-63 | the in-place `set_lyc` leaves the state `LycSet` describes |
| Lcd.Lcd.UpdateCoincidenceFlag | gbcore/src/mmu/address_spaces/io/lcd.rs:121-127 | the in-place update leaves the state `CoincidenceUpdated` describes |
| Lcd.Lcd.ResetPpuMode | gbcore/src/mmu/address_spaces/io/lcd.rs:129-131 | `reset_ppu_mode` sets mode 0 as `ModeSet` describes |
| Lcd.Lcd.SetHblankPpuMode | gbcore/src/mmu/address_spaces/io/lcd.rs:133-135 | sets mode 0 as `ModeSet` describes |
| Lcd.Lcd.SetVblankPpuMode | gbcore/src/mmu/address_spaces/io/lcd.rs:137-140 | sets mode 1 as `ModeSet` describes |
| Lcd.Lcd.SetOamPpuMode | gbcore/src/mmu/address_spaces/io/lcd.rs:142-145 | sets mode 2 as `ModeSet` describes |
| Lcd.Lcd.SetDrawPpuMode | gbcore/src/mmu/address_spaces/io/lcd.rs:147-150 | sets mode 3 as `ModeSet` describes |
| Lcd.Lcd.Write | gbcore/src/mmu/address_spaces/io/lcd.rs:182-197 | the in-place `write` leaves the state `Written` describes |
| Lcd.Lcd.Read | gbcore/src/mmu/address_spaces/io/lcd.rs:199-214 | the in-place `read` answers each register as `RegisterValue` does: LY and STAT as the drawing and LYC updates left them |
| Device.Step | gbcore/src/lib.rs:49-55 | one turn of the `update_timers` loop (corrected): an overflow already seen in this call stays recorded |
| Device.WrapSucc | gbcore/src/lib.rs:50 | ticking a wrapped 16-bit count is ticking the unwrapped count and wrapping |
| Device.SysclkAdvances | gbcore/src/lib.rs:49-55 | n cycles advance the system clock by n modulo 2^16 and leave TMA and TAC alone |
| Device.DisabledKeepsTima | gbcore/src/lib.rs:49-55 | with the timer disabled TIMA and the overflow flag are left alone |
| Device.CountsMultiples | gbcore/src/lib.rs:49-55 | enabled, TIMA goes up by one for each clock value passed that is a multiple of the period, while it does not overflow |
| Device.OverflowRecorded | gbcore/src/lib.rs:49-55 | once TIMA passes 0xFF within a call, the flag reports it at the end of the call |
| Device.TicksAsWritten | gbcore/src/lib.rs:49-55 | as written, from TIMA 0xFF one cycle short of a 16-cycle boundary, the flag is set for 16 cycles and cleared by the increment on the 17th |
| Device.FirstOverflowKept | gbcore/src/lib.rs:49-55 | corrected, that first overflow stays recorded however long the call |
| Device.OverflowLostAsWritten | gbcore/src/lib.rs:53 | with TAC 0x05, TIMA 0xFF and the system clock at 0x000F, a 17-cycle step loses the overflow as written, so no timer interrupt is requested; the corrected loop keeps it |
| Device.TimerInterruptRequested | gbcore/src/lib.rs:40-47 | an overflow left by the previous call sets IF bit 2 at the start of the next and is then cleared; only the timers and IF change |
| Device.PrefixStep | gbcore/src/lib.rs:32-37 | one more step adds its cycles and its timer update |
| Device.Device.constructor | gbcore/src/lib.rs:22-27 | `new`: no overflow pending |
| Device.Device.UpdateTimers | gbcore/src/lib.rs:40-56 | the in-place `update_timers` loop leaves the state `TimersUpdated` describes |
| Device.Device.Frame | gbcore/src/lib.rs:29-38 | `frame` runs steps until their cycles reach 70221 and stops at the first step that does, applying each step's timer update in order |
| Tiles.MaskShift | gbcore/src/ppu/pixel_fetcher/bg_fetcher.rs:124-126 | `(x & 2^k) >> k` is bit k of x |
| Tiles.PlaneOr | gbcore/src/ppu/pixel_fetcher/bg_fetcher.rs:127 | `(msb << 1) \| lsb` of two single bits is 2 * msb + lsb |
| Tiles.ColorAt | gbcore/src/ppu/pixel_fetcher/bg_fetcher.rs:124-127 | a pixel's colour is twice its bit of the high plane plus its bit of the low plane |
| Tiles.RowColors | gbcore/src/ppu/pixel_fetcher/bg_fetcher.rs:123-134 | a tile row decodes to eight colours |
| Tiles.PlaneBits | gbcore/src/ppu/pixel_fetcher/bg_fetcher.rs:123-127 | a plane built from bits (most significant first) holds bit `|bits| - 1 - j` at position j and fits its width |
| Tiles.LowBits | gbcore/src/ppu/pixel_fetcher/bg_fetcher.rs:126 | the low plane bit of each colour is the colour's low bit |
| Tiles.HighBits | gbcore/src/ppu/pixel_fetcher/bg_fetcher.rs:125 | the high plane bit of each 2-bit colour is the colour's high bit |
| Tiles.DecodeEncoded | gbcore/src/ppu/pixel_fetcher/bg_fetcher.rs:123-134 | decoding the two plane bytes a row of eight 2-bit colours is stored as gives the colours back |
| Tiles.DecodeEncodedAt | gbcore/src/ppu/pixel_fetcher/bg_fetcher.rs:123-134 | the same round trip, one pixel at a time |
| Tiles.PlaneBack | gbcore/src/ppu/pixel_fetcher/bg_fetcher.rs:123-127 | a plane byte is rebuilt from its bits 7 down to 0 |
| Tiles.ColorSplit | gbcore/src/ppu/pixel_fetcher/bg_fetcher.rs:127 | a colour `(h << 1) \| l` splits back into h and l |
| Tiles.RowColorAt | gbcore/src/ppu/pixel_fetcher/bg_fetcher.rs:123-127 | pixel k of a row takes bit 7 - k of each plane |
| Tiles.ColorJoin | gbcore/src/ppu/pixel_fetcher/bg_fetcher.rs:127 | a colour below 4 is twice its high bit plus its low bit |
| Tiles.RowColorsSplit | gbcore/src/ppu/pixel_fetcher/bg_fetcher.rs:123-127 | every decoded colour is below 4 and its two bits are the plane bits |
| Tiles.EncodeDecoded | gbcore/src/ppu/pixel_fetcher/bg_fetcher.rs:123-134 | encoding the colours decoded from two plane bytes gives the bytes back |
| BgFetch.New | gbcore/src/ppu/pixel_fetcher/bg_fetcher.rs:30-42 | `new`: an empty 8-pixel FIFO and every field at its start value |
| BgFetch.MasksAreRemainders | gbcore/src/ppu/pixel_fetcher/bg_fetcher.rs:63-78 | the masks `& 0x1f`, `& 0xFF` and `& 0x3ff` of `fetch_no` are remainders by 32, 256 and 1024 |
| BgFetch.MapBase | gbcore/src/ppu/pixel_fetcher/bg_fetcher.rs:80-84 | `fetch_no` reads the window's tile map or the background's, at 0x9800 or 0x9C00 |
| BgFetch.MapRow | gbcore/src/ppu/pixel_fetcher/bg_fetcher.rs:68-75 | the tile row is the window line counter, or the scrolled line wrapped at 256, over 8: below 32 |
| BgFetch.TileMapAddress | gbcore/src/ppu/pixel_fetcher/bg_fetcher.rs:61-84 | `fetch_no`'s address lies within 1 KiB of the chosen map and inside 0x9800-0x9FFF |
| BgFetch.BackgroundEntry | gbcore/src/ppu/pixel_fetcher/bg_fetcher.rs:61-84 | for the background the 0x3ff mask never bites: the entry is at row `(ly + scy) / 8` and column `(x + scx / 8) mod 32` of the map |
| BgFetch.TileLine | gbcore/src/ppu/pixel_fetcher/bg_fetcher.rs:91-97 | the pixel row inside the tile is the window line counter or the scrolled line, modulo 8 |
| BgFetch.Signed | gbcore/src/ppu/pixel_fetcher/bg_fetcher.rs:103 | a tile number read as i8 lies in -128..127 and is congruent to it modulo 256 |
| BgFetch.SignedWraps | gbcore/src/ppu/pixel_fetcher/bg_fetcher.rs:103 | the u16 wrap-arounds of the signed mode cancel out |
| BgFetch.SignedBase | gbcore/src/ppu/pixel_fetcher/bg_fetcher.rs:103 | `0x9000 + (tile as i8 as u16) * 16` with wrap-around is 0x9000 + 16 * the signed tile number |
| BgFetch.TileBase | gbcore/src/ppu/pixel_fetcher/bg_fetcher.rs:99-104 | a tile's bytes start at 0x8000 + 16 * tile in the unsigned mode and 0x9000 + 16 * signed tile otherwise, always in 0x8000-0x97F0 |
| BgFetch.TileDataAddress | gbcore/src/ppu/pixel_fetcher/bg_fetcher.rs:90-107 | `get_tile_data_start_address` lies in the tile data area 0x8000-0x97FE |
| BgFetch.TileDataModes | gbcore/src/ppu/pixel_fetcher/bg_fetcher.rs:99-104 | both modes agree on tiles 128-255; tiles 0-127 sit 0x1000 higher in the signed mode |
| BgFetch.VramRead | gbcore/src/ppu/pixel_fetcher/bg_fetcher.rs:86-117 | every fetcher read is in video RAM, where the memory map's read returns the stored byte |
| BgFetch.RowPixels | gbcore/src/ppu/pixel_fetcher/bg_fetcher.rs:123-134 | a row gives eight pixels |
| BgFetch.RowPixelColors | gbcore/src/ppu/pixel_fetcher/bg_fetcher.rs:123-134 | the row's pixels are BGP pixels without priority, pixel k coloured by bit 7 - k of each plane |
| BgFetch.FetchedNo | gbcore/src/ppu/pixel_fetcher/bg_fetcher.rs:61-88 | `fetch_no` keeps the fetcher valid |
| BgFetch.FetchedLow | gbcore/src/ppu/pixel_fetcher/bg_fetcher.rs:109-113 | `fetch_data_low` keeps the fetcher valid, its address inside the tile data |
| BgFetch.FetchedHigh | gbcore/src/ppu/pixel_fetcher/bg_fetcher.rs:116-119 | `fetch_data_high` keeps the fetcher valid |
| BgFetch.Pushed | gbcore/src/ppu/pixel_fetcher/bg_fetcher.rs:121-140 | `push` keeps the fetcher valid |
| BgFetch.Staged | gbcore/src/ppu/pixel_fetcher/bg_fetcher.rs:46-51 | running a stage keeps the fetcher valid |
| BgFetch.BgTicked | gbcore/src/ppu/pixel_fetcher/bg_fetcher.rs:44-54 | `tick` (corrected) keeps the fetcher valid |
| BgFetch.TwoTicksPerStage | gbcore/src/ppu/pixel_fetcher/bg_fetcher.rs:44-54 | a tick that is not ready only makes the fetcher ready, and a ready tick always leaves it waiting again, so each stage takes two ticks |
| BgFetch.StagesCycle | gbcore/src/ppu/pixel_fetcher/bg_fetcher.rs:44-145 | the stages cycle FetchNo, FetchDataLow, FetchDataHigh, Push and back, except that Push with pixels still queued stays and pushes nothing; the window flag is kept |
| BgFetch.PushFills | gbcore/src/ppu/pixel_fetcher/bg_fetcher.rs:121-136 | a push into an empty FIFO queues the row's eight pixels, leftmost first, colour `high bit << 1 \| low bit`, and moves to the next tile in FetchNo |
| BgFetch.PushedRowEncodes | gbcore/src/ppu/pixel_fetcher/bg_fetcher.rs:121-136 | the pushed colours encode back to exactly the two plane bytes |
| BgFetch.ReadyOverwrittenAsWritten | gbcore/src/ppu/pixel_fetcher/bg_fetcher.rs:44-54 | as written the final `ready = true` undoes the stage's `ready = false`, so a fetcher starting a tile is in FetchDataHigh after two ticks where the two-tick protocol leaves it in FetchDataLow |
| BgFetch.AfterReset | gbcore/src/ppu/pixel_fetcher/bg_fetcher.rs:147-157 | `reset` keeps the fetcher valid |
| BgFetch.ResetIsNew | gbcore/src/ppu/pixel_fetcher/bg_fetcher.rs:147-157 | a reset fetcher has every field of a new one and an empty 8-pixel queue |
| BgFetch.Restarted | gbcore/src/ppu/pixel_fetcher/bg_fetcher.rs:159-162 | `restart` keeps the fetcher valid |
| BgFetch.BgFetcher.constructor | gbcore/src/ppu/pixel_fetcher/bg_fetcher.rs:30-42 | the new object is in the state `New` describes, with a fresh FIFO |
| BgFetch.BgFetcher.Shift | gbcore/src/ppu/pixel_fetcher/bg_fetcher.rs:24-26 | `shift` takes the FIFO's front pixel and changes nothing else |
| BgFetch.BgFetcher.Tick | gbcore/src/ppu/pixel_fetcher/bg_fetcher.rs:44-54 | the in-place `tick` (corrected) leaves the state `BgTicked` describes |
| BgFetch.BgFetcher.FetchTileNo | gbcore/src/ppu/pixel_fetcher/bg_fetcher.rs:61-88 | the in-place `fetch_no` leaves the state `FetchedNo` describes |
| BgFetch.BgFetcher.FetchLow | gbcore/src/ppu/pixel_fetcher/bg_fetcher.rs:109-113 | the in-place `fetch_data_low` leaves the state `FetchedLow` describes |
| BgFetch.BgFetcher.FetchHigh | gbcore/src/ppu/pixel_fetcher/bg_fetcher.rs:116-119 | the in-place `fetch_data_high` leaves the state `FetchedHigh` describes |
| BgFetch.BgFetcher.PushRow | gbcore/src/ppu/pixel_fetcher/bg_fetcher.rs:121-140 | the in-place `push` leaves the state `Pushed` describes |
| BgFetch.BgFetcher.PushPixels | gbcore/src/ppu/pixel_fetcher/bg_fetcher.rs:123-134 | the push loop appends the row's eight pixels, bit 7 first |
| BgFetch.BgFetcher.Reset | gbcore/src/ppu/pixel_fetcher/bg_fetcher.rs:147-157 | the in-place `reset` leaves the state `AfterReset` describes |
| BgFetch.BgFetcher.SwitchToWindowMode | gbcore/src/ppu/pixel_fetcher/bg_fetcher.rs:56-59 | a reset, then the window flag set |
| BgFetch.BgFetcher.Restart | gbcore/src/ppu/pixel_fetcher/bg_fetcher.rs:159-162 | the in-place `restart` goes back to FetchNo and waits, nothing else changed |
| SpriteFetch.New | gbcore/src/ppu/pixel_fetcher/sprite_fetcher.rs:29-40 | `new`: an empty 8-pixel FIFO, stage FetchNo, every field zero and `done` set |
| SpriteFetch.SpriteLine | gbcore/src/ppu/pixel_fetcher/sprite_fetcher.rs:60-64 | the line of an 8x16 sprite on screen line ly: `ly + 16 - y` from its top, or 15 minus that when flipped vertically |
| SpriteFetch.LowBit | gbcore/src/ppu/pixel_fetcher/sprite_fetcher.rs:65-69 | `x \| 0x01` and `x & 0xFE` set and clear bit 0 and keep the other bits |
| SpriteFetch.SpriteTile | gbcore/src/ppu/pixel_fetcher/sprite_fetcher.rs:58-74 | `fetch_no`: an 8x8 sprite uses its own tile; an 8x16 sprite uses the pair its tile names, the odd one exactly for lines 8-15 |
| SpriteFetch.ModEight | gbcore/src/ppu/pixel_fetcher/sprite_fetcher.rs:81-83 | adding multiples of 8 leaves a remainder modulo 8 unchanged |
| SpriteFetch.WrappedLine | gbcore/src/ppu/pixel_fetcher/sprite_fetcher.rs:83 | `ly - (y - 16)` with the u8 and u16 wrap-arounds is, modulo 8, the line counted from the sprite's top |
| SpriteFetch.WrappedFlip | gbcore/src/ppu/pixel_fetcher/sprite_fetcher.rs:78-81 | `7 - d` with the u16 wrap-around, modulo 8, is 7 minus d modulo 8 |
| SpriteFetch.LineIndex | gbcore/src/ppu/pixel_fetcher/sprite_fetcher.rs:77-84 | the row inside the tile is `(ly + 16 - y) mod 8`, or 7 minus that when flipped vertically |
| SpriteFetch.TileRowAddress | gbcore/src/ppu/pixel_fetcher/sprite_fetcher.rs:76-91 | `get_tile_data_start_address`: 0x8000 plus 16 bytes per tile plus two bytes per row, inside the tile and inside 0x8000-0x8FFE |
| SpriteFetch.TallSpriteRow | gbcore/src/ppu/pixel_fetcher/sprite_fetcher.rs:58-91 | for an 8x16 sprite covering line ly the row read is row `ly + 16 - y` of the tile pair (15 minus it when flipped) |
| SpriteFetch.SmallSpriteRow | gbcore/src/ppu/pixel_fetcher/sprite_fetcher.rs:76-91 | for an 8x8 sprite covering line ly the row read is `ly + 16 - y` of its tile (7 minus it when flipped) |
| SpriteFetch.VramRead | gbcore/src/ppu/pixel_fetcher/sprite_fetcher.rs:93-102 | the rows the fetcher reads are in video RAM, where the memory map's read returns the stored byte |
| SpriteFetch.Skipped | gbcore/src/ppu/pixel_fetcher/sprite_fetcher.rs:108 | the columns `push` skips are those left of the screen edge: none when x >= 8, else 8 - x |
| SpriteFetch.SpritePixel | gbcore/src/ppu/pixel_fetcher/sprite_fetcher.rs:118-127 | a sprite pixel takes OBP1 when the sprite's palette flag is set and OBP0 otherwise, has no priority and carries the sprite's priority as `bg_priority` |
| SpriteFetch.SpriteRow | gbcore/src/ppu/pixel_fetcher/sprite_fetcher.rs:107-129 | `push` produces one pixel per visible column |
| SpriteFetch.RowColorsFlip | gbcore/src/ppu/pixel_fetcher/sprite_fetcher.rs:109-117 | a sprite wholly on screen pushes the colours the tile row decodes to, and in reverse order when flipped horizontally |
| SpriteFetch.RowPixelAt | gbcore/src/ppu/pixel_fetcher/sprite_fetcher.rs:107-129 | column j, coloured from bit 7 - j of the planes (bit j when flipped), is pushed at position j minus the skipped columns |
| SpriteFetch.FetchedNo | gbcore/src/ppu/pixel_fetcher/sprite_fetcher.rs:58-74 | `fetch_no` keeps the fetcher valid |
| SpriteFetch.FetchedLow | gbcore/src/ppu/pixel_fetcher/sprite_fetcher.rs:93-97 | `fetch_data_low` keeps the fetcher valid |
| SpriteFetch.FetchedHigh | gbcore/src/ppu/pixel_fetcher/sprite_fetcher.rs:99-102 | `fetch_data_high` keeps the fetcher valid |
| SpriteFetch.Pushed | gbcore/src/ppu/pixel_fetcher/sprite_fetcher.rs:104-131 | `push` keeps the fetcher valid |
| SpriteFetch.PushMerges | gbcore/src/ppu/pixel_fetcher/sprite_fetcher.rs:104-131 | after a push one pixel per visible column is queued, and the first is merged over the pixel that was at the front of the queue |
| SpriteFetch.Staged | gbcore/src/ppu/pixel_fetcher/sprite_fetcher.rs:45-48 | a ready fetching stage keeps the fetcher valid |
| SpriteFetch.TickedAsWritten | gbcore/src/ppu/pixel_fetcher/sprite_fetcher.rs:42-56 | `tick` as written keeps the fetcher valid |
| SpriteFetch.Ticked | gbcore/src/ppu/pixel_fetcher/sprite_fetcher.rs:42-56 | `tick` (corrected) keeps the fetcher valid |
| SpriteFetch.TickProtocol | gbcore/src/ppu/pixel_fetcher/sprite_fetcher.rs:42-56 | `done` is set exactly by the tick that pushed; each fetching stage takes a waiting tick and a working tick, and push takes one and returns to FetchNo |
| SpriteFetch.ReadyOverwrittenAsWritten | gbcore/src/ppu/pixel_fetcher/sprite_fetcher.rs:42-56 | as written the final `ready = true` undoes the stage's `ready = false`, so a sprite is pushed on the fourth tick; the two-tick protocol is still waiting in FetchDataHigh then |
| SpriteFetch.AfterReset | gbcore/src/ppu/pixel_fetcher/sprite_fetcher.rs:138-147 | `reset` keeps the fetcher valid |
| SpriteFetch.ResetForgets | gbcore/src/ppu/pixel_fetcher/sprite_fetcher.rs:138-147 | a reset fetcher has every field of a new one, nothing queued, and no old pixel left for the next push to merge with |
| SpriteFetch.SpriteFetcher.constructor | gbcore/src/ppu/pixel_fetcher/sprite_fetcher.rs:29-40 | the new object is in the state `New` describes, with a fresh FIFO |
| SpriteFetch.SpriteFetcher.Shift | gbcore/src/ppu/pixel_fetcher/sprite_fetcher.rs:23-25 | `shift` takes the FIFO's front pixel and changes nothing else |
| SpriteFetch.SpriteFetcher.Tick | gbcore/src/ppu/pixel_fetcher/sprite_fetcher.rs:42-56 | the in-place `tick` (corrected) leaves the state `Ticked` describes |
| SpriteFetch.SpriteFetcher.Stage | gbcore/src/ppu/pixel_fetcher/sprite_fetcher.rs:45-48 | the ready fetching stage leaves the state `Staged` describes |
| SpriteFetch.SpriteFetcher.FetchTileNo | gbcore/src/ppu/pixel_fetcher/sprite_fetcher.rs:58-74 | the in-place `fetch_no` leaves the state `FetchedNo` describes |
| SpriteFetch.SpriteFetcher.FetchLow | gbcore/src/ppu/pixel_fetcher/sprite_fetcher.rs:93-97 | the in-place `fetch_data_low` leaves the state `FetchedLow` describes |
| SpriteFetch.SpriteFetcher.FetchHigh | gbcore/src/ppu/pixel_fetcher/sprite_fetcher.rs:99-102 | the in-place `fetch_data_high` leaves the state `FetchedHigh` describes |
| SpriteFetch.SpriteFetcher.PushRow | gbcore/src/ppu/pixel_fetcher/sprite_fetcher.rs:104-131 | the in-place `push` leaves the state `Pushed` describes |
| SpriteFetch.SpriteFetcher.PushPixels | gbcore/src/ppu/pixel_fetcher/sprite_fetcher.rs:107-129 | the push loop merges the visible pixels in, leftmost first |
| SpriteFetch.SpriteFetcher.Reset | gbcore/src/ppu/pixel_fetcher/sprite_fetcher.rs:138-147 | the in-place `reset` leaves the state `AfterReset` describes |
| Wasm.EmptyBuffer | nth-boy-wasm/src/lib.rs:18-20 | the white screen: 160 * 144 words, each 0xFFFFFF |
| Wasm.AsOption | nth-boy-wasm/src/lib.rs:43-52 | a byte slice handed to the device is none exactly when it is empty, and otherwise the bytes themselves |
| Wasm.Dumped | nth-boy-wasm/src/lib.rs:101-115 | a dump handed to the page is empty for none and the bytes themselves otherwise |
| Wasm.DumpRoundTrip | nth-boy-wasm/src/lib.rs:38-115 | the two conversions undo each other, except that an empty dump held by the device comes back as none |
| Wasm.WithButton | nth-boy-wasm/src/lib.rs:117-179 | after a key's `set_` or `unset_` its flag is held or released accordingly |
| Wasm.WithButtonKeepsOthers | nth-boy-wasm/src/lib.rs:117-179 | `set_` and `unset_` leave every other key's flag as it was |
| Wasm.WithButtonIdempotent | nth-boy-wasm/src/lib.rs:117-179 | repeating a change is doing it once, and the last of two changes to one key wins |
| Wasm.WithButtonsCommute | nth-boy-wasm/src/lib.rs:117-179 | changes to two different keys commute |
| Wasm.Created | nth-boy-wasm/src/lib.rs:38-68 | `new`: every key released and a 160 * 144 buffer not marked cleared |
| Wasm.NextFramed | nth-boy-wasm/src/lib.rs:70-91 | `next_frame`: the keys are kept; the device and buffer are what one frame makes of them, after the clock is handed over and `cleared` reset, with the key flags as the joypad |
| Wasm.Shown | nth-boy-wasm/src/lib.rs:93-99 | `buffer` shows the white screen exactly when the LCD was cleared, and the drawn buffer otherwise |
| Wasm.Emulator.constructor | nth-boy-wasm/src/lib.rs:38-68 | the new object is in the state `Created` describes for the device built from the ROM and the saved bytes |
| Wasm.Emulator.NextFrame | nth-boy-wasm/src/lib.rs:70-91 | the in-place `next_frame` leaves the state `NextFramed` describes |
| Wasm.Emulator.Buffer | nth-boy-wasm/src/lib.rs:93-99 | `buffer` addresses what `Shown` gives |
| Wasm.Emulator.DumpRam | nth-boy-wasm/src/lib.rs:101-107 | `dump_ram` gives what `Dumped` gives for the device's RAM |
| Wasm.Emulator.DumpRtc | nth-boy-wasm/src/lib.rs:109-115 | `dump_rtc` gives what `Dumped` gives for the device's clock bytes |
| Wasm.Emulator.SetUp | nth-boy-wasm/src/lib.rs:117-119 | `set_up` holds the Up key and changes nothing else |
| Wasm.Emulator.UnsetUp | nth-boy-wasm/src/lib.rs:121-123 | `unset_up` releases the Up key and changes nothing else |
| Wasm.Emulator.SetDown | nth-boy-wasm/src/lib.rs:125-127 | `set_down` holds the Down key and changes nothing else |
| Wasm.Emulator.UnsetDown | nth-boy-wasm/src/lib.rs:129-131 | `unset_down` releases the Down key and changes nothing else |
| Wasm.Emulator.SetLeft | nth-boy-wasm/src/lib.rs:133-135 | `set_left` holds the Left key and changes nothing else |
| Wasm.Emulator.UnsetLeft | nth-boy-wasm/src/lib.rs:137-139 | `unset_left` releases the Left key and changes nothing else |
| Wasm.Emulator.SetRight | nth-boy-wasm/src/lib.rs:141-143 | `set_right` holds the Right key and changes nothing else |
| Wasm.Emulator.UnsetRight | nth-boy-wasm/src/lib.rs:145-147 | `unset_right` releases the Right key and changes nothing else |
| Wasm.Emulator.SetA | nth-boy-wasm/src/lib.rs:149-151 | `set_a` holds the A key and changes nothing else |
| Wasm.Emulator.UnsetA | nth-boy-wasm/src/lib.rs:153-155 | `unset_a` releases the A key and changes nothing else |
| Wasm.Emulator.SetB | nth-boy-wasm/src/lib.rs:157-159 | `set_b` holds the B key and changes nothing else |
| Wasm.Emulator.UnsetB | nth-boy-wasm/src/lib.rs:161-163 | `unset_b` releases the B key and changes nothing else |
| Wasm.Emulator.SetStart | nth-boy-wasm/src/lib.rs:165-167 | `set_start` holds the Start key and changes nothing else |
| Wasm.Emulator.UnsetStart | nth-boy-wasm/src/lib.rs:169-171 | `unset_start` releases the Start key and changes nothing else |
| Wasm.Emulator.SetSelect | nth-boy-wasm/src/lib.rs:173-175 | `set_select` holds the Select key and changes nothing else |
| Wasm.Emulator.UnsetSelect | nth-boy-wasm/src/lib.rs:177-179 | `unset_select` releases the Select key and changes nothing else |
| Page.CanvasSize | nth-boy-wasm/www/index.js:9-24 | the canvas is the 160 * 144 screen scaled by four each way: 640 * 576 pixels |
| Page.Shade | nth-boy-wasm/www/index.js:17-22 | the palette maps each of the four grey levels to the opaque pixel with that level in every channel, and any other byte (or one outside memory) to 0 |
| Page.SourceByte | nth-boy-wasm/www/index.js:159-160 | screen pixel i is read from the lowest byte of its word at `framePtr + 4 * i`, present exactly when that lies inside memory |
| Page.Image | nth-boy-wasm/www/index.js:151-166 | the drawn image has 640 * 576 words, word k taking the shade of screen pixel (k % 640 / 4, k / 640 / 4) |
| Page.RowMajor | nth-boy-wasm/www/index.js:161 | word `r * w + c` of a row-major image of width w is row r, column c |
| Page.ScaledPixel | nth-boy-wasm/www/index.js:157-162 | canvas pixel (r, c) shows screen pixel (c / 4, r / 4) |
| Page.BlockReplicates | nth-boy-wasm/www/index.js:157-162 | every screen pixel fills a four-by-four block of the canvas with its shade |
| Page.ImageShowsBuffer | nth-boy-wasm/www/index.js:151-166 | when memory holds the screen buffer as little-endian words, each block shows the shade of the lowest byte of its pixel's word |
| Page.ClearedIsWhite | nth-boy-wasm/www/index.js:151-166 | the white buffer shown while the LCD is off draws an all-white canvas |
| Page.DrawFrame | nth-boy-wasm/www/index.js:151-166 | the two nested loops fill a fresh image equal to `Image` |
| Page.KeysDiffer | nth-boy-wasm/www/index.js:118-129 | a `.sav` storage key never coincides with a `.rtc` key |
| Page.Stored | nth-boy-wasm/www/index.js:122-127 | a non-empty dump is stored as its JSON text under its key; an empty one leaves storage alone |
| Page.Load | nth-boy-wasm/www/index.js:42-47 | a missing storage entry loads as an empty dump |
| Page.LoadStored | nth-boy-wasm/www/index.js:118-129 | loading what was stored gives the dump back; after an empty dump the older entry is what loads |
| Page.SavedData | nth-boy-wasm/www/index.js:118-129 | `saveData` changes nothing without an emulator, keeps every stored key, and adds at most the ROM's two keys |
| Page.SaveThenLoad | nth-boy-wasm/www/index.js:118-129 | after `saveData` both keys load back what the device held, or the older entry when it held nothing |
| Page.RomRead | nth-boy-wasm/www/index.js:35-39 | reading a new ROM saves the old cartridge's data and drops the emulator |
| Page.Started | nth-boy-wasm/www/index.js:40-50 | the deferred start names the ROM, keeps storage, and any emulator it builds starts with every key released |
| Page.ReopenRestores | nth-boy-wasm/www/index.js:31-50 | re-opening the same ROM boots it with the RAM and clock the previous device held |
| Page.KeyBinding | nth-boy-wasm/www/index.js:60-87 | w, s, a, d, j, k, Enter and Backspace are bound one-to-one to Up, Down, Left, Right, A, B, Start and Select |
| Page.Keyed | nth-boy-wasm/www/index.js:60-116 | a bound key's press or release sets or clears exactly its button's flag; an unbound key changes nothing |
| Page.PressThenRelease | nth-boy-wasm/www/index.js:60-116 | a press followed by a release of a key leaves what the release alone would |
| Page.Counted | nth-boy-wasm/www/index.js:137-145 | each frame adds one to the count within a window; once a second has passed the count restarts and a new window begins |
| Page.FpsShowsCount | nth-boy-wasm/www/index.js:141-145 | the text shown ends in " FPS" after digits reading back as the frames in the closed window |
| Page.CountsWithinWindow | nth-boy-wasm/www/index.js:137-145 | within one window n frames add n to the count and leave the text and window start alone |
| Page.Rendered | nth-boy-wasm/www/index.js:131-149 | `renderLoop` does nothing without an emulator; with one it runs a frame and keeps the key flags |
| Page.Page.constructor | nth-boy-wasm/www/index.js:4-7 | at load there is no emulator and no ROM name, the frame count is 0 and the window starts now |
| Page.Page.SaveData | nth-boy-wasm/www/index.js:118-129 | the in-place `saveData` leaves the state `SavedData` describes |
| Page.Page.OnRomRead | nth-boy-wasm/www/index.js:35-39 | the in-place load handler leaves the state `RomRead` describes |
| Page.Page.OnRomStart | nth-boy-wasm/www/index.js:40-50 | the in-place deferred start leaves the state `Started` describes, and schedules rendering exactly when it built an emulator |
| Page.Page.OnKeyDown | nth-boy-wasm/www/index.js:60-87 | the keydown handler leaves the state `Keyed` describes for a press |
| Page.Page.OnKeyUp | nth-boy-wasm/www/index.js:89-116 | the keyup handler leaves the state `Keyed` describes for a release |
| Page.Page.RenderLoop | nth-boy-wasm/www/index.js:131-149 | the in-place `renderLoop` leaves the state `Rendered` describes, reschedules itself exactly when there is an emulator, and then draws `Image` |
| Json.Decimal | nth-boy-wasm/www/index.js:143 | a count or byte is written as a non-empty string of decimal digits |
| Json.ValueOfDecimal | nth-boy-wasm/www/index.js:143 | the decimal text of a number reads back as that number |
| Json.DecimalIsNumber | nth-boy-wasm/www/index.js:123 | the decimal text never has a leading zero, so it is a JSON number |
| Json.SplitJoin | nth-boy-wasm/www/index.js:46-47 | splitting comma-joined items at their commas gives the items back when none holds a comma |
| Json.Stringify | nth-boy-wasm/www/index.js:123 | the stored text of a dump is bracketed by `[` and `]` |
| Json.Numbers | nth-boy-wasm/www/index.js:46-47 | the parsed array has one number per comma-separated piece |
| Json.Uint8 | nth-boy-wasm/www/index.js:46-47 | `new Uint8Array` keeps the length and takes each number modulo 256 |
| Json.NumbersOfDecimals | nth-boy-wasm/www/index.js:123 | the decimal forms of bytes hold no comma, are numbers, and read back as the bytes |
| Json.ParseStringify | nth-boy-wasm/www/index.js:46-47 | parsing a stored dump and converting it to a Uint8Array gives the dump back |

## Left out

- Cpu.Bus: the CPU reads and writes a flat 64 KiB memory rather than the routed `Mmu`. The routing is modelled on its own in module `Mmu`, and the two are not composed, so effects of CPU writes on the cartridge, I/O or DMA are not followed through an instruction.
- `cpu.cycle()` and `mmu.test()` in gbcore/src/lib.rs do not match the CPU shown. `Device.Frame` takes the per-step cycle counts as an input sequence instead of running the CPU.
- The `Device` engine behind the WebAssembly glue is a collaborator: `Wasm.Emulator` takes the boot and frame functions as parameters and keeps the RAM dump, the clock dump and the LCD buffer as values.
- `Cpu::stop` (a panic), the `dump2`/`dump3`/`dump4` printers, `utils::set_panic_hook` and the `log!` macro are diagnostics and are not modelled.
- `SystemTime::now` and `performance.now` are inputs: the clock takes the current instant as whole seconds since the epoch, and the page takes the two times it reads as parameters.
- The browser is left out: the DOM, the canvas `putImageData`, `requestAnimationFrame`, `setTimeout` and `FileReader`. The page's model returns the image it would put on the canvas and says whether it would reschedule. Storage is a map from key to text.
- The WebAssembly linear memory is a parameter of `Page.DrawFrame` (the bytes and the buffer's address), not the glue's own buffer.
- Page.Keyed: a key event with no emulator throws in the page; the model leaves the state unchanged instead.
- Json.Parse accepts only the text `JSON.stringify` writes for a byte array (digits, commas, brackets, no spaces). Other JSON is reported as a parse failure, where the browser would accept some of it.
- Page.Load: text that does not parse is reported as `None`, where the page throws. Numbers above 255 are taken modulo 256, as `new Uint8Array` does.
- AdressableMemory, which backs VRAM, WRAM, HRAM, OAM and the plain parts of the I/O page, is not part of this model. `Generic.GenericAddressable` (a RAM block over a start..end range) stands in for it.
- Mmu::new takes RAM and clock bytes for `Cart::new`, which is not part of this model. `Mmu.Mmu.constructor` takes a ready cartridge instead.
- Device::new(path) reads the ROM from a file and is not modelled. `Device.Device.constructor` takes a ready I/O page.
- The CPU's `cycles` and `ops` are unbounded naturals, not wrapping 128-bit counters; 2^128 cycles are out of reach.
- The sound registers are plain memory in the I/O page, as in the source; there is no audio.
- The PPU proper (gbcore/src/ppu/mod.rs) is an incomplete stub and is not modelled. The older fetcher in gbcore/src/ppu/bg_fetcher.rs is superseded and is not modelled either.
- The desktop front end, the early prototype under src/ (except its register file) and the opcode-table scripts are not modelled. They are file and window I/O, a stub, or offline generators.

## Findings

| source | as written | input that shows it | evidently intended | confidence | as-written member | corrected member |
|---|---|---|---|---|---|---|
| src/cpu/registers.rs:140-143 | `getf` of a negated flag flips the flag's bit and shifts, without masking off the bits above it | F = 0x80 (only Z set): `getf(NC)` is 9, not 1, so `jr nc`, `jp nc`, `call nc` and `ret nc` are not taken although C is clear | the negated flag is 1 minus the flag's bit | high, not executed | Registers.NcMisreadWithZeroFlagSet | Registers.NegatedIsComplement |
| gbcore/src/mmu/address_spaces/cart/rtc.rs:161 | `write_dh` sets the day carry from `latched_dh & 0x60` | writing 0x80 to DH leaves the carry clear, and the next latch reads DH as 0; writing 0x40 (halt) raises the carry | the day carry is bit 7, mask 0x80 | high, not executed | Rtc.DayCarryMaskAsWritten | Rtc.WriteDhThenLatch |
| gbcore/src/mmu/address_spaces/cart/rtc.rs:82 | `inc_d` reduces an overflowing day counter with `%= 0x1FF` | day 511 plus one day gives day 1, not day 0: the clock runs a whole day ahead | the day counter wraps modulo 0x200 | medium, not executed | Rtc.DayWrapAsWrittenIsOneDayAhead | Rtc.AddSecondsKeepsTime |
| gbcore/src/mmu/address_spaces/cart/header.rs:41-44 | `get_rom_banks` maps code 5 to 512 banks, 6 to 64, 7 to 128, 8 to 256 | code 5 (1 MiB, 64 banks): bank 65 is not wrapped and indexes past the ROM; code 6 (2 MiB): the upper 64 banks alias the lower ones | code n means 2 << n banks | high, not executed | CartHeader.RomBanksAsWrittenMisread | CartHeader.RomBanksDouble |
| gbcore/src/mmu/address_spaces/cart/mbc.rs:52-56 | the zero-bank check looks at the whole byte before masking it to five bits | writing 0x20 to 0x2000 selects bank 0 for 0x4000-0x7FFF | a zero five-bit bank number selects bank 1 | high, not executed | Banking.ZeroBankAsWritten | Banking.SelectLow |
| gbcore/src/mmu/address_spaces/cart/mod.rs:59 | a RAM read indexes the RAM vector without the empty-RAM guard the write path has | an MBC1 cartridge (type 0x01) with RAM code 0, RAM enabled, reading 0xA000, indexes an empty vector | a cartridge without RAM reads 0xFF there | medium, not executed | Cartridge.NoRamReadAsWritten | Cartridge.ReadAt |
| gbcore/src/lib.rs:53 | every TIMA increment in a step overwrites `tima_overflow` with its own result | TIMA at 0xFF, period 16, system clock at 0x000F: a 17-cycle step overflows TIMA at 0x0010 and increments it again at 0x0020, which clears the flag, so no timer interrupt is requested | an overflow anywhere in the step is kept until it is requested | high, not executed | Device.OverflowLostAsWritten | Device.FirstOverflowKept |
| gbcore/src/ppu/pixel_fetcher/bg_fetcher.rs:44-54 | `tick` sets `ready = true` after the stage it ran, undoing the stage's own `ready = false` | a fetcher starting a tile is in FETCH_DATA_HIGH after two ticks | each stage waits one tick, so two ticks take it only to FETCH_DATA_LOW | medium, not executed | BgFetch.ReadyOverwrittenAsWritten | BgFetch.TwoTicksPerStage |
| gbcore/src/ppu/pixel_fetcher/sprite_fetcher.rs:42-56 | `tick` sets `ready = true` after the stage it ran, undoing the stage's own `ready = false` | a fetcher starting a sprite has pushed it by the fourth tick | each stage waits one tick, so after four ticks it is still in FetchDataHigh | medium, not executed | SpriteFetch.ReadyOverwrittenAsWritten | SpriteFetch.TickProtocol |
