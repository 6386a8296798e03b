# A verified model of a NES emulator core

This project models the emulation core of a Nintendo Entertainment System
emulator written in Rust (crates `nes`, `disasm` and the debugger's own
decoder), and proves properties of the model in Dafny.

* **CPU** (`types`, `bytes`, `memory`, `opcodes`, `cpu_spec`, `cpu`,
  `cpu_props`): a cycle-stepped 6502. The `ops!` table is a data table of
  256 rows {operation, addressing mode, cycles, page-cross flag}. A
  functional reference (`CpuSpec`) defines every addressing mode and
  operation over a machine state: registers, flags, pc, the cycle counter,
  the busy count and a 64 KiB memory image with its write log. The `Cpu`
  class, over the plain vector memory the CPU's tests use, is proved step
  for step equal to that reference. `CpuProps` proves what the source
  promises about it: ADC/SBC arithmetic and flags, wrap and page-cross
  rules, the JMP indirect page bug, branch timing, the stack, interrupts
  and OAM DMA.
* **Memory map and cartridge** (`ram`, `input`, `rom`, `mapper`,
  `cpubus`): RAM mirroring, controller strobe, iNES parsing, NROM and UxROM
  banking, and total CPU-bus address decoding.
* **PPU** (`ppu_registers`, `ppu_timing`, `ppu_oam`, `ppu_shifters`,
  `ppu_vram`, `rgb`, `ppu`, `frame_buffer`): the loopy scroll registers,
  the dot/scanline/frame counter with its odd-frame skip, the register
  ports, sprite evaluation, the shift registers, VRAM and palette
  decoding, the 64-colour table and the frame pool.
* **APU** (`apu_counters`, `apu_channels`, `apu_frame_counter`, `apu`): the
  divider, envelope, length, linear and timer counters, the sequencers and
  the sweep; the square, triangle, noise and DMC channels; the 4/5-step
  frame sequencer; register dispatch.
* **Orchestration** (`nes`): the 1 CPU : 1 APU : 3 PPU step with interrupt
  delivery.
* **Disassembler** (`disasm_address`, `disasm_operation`, `disassembler`,
  `debugger_disasm`): operand and mnemonic decoding, byte lengths,
  successor addresses, and the work-list disassembly of cartridge space.
  The debugger has its own decoder.

Unsigned machine integers are bit-vectors (`u8` = `bv8`, `u16` = `bv16`);
counters that the source uses arithmetically are `nat`. A panic in the
source (an overflow trap in a debug build, `unreachable!`, an unsupported
mapper, an index out of range) becomes an error result or `ok == false`,
unless the source documents it as its callers' obligation, in which case it
is a precondition.

## Model

| member | source | states |
|---|---|---|
| `Bytes.Word` | nes/src/byte.rs:3-10 | the word's low byte is `lo` and its high byte is `hi` |
| `Bytes.WordOfBytes` | nes/src/byte.rs:47-58 | every word is `word!` of its own low and high bytes, so `word!` and (low, high) are inverse |
| `Bytes.BitMask` | nes/src/byte.rs:15 | the mask of bit n is `1 << n` for n < 8 |
| `Bytes.Bitn` | nes/src/byte.rs:18-21 | `bitn!` is 1 exactly when bit n is set and 0 otherwise |
| `Bytes.Bitn16` | nes/src/byte.rs:18-21 | the same for a 16-bit value and n < 16 |
| `Bytes.SetBit` | nes/src/byte.rs:23-26 | bit n of the result is set and every other bit equals the input's |
| `Bytes.ClearBit` | nes/src/byte.rs:28-31 | bit n of the result is clear and every other bit equals the input's |
| `Bytes.ToggleBit` | nes/src/byte.rs:33-41 | bit n of the result equals `hi` and every other bit equals the input's |
| `Bytes.Mask` | nes/src/byte.rs:43-45 | a bit of the result is set iff it is set in both value and mask |
| `Memory.Update` | nes/src/cpu.rs:1316-1318 | the written address reads back the stored byte; every other address reads as before |
| `Memory.ReadWord` | nes/src/mem.rs:27-29 | little-endian: the low byte is read at `addr`, the high byte at `addr + 1`; `addr + 1` is not wrapped, so `addr` must not be 0xFFFF |
| `Memory.StoreWordThenRead` | nes/src/mem.rs:27-38 | a word stored with storew at `addr` is read back unchanged by loadw |
| `Memory.StoreWordFrame` | nes/src/mem.rs:32-38 | storew changes no address other than `addr` and `addr + 1` |
| `Memory.VecMem.constructor` | nes/src/cpu.rs:1307-1309 | the memory holds the given image and no write has happened yet |
| `Memory.VecMem.Peekw` | nes/src/mem.rs:10-12 | peekw's low byte is peekb at `addr` and its high byte peekb at `addr + 1` |
| `Memory.VecMem.Loadb` | nes/src/mem.rs:17-19 | the default loadb returns peekb and changes nothing |
| `Memory.VecMem.Storeb` | nes/src/cpu.rs:1316-1318 | the image afterwards is the old image with one cell updated; the write is appended to the log |
| `Memory.VecMem.Loadw` | nes/src/mem.rs:27-29 | loadw returns the same word as peekw and changes nothing |
| `Memory.VecMem.Storew` | nes/src/mem.rs:32-38 | the low byte is written at `addr` and then the high byte at `addr + 1`, in that order in the log |
| `Opcodes.OperandBytes` | nes/src/cpu.rs:358-532 | a mode fetches at most 2 operand bytes: none exactly for accumulator and implied, two exactly for absolute, absolute-indexed and indirect |
| `Opcodes.TableShape` | nes/src/cpu.rs:264-351 | every one of the 256 rows has 2 to 8 cycles; the extra-cycle flag appears only on abs,X, abs,Y, (zp),Y and relative rows; exactly the branches use relative mode, each with 2 cycles and the extra flag |
| `Opcodes.RowShape0` | nes/src/cpu.rs:265-270 | the rows for opcodes 0x00-0x0F have that shape |
| `Opcodes.RowShape1` | nes/src/cpu.rs:270-275 | the rows for opcodes 0x10-0x1F have that shape |
| `Opcodes.RowShape2` | nes/src/cpu.rs:275-281 | the rows for opcodes 0x20-0x2F have that shape |
| `Opcodes.RowShape3` | nes/src/cpu.rs:281-286 | the rows for opcodes 0x30-0x3F have that shape |
| `Opcodes.RowShape4` | nes/src/cpu.rs:286-291 | the rows for opcodes 0x40-0x4F have that shape |
| `Opcodes.RowShape5` | nes/src/cpu.rs:291-297 | the rows for opcodes 0x50-0x5F have that shape |
| `Opcodes.RowShape6` | nes/src/cpu.rs:297-302 | the rows for opcodes 0x60-0x6F have that shape |
| `Opcodes.RowShape7` | nes/src/cpu.rs:302-307 | the rows for opcodes 0x70-0x7F have that shape |
| `Opcodes.RowShape8` | nes/src/cpu.rs:307-313 | the rows for opcodes 0x80-0x8F have that shape |
| `Opcodes.RowShape9` | nes/src/cpu.rs:313-318 | the rows for opcodes 0x90-0x9F have that shape |
| `Opcodes.RowShapeA` | nes/src/cpu.rs:318-323 | the rows for opcodes 0xA0-0xAF have that shape |
| `Opcodes.RowShapeB` | nes/src/cpu.rs:323-329 | the rows for opcodes 0xB0-0xBF have that shape |
| `Opcodes.RowShapeC` | nes/src/cpu.rs:329-334 | the rows for opcodes 0xC0-0xCF have that shape |
| `Opcodes.RowShapeD` | nes/src/cpu.rs:334-339 | the rows for opcodes 0xD0-0xDF have that shape |
| `Opcodes.RowShapeE` | nes/src/cpu.rs:339-345 | the rows for opcodes 0xE0-0xEF have that shape |
| `Opcodes.RowShapeF` | nes/src/cpu.rs:345-350 | the rows for opcodes 0xF0-0xFF have that shape |
| `CpuSpec.Store` | nes/src/cpu.rs:1279-1285 | a CPU store, including one to 0x4014 that starts a DMA instead of reaching memory, never changes pc, registers or flags |
| `CpuSpec.Dma` | nes/src/cpu.rs:231-246 | a DMA never changes pc, registers or flags; it traps (`start + 0x100` overflows) for page 0xFF |
| `CpuSpec.DmaCopy` | nes/src/cpu.rs:242-245 | the copy loop changes only the memory image and its write log |
| `Cpu.Cpu.constructor` | nes/src/cpu.rs:156-168 | the CPU starts with A = X = Y = 0, flags 0x24, s = 0xFD, pc = 0, cy = 0, busy = 0 over the given memory |
| `Cpu.Cpu.Loadb` | nes/src/cpu.rs:1275-1277 | a CPU load returns the memory's byte and changes nothing |
| `Cpu.Cpu.Loadw` | nes/src/mem.rs:27-29 | loadw returns the little-endian word at `addr`; it fails exactly where `addr + 1` overflows |
| `Cpu.Cpu.Storeb` | nes/src/cpu.rs:1279-1285 | the new machine state is the reference store's: a store to 0x4014 runs the DMA, any other reaches memory; failure exactly where the reference traps |
| `Cpu.Cpu.Dma` | nes/src/cpu.rs:231-246 | the new state is the reference DMA's: 513 cycles added on an even cy and 514 on an odd one, then the page copied byte by byte to 0x2004 |
| `Cpu.Cpu.LoadbBumpPc` | nes/src/cpu.rs:1218-1222 | returns the byte at pc and advances pc by 1 (failing where pc + 1 overflows), as the reference fetch |
| `Cpu.Cpu.LoadwBumpPc` | nes/src/cpu.rs:1224-1228 | returns the word at pc and advances pc by 2 (failing where that overflows), as the reference fetch |
| `Cpu.Cpu.Pushb` | nes/src/cpu.rs:1240-1245 | writes at 0x0100 + s and then decrements s (failing where s is 0), as the reference push |
| `Cpu.Cpu.Pushw` | nes/src/cpu.rs:1247-1253 | pushes the high byte and then the low byte, as the reference push |
| `Cpu.Cpu.Popb` | nes/src/cpu.rs:1255-1260 | reads 0x0100 + s + 1 and increments s (failing where s is 0xFF), as the reference pop |
| `Cpu.Cpu.Popw` | nes/src/cpu.rs:1262-1267 | reads the little-endian word at 0x0100 + s + 1 and adds 2 to s, as the reference pop |
| `Cpu.Cpu.SetZn` | nes/src/cpu.rs:1232-1236 | returns its argument and sets Z and N from it, nothing else changing |
| `Cpu.Cpu.AbsIndexed` | nes/src/cpu.rs:368-397 | abs,X and abs,Y as the reference: the operand word plus the index, wrapping at 16 bits, with one more cycle when the extra flag is set and the page changes |
| `Cpu.Cpu.ZeroPageIndexed` | nes/src/cpu.rs:518-532 | zp,X and zp,Y as the reference: the operand byte plus the index, wrapping inside page 0 |
| `Cpu.Cpu.IndexedIndirect` | nes/src/cpu.rs:443-455 | (zp,X) as the reference: the pointer wraps inside page 0, and a pointer at 0x00FF takes its high byte from 0x0000 |
| `Cpu.Cpu.IndirectIndexed` | nes/src/cpu.rs:461-477 | (zp),Y as the reference: the pointer's bytes come from page 0 with wrap, Y is added with 16-bit wrap and one more cycle on a page change when the extra flag is set |
| `Cpu.Cpu.Relative` | nes/src/cpu.rs:485-489 | the branch operand as the corrected reference: the offset byte sign-extended and added to the advanced pc |
| `Cpu.Cpu.Resolve` | nes/src/cpu.rs:354-532 | every addressing mode resolves its operand and advances pc exactly as the reference does |
| `Cpu.Cpu.AddrLoadb` | nes/src/cpu.rs:1198-1206 | reads memory for an absolute operand, A for the accumulator and the byte for an immediate; fails (the source's `unreachable!`) for indirect and implied |
| `Cpu.Cpu.AddrStoreb` | nes/src/cpu.rs:1208-1214 | stores to memory for an absolute operand and to A for the accumulator; fails (the source panics) otherwise |
| `Cpu.Cpu.Adc` | nes/src/cpu.rs:539-553 | the new state is the reference ADC's; `CpuProps` proves its sum, carry and overflow |
| `Cpu.Cpu.Sbc` | nes/src/cpu.rs:1048-1065 | the new state is the reference SBC's, ADC on the complemented operand; `CpuProps` proves its difference, borrow and overflow |
| `Cpu.Cpu.Logic` | nes/src/cpu.rs:571-574 | AND (and ORA, EOR) set A to A op M with Z and N from the result, as the reference |
| `Cpu.Cpu.Asl` | nes/src/cpu.rs:587-594 | the shifted value is written back to the operand, C takes bit 7, Z and N come from the result, as the reference |
| `Cpu.Cpu.Lsr` | nes/src/cpu.rs:923-932 | the shifted value is written back, C takes bit 0, as the reference |
| `Cpu.Cpu.Rol` | nes/src/cpu.rs:981-997 | rotate left through carry, written back, as the reference (including the source's Z taken from A) |
| `Cpu.Cpu.Ror` | nes/src/cpu.rs:999-1011 | rotate right through carry, written back, as the reference |
| `Cpu.Cpu.Bit` | nes/src/cpu.rs:627-634 | Z from A & M, V and N from bits 6 and 7 of M, as the reference |
| `Cpu.Cpu.Compare` | nes/src/cpu.rs:709-722 | CMP (and CPX, CPY): C iff reg >= M, Z and N from reg - M, as the reference |
| `Cpu.Cpu.IncDec` | nes/src/cpu.rs:765-773 | DEC (and INC) write M -/+ 1 back with Z and N, as the reference |
| `Cpu.Cpu.Branch` | nes/src/cpu.rs:1176-1194 | a branch not taken changes nothing; a taken one sets pc and adds 1 cycle, 2 across a page; fails on a non-absolute operand |
| `Cpu.Cpu.Brk` | nes/src/cpu.rs:659-668 | BRK as the reference: pushes pc and flags and loads the 0xFFFE vector |
| `Cpu.Cpu.Jmp` | nes/src/cpu.rs:833-853 | JMP as the reference, including the indirect fetch that wraps within the pointer's page |
| `Cpu.Cpu.Jsr` | nes/src/cpu.rs:858-870 | JSR pushes pc - 1 and jumps, as the reference |
| `Cpu.Cpu.Pla` | nes/src/cpu.rs:959-964 | PLA pops A and sets Z and N, as the reference |
| `Cpu.Cpu.Plp` | nes/src/cpu.rs:966-971 | PLP pops the flags with B cleared and bit 5 set, as the reference |
| `Cpu.Cpu.Rti` | nes/src/cpu.rs:1021-1028 | RTI pops the flags and then pc, as the reference |
| `Cpu.Cpu.Rts` | nes/src/cpu.rs:1030-1036 | RTS pops pc and adds 1, as the reference |
| `Cpu.Cpu.LoadRegister` | nes/src/cpu.rs:896-903 | LDA (and LDX, LDY, LAX) load the operand into the register(s) with Z and N, as the reference |
| `Cpu.Cpu.Transfer` | nes/src/cpu.rs:1133-1139 | TAX (and TAY, TSX, TXA, TYA, TXS) copy one register to another, with Z and N except for TXS, as the reference |
| `Cpu.Cpu.StepRegister` | nes/src/cpu.rs:775-779 | DEX (and DEY, INX, INY) step a register with wrap, with Z and N, as the reference |
| `Cpu.Cpu.FlagOp` | nes/src/cpu.rs:683-686 | CLC (and CLD, CLI, CLV, SEC, SED, SEI) change exactly one flag, as the reference |
| `Cpu.Cpu.Exec` | nes/src/cpu.rs:264-351 | runs the routine a table row names, as the reference; KIL and the unimplemented undocumented ops (AHX, ALR, ANC, ARR, AXS, LAS, SHX, SHY, TAS, XAA) fail as the source panics |
| `Cpu.Cpu.ExecRead` | nes/src/cpu.rs:539-553 | the operations that only read their operand, as the reference |
| `Cpu.Cpu.ExecWrite` | nes/src/cpu.rs:1111-1123 | the operations that write their operand (the stores, shifts, INC and DEC), as the reference |
| `Cpu.Cpu.ExecFlow` | nes/src/cpu.rs:602-682 | branches, jumps, returns and stack operations, as the reference |
| `Cpu.Cpu.ExecImplied` | nes/src/cpu.rs:1133-1168 | the register- and flag-only operations, as the reference |
| `Cpu.Cpu.ExecCombined` | nes/src/cpu.rs:756-759 | each undocumented read-modify-write (DCP, ISC, SLO, RLA, SRE, RRA) runs its two documented primitives in sequence, as the reference |
| `Cpu.Cpu.Step` | nes/src/cpu.rs:255-352 | one step is the reference step (with the corrected relative mode): while busy it only counts down busy and adds a cycle; otherwise it fetches the opcode and dispatches on the table |
| `Cpu.Cpu.Dispatch` | nes/src/cpu.rs:41-48 | a table row resolves its operand, runs its routine, sets busy to cycles - 1 and adds 1 to cy, as the reference |
| `Cpu.Cpu.Reset` | nes/src/cpu.rs:172-175 | pc is loaded from 0xFFFC and the I flag is set |
| `Cpu.Cpu.Interrupt` | nes/src/cpu.rs:190-216 | the shared interrupt entry: B cleared, pc and flags pushed, I set, pc loaded from the vector |
| `Cpu.Cpu.Nmi` | nes/src/cpu.rs:190-196 | NMI as the reference, through the 0xFFFA vector |
| `Cpu.Cpu.Irq` | nes/src/cpu.rs:205-216 | IRQ as the reference: ignored when I is set, otherwise through the 0xFFFE vector |
| `CpuProps.BusyStep` | nes/src/cpu.rs:255-260 | a step while busy > 0 only decrements busy and adds 1 to cy; registers, flags, pc and memory are unchanged |
| `CpuProps.AddWithCarryMeaning` | nes/src/cpu.rs:539-553 | the ADC sum is A + M + C mod 256; carry iff the 9-bit sum exceeds 0xFF; overflow iff A and M have the same sign and the result's sign differs |
| `CpuProps.SubtractWithBorrowResult` | nes/src/cpu.rs:1048-1065 | the SBC difference is A - M - (1 - C) mod 256 |
| `CpuProps.SubtractWithBorrowAddsComplement` | nes/src/cpu.rs:1048-1065 | SBC is ADC of the complemented operand: A + !M + C |
| `CpuProps.ComplementSubtracts` | nes/src/cpu.rs:1048-1065 | adding the complement plus carry is subtracting with borrow |
| `CpuProps.SubtractWithBorrowCarry` | nes/src/cpu.rs:1048-1065 | after SBC the carry is set iff no borrow happened: A > M, or A = M with carry in |
| `CpuProps.SubtractWithBorrowOverflow` | nes/src/cpu.rs:1048-1065 | SBC overflow iff A and M differ in sign and the result's sign differs from A's |
| `CpuProps.ArithFlagsMeaning` | nes/src/cpu.rs:539-553 | after ADC/SBC, C and V are the computed ones, Z iff the result is 0, N is its bit 7, and flags bits 2-5 are kept |
| `CpuProps.AdcImmediateSum` | nes/src/cpu.rs:1738-1800 | ADC #m sets A to A + m + C and changes only A and the flags |
| `CpuProps.AdcImmediateUnfolds` | nes/src/cpu.rs:539-553 | ADC #m is exactly the sum with the flags computed from it |
| `CpuProps.AdcImmediateCarry` | nes/src/cpu.rs:1738-1800 | after ADC #m, C is set iff the sum wrapped |
| `CpuProps.AdcImmediateOverflow` | nes/src/cpu.rs:1738-1800 | after ADC #m, V is set iff two operands of the same sign gave a result of the other sign |
| `CpuProps.PageCrossedMeaning` | nes/src/cpu.rs:373-376 | the page-cross test holds iff the high bytes differ |
| `CpuProps.ZeroPageIndexedWraps` | nes/src/cpu.rs:1696-1702 | zp,X gives an address in page 0 whose low byte is the operand plus X mod 256, and advances pc by 1 |
| `CpuProps.IndexedIndirectPointerWraps` | nes/src/cpu.rs:1583-1589 | (zp,X) with the pointer at 0x00FF takes the low byte from 0x00FF and the high byte from 0x0000 |
| `CpuProps.IndexAddMeaning` | nes/src/cpu.rs:368-380 | adding an index wraps at 16 bits, and the page changes iff the low byte plus the index exceeds 0xFF |
| `CpuProps.AbsIndexedPenalty` | nes/src/cpu.rs:1463-1486 | abs,X/abs,Y address the operand word plus the index, advance pc by 2, and add one cycle exactly when the extra flag is set and the page changes |
| `CpuProps.IndirectIndexedPointerWraps` | nes/src/cpu.rs:1613-1619 | (zp),Y with pointer 0xFF takes the base's bytes from 0x00FF and 0x0000 and adds Y |
| `CpuProps.JmpIndirectPageBug` | nes/src/cpu.rs:835-846 | JMP ($xxFF) takes its low byte from $xxFF and its high byte from $xx00 of the same page |
| `CpuProps.BranchNotTaken` | nes/src/cpu.rs:1176-1179 | a branch not taken leaves the whole state unchanged |
| `CpuProps.BranchTakenTiming` | nes/src/cpu.rs:1181-1190 | a taken branch sets pc to the target and adds 1 cycle, 2 when the page differs, nothing else changing |
| `CpuProps.BranchTargetSigned` | nes/src/cpu.rs:479-484 | the corrected target is pc + d for d < 0x80 and pc - (256 - d) otherwise, with 16-bit wrap |
| `CpuProps.RelativeAsWrittenMissesNegativeDelta` | nes/src/cpu.rs:1652-1657 | as written, offset 0xFE at pc 5 targets 0x0104 where the test expects 0x0004 |
| `CpuProps.RelativeMeetsTests` | nes/src/cpu.rs:1644-1657 | the corrected relative mode gives the tests' targets for offsets 0x01 and 0xFE |
| `CpuProps.TargetsAgreeOnForwardOffsets` | nes/src/cpu.rs:485-489 | the as-written and corrected targets agree exactly on offsets below 0x80 |
| `CpuProps.RelativeAgreesOnForwardOffsets` | nes/src/cpu.rs:485-489 | the as-written and corrected relative modes agree exactly when the offset byte is below 0x80 |
| `CpuProps.StackAddrInPageOne` | nes/src/cpu.rs:1240-1245 | the stack address of s is 0x01 s: in page one, never the DMA port nor 0xFFFF |
| `CpuProps.StackAddrNext` | nes/src/cpu.rs:1255-1260 | the address after the slot of s - 1 is the slot of s, so a pop reads where the push wrote |
| `CpuProps.PushThenPopByte` | nes/src/cpu.rs:1240-1260 | pushb writes at 0x0100 + s and decrements s, and popb right after returns the byte and restores s |
| `CpuProps.PushWordLayout` | nes/src/cpu.rs:1247-1253 | pushw puts the high byte at 0x0100 + s and the low byte below it, s going down by 2 |
| `CpuProps.PopWordReads` | nes/src/cpu.rs:1262-1267 | popw reads the word at 0x0100 + s + 1 and adds 2 to s |
| `CpuProps.PushThenPopWord` | nes/src/cpu.rs:1247-1267 | a word pushed with pushw is popped back by popw, restoring s |
| `CpuProps.JsrThenRts` | nes/src/cpu.rs:858-870 | JSR then RTS returns to the pc after the JSR operand with s restored |
| `CpuProps.RetreatThenAdvance` | nes/src/cpu.rs:863 | stepping pc back by one (JSR) and forward by one (RTS) gives pc again, with wrap |
| `CpuProps.PhpThenPlp` | nes/src/cpu.rs:951-971 | PHP pushes flags with bits 4 and 5 set; PLP of that byte restores flags with B clear, bit 5 set and every other bit as before |
| `CpuProps.IrqMasked` | nes/src/cpu.rs:205-208 | an IRQ with I set changes nothing |
| `CpuProps.VectorsAboveStack` | nes/src/cpu.rs:15-23 | the NMI and BRK vectors lie outside the stack page |
| `CpuProps.PushByteFrame` | nes/src/cpu.rs:1240-1245 | pushb changes no address other than the stack slot |
| `CpuProps.FramePushesSucceed` | nes/src/cpu.rs:190-196 | pushing pc and flags succeeds with s >= 3 and changes only s and memory |
| `CpuProps.FramePushesLayout` | nes/src/cpu.rs:1346-1362 | the interrupt frame holds pc high, pc low and then the flags, from 0x0100 + s downwards |
| `CpuProps.FramePushesKeepVector` | nes/src/cpu.rs:190-216 | pushing the frame does not disturb the vector being loaded |
| `CpuProps.InterruptFrame` | nes/src/cpu.rs:1346-1362 | NMI/IRQ push pc high, pc low and the flags with B cleared |
| `CpuProps.InterruptTarget` | nes/src/cpu.rs:1364-1420 | after NMI/IRQ, pc is the vector's word and the flags have B cleared and I set, registers unchanged |
| `CpuProps.InterruptStackPointer` | nes/src/cpu.rs:190-216 | an interrupt lowers s by 3 |
| `CpuProps.DmaWrites` | nes/src/cpu.rs:242-245 | the DMA's writes: n writes, the i-th storing the i-th source byte to 0x2004 |
| `CpuProps.DmaSourcePage` | nes/src/cpu.rs:228-233 | every DMA source address lies in the named page |
| `CpuProps.DmaCopyWrites` | nes/src/cpu.rs:242-245 | the copy loop logs exactly those writes in order and changes no memory other than 0x2004 |
| `CpuProps.StoreToDmaPort` | nes/src/cpu.rs:1279-1285 | a store to 0x4014 never reaches the bus: it copies the page, 256 bytes in order, to 0x2004 and adds 513 cycles on an even cy and 514 on an odd one |
| `CpuProps.ResolveAdvancesPc` | nes/src/cpu.rs:1218-1228 | resolving a mode advances pc by exactly its operand bytes and may only add cycles |
| `CpuProps.ResolveNoOperand` | nes/src/cpu.rs:402-421 | accumulator and implied modes change nothing |
| `CpuProps.ResolveOneByte` | nes/src/cpu.rs:409-532 | one-byte modes advance pc by 1 |
| `CpuProps.ResolveTwoBytes` | nes/src/cpu.rs:358-436 | two-byte modes advance pc by 2 |
| `CpuProps.FetchTwiceAdvancesPc` | nes/src/cpu.rs:1218-1222 | two byte fetches advance pc by 2 and change nothing else |
| `CpuProps.AbsIndexedAdvancesPc` | nes/src/cpu.rs:368-397 | abs,X/abs,Y advance pc by 2, keep busy and may only add cycles |
| `CpuProps.ExecReadKeepsPc` | nes/src/cpu.rs:539-553 | an operation that only reads its operand never changes pc, busy or cy |
| `CpuProps.ExecWriteKeepsPc` | nes/src/cpu.rs:587-594 | an operation that writes its operand never changes pc, busy or cy |
| `CpuProps.ExecImpliedKeepsPc` | nes/src/cpu.rs:1133-1139 | a register- or flag-only operation never changes pc, busy or cy |
| `CpuProps.ExecCombinedKeepsPc` | nes/src/cpu.rs:756-759 | a combined undocumented operation never changes pc, busy or cy |
| `CpuProps.ExecKeepsPc` | nes/src/cpu.rs:264-351 | every operation other than branches, jumps, returns and stack operations leaves pc, busy and cy as its addressing mode left them |
| `CpuProps.StepCountsCycles` | nes/src/cpu.rs:255-352 | every step that succeeds adds at least one cycle, and a step that starts an instruction leaves busy at the row's cycles minus one |
| `CpuProps.ExecNeverTakesCycles` | nes/src/cpu.rs:43-48 | no operation routine takes cycles back from the counter |
| `CpuProps.FlowNeverTakesCycles` | nes/src/cpu.rs:1176-1194 | the branch, jump, return and stack routines keep or add cycles: only a taken branch adds them |
| `CpuProps.StartAdvancesPc` | nes/src/cpu.rs:43-48 | starting an instruction reads the opcode at pc, advances pc by 1 plus the mode's operand bytes, sets busy to cycles - 1 and adds at least 1 to cy |
| `Ram.Ram.constructor` | nes/src/ram.rs:6-8 | a new RAM holds `size` cells, all zero |
| `Ram.Ram.Loadb` | nes/src/ram.rs:12-14 | a load returns the cell at the address and agrees with `Peekb` |
| `Ram.Ram.Storeb` | nes/src/ram.rs:16-18 | a store replaces exactly the addressed cell; a later peek there returns the stored value |
| `Input.ButtonPress` | nes/src/input.rs:74-87 | after the update the named button reads pressed exactly when the new state is `Press` |
| `Input.ButtonPressOthers` | nes/src/input.rs:77-86 | updating one button leaves every other button as it was |
| `Input.StrobeNext` | nes/src/input.rs:52-54 | the strobe index stays below 8 |
| `Input.StrobeGetOrder` | nes/src/input.rs:3-10 | strobe index k reports the k-th button of the order A, B, Select, Start, Up, Down, Left, Right |
| `Input.StrobeNextCounts` | nes/src/input.rs:52-54 | advancing the strobe is `(k + 1) mod 8` |
| `Input.LoadsFollowOrder` | nes/src/input.rs:128-137 | n successive reads of 0x4016 starting at strobe k report buttons k, k+1, ... as 0/1 bytes |
| `Input.EightLoadsReportAllButtons` | nes/src/input.rs:3-10 | eight reads after a reset report all eight buttons in the hardware order |
| `Input.StrobeCycles` | nes/src/input.rs:52-54 | eight advances bring the strobe back to where it started |
| `Input.Input.constructor` | nes/src/input.rs:95-111 | a new controller has every button released and the strobe at A |
| `Input.Input.Set` | nes/src/input.rs:113-115 | `set` replaces the button state and keeps the strobe |
| `Input.Input.Peekb` | nes/src/input.rs:119-126 | a peek of 0x4016 reports the button under the strobe as 0 or 1; every other address reads 0 |
| `Input.Input.Loadb` | nes/src/input.rs:128-137 | a load returns what a peek would and advances the strobe only on 0x4016 |
| `Input.Input.Storeb` | nes/src/input.rs:139-143 | a write to 0x4016 resets the strobe to A; other writes change nothing |
| `Rom.InesMapper` | nes/src/rom.rs:66-68 | the iNES mapper number is the high nibble of flags 6, so below 16 |
| `Rom.MapperNibbles` | nes/src/rom.rs:60-63 | the corrected full mapper number takes its high nibble from flags 7 and its low nibble from flags 6 |
| `Rom.MapperAsWrittenOverflows` | nes/src/rom.rs:62 | with flags 7 = 0x10 the multiplication by 0xF0 overflows a byte (a panic in a debug build) where the intended mapper is 0x10 |
| `Rom.MapperAsWrittenMisreadsFlag` | nes/src/rom.rs:62 | with flags 7 = 0x01 the expression yields 0xF0 where the intended mapper is 0 |
| `Rom.ParseRomLayout` | nes/src/rom.rs:108-137 | a parsed ROM keeps the 16-byte header fields, then takes prg_rom_size × 16 KiB of PRG and chr_rom_size × 8 KiB of CHR in that order |
| `Rom.ParseRomFormatError` | nes/src/rom.rs:124-126 | the format error is reported exactly when a full header is present and its magic is not "NES\x1a" |
| `Rom.ParseRomSucceeds` | nes/src/rom.rs:108-137 | parsing succeeds exactly when the header is complete, the magic matches and the stream holds both sections |
| `Rom.Reader.constructor` | nes/src/rom.rs:108 | a reader starts with the given bytes and the given pattern of short or failing reads |
| `Rom.Reader.NextCount` | nes/src/rom.rs:143 | one read hands over no more than the room in the buffer and the bytes left |
| `Rom.Reader.Read` | nes/src/rom.rs:143 | one read either fails leaving everything unchanged, or copies a prefix of the remaining bytes into the buffer at the given offset and consumes it; an unconstrained reader fills as much as it can |
| `Rom.ReadToBuf` | nes/src/rom.rs:140-150 | on success the buffer holds the next `buf.len()` bytes of the stream and exactly those are consumed; with a reader that never fails it succeeds exactly when enough bytes remain (the "unexpected eof" case otherwise) |
| `Rom.ReadSection` | nes/src/rom.rs:128-134 | reading a section of `len` zero-initialised bytes yields the next `len` bytes of the stream, with the same success condition |
| `Rom.FromPath` | nes/src/rom.rs:108-137 | loading from a reader agrees with the pure parse of the whole stream whenever it succeeds, fails whenever the parse fails, and equals the parse for a reader that never fails |
| `Mappers.Nrom.ChrLoadb` | nes/src/mapper/nrom.rs:29-35 | a CHR load returns the CHR ROM byte at the address |
| `Mappers.NromPrgMeaning` | nes/src/mapper/nrom.rs:17-25 | below 0x8000 PRG reads 0; a 32 KiB image maps 0x8000-0xFFFF straight through; a 16 KiB image is mirrored by the low 14 address bits |
| `Mappers.NromMirrorsSingleBank` | nes/src/mapper/nrom.rs:22-23 | with a single 16 KiB bank, 0xC000 + k reads the same byte as 0x8000 + k |
| `Mappers.NromStandardImagesMapped` | nes/src/mapper/nrom.rs:17-25 | for 16 KiB and 32 KiB images every PRG address is in bounds (no panic) |
| `Mappers.CreateMapper` | nes/src/mapper.rs:38-43 | a mapper is created exactly for iNES mapper 0, around the given ROM; any other number is reported as unsupported with that number |
| `Mappers.ParsedNromIsMapped` | nes/src/mapper.rs:38-43 | a successfully parsed one- or two-bank mapper-0 image yields a mapper whose every PRG address is in bounds and whose CHR is chr_rom_size × 8 KiB |
| `Mappers.Uxrom.constructor` | nes/src/mapper/uxrom.rs:13-16 | a new UxROM mapper selects bank 0 over the given ROM |
| `Mappers.Uxrom.PrgStoreb` | nes/src/mapper/uxrom.rs:42-44 | any PRG write selects bank `val & 0x0F` and leaves the ROM bytes alone |
| `Mappers.Uxrom.ChrLoadb` | nes/src/mapper/uxrom.rs:46-52 | a CHR load returns the PRG ROM byte at the address (as the source indexes it) |
| `Mappers.Uxrom.ChrStoreb` | nes/src/mapper/uxrom.rs:54-56 | a CHR store overwrites exactly that PRG ROM byte and keeps the bank |
| `Mappers.UxromPrgMeaning` | nes/src/mapper/uxrom.rs:20-40 | 0xC000 and above read the last bank, 0x8000-0xBFFF read the selected bank, lower addresses read 0 |
| `Mappers.UxromSwitchKeepsFixedBank` | nes/src/mapper/uxrom.rs:20-44 | a bank switch never changes what the fixed upper window reads |
| `CpuBus.Decode` | nes/src/cpubus.rs:54-69 | the address map: RAM below 0x2000, PPU ports to 0x3FFF, the controller at 0x4016, the APU on the rest of 0x4000-0x4018, nothing to 0x5FFF, the cartridge from 0x6000; the six regions partition the address space |
| `CpuBus.RamIndex` | nes/src/cpubus.rs:15-21 | the cell of an address (its low 11 bits) is always inside the 2 KiB array |
| `CpuBus.RamIndexMod` | nes/src/cpubus.rs:15-21 | the cell of an address is the address modulo 0x800, so addresses 0x800 apart share a cell |
| `CpuBus.BusLoadb` | nes/src/cpubus.rs:71-86 | a load keeps the bus invariant (2 KiB RAM, valid devices) |
| `CpuBus.BusStoreb` | nes/src/cpubus.rs:88-103 | a store keeps the bus invariant |
| `CpuBus.RamMirrors` | nes/src/cpubus.rs:15-17 | two RAM addresses that agree in their low 11 bits read the same byte; a RAM load changes no state |
| `CpuBus.RamStoreKeepsDevices` | nes/src/cpubus.rs:89-90 | a RAM store leaves PPU, controller, APU and cartridge untouched |
| `CpuBus.RamStoreReads` | nes/src/cpubus.rs:19-21 | after a RAM store, every mirror of the address reads the value and every other RAM address reads as before |
| `CpuBus.RamStoreKeepsDeviceReads` | nes/src/cpubus.rs:88-90 | a RAM store never changes what a non-RAM address reads |
| `CpuBus.UnmappedRange` | nes/src/cpubus.rs:63-64 | 0x4019-0x5FFF reads 0 and ignores writes |
| `CpuBus.StoreTouchesOnlyDecoded` | nes/src/cpubus.rs:88-103 | a store changes only the device its address decodes to |
| `CpuBus.LoadTouchesOnlyDecoded` | nes/src/cpubus.rs:71-86 | a load changes at most the device its address decodes to, and never RAM or the cartridge |
| `CpuBus.PeekAgreesWithLoad` | nes/src/cpubus.rs:54-86 | outside the PPU ports, peek and load return the same byte |
| `CpuBus.ControllerReadsInOrder` | nes/src/cpubus.rs:76-77 | a read of 0x4016 reports the button under the strobe and advances the strobe |
| `CpuBus.CpuBus.constructor` | nes/src/cpubus.rs:33-46 | a new bus has zeroed 2 KiB RAM around the given devices |
| `CpuBus.CpuBus.Peekb` | nes/src/cpubus.rs:54-69 | the class peek agrees with the value-level bus peek |
| `CpuBus.CpuBus.LoadPpu` | nes/src/cpubus.rs:74-75 | the PPU branch of a load moves the bus exactly as the value-level load |
| `CpuBus.CpuBus.LoadInput` | nes/src/cpubus.rs:76-77 | the controller branch of a load moves the bus exactly as the value-level load |
| `CpuBus.CpuBus.LoadApu` | nes/src/cpubus.rs:78-79 | the APU branch of a load moves the bus exactly as the value-level load |
| `CpuBus.CpuBus.Loadb` | nes/src/cpubus.rs:71-86 | a load on the bus object returns the value-level load's byte and new state, failing exactly when it fails |
| `CpuBus.CpuBus.StoreRam` | nes/src/cpubus.rs:89-90 | the RAM branch of a store moves the bus exactly as the value-level store |
| `CpuBus.CpuBus.StorePpu` | nes/src/cpubus.rs:91-92 | the PPU branch of a store moves the bus exactly as the value-level store |
| `CpuBus.CpuBus.StoreInput` | nes/src/cpubus.rs:93-94 | the controller branch of a store moves the bus exactly as the value-level store |
| `CpuBus.CpuBus.StoreApu` | nes/src/cpubus.rs:95-96 | the APU branch of a store moves the bus exactly as the value-level store |
| `CpuBus.CpuBus.Storeb` | nes/src/cpubus.rs:88-103 | a store on the bus object yields the value-level store's new state, failing exactly when it fails |
| `CpuBus.CpuBus.SetInput` | nes/src/nes.rs:40 | handing the frame's controller state to the bus changes only the gamepad |
| `CpuBus.CpuBus.StepApu` | nes/src/nes.rs:41 | stepping the APU through the bus changes only the APU, as the value-level APU step |
| `CpuBus.CpuBus.StepPpu` | nes/src/nes.rs:47 | stepping the PPU through the bus changes only the PPU, as the value-level PPU step |
| `Nes.InitialBus` | nes/src/nes.rs:22-29 | the freshly assembled bus satisfies the bus and APU invariants |
| `Nes.CartridgeImageReads` | nes/src/mapper/nrom.rs:17-25 | the CPU's power-on image holds the cartridge's PRG, as prg_loadb reads it, from 0x8000 up and zero below |
| `Nes.NesWithRom` | nes/src/nes.rs:22-35 | the assembled console satisfies the console invariant |
| `Nes.WithRomStart` | nes/src/nes.rs:31-34 | after assembly the CPU has been reset: pc is the cartridge's reset vector (the PRG word at 0xFFFC-0xFFFD), interrupts are disabled, s = 0xFD, no cycles counted; the PPU starts at its power-on position |
| `Nes.NesCpuPhase` | nes/src/nes.rs:39-42 | the CPU half of a console step fails exactly when the CPU step fails and otherwise keeps the invariant |
| `Nes.NesPpuSubStep` | nes/src/nes.rs:47-57 | one PPU dot with its interrupt delivery keeps the console invariant |
| `Nes.NesPpuSubSteps` | nes/src/nes.rs:46-58 | k PPU dots keep the console invariant |
| `Nes.NesStep` | nes/src/nes.rs:38-61 | a whole console step keeps the console invariant |
| `Nes.SubStepsNext` | nes/src/nes.rs:46-58 | k + 1 dots are k dots followed by one more, with the new-frame flags or-ed |
| `Nes.SubStepsFailStays` | nes/src/nes.rs:46-58 | once a dot fails, every longer run fails |
| `Nes.SubStepMeaning` | nes/src/nes.rs:47-57 | one dot advances the PPU by one cycle and changes nothing else on the bus; the CPU takes an NMI exactly when the PPU raised one and is otherwise untouched; new_frame is reported exactly at the end of a frame |
| `Nes.SubStepsAdvance` | nes/src/nes.rs:46-58 | k dots advance the PPU cycle count by exactly k and touch no other bus device |
| `Nes.NewFrameStep` | nes/src/nes.rs:55-57 | the new-frame flag after k + 1 dots is the flag after k dots or a frame end at dot k + 1 |
| `Nes.NewFrameMeaning` | nes/src/nes.rs:44-60 | the step reports a new frame exactly when one of its dots ends a frame |
| `Nes.StepThreeDots` | nes/src/nes.rs:38-61 | a console step runs one CPU step, installs the controller state, steps the APU once, runs exactly three PPU dots, never touches RAM outside the CPU, and reports new_frame exactly when one of the three dots ends a frame |
| `Nes.OnlyNmiReachesCpu` | nes/src/nes.rs:49-53 | a PPU dot changes the CPU only by an NMI, and only at scanline 241 dot 1 or on an immediate NMI from a control write |
| `Nes.Nes.constructor` | nes/src/nes.rs:34 | a console object wraps the given CPU and bus |
| `Nes.Nes.CpuPhase` | nes/src/nes.rs:39-42 | the CPU half of the step on the objects equals the value-level CPU half |
| `Nes.Nes.Deliver` | nes/src/nes.rs:49-53 | interrupt delivery on the objects equals the value-level delivery |
| `Nes.Nes.PpuSubStep` | nes/src/nes.rs:47-57 | one dot on the objects equals the value-level dot |
| `Nes.Nes.PpuPhase` | nes/src/nes.rs:46-58 | the three-dot loop on the objects equals three value-level dots |
| `Nes.Nes.Step` | nes/src/nes.rs:38-61 | a console step on the objects equals the value-level console step, failing exactly when it fails |
| `Nes.NewCpu` | nes/src/nes.rs:31-32 | a new CPU over the image is in the reset state of the value-level model |
| `Nes.NewBus` | nes/src/nes.rs:24-29 | a new bus object is valid and in the initial bus state |
| `Nes.WithRom` | nes/src/nes.rs:22-35 | assembly fails exactly for an unsupported mapper and otherwise yields a valid console in the value-level initial state |
| `PpuRegisters.PpuControl.BaseNametableAddr` | nes/src/ppu/registers.rs:16-24 | the base nametable is 0x2000, 0x2400, 0x2800 or 0x2C00 as selected by the two low control bits |
| `PpuRegisters.PpuControl.VramAddrIncrement` | nes/src/ppu/registers.rs:26-32 | the VRAM address step is 1 or 32 |
| `PpuRegisters.PpuControl.SpritePatternTableAddress` | nes/src/ppu/registers.rs:34-40 | the sprite pattern table is at 0x1000 exactly when control bit 3 is set, else at 0 |
| `PpuRegisters.PpuControl.BackgroundPatternTableAddress` | nes/src/ppu/registers.rs:42-48 | the background pattern table is at 0x1000 exactly when control bit 4 is set, else at 0 |
| `PpuRegisters.StatusGetMeaning` | nes/src/ppu/registers.rs:179-182 | a status read reports sprite overflow, sprite-zero hit and vblank in bits 5-7 and the low five bits of the last register write |
| `PpuRegisters.SetSpriteOverflowOnly` | nes/src/ppu/registers.rs:155-157 | setting the overflow flag changes that flag alone |
| `PpuRegisters.SetSpriteZeroHitOnly` | nes/src/ppu/registers.rs:159-161 | setting the sprite-zero flag changes that flag alone |
| `PpuRegisters.SetVblankStartedOnly` | nes/src/ppu/registers.rs:163-165 | setting the vblank flag changes that flag alone |
| `PpuRegisters.IncrementAddrMeaning` | nes/src/ppu/registers.rs:302-304 | the address increment succeeds exactly when it does not overflow 16 bits (the unchecked add panics otherwise) and then adds the step to v |
| `PpuRegisters.StoreCtrlBits` | nes/src/ppu/registers.rs:222-225 | a control write puts the two nametable bits into t bits 10-11, keeps the other bits of t below bit 15, clears bit 15 and changes nothing else |
| `PpuRegisters.StoreScrollFirstBits` | nes/src/ppu/registers.rs:227-235 | the first scroll write sets fine x and coarse x in t, keeps the rest of t and v, and flips the latch |
| `PpuRegisters.StoreScrollSecondBits` | nes/src/ppu/registers.rs:236-242 | the second scroll write sets fine y and coarse y in t, keeps the nametable and coarse x bits, clears bit 15, and resets the latch |
| `PpuRegisters.StoreAddrFirstBits` | nes/src/ppu/registers.rs:244-249 | the first address write sets t bits 8-13 from the value, clears bits 14-15, keeps the low byte and flips the latch |
| `PpuRegisters.StoreAddrSecondBits` | nes/src/ppu/registers.rs:250-256 | the second address write sets the low byte of t, keeps bits 8-14, copies t into v and resets the latch |
| `PpuRegisters.StoreAddrPair` | nes/src/ppu/registers.rs:244-256 | two address writes hi, lo leave v = (hi & 0x3F) << 8 \| lo with the latch back at the first write |
| `PpuRegisters.StoreScrollPair` | nes/src/ppu/registers.rs:227-242 | two scroll writes set fine and coarse x from the first byte, fine and coarse y from the second, keep the nametable bits, and leave the latch at the first write |
| `PpuRegisters.IncrementHMeaning` | nes/src/ppu/registers.rs:266-273 | the horizontal increment adds one to coarse x modulo 32 and flips the horizontal nametable bit exactly on wrap; all other v bits and registers are kept |
| `PpuRegisters.IncrementVFine` | nes/src/ppu/registers.rs:279-280 | below fine y 7 the vertical increment adds one to fine y and keeps every other bit |
| `PpuRegisters.FineYStep` | nes/src/ppu/registers.rs:280 | adding 0x1000 to an address with fine y below 7 cannot carry out of the fine-y field |
| `PpuRegisters.IncrementVCoarse` | nes/src/ppu/registers.rs:281-299 | at fine y 7 the vertical increment zeroes fine y and steps coarse y, wrapping at 29 with a nametable flip, at 31 without one, and otherwise adding one; coarse x and the horizontal nametable bit are kept |
| `PpuRegisters.CopyHMeaning` | nes/src/ppu/registers.rs:306-308 | copy_h copies coarse x and the horizontal nametable bit from t into v and keeps the other bits |
| `PpuRegisters.CopyVMeaning` | nes/src/ppu/registers.rs:310-312 | copy_v copies fine y, coarse y and the vertical nametable bit from t into v and keeps the other bits |
| `PpuRegisters.FetchAddressesInRange` | nes/src/ppu/registers.rs:318-340 | tile fetches address 0x2000-0x2FFF, attribute fetches address the attribute area 0x23C0 + nametable, the quadrant is 0-3 and fine y 0-7 |
| `PpuRegisters.VtwxUnitTests` | nes/src/ppu/registers.rs:348-623 | the register unit tests' concrete before and after values hold in the model |
| `PpuRegisters.Vtwx.constructor` | nes/src/ppu/registers.rs:213-220 | new registers are all zero with the latch at the first write |
| `PpuRegisters.Vtwx.StoreCtrl` | nes/src/ppu/registers.rs:222-225 | the object update equals the value-level control write |
| `PpuRegisters.Vtwx.StoreScroll` | nes/src/ppu/registers.rs:227-242 | the object update equals the value-level scroll write |
| `PpuRegisters.Vtwx.StoreAddr` | nes/src/ppu/registers.rs:244-256 | the object update equals the value-level address write |
| `PpuRegisters.Vtwx.ResetLatch` | nes/src/ppu/registers.rs:258-260 | resetting the latch puts it at the first write and changes nothing else |
| `PpuRegisters.Vtwx.IncrementH` | nes/src/ppu/registers.rs:266-273 | the object update equals the value-level horizontal increment |
| `PpuRegisters.Vtwx.IncrementV` | nes/src/ppu/registers.rs:275-300 | the object update equals the value-level vertical increment |
| `PpuRegisters.Vtwx.IncrementAddr` | nes/src/ppu/registers.rs:302-304 | the object increment fails, leaving the registers alone, exactly when the value-level one overflows |
| `PpuRegisters.Vtwx.CopyH` | nes/src/ppu/registers.rs:306-308 | the object update equals the value-level copy_h |
| `PpuRegisters.Vtwx.CopyV` | nes/src/ppu/registers.rs:310-312 | the object update equals the value-level copy_v |
| `PpuTiming.PosStep` | nes/src/ppu/mod.rs:44-50 | every dot adds one to the cycle count |
| `PpuTiming.PosStepInv` | nes/src/ppu/mod.rs:44-64 | a step keeps pixel ≤ 340 and scanline ≤ 261 and counts a frame exactly when it leaves the last dot of scanline 261 |
| `PpuTiming.PosStepMeaning` | nes/src/ppu/mod.rs:44-64 | a step advances the pixel, or moves to dot 0 of the next scanline, or after scanline 261 to dot 0 of scanline 0 of the next frame; on odd frames with rendering on, dot 339 of scanline 261 is the last |
| `PpuTiming.PosStepsAdd` | nes/src/ppu/mod.rs:44-64 | a + b steps are a steps followed by b steps |
| `PpuTiming.RestOfLine` | nes/src/ppu/mod.rs:44-64 | from any dot of a scanline before 261, 341 - pixel steps reach dot 0 of the next scanline in the same frame |
| `PpuTiming.NtSchedule` | nes/src/ppu/mod.rs:76-84 | nametable fetches happen at dot 8k + 1 for the 31 visible tile groups and the two prefetch groups at 321 and 329 |
| `PpuTiming.AtSchedule` | nes/src/ppu/mod.rs:86-94 | attribute fetches happen two dots after each nametable fetch |
| `PpuTiming.PatLoSchedule` | nes/src/ppu/mod.rs:96-104 | low pattern fetches happen four dots after each nametable fetch |
| `PpuTiming.PatHiSchedule` | nes/src/ppu/mod.rs:106-114 | high pattern fetches happen six dots after each nametable fetch |
| `PpuTiming.IncScrollHSchedule` | nes/src/ppu/mod.rs:120-128 | the horizontal scroll increments at the end of each tile group |
| `PpuTiming.SpriteFetchSchedule` | nes/src/ppu/mod.rs:140-162 | the sprite fetches for the eight slots fall at dots 257-320 with offsets 1, 3, 4, 5 and 7 within each group; attribute and at-cycle lists coincide |
| `PpuTiming.SpriteSlotInRange` | nes/src/ppu/mod.rs:140-162 | every sprite fetch dot maps to a sprite slot 0-7 (px / 8 - 32) |
| `PpuTiming.BackgroundFetchesDisjoint` | nes/src/ppu/mod.rs:76-118 | no dot does two background fetches, and the garbage nametable dots 337 and 339 do none of them |
| `PpuTiming.LatchFollowsFetches` | nes/src/ppu/mod.rs:106-138 | two dots after every high pattern fetch the shifters latch the fetched tile |
| `PpuOam.NewOamInv` | nes/src/ppu/oam.rs:29-38 | a new OAM has 256 primary bytes, 32 secondary bytes, address 0, n = 0 and is waiting to read a Y position |
| `PpuOam.OamIncrementAddr` | nes/src/ppu/oam.rs:64-66 | the OAM address stays below 0x100 |
| `PpuOam.OamAddrMeaning` | nes/src/ppu/oam.rs:56-66 | the increment wraps 0xFF to 0 and otherwise adds one; set and reset store the byte or 0; nothing else changes |
| `PpuOam.OamResetOam2` | nes/src/ppu/oam.rs:72-77 | resetting fills secondary OAM with 0xFF and restarts evaluation at sprite 0, slot 0, reading a Y position; primary OAM and the address are kept |
| `PpuOam.InRangeMeaning` | nes/src/ppu/oam.rs:79-82 | a sprite at Y covers the scanline exactly when Y ≤ line < Y + 8 |
| `PpuOam.OamIncrementN` | nes/src/ppu/oam.rs:188-190 | the sprite counter n stays below 64 |
| `PpuOam.AfterIncrementN` | nes/src/ppu/oam.rs:140-150 | the bookkeeping after incrementing n never stays in the IncrementN state |
| `PpuOam.OamSpriteEval` | nes/src/ppu/oam.rs:84-186 | one evaluation tick keeps the OAM invariant (sizes, index bounds) and never changes primary OAM or the OAM address |
| `PpuOam.OverflowOnlyOnDetectionHit` | nes/src/ppu/oam.rs:154-160 | a tick reports sprite overflow exactly when it is in overflow detection and the byte read covers the scanline; it then moves to the extra reads |
| `PpuOam.OverflowMissAdvances` | nes/src/ppu/oam.rs:161-172 | a miss in overflow detection moves to the next byte m + 1 (the hardware's diagonal read), or after m = 3 to the next sprite, or after the last sprite to the busy loop |
| `PpuOam.BusyLoopOnlyAdvancesN` | nes/src/ppu/oam.rs:182 | the busy loop only counts n modulo 64 and never reports overflow |
| `PpuOam.IncrementNDropsNestedOverflow` | nes/src/ppu/oam.rs:140-153 | when the nested bookkeeping tick enters overflow detection and detects an overflow, the flag it returns is dropped, so the outer tick reports none although the state has moved to the extra reads |
| `PpuOam.OamTicks` | nes/src/ppu/oam.rs:84-186 | any number of ticks keeps the OAM invariant |
| `PpuOam.TicksUnfold` | nes/src/ppu/oam.rs:84-186 | k ticks are one tick followed by k - 1 ticks |
| `PpuOam.TicksAdd` | nes/src/ppu/oam.rs:84-186 | a + b ticks are a ticks followed by b ticks |
| `PpuOam.CopyByte` | nes/src/ppu/oam.rs:109-139 | a read tick and its write tick copy byte k of the current sprite to slot oam2_index, advancing the slot after the fourth byte |
| `PpuOam.InRangeSpriteCopied` | nes/src/ppu/oam.rs:89-139 | eight ticks from reading the Y of a sprite that covers the scanline copy its four bytes into the next secondary slot, leave the other secondary bytes alone and reach IncrementN |
| `PpuOam.FourUpdates` | nes/src/ppu/oam.rs:94-139 | four single-byte writes j..j+3 copy a four-byte block and leave the rest alone |
| `PpuOam.OverflowHitReachesBusyLoop` | nes/src/ppu/oam.rs:174-181 | after an overflow hit, four ticks of extra reads advance n once and reach the busy loop without touching secondary OAM |
| `PpuOam.OamStoreb` | nes/src/ppu/oam.rs:198-200 | a store writes exactly the addressed primary byte and changes nothing else |
| `PpuOam.Oam.constructor` | nes/src/ppu/oam.rs:29-38 | the object starts in the new-OAM state |
| `PpuOam.Oam.SpriteY` | nes/src/ppu/oam.rs:40-42 | byte 0 of secondary sprite i |
| `PpuOam.Oam.SpriteAddr` | nes/src/ppu/oam.rs:44-46 | byte 1 of secondary sprite i |
| `PpuOam.Oam.SpriteAttr` | nes/src/ppu/oam.rs:48-50 | byte 2 of secondary sprite i |
| `PpuOam.Oam.SpriteX` | nes/src/ppu/oam.rs:52-54 | byte 3 of secondary sprite i |
| `PpuOam.Oam.ResetAddr` | nes/src/ppu/oam.rs:56-58 | the object update equals the value-level reset |
| `PpuOam.Oam.SetAddr` | nes/src/ppu/oam.rs:60-62 | the object update equals the value-level set |
| `PpuOam.Oam.IncrementAddr` | nes/src/ppu/oam.rs:64-66 | the object update equals the value-level increment |
| `PpuOam.Oam.ResetOam2` | nes/src/ppu/oam.rs:72-77 | the fill loop over the secondary array equals the value-level reset |
| `PpuOam.Oam.SpriteEval` | nes/src/ppu/oam.rs:84-186 | one evaluation tick on the object equals the value-level tick, state and overflow flag |
| `PpuOam.Oam.Bookkeep` | nes/src/ppu/oam.rs:140-150 | the IncrementN branch's state choice on the object equals the value-level bookkeeping |
| `PpuOam.Oam.EndTick` | nes/src/ppu/oam.rs:174-182 | the extra-read and busy-loop branches on the object equal the value-level tick and report no overflow |
| `PpuOam.Oam.ReadPrimary` | nes/src/ppu/oam.rs:89-132 | the four read branches on the object equal the value-level tick |
| `PpuOam.Oam.WriteSecondary` | nes/src/ppu/oam.rs:94-139 | the four write branches on the object equal the value-level tick |
| `PpuOam.Oam.DetectOverflow` | nes/src/ppu/oam.rs:154-173 | the overflow-detection branch on the object equals the value-level tick |
| `PpuOam.Oam.IncrementNCounter` | nes/src/ppu/oam.rs:188-190 | n becomes (n + 1) mod 64 and nothing else changes |
| `PpuOam.Oam.Peekb` | nes/src/ppu/oam.rs:194-196 | a peek reads the primary byte |
| `PpuOam.Oam.Storeb` | nes/src/ppu/oam.rs:198-200 | the object store equals the value-level store |
| `PpuShifters.PsStoreAttribute` | nes/src/ppu/shifters.rs:21-24 | attribute bit 0 and bit 1 become all-ones or all-zero latches; nothing else changes |
| `PpuShifters.OrLow` | nes/src/ppu/shifters.rs:45-50 | or-ing a latch into a 16-bit shifter keeps its high byte and ors the low byte |
| `PpuShifters.PlaneBits` | nes/src/ppu/shifters.rs:30-35 | a two-plane pixel value is 0-3: bit 15 - fine_x of the high plane times 2 plus that bit of the low plane |
| `PpuShifters.ShiftLeftBits` | nes/src/ppu/shifters.rs:59-65 | a 16-bit left shift moves bit k to bit k + 1 |
| `PpuShifters.ShiftPlaneBits` | nes/src/ppu/shifters.rs:52-65 | after a shift, pixel fine_x reads what pixel fine_x + 1 read before |
| `PpuShifters.ShiftMovesPixelsLeft` | nes/src/ppu/shifters.rs:30-65 | shifting moves both the pattern and the attribute pixels one place towards the output |
| `PpuShifters.LoadLatchesMeaning` | nes/src/ppu/shifters.rs:45-50 | loading the latches keeps the high bytes and, into an emptied low byte, puts the latched tile |
| `PpuShifters.LatchReachesHighByte` | nes/src/ppu/shifters.rs:45-65 | after eight shifts a latched byte sits in the high byte where pixels are read |
| `PpuShifters.PatternShifter.constructor` | nes/src/ppu/shifters.rs:1-14 | a new shifter is all zero |
| `PpuShifters.PatternShifter.StoreNametable` | nes/src/ppu/shifters.rs:17-19 | the object update equals the value-level update |
| `PpuShifters.PatternShifter.StoreAttribute` | nes/src/ppu/shifters.rs:21-24 | the object update equals the value-level update |
| `PpuShifters.PatternShifter.LoadPatternLo` | nes/src/ppu/shifters.rs:37-39 | the object update equals the value-level update |
| `PpuShifters.PatternShifter.LoadPatternHi` | nes/src/ppu/shifters.rs:41-43 | the object update equals the value-level update |
| `PpuShifters.PatternShifter.LoadPatternLatches` | nes/src/ppu/shifters.rs:45-50 | the object update equals the value-level update |
| `PpuShifters.PatternShifter.Shift` | nes/src/ppu/shifters.rs:59-65 | the object update equals the value-level shift |
| `PpuShifters.SsSetX` | nes/src/ppu/sprite.rs:17-19 | sets the X counter and nothing else |
| `PpuShifters.SsSetAttributes` | nes/src/ppu/sprite.rs:21-23 | sets the attribute latch and nothing else |
| `PpuShifters.SsSetPatternLo` | nes/src/ppu/sprite.rs:25-27 | sets the low pattern byte and nothing else |
| `PpuShifters.SsSetPatternHi` | nes/src/ppu/sprite.rs:29-31 | sets the high pattern byte and nothing else |
| `PpuShifters.SsPalette` | nes/src/ppu/sprite.rs:33-35 | the sprite palette is 0-3 |
| `PpuShifters.SsPriority` | nes/src/ppu/sprite.rs:37-43 | the sprite is behind the background exactly when attribute bit 5 is set |
| `PpuShifters.PixelBits` | nes/src/ppu/sprite.rs:58-77 | a sprite pixel value is 0-3 |
| `PpuShifters.SsShift` | nes/src/ppu/sprite.rs:58-77 | a shift outputs bit 0 (mirrored) or bit 7 of both planes and shifts both planes right or left accordingly |
| `PpuShifters.SsTick` | nes/src/ppu/sprite.rs:49-56 | while the X counter is positive a tick counts down and outputs 0; at 0 it shifts out a pixel 0-3 and keeps the counter and attributes |
| `PpuShifters.ShiftLeftByteBits` | nes/src/ppu/sprite.rs:72-73 | an 8-bit left shift moves bit k to bit k + 1 |
| `PpuShifters.ShiftRightByteBits` | nes/src/ppu/sprite.rs:66-67 | an 8-bit right shift moves bit k to bit k - 1 |
| `PpuShifters.TickMovesRow` | nes/src/ppu/sprite.rs:49-77 | once the counter is 0, each tick moves every remaining pixel one place towards the output end |
| `PpuShifters.SpriteRowOrder` | nes/src/ppu/sprite.rs:49-77 | k ticks at counter 0 output the sprite row left to right: bits 7 down to 0, or 0 up to 7 when mirrored |
| `PpuShifters.SpriteShift.constructor` | nes/src/ppu/sprite.rs:8-14 | a new sprite shifter is all zero |
| `PpuShifters.SpriteShift.SetX` | nes/src/ppu/sprite.rs:17-19 | the object update equals the value-level update |
| `PpuShifters.SpriteShift.SetAttributes` | nes/src/ppu/sprite.rs:21-23 | the object update equals the value-level update |
| `PpuShifters.SpriteShift.SetPatternLo` | nes/src/ppu/sprite.rs:25-27 | the object update equals the value-level update |
| `PpuShifters.SpriteShift.SetPatternHi` | nes/src/ppu/sprite.rs:29-31 | the object update equals the value-level update |
| `PpuShifters.SpriteShift.Tick` | nes/src/ppu/sprite.rs:49-56 | the object tick equals the value-level tick |
| `PpuShifters.SpriteShift.Shift` | nes/src/ppu/sprite.rs:58-77 | the object shift equals the value-level shift |
| `PpuVram.VramDecode` | nes/src/ppu/vram.rs:24-36 | after masking to 14 bits, below 0x2000 is CHR, below 0x3F00 a nametable byte (index below 0x800), the rest a palette entry (index below 0x20) |
| `PpuVram.NewVram` | nes/src/ppu/vram.rs:14-20 | a new VRAM has zeroed nametables and palette over the given mapper |
| `PpuVram.VramStoreb` | nes/src/ppu/vram.rs:38-55 | a store keeps the nametable and palette sizes |
| `PpuVram.DecodeIgnoresHighBits` | nes/src/ppu/vram.rs:25 | the top two address bits are ignored |
| `PpuVram.NametableMirrors` | nes/src/ppu/vram.rs:28-29 | 0x2000 + k and 0x2800 + k are the same nametable byte, and 0x3000-0x3EFF mirrors 0x2000-0x2EFF |
| `PpuVram.PaletteMirrors` | nes/src/ppu/vram.rs:30-31 | 0x3F00-0x3FFF repeats the 32 palette entries |
| `PpuVram.ChrStoreKeepsState` | nes/src/ppu/vram.rs:38-42 | a CHR store changes no VRAM state (the NROM CHR write is ignored) |
| `PpuVram.NametableStoreMeaning` | nes/src/ppu/vram.rs:42-44 | a nametable store is read back, keeps the palette and changes no other readable location |
| `PpuVram.PaletteStoreMeaning` | nes/src/ppu/vram.rs:45-51 | a palette store writes one entry; a write to entry 0x10 lands in entry 0 instead, so 0x3F00 reads it and 0x3F10 keeps its old value |
| `PpuVram.Vram.constructor` | nes/src/ppu/vram.rs:14-20 | the object starts in the new-VRAM state |
| `PpuVram.Vram.Peekb` | nes/src/ppu/vram.rs:24-36 | the object peek equals the value-level peek |
| `PpuVram.Vram.Storeb` | nes/src/ppu/vram.rs:38-55 | the object store equals the value-level store |
| `PpuColors.FromByte` | nes/src/ppu/rgb.rs:252-257 | a colour index below 0x40 selects that entry of the 64-entry palette; a larger one is the out-of-bounds panic |
| `PpuColors.ColorsLandmarks` | nes/src/ppu/rgb.rs:1-242 | the colour table has 64 entries with grey at 0x00, black at 0x0D-0x0F and white at 0x30 |
| `FrameBuffer.Frame.constructor` | nes/src/frame_buffer.rs:11-14 | a new frame is 256 × 240 × 3 zero bytes |
| `FrameBuffer.Frame.Set` | nes/src/frame_buffer.rs:31-35 | writing one byte of a frame changes only that byte |
| `FrameBuffer.PoolGet` | nes/src/frame_buffer.rs:56-58 | taking a frame fails exactly on an empty pool and otherwise removes one frame |
| `FrameBuffer.PutThenGet` | nes/src/frame_buffer.rs:52-58 | a frame put into the pool is the next one taken, leaving the pool as before |
| `FrameBuffer.PutPutGetGet` | nes/src/frame_buffer.rs:52-58 | the pool is last in, first out |
| `FrameBuffer.FrameBuffer.constructor` | nes/src/frame_buffer.rs:42-50 | a new pool holds three distinct fresh frames |
| `FrameBuffer.FrameBuffer.Put` | nes/src/frame_buffer.rs:52-54 | put pushes the frame on the pool |
| `FrameBuffer.FrameBuffer.Get` | nes/src/frame_buffer.rs:56-58 | get equals the value-level pop |
| `Ppu.NewPpu` | nes/src/ppu/mod.rs:181-199 | a new PPU (position 0, zeroed registers, new VRAM, OAM and shifters, no pending NMI) satisfies the PPU invariant |
| `Ppu.PaletteAddr` | nes/src/ppu/mod.rs:455 | a palette address is base + 4 × palette + pattern and decodes to that palette entry |
| `Ppu.TickAll` | nes/src/ppu/mod.rs:438-440 | ticking every sprite unit ticks each one once, in place |
| `Ppu.FirstOpaque` | nes/src/ppu/mod.rs:446-463 | the chosen sprite is the lowest-numbered unit whose tick output is non-zero; None when all are transparent |
| `Ppu.PpuSpritePixel` | nes/src/ppu/mod.rs:431-466 | the sprite pixel ticks all eight units whether or not sprites are shown, and yields a hit only when sprites are shown at this dot |
| `Ppu.PixelChoiceMeaning` | nes/src/ppu/mod.rs:492-517 | a sprite pixel wins over a transparent background or when in front; the background wins when transparent sprites or the sprite is behind; otherwise the universal background; sprite-zero hit is set exactly when both are opaque, the sprite is unit 0 and the line is not 255 |
| `Ppu.PixelOffsetsDisjoint` | nes/src/ppu/mod.rs:519-525 | every visible pixel's three bytes lie inside the frame, and different pixels never share a byte |
| `Ppu.Paint` | nes/src/ppu/mod.rs:519-525 | painting keeps the frame size |
| `Ppu.PpuApplyPixel` | nes/src/ppu/mod.rs:496-525 | applying the chosen colour changes only the screen and the status flags, never the last-write bits |
| `Ppu.PpuOutputPixel` | nes/src/ppu/mod.rs:492-526 | outputting a pixel changes only the screen, the sprite units and the status flags |
| `Ppu.PaintChangesOnePixel` | nes/src/ppu/mod.rs:519-525 | painting writes r, g, b at 3 × (256 × line + px) and leaves every other byte alone |
| `Ppu.OutputPixelPaints` | nes/src/ppu/mod.rs:492-526 | the painted colour is the colour-table entry of the chosen pixel, the sprite units are ticked once, and sprite-zero hit is set or kept exactly as the choice says |
| `Ppu.PpuFetchAttribute` | nes/src/ppu/mod.rs:367-379 | the attribute fetch yields a palette number 0-3 |
| `Ppu.PatternOr` | nes/src/ppu/mod.rs:409 | the or of pattern-address parts without bits 13-15 stays below 0x2000 |
| `Ppu.PatternAddr` | nes/src/ppu/mod.rs:403-410 | a background pattern address lies in the CHR space below 0x2000 |
| `Ppu.SpriteRow` | nes/src/ppu/mod.rs:412-425 | the sprite row is line - Y, or 7 - (line - Y) when flipped vertically (saturating at 0), or 0 for a sprite below the line; the pre-render line counts as line 0 |
| `Ppu.SpritePatternAddr` | nes/src/ppu/mod.rs:412-429 | a sprite pattern address lies in the CHR space below 0x2000 |
| `Ppu.PatternReadable` | nes/src/ppu/mod.rs:381-401 | a pattern address is a CHR address and reads without panic exactly when it is inside the CHR ROM |
| `Ppu.PpuVtwxUpdate` | nes/src/ppu/mod.rs:265-274 | the scroll updates of a rendering dot never change fine x |
| `Ppu.PpuBackgroundFetch` | nes/src/ppu/mod.rs:276-291 | the background fetches change only the pattern shifter |
| `Ppu.PpuSpriteSetup` | nes/src/ppu/mod.rs:298-306 | setting up a sprite unit from secondary OAM changes only the sprite units |
| `Ppu.PpuSpritePatternFetch` | nes/src/ppu/mod.rs:319-331 | a sprite pattern fetch changes only the sprite units |
| `Ppu.PpuSpriteEvalOrFetch` | nes/src/ppu/mod.rs:308-331 | sprite evaluation or fetching keeps the invariant and touches no status flag outside the visible lines |
| `Ppu.PpuSpriteFetch` | nes/src/ppu/mod.rs:293-331 | the sprite side of a dot keeps the invariant and touches no status flag outside the visible lines |
| `Ppu.PpuRenderFetches` | nes/src/ppu/mod.rs:264-332 | the rendering work of a dot keeps the invariant, the position and the pending NMI |
| `Ppu.StepFlags` | nes/src/ppu/mod.rs:250-262 | the flag updates change only the status register |
| `Ppu.PpuLatchAndOutput` | nes/src/ppu/mod.rs:242-248 | the latch and pixel output keep the invariant, position, pending NMI, control and mask |
| `Ppu.PpuFetchAndShift` | nes/src/ppu/mod.rs:264-336 | the fetches and shift keep the invariant, the position and the pending NMI |
| `Ppu.PpuStep` | nes/src/ppu/mod.rs:227-341 | a dot keeps the PPU invariant, never raises the scanline IRQ, clears the pending NMI and advances the position by one step |
| `Ppu.VblankStarts` | nes/src/ppu/mod.rs:251-256 | at scanline 241 dot 1 the vblank flag is set, an NMI is reported exactly when NMI generation is on or one was pending, and no new frame is reported |
| `Ppu.FrameEnds` | nes/src/ppu/mod.rs:257-262 | at scanline 261 dot 1 a new frame is reported and vblank, sprite-zero hit and overflow are cleared; an NMI is reported only if one was pending |
| `Ppu.StepReports` | nes/src/ppu/mod.rs:228-262 | new_frame is reported exactly at scanline 261 dot 1; an NMI only when pending or at scanline 241 dot 1; a pending NMI is always reported |
| `Ppu.PpuLoadb` | nes/src/ppu/mod.rs:544-594 | a register read keeps the PPU invariant |
| `Ppu.PpuLoadData` | nes/src/ppu/mod.rs:576-591 | a data-port read keeps the PPU invariant |
| `Ppu.PpuStoreb` | nes/src/ppu/mod.rs:596-639 | a register write keeps the invariant, records the written byte as the last write and never moves the position |
| `Ppu.PpuStoreCtrl` | nes/src/ppu/mod.rs:600-619 | a control write keeps the invariant, records the byte and never moves the position |
| `Ppu.PpuStoreData` | nes/src/ppu/mod.rs:630-636 | a data-port write keeps the invariant, records the byte and never moves the position |
| `Ppu.PortsMirror` | nes/src/ppu/mod.rs:531-599 | the eight registers repeat every eight addresses for peek, load and store |
| `Ppu.StatusReadMeaning` | nes/src/ppu/mod.rs:554-559 | a status read returns what a peek shows, then clears vblank, keeps the other flags and resets the write latch |
| `Ppu.DataReadBuffered` | nes/src/ppu/mod.rs:576-591 | a data read below 0x3F00 returns the old buffer, and from the palette the fresh byte; the buffer is refilled from v and v advances by the control increment |
| `Ppu.DataWriteMeaning` | nes/src/ppu/mod.rs:630-636 | a data write succeeds exactly when v + increment does not overflow 16 bits; it stores through VRAM at v and advances v |
| `Ppu.OamDataWriteMeaning` | nes/src/ppu/mod.rs:623-627 | an OAM data write stores at the OAM address and advances it modulo 256 |
| `Ppu.OamDataReadMeaning` | nes/src/ppu/mod.rs:564-567 | an OAM data read returns the byte at the OAM address and changes nothing |
| `Ppu.CtrlIgnoredUntilWarm` | nes/src/ppu/mod.rs:600-603 | before the first frame ends, a control write only records the last-write byte |
| `Ppu.CtrlWriteMeaning` | nes/src/ppu/mod.rs:613-618 | after warm-up a supported control write sets the control register and the nametable bits of t, and enabling NMI during vblank makes the next dot report an NMI |
| `Ppu.CtrlUnsupportedBits` | nes/src/ppu/mod.rs:605-611 | after warm-up a control write fails (the source panics) exactly when bit 5 or bit 6 is set |
| `Ppu.Ppu.constructor` | nes/src/ppu/mod.rs:181-199 | the object starts in the new-PPU state drawing into the given frame |
| `Ppu.Ppu.TickUnits` | nes/src/ppu/mod.rs:438-463 | the loop over the eight units ticks each once and finds the value-level sprite hit |
| `Ppu.Ppu.SpritePixel` | nes/src/ppu/mod.rs:431-466 | the object sprite pixel equals the value-level one and changes only the sprite units |
| `Ppu.Ppu.BackgroundPixel` | nes/src/ppu/mod.rs:468-485 | the object background pixel equals the value-level one |
| `Ppu.Ppu.PaintPixel` | nes/src/ppu/mod.rs:519-525 | the three array writes equal the value-level paint |
| `Ppu.Ppu.ApplyPixel` | nes/src/ppu/mod.rs:496-525 | the object update equals the value-level colour choice and paint |
| `Ppu.Ppu.OutputPixel` | nes/src/ppu/mod.rs:492-526 | the object update equals the value-level pixel output |
| `Ppu.Ppu.FetchNametable` | nes/src/ppu/mod.rs:362-365 | the object fetch equals the value-level nametable fetch |
| `Ppu.Ppu.FetchAttribute` | nes/src/ppu/mod.rs:367-379 | the object fetch equals the value-level attribute fetch |
| `Ppu.Ppu.BackgroundFetch` | nes/src/ppu/mod.rs:276-291 | the object update equals the value-level background fetches |
| `Ppu.Ppu.SpriteSetup` | nes/src/ppu/mod.rs:298-306 | the object update equals the value-level unit setup |
| `Ppu.Ppu.SpritePatternByte` | nes/src/ppu/mod.rs:319-330 | the object read equals the value-level sprite pattern byte, with the dummy-read rule |
| `Ppu.Ppu.SpritePatternFetch` | nes/src/ppu/mod.rs:319-331 | the object update equals the value-level sprite pattern fetch |
| `Ppu.Ppu.SpriteEvalOrFetch` | nes/src/ppu/mod.rs:308-331 | the object update equals the value-level evaluation or fetch |
| `Ppu.Ppu.UpdateVtwx` | nes/src/ppu/mod.rs:265-274 | the object update equals the value-level scroll update |
| `Ppu.Ppu.Flags` | nes/src/ppu/mod.rs:250-262 | the object update equals the value-level flag update |
| `Ppu.Ppu.RenderFetches` | nes/src/ppu/mod.rs:264-332 | the object update equals the value-level rendering work |
| `Ppu.Ppu.LatchAndOutput` | nes/src/ppu/mod.rs:242-248 | the object update equals the value-level latch and output |
| `Ppu.Ppu.FetchAndShift` | nes/src/ppu/mod.rs:264-336 | the object update equals the value-level fetches and shift |
| `Ppu.Ppu.Step` | nes/src/ppu/mod.rs:227-341 | a dot on the object equals the value-level dot, failing exactly when it fails |
| `Ppu.Ppu.Peekb` | nes/src/ppu/mod.rs:530-542 | the object peek equals the value-level register peek |
| `Ppu.Ppu.LoadData` | nes/src/ppu/mod.rs:576-591 | the object data read equals the value-level data read |
| `Ppu.Ppu.Loadb` | nes/src/ppu/mod.rs:544-594 | the object register read equals the value-level read |
| `Ppu.Ppu.StoreCtrl` | nes/src/ppu/mod.rs:600-619 | the object control write equals the value-level control write |
| `Ppu.Ppu.StoreData` | nes/src/ppu/mod.rs:630-636 | the object data write equals the value-level data write |
| `Ppu.Ppu.StoreOamData` | nes/src/ppu/mod.rs:623-627 | the object OAM data write stores then advances the OAM address |
| `Ppu.Ppu.Storeb` | nes/src/ppu/mod.rs:596-639 | the object register write equals the value-level write |
| `ApuCounters.DividerCountdown` | nes/src/audio/divider.rs:22-30 | from counter c, c + 1 clocks output c times false then once true, and leave the counter reloaded with the period |
| `ApuCounters.DividerPeriodic` | nes/src/audio/divider.rs:14-30 | a reloaded divider with period p fires once every p + 1 clocks and returns to the same state |
| `ApuCounters.Divider.constructor` | nes/src/audio/divider.rs:7-12 | a new divider has counter and period 0 |
| `ApuCounters.Divider.Reload` | nes/src/audio/divider.rs:14-16 | reload sets the counter to the period |
| `ApuCounters.Divider.SetPeriod` | nes/src/audio/divider.rs:18-20 | set_period changes the period only |
| `ApuCounters.Divider.Clock` | nes/src/audio/divider.rs:22-30 | the object clock equals the value-level clock |
| `ApuCounters.EnvelopeStart` | nes/src/audio/envelope.rs:51-54 | a clock with the start flag clears it, sets the decay level to 15 and loads the volume period into the divider period |
| `ApuCounters.EnvelopeDecay` | nes/src/audio/envelope.rs:55-67 | otherwise the decay level drops by one each time the divider fires, reloads to 15 at 0 with the loop flag, and stays 0 without it |
| `ApuCounters.EnvelopeClockKeepsInv` | nes/src/audio/envelope.rs:50-68 | the decay level stays within 0-15 |
| `ApuCounters.Envelope.constructor` | nes/src/audio/envelope.rs:39-48 | a new envelope is all zero and false |
| `ApuCounters.Envelope.Clock` | nes/src/audio/envelope.rs:50-68 | the object clock equals the value-level clock |
| `ApuCounters.Envelope.Restart` | nes/src/audio/envelope.rs:70-72 | restart sets the start flag only |
| `ApuCounters.Envelope.SetLoop` | nes/src/audio/envelope.rs:74-76 | sets the loop flag only |
| `ApuCounters.Envelope.SetConstantVolume` | nes/src/audio/envelope.rs:78-80 | sets the constant-volume flag only |
| `ApuCounters.Envelope.SetVolumePeriod` | nes/src/audio/envelope.rs:82-84 | sets the volume period only |
| `ApuCounters.Envelope.Get` | nes/src/audio/envelope.rs:86-92 | the volume is the constant volume when that flag is set, else the decay level |
| `ApuCounters.LengthClockMeaning` | nes/src/audio/length.rs:21-29 | a clock decrements the length exactly when not halted and non-zero, and otherwise changes nothing |
| `ApuCounters.LengthMuteSticks` | nes/src/audio/length.rs:21-45 | a muted length counter stays muted under clocking |
| `ApuCounters.LengthCounter.constructor` | nes/src/audio/length.rs:14-19 | a new counter is 0 and not halted |
| `ApuCounters.LengthCounter.Clock` | nes/src/audio/length.rs:21-29 | the object clock equals the value-level clock |
| `ApuCounters.LengthCounter.SetZero` | nes/src/audio/length.rs:31-33 | set_zero clears the length only |
| `ApuCounters.LengthCounter.Set` | nes/src/audio/length.rs:39-41 | set loads entry i of the 32-entry length table |
| `ApuCounters.LengthCounter.Mute` | nes/src/audio/length.rs:43-45 | muted exactly when the length is 0 |
| `ApuCounters.LengthCounter.SetHalt` | nes/src/audio/length.rs:47-49 | sets the halt flag only |
| `ApuCounters.LinearReloadFlag` | nes/src/audio/linear.rs:16-26 | after a clock the reload flag survives only with the control flag set; the reload value is kept |
| `ApuCounters.LinearCounterMeaning` | nes/src/audio/linear.rs:17-21 | a clock reloads the counter when the reload flag is set, else counts down to 0 and stays there |
| `ApuCounters.LinearCounter.constructor` | nes/src/audio/linear.rs:8-14 | a new linear counter is zero with no reload pending |
| `ApuCounters.LinearCounter.Clock` | nes/src/audio/linear.rs:16-26 | the object clock equals the value-level clock |
| `ApuCounters.LinearCounter.Nonzero` | nes/src/audio/linear.rs:28-30 | non-zero exactly when the counter is not 0 |
| `ApuCounters.LinearCounter.SetReload` | nes/src/audio/linear.rs:32-34 | sets the reload value only |
| `ApuCounters.LinearCounter.SetReloadFlag` | nes/src/audio/linear.rs:36-38 | sets the reload flag only |
| `ApuCounters.SpliceLoMeaning` | nes/src/audio/timer.rs:41-46 | replacing the low byte of the period keeps its high byte |
| `ApuCounters.SpliceHiMeaning` | nes/src/audio/timer.rs:48-53 | replacing the high byte of the period keeps its low byte |
| `ApuCounters.TimerTickMeaning` | nes/src/audio/timer.rs:16-27 | at 0 the timer reloads and reports elapsed when the period is non-zero (and is unchanged with period 0); otherwise it counts down and clears elapsed; the period never changes |
| `ApuCounters.Timer.constructor` | nes/src/audio/timer.rs:8-14 | a new timer is zero and not elapsed |
| `ApuCounters.Timer.Tick` | nes/src/audio/timer.rs:16-27 | the object tick equals the value-level tick |
| `ApuCounters.Timer.SetPeriod` | nes/src/audio/timer.rs:37-39 | sets the period only |
| `ApuCounters.Timer.SetPeriodLo` | nes/src/audio/timer.rs:41-46 | replaces the low period byte only |
| `ApuCounters.Timer.SetPeriodHi` | nes/src/audio/timer.rs:48-53 | replaces the high period byte only |
| `ApuCounters.SquareSeqGetMeaning` | nes/src/audio/sequencer.rs:30-33 | the square output is non-zero exactly when bit duty_idx of the selected duty pattern is set |
| `ApuCounters.SquareSequence.constructor` | nes/src/audio/sequencer.rs:19-24 | a new sequencer starts at duty 0, step 0 |
| `ApuCounters.SquareSequence.Clock` | nes/src/audio/sequencer.rs:26-28 | the object clock equals the value-level step modulo 8 |
| `ApuCounters.SquareSequence.Get` | nes/src/audio/sequencer.rs:30-33 | the object output equals the value-level output |
| `ApuCounters.SquareSequence.SetCycle` | nes/src/audio/sequencer.rs:35-37 | selects the duty pattern only |
| `ApuCounters.SquareSequence.ResetIdx` | nes/src/audio/sequencer.rs:39-41 | restarts the step only |
| `ApuCounters.WaveformShape` | nes/src/audio/sequencer.rs:1-4 | the 32-step triangle waveform falls 15 to 0 and rises 0 to 15 |
| `ApuCounters.TriangleSequence.constructor` | nes/src/audio/sequencer.rs:49-53 | a new triangle sequencer starts at step 0 |
| `ApuCounters.TriangleSequence.Get` | nes/src/audio/sequencer.rs:55-57 | the triangle output is 0-15 |
| `ApuCounters.TriangleSequence.Clock` | nes/src/audio/sequencer.rs:59-61 | the step advances modulo 32 |
| `ApuCounters.SweepUpdateFields` | nes/src/audio/sweep.rs:22-28 | a sweep write sets enable from bit 7, negate from bit 3, a divider period below 8 and reloads it; the complement mode is kept |
| `ApuCounters.SweepOffersInRange` | nes/src/audio/sweep.rs:30-44 | a sweep clock only offers a target period within 11 bits, and keeps the sweep invariant |
| `ApuCounters.SweepUpRaises` | nes/src/audio/sweep.rs:46-56 | without negate, the target is never below an 11-bit period |
| `ApuCounters.SweepDownLowers` | nes/src/audio/sweep.rs:41-56 | with negate and not muted, the target is never above the period |
| `ApuCounters.NegatedTargetBelow` | nes/src/audio/sweep.rs:50-52 | a negated target that fits in 11 bits is at most the period (the wrap-around of the 32-bit subtraction cannot produce a larger in-range value) |
| `ApuCounters.Sweep.constructor` | nes/src/audio/sweep.rs:12-20 | a new sweep is disabled with the given complement mode |
| `ApuCounters.Sweep.Update` | nes/src/audio/sweep.rs:22-28 | the object update equals the value-level update |
| `ApuCounters.Sweep.Clock` | nes/src/audio/sweep.rs:30-39 | the object clock equals the value-level clock |
| `ApuCounters.Sweep.Mute` | nes/src/audio/sweep.rs:41-44 | the object mute test equals the value-level one |
| `ApuCounters.Sweep.CalcTarget` | nes/src/audio/sweep.rs:46-56 | the object target equals the value-level target |
| `ApuChannels.LengthIndex` | nes/src/audio/square.rs:51-61 | the length-counter index taken from the top five bits of the written byte always lands inside the 32-entry length table |
| `ApuChannels.VolumeBits` | nes/src/audio/square.rs:27-41 | the volume / envelope period taken from the low nibble is at most 15 |
| `ApuChannels.SquareSetDutyFields` | nes/src/audio/square.rs:27-41 | a write to the duty/length/envelope register sets the duty cycle (< 4), the envelope loop flag and the length halt from bit 5, constant volume from bit 4, and leaves timer and sweep alone |
| `ApuChannels.SquareSetLenTimerHiFields` | nes/src/audio/square.rs:51-61 | the length/timer-high write loads the length from the table, puts the low three bits into the timer period's high byte keeping its low byte, restarts the duty sequence and sets the envelope start flag |
| `ApuChannels.SpliceLoKeeps11Bits` | nes/src/audio/timer.rs:41-46 | replacing the low byte of an 11-bit period keeps it within 11 bits |
| `ApuChannels.SpliceHiKeeps11Bits` | nes/src/audio/timer.rs:48-53 | replacing the high byte with a 3-bit value keeps the period within 11 bits |
| `ApuChannels.SquareOpsKeepInv` | nes/src/audio/square.rs:27-112 | every register write, clock, quarter-frame and enable operation of a pulse channel keeps its state well-formed (11-bit period, duty indices, nibble-sized envelope fields) |
| `ApuChannels.SquarePulsesKeepInv` | nes/src/audio/apu.rs:51-72 | any combination of half-frame, quarter-frame and timer clocks in one APU step keeps a pulse channel well-formed |
| `ApuChannels.SquareHalfFrameKeepsInv` | nes/src/audio/square.rs:89-98 | the half-frame clock (length counter and sweep) keeps a pulse channel well-formed |
| `ApuChannels.SquareGetMeaning` | nes/src/audio/square.rs:73-87 | a pulse channel outputs non-zero only if the sweep does not mute it, its period is at least 8, its length counter runs and the current duty bit is set, and then it outputs the envelope volume |
| `ApuChannels.Square.constructor` | nes/src/audio/square.rs:17-25 | a new pulse channel (sweep unit told which of the two pulses it drives) is in the initial state |
| `ApuChannels.Square.SetDutyLengthEnvelopeDivider` | nes/src/audio/square.rs:27-41 | the channel state becomes the duty/envelope write applied to the old state |
| `ApuChannels.Square.SetSweep` | nes/src/audio/square.rs:43-45 | only the sweep unit takes the written value |
| `ApuChannels.Square.SetTimerLo` | nes/src/audio/square.rs:47-49 | only the low byte of the timer period changes |
| `ApuChannels.Square.SetLenTimerHi` | nes/src/audio/square.rs:51-61 | the state becomes the length/timer-high write applied to the old state |
| `ApuChannels.Square.Clock` | nes/src/audio/square.rs:65-71 | the timer ticks and the duty sequencer advances exactly when the timer elapses |
| `ApuChannels.Square.Get` | nes/src/audio/square.rs:73-87 | the output equals the pulse output function of the current state |
| `ApuChannels.Square.HalfFrameClock` | nes/src/audio/square.rs:89-98 | the length counter clocks and the sweep clocks and may rewrite the timer period |
| `ApuChannels.Square.SetEnabled` | nes/src/audio/square.rs:100-104 | disabling zeroes the length counter; enabling changes nothing |
| `ApuChannels.Square.IsRunning` | nes/src/audio/square.rs:106-108 | the channel runs exactly when its length counter is non-zero |
| `ApuChannels.Square.QuarterFrameClock` | nes/src/audio/square.rs:110-112 | only the envelope clocks |
| `ApuChannels.NoiseShiftStays` | nes/src/audio/noise.rs:101-111 | shifting a non-zero 15-bit feedback register leaves it non-zero and within 15 bits |
| `ApuChannels.NoiseOpsKeepInv` | nes/src/audio/noise.rs:29-89 | every noise-channel operation keeps the feedback register non-zero and within 15 bits |
| `ApuChannels.NoisePulsesKeepInv` | nes/src/audio/apu.rs:51-72 | any combination of frame clocks and timer clocks in one APU step keeps the noise channel well-formed |
| `ApuChannels.NoiseClockShifts` | nes/src/audio/noise.rs:57-63 | the feedback register only shifts when the timer has elapsed, and the timer always ticks |
| `ApuChannels.NoiseSetLoopPeriodFields` | nes/src/audio/noise.rs:29-36 | the mode flag comes from bit 7, the period is one of the sixteen noise periods, and nothing else changes |
| `ApuChannels.NoiseShift.constructor` | nes/src/audio/noise.rs:97-99 | the feedback register starts at 1 |
| `ApuChannels.NoiseShift.ShiftRight` | nes/src/audio/noise.rs:101-111 | the register becomes the right shift with the XOR of bit 0 and bit 1 or 6 fed into bit 14 |
| `ApuChannels.NoiseShift.IsZero` | nes/src/audio/noise.rs:113-115 | the result is whether bit 0 is set (the name is inverted in the source, modelled as written) |
| `ApuChannels.Noise.constructor` | nes/src/audio/noise.rs:19-27 | a new noise channel is in the initial state |
| `ApuChannels.Noise.SetLoopPeriod` | nes/src/audio/noise.rs:29-36 | the state becomes the mode/period write applied to the old state |
| `ApuChannels.Noise.SetLen` | nes/src/audio/noise.rs:38-43 | the length counter loads from the table and the envelope restarts |
| `ApuChannels.Noise.SetHaltConstEnvelope` | nes/src/audio/noise.rs:45-53 | the halt, loop, constant-volume and envelope period fields take the written bits |
| `ApuChannels.Noise.Clock` | nes/src/audio/noise.rs:57-63 | the timer ticks and the feedback register shifts when it elapses |
| `ApuChannels.Noise.Get` | nes/src/audio/noise.rs:65-71 | non-zero output needs a running length counter and bit 0 of the feedback register clear |
| `ApuChannels.Noise.SetEnabled` | nes/src/audio/noise.rs:73-77 | disabling zeroes the length counter |
| `ApuChannels.Noise.HalfFrameClock` | nes/src/audio/noise.rs:79-81 | only the length counter clocks |
| `ApuChannels.Noise.QuarterFrameClock` | nes/src/audio/noise.rs:83-85 | only the envelope clocks |
| `ApuChannels.Noise.IsRunning` | nes/src/audio/noise.rs:87-89 | the channel runs exactly when its length counter is non-zero |
| `ApuChannels.TriangleClockMeaning` | nes/src/audio/triangle.rs:48-62 | a clock keeps the triangle well-formed, advances the sequence only when the timer elapsed with linear and length counters non-zero, and the output stays at most 15 |
| `ApuChannels.TriangleSetLenTimerHiFields` | nes/src/audio/triangle.rs:38-44 | the length loads from the table, the timer high bits take the low three bits, the linear reload flag is set and the linear counter is untouched |
| `ApuChannels.Triangle.constructor` | nes/src/audio/triangle.rs:16-24 | a new triangle channel is in the initial state |
| `ApuChannels.Triangle.SetControlCounter` | nes/src/audio/triangle.rs:26-32 | bit 7 sets the control flag and the length halt; the low seven bits become the linear reload value |
| `ApuChannels.Triangle.SetTimerLo` | nes/src/audio/triangle.rs:34-36 | only the low byte of the timer period changes |
| `ApuChannels.Triangle.SetLengthCounterTimerHi` | nes/src/audio/triangle.rs:38-44 | the state becomes the length/timer-high write applied to the old state |
| `ApuChannels.Triangle.Clock` | nes/src/audio/triangle.rs:48-58 | the state becomes the triangle clock of the old state |
| `ApuChannels.Triangle.Get` | nes/src/audio/triangle.rs:60-62 | the output is the current step of the 32-step sequence, at most 15 |
| `ApuChannels.Triangle.QuarterFrameClock` | nes/src/audio/triangle.rs:64-66 | only the linear counter clocks, using the control flag |
| `ApuChannels.Triangle.HalfFrameClock` | nes/src/audio/triangle.rs:68-70 | only the length counter clocks |
| `ApuChannels.Triangle.IsRunning` | nes/src/audio/triangle.rs:72-74 | the channel runs exactly when its length counter is non-zero |
| `ApuChannels.Triangle.SetEnabled` | nes/src/audio/triangle.rs:76-80 | the state is unchanged: the source calls a getter, so disabling does not silence the channel |
| `ApuChannels.SampleAddressRange` | nes/src/audio/dmc.rs:42-49 | the sample address is 0xC000 plus 64 times the written byte, 64-byte aligned and at most 0xFFC0 |
| `ApuChannels.SampleLengthValue` | nes/src/audio/dmc.rs:51-53 | the sample length is 16 times the written byte plus one, between 1 and 4081 |
| `ApuChannels.Dmc.constructor` | nes/src/audio/dmc.rs:19-28 | a new DMC channel is in the initial state |
| `ApuChannels.Dmc.SetIrqLoopFreq` | nes/src/audio/dmc.rs:30-36 | IRQ and loop flags come from bits 7 and 6 and the rate from the sixteen-entry table |
| `ApuChannels.Dmc.SetCounter` | nes/src/audio/dmc.rs:38-40 | the state is unchanged |
| `ApuChannels.Dmc.SetSampleAddress` | nes/src/audio/dmc.rs:42-49 | only the sample address changes |
| `ApuChannels.Dmc.SetSampleLength` | nes/src/audio/dmc.rs:51-53 | only the sample length changes |
| `ApuChannels.Dmc.Clock` | nes/src/audio/dmc.rs:57-59 | only the timer ticks |
| `ApuChannels.Dmc.SetEnabled` | nes/src/audio/dmc.rs:61-63 | the state is unchanged |
| `ApuChannels.Dmc.Get` | nes/src/audio/dmc.rs:65-67 | the DMC channel always outputs 0 |
| `ApuChannels.Dmc.IsRunning` | nes/src/audio/dmc.rs:69-71 | the DMC channel never reports running |
| `ApuFrameCounter.FrameStepBounds` | nes/src/audio/frame_counter.rs:41-134 | a step keeps the cycle within the sequence length of its mode and never changes the mode |
| `ApuFrameCounter.FrameStepIrq` | nes/src/audio/frame_counter.rs:64-105 | a raised IRQ flag stays raised across a step, the reported IRQ is the flag after the step, and the five-step sequence never raises it |
| `ApuFrameCounter.FourStepRaisesIrq` | nes/src/audio/frame_counter.rs:64-71 | reaching the last four-step cycle reports an IRQ exactly when the flag was already set or IRQs are not inhibited |
| `ApuFrameCounter.FourStepOne` | nes/src/audio/frame_counter.rs:41-100 | outside a reset, a four-step step advances the cycle by one and clocks quarter and half frames exactly at the scheduled cycles 7457, 14913, 22371, 29829 (half at 14913 and 29829) |
| `ApuFrameCounter.FourStepRun` | nes/src/audio/frame_counter.rs:41-100 | n consecutive four-step steps produce n results whose quarter/half clocks follow the schedule at every cycle |
| `ApuFrameCounter.FourStepSchedule` | nes/src/audio/frame_counter.rs:287-315 | from power-on, the first 29829 steps clock quarter frames exactly at 7457, 14913, 22371, 29829 and half frames exactly at 14913 and 29829 |
| `ApuFrameCounter.FiveStepOne` | nes/src/audio/frame_counter.rs:102-134 | outside a reset, a five-step step advances the cycle by one, follows the five-step schedule and reports the unchanged IRQ flag |
| `ApuFrameCounter.FiveStepRun` | nes/src/audio/frame_counter.rs:102-134 | n consecutive five-step steps follow the five-step schedule at every cycle |
| `ApuFrameCounter.FiveStepSchedule` | nes/src/audio/frame_counter.rs:330-360 | in five-step mode the first 37281 steps clock quarter frames exactly at 7457, 14913, 22371, 37281 and half frames exactly at 14913 and 37281 |
| `ApuFrameCounter.SequencerLoops` | nes/src/audio/frame_counter.rs:317-324 | a step from the last cycle of either sequence wraps the cycle to 0 |
| `ApuFrameCounter.FrameUpdateMeaning` | nes/src/audio/frame_counter.rs:136-154 | a write to $4017 selects five-step mode from bit 7, the IRQ inhibit from bit 6 (clearing the flag when set), and arms a 3- or 4-step reset by cycle parity |
| `ApuFrameCounter.CountdownRestarts` | nes/src/audio/frame_counter.rs:183-263 | after the armed number of steps the cycle is 0 and the countdown is idle, and in five-step mode the last of those steps clocks both quarter and half frame |
| `ApuFrameCounter.FrameCounter.constructor` | nes/src/audio/frame_counter.rs:31-39 | a new frame counter is at cycle 0 in four-step mode with no IRQ and no reset pending |
| `ApuFrameCounter.FrameCounter.Step` | nes/src/audio/frame_counter.rs:41-62 | the new state and result are the value-level step of the old state |
| `ApuFrameCounter.FrameCounter.Step4` | nes/src/audio/frame_counter.rs:64-100 | the new state and result are the four-step sequence of the old state |
| `ApuFrameCounter.FrameCounter.Step5` | nes/src/audio/frame_counter.rs:102-134 | the new state and result are the five-step sequence of the old state |
| `ApuFrameCounter.FrameCounter.Update` | nes/src/audio/frame_counter.rs:136-154 | the new state is the $4017 write applied to the old state |
| `ApuFrameCounter.FrameCounter.ResetIrq` | nes/src/audio/frame_counter.rs:156-158 | only the IRQ flag is cleared |
| `Apu.ApuStepKeepsInv` | nes/src/audio/apu.rs:46-77 | one APU step keeps every channel and the frame counter well-formed |
| `Apu.ApuStepIrq` | nes/src/audio/apu.rs:46-77 | a step flips the even-cycle flag, steps the frame counter once and reports its IRQ |
| `Apu.ApuStepDmcCadence` | nes/src/audio/apu.rs:65-70 | the DMC timer ticks only on even cycles |
| `Apu.ApuTwoStepsTickDmcOnce` | nes/src/audio/apu.rs:46-70 | two consecutive steps tick the DMC timer exactly once |
| `Apu.ApuStepTriangleTimer` | nes/src/audio/apu.rs:72 | the triangle timer ticks on every step |
| `Apu.ApuOddStepHoldsPulses` | nes/src/audio/apu.rs:65-70 | on an odd cycle the pulse sequencers and the noise shift register do not move |
| `Apu.ApuStepLengthOnHalfFrame` | nes/src/audio/apu.rs:51-56 | length counters clock exactly when the frame counter reports a half frame |
| `Apu.ApuStepEnvelopeOnQuarterFrame` | nes/src/audio/apu.rs:58-63 | envelopes and the triangle linear counter clock exactly when the frame counter reports a quarter frame |
| `Apu.ApuPeekStatus` | nes/src/audio/apu.rs:101-114 | reading $4015 reports, bit by bit, whether pulse 1, pulse 2, triangle and noise are running, and never sets the DMC bit |
| `Apu.ApuPeekElsewhere` | nes/src/audio/apu.rs:101-105 | every other APU address reads 0 |
| `Apu.ApuLoadMeaning` | nes/src/audio/apu.rs:116-124 | a load returns what a peek would and, only for $4015, clears the frame IRQ flag |
| `Apu.ApuStoreTotalOn` | nes/src/audio/apu.rs:126-159 | a store succeeds exactly on the APU registers $4000-$4013, $4015 and $4017; any other address is the source's panic |
| `Apu.ApuStoreUnused` | nes/src/audio/apu.rs:140-145 | stores to $4009 and $400D change nothing |
| `Apu.ApuStoreSquare1Only` | nes/src/audio/apu.rs:128-132 | stores to $4000-$4003 change only pulse 1 |
| `Apu.ApuUpdateFlagsMeaning` | nes/src/audio/apu.rs:91-97 | a $4015 write with a channel bit clear silences pulse 1, pulse 2 and noise, a set bit leaves them alone, and triangle, DMC and the frame counter are unchanged |
| `Apu.ApuStoreFrameCounter` | nes/src/audio/apu.rs:156 | a $4017 store is the frame counter's update |
| `Apu.ApuStoreKeepsInv` | nes/src/audio/apu.rs:126-159 | every accepted store keeps the APU well-formed |
| `Apu.WriteSquare` | nes/src/audio/apu.rs:128-137 | the four pulse registers dispatch to their setters |
| `Apu.WriteTriangle` | nes/src/audio/apu.rs:138-142 | the triangle registers dispatch to their setters, the unused one changing nothing |
| `Apu.WriteNoise` | nes/src/audio/apu.rs:143-147 | the noise registers dispatch to their setters, the unused one changing nothing |
| `Apu.WriteDmc` | nes/src/audio/apu.rs:148-152 | the four DMC registers dispatch to their setters |
| `Apu.Apu.constructor` | nes/src/audio/apu.rs:34-44 | a new APU starts on an even cycle with fresh channels (sweep units numbered 1 and 2) and frame counter |
| `Apu.Apu.HalfFrame` | nes/src/audio/apu.rs:51-56 | the four length-bearing channels take their half-frame clock |
| `Apu.Apu.QuarterFrame` | nes/src/audio/apu.rs:58-63 | the four channels take their quarter-frame clock |
| `Apu.Apu.ClockEven` | nes/src/audio/apu.rs:65-70 | pulses, noise and DMC clock |
| `Apu.Apu.Step` | nes/src/audio/apu.rs:46-77 | the new state and the IRQ are the value-level APU step of the old state |
| `Apu.Apu.UpdateFlags` | nes/src/audio/apu.rs:91-97 | each channel's enable takes its bit of the written value |
| `Apu.Apu.Peekb` | nes/src/audio/apu.rs:101-114 | the result is the status read of the current state |
| `Apu.Apu.Loadb` | nes/src/audio/apu.rs:116-124 | the new state and result are the value-level load |
| `Apu.Apu.Storeb` | nes/src/audio/apu.rs:126-159 | an APU register store applies the value-level store; any other address reports failure and changes nothing |
| `DisasmAddress.AsI8` | disasm/src/address.rs:63 | the signed reading of an operand byte is negative exactly when its top bit is set and agrees with the byte modulo 256 |
| `DisasmAddress.AsU8` | disasm/src/address.rs:101 | the unsigned reading of a signed offset is the offset modulo 256 |
| `DisasmAddress.ByteCastRoundTrip` | disasm/src/address.rs:63-101 | reading a byte as a signed offset and back gives the byte |
| `DisasmAddress.OffsetCastRoundTrip` | disasm/src/address.rs:63-101 | reading a signed offset as a byte and back gives the offset |
| `DisasmAddress.AbsoluteFromLe` | disasm/src/address.rs:70-73 | the result is an absolute address whose low and high bytes are the two given bytes |
| `DisasmAddress.ByteLen` | disasm/src/address.rs:75-91 | an operand takes at most two bytes, two exactly for the 16-bit forms and none exactly for implied |
| `DisasmAddress.Byte1` | disasm/src/address.rs:93-104 | there is a first operand byte unless the operand is implied |
| `DisasmAddress.Byte2` | disasm/src/address.rs:106-116 | there is a second operand byte exactly when the operand is two bytes long |
| `DisasmAddress.FromBytesRoundTrip` | disasm/src/address.rs:41-116 | decoding an operand from the bytes after an opcode and reading its bytes back gives those bytes, as many as the operand is long |
| `DisasmAddress.ReencodeRoundTrip` | disasm/src/address.rs:41-116 | decoding again from the bytes an operand reports gives the same operand |
| `DisasmAddress.ByteLenOfMode` | disasm/src/address.rs:75-91 | an operand's length is the operand length of its addressing mode in the CPU's table |
| `DisasmAddress.ModeAgreesWithCpu` | disasm/src/address.rs:41-68 | for every opcode the disassembler picks the same addressing mode as the CPU's opcode table |
| `DisasmAddress.ByteLenAgreesWithCpu` | disasm/src/address.rs:41-91 | for every opcode the disassembler's operand length equals the number of operand bytes the CPU fetches |
| `DisasmOperation.OpFromBytes` | disasm/src/operation.rs:264-272 | the instruction keeps the opcode, is named by the opcode table and carries the operand decoded from the next two bytes |
| `DisasmOperation.OpByteLen` | disasm/src/operation.rs:307-310 | an instruction is one to three bytes long, one exactly when its operand is implied |
| `DisasmOperation.OpByteLenAgreesWithCpu` | disasm/src/operation.rs:307-310 | every instruction is as long as the opcode byte plus the operand bytes the CPU fetches for it |
| `DisasmOperation.BranchTargetAsWritten` | disasm/src/operation.rs:357-368 | the branch target as written, absent where the source's negation or addition overflows, is a 16-bit address |
| `DisasmOperation.BranchTarget` | disasm/src/operation.rs:357-368 | the branch target exists exactly when the address after the branch fits 16 bits, and is that address plus the signed offset modulo 65536 |
| `DisasmOperation.BranchTargetAsWrittenPanicsOnMinus128` | disasm/src/operation.rs:360-363 | a branch at 0xC010 with offset -128 panics as written, while the intended target is 0xBF92 |
| `DisasmOperation.BranchTargetAgrees` | disasm/src/operation.rs:357-368 | for every offset other than -128 the code as written computes the intended target |
| `DisasmOperation.NextAfterJmpAbsolute` | disasm/src/operation.rs:324-334 | an absolute JMP continues only at its target, and only when the target is in cartridge space |
| `DisasmOperation.NextAfterJmpIndirect` | disasm/src/operation.rs:335-340 | an indirect JMP has no known successor |
| `DisasmOperation.NextAfterJsr` | disasm/src/operation.rs:343-356 | a JSR continues four bytes on and, when in cartridge space, at its target |
| `DisasmOperation.NextAfterBranch` | disasm/src/operation.rs:357-379 | a branch continues after its two bytes and, when in cartridge space, at its target, the address after it plus the signed offset (the corrected target, also for offset -128) |
| `DisasmNames.IllegalNames` | disasm/src/operation.rs:84-170 | the table names an undocumented combined operation (SLO through ISB) exactly at the opcodes 3 modulo 4 other than 0xEB |
| `DisasmNames.NopNames` | disasm/src/operation.rs:84-170 | the table names NOP exactly at 0xEA and the 27 unofficial NOP opcodes |
| `DisasmNames.UndocumentedOpcodes` | disasm/src/operation.rs:274-305 | an instruction is flagged undocumented exactly when its opcode is 3 modulo 4 or one of the 27 unofficial NOPs |
| `DisasmOperation.BranchOpcodes` | disasm/src/operation.rs:96-105 | opcodes 0x10, 0x30, 0x50, 0x70 are branches with a relative operand |
| `DisasmOperation.BranchOpcodesHigh` | disasm/src/operation.rs:96-105 | opcodes 0x90, 0xB0, 0xD0, 0xF0 are branches with a relative operand |
| `DisasmOperation.NextAfterStp` | disasm/src/operation.rs:380 | STP has no successor |
| `DisasmOperation.NextAfterOther` | disasm/src/operation.rs:381 | every other instruction continues right after itself |
| `Disassembler.PopulateVector` | disasm/src/disassembler.rs:120-130 | a vector yields the 16-bit word stored little-endian at its two bytes and that word as an absolute operand |
| `Disassembler.SeedVectors` | disasm/src/disassembler.rs:70-84 | the three vectors become operand slots, their words become the three pending roots, and the slots stay sound and closed |
| `Disassembler.ParseOps` | disasm/src/disassembler.rs:69-118 | on success every slot is its raw byte, a vector operand, an instruction decoded from its own bytes, or nothing; every decoded instruction's successors and all three vector roots were reached |
| `Disassembler.Step` | disasm/src/disassembler.rs:86-115 | one pass of the work loop keeps the slots sound and closed and either decodes a new slot or drops a root |
| `Disassembler.DecodeAt` | disasm/src/disassembler.rs:94-104 | the slot takes the decoded instruction, its operand bytes become empty and no other slot changes |
| `Disassembler.Collect` | disasm/src/disassembler.rs:24-28 | the listing keeps the occupied slots, each with its address, in increasing address order |
| `Disassembler.LookupCollect` | disasm/src/disassembler.rs:24-28 | the listing at an address holds exactly what the slot at that address held |
| `Disassembler.Disassembler.Len` | disasm/src/disassembler.rs:33-35 | the length is the number of listed entries |
| `Disassembler.Disassembler.IsEmpty` | disasm/src/disassembler.rs:37-39 | the listing is empty exactly when its length is 0 |
| `Disassembler.Disassembler.Get` | disasm/src/disassembler.rs:64-66 | an entry exists exactly below the length and is the listed entry, its address kept when it fits 16 bits |
| `Disassembler.Disassembler.IndexOf` | disasm/src/disassembler.rs:41-62 | the corrected search returns the index of the given address when it is listed, otherwise the last entry before it (or 0) |
| `Disassembler.GetListed` | disasm/src/disassembler.rs:64-66 | on a listing of cartridge space get keeps the full address and returns what the listing holds there |
| `Disassembler.New` | disasm/src/disassembler.rs:18-31 | on success the listing is in increasing address order, every entry is sound, and every listed instruction's successors and the vector roots were reached: each is decoded, a vector operand, or an operand byte of another instruction |
| `Disassembler.CollectKeeps` | disasm/src/disassembler.rs:24-28 | collecting sound, closed slots gives a sound, closed listing |
| `Disassembler.IndexOfAsWrittenOvershoots` | disasm/src/disassembler.rs:50-61 | on seven entries the search as written for the seventh address returns index 10, past the end of the listing |
| `Disassembler.IndexOfAsWrittenUnderflows` | disasm/src/disassembler.rs:55 | on two entries a search below the first address drives `mid - 1` below zero |
| `DebuggerDisasm.OpFromBytes` | debugger/src/disasm.rs:16-59 | the instruction keeps its three bytes, its operand decodes as the disassembler's does, and its operand bytes are the bytes that follow |
| `DebuggerDisasm.NameMissesCli` | debugger/src/disasm.rs:61-132 | the debugger's name table has no arm for the documented CLI (0x58), which the disassembler names |
| `DebuggerDisasm.NameDefinedLow` | debugger/src/disasm.rs:61-132 | below 0x80 every documented opcode but CLI has a name |
| `DebuggerDisasm.NameDefinedHigh` | debugger/src/disasm.rs:61-132 | from 0x80 every documented opcode has a name |
| `DebuggerDisasm.NameWithCliDefined` | debugger/src/disasm.rs:61-132 | with the CLI arm restored every documented opcode has a name |
| `DebuggerDisasm.UndocumentedListsCompared` | debugger/src/disasm.rs:134-149 | the debugger flags exactly what the disassembler flags plus the STP opcodes (column 0x12 and 0x02, 0x22, 0x42, 0x62) and 0x9C, 0x9E |
| `DebuggerDisasm.UndocumentedAncPanics` | debugger/src/disasm.rs:61-149 | the undocumented ANC 0x0B is flagged and has no name |
| `DebuggerDisasm.UndocumentedStpPanics` | debugger/src/disasm.rs:61-149 | the STP opcode 0x02 is flagged and has no name |
| `DebuggerDisasm.UndocumentedSbcNamed` | debugger/src/disasm.rs:114-149 | the second SBC 0xEB is flagged and named SBC; the official 0xE9 is not flagged |
| `DebuggerDisasm.UndocumentedNopNamed` | debugger/src/disasm.rs:61-149 | the unofficial NOP 0x1A is flagged and named NOP; the official NOP 0xEA is not flagged |

## Findings

| source | as written | input that shows it | evidently intended | confidence | as-written member | corrected member |
|---|---|---|---|---|---|---|
| nes/src/cpu.rs:485-489 | `rel` widens the offset byte to `i32` without its sign, so a backward branch jumps forward | pc 5, offset 0xFE: target 0x0104, where the test at nes/src/cpu.rs:1652-1657 expects 0x0004 | the offset is a signed byte, as the doc comment at nes/src/cpu.rs:479-484 and both tests say | high, not executed | `CpuSpec.RelativeAsWritten`, `CpuProps.RelativeAsWrittenMissesNegativeDelta` | `CpuSpec.Relative`, `CpuProps.RelativeMeetsTests` |
| nes/src/rom.rs:61-63 | `mapper()` multiplies flags 7 by 0xF0 in `u8` arithmetic | flags 7 = 0x10 overflows (a panic in a debug build); flags 7 = 0x01 gives mapper 0xF0 | the high nibble of flags 7 masked in, `flags_7 & 0xF0` | high, not executed | `Rom.MapperAsWritten`, `Rom.MapperAsWrittenOverflows`, `Rom.MapperAsWrittenMisreadsFlag` | `Rom.Mapper`, `Rom.MapperNibbles` |
| disasm/src/operation.rs:360-363 | a negative branch offset is negated as `i8` before widening | offset -128 (byte 0x80) at 0xC010: the negation overflows (a panic in a debug build) | the target 0xBF92, from + 2 - 128 | high, not executed | `DisasmOperation.BranchTargetAsWritten`, `DisasmOperation.BranchTargetAsWrittenPanicsOnMinus128` | `DisasmOperation.BranchTarget`, `DisasmOperation.BranchTargetAgrees`, used by `DisasmOperation.NextAfterBranch` |
| disasm/src/disassembler.rs:50-61 | `index_of` adds `mid + 1` to `lo` instead of assigning it, and `mid - 1` runs below zero | seven entries at 0x8000-0x8006, search 0x8006: returns 10, past the end; two entries, search below the first: `mid - 1` underflows | a binary search returning the index of the address or of the entry before it | high, not executed | `Disassembler.IndexOfAsWrittenOvershoots`, `Disassembler.IndexOfAsWrittenUnderflows` | `Disassembler.Disassembler.IndexOf` |
| debugger/src/disasm.rs:61-132 | the debugger's `name` table has no arm for CLI (0x58) | opcode 0x58 reaches the "Unknown opcode" panic although it is documented | CLI is named like every other documented opcode | medium, not executed | `DebuggerDisasm.NameMissesCli` | `DebuggerDisasm.NameWithCliDefined` |

## Left out

- The audio mixer and `Apu::sample` (nes/src/audio/mixer.rs, nes/src/audio/apu.rs:79-89): floating-point mixing.
- The emulation loop, audio device, signals, screen capture, debugger UI, ROM loader and logging crates: I/O, threads and FFI with no emulation logic.
- `warn!` and `error!` logging: dropped; the surrounding behaviour is kept.
- `Display` and `fmt` implementations (operand and mnemonic printing, the debugger's string names): text formatting. `DebuggerDisasm.Name` returns the mnemonic rather than its string.
- Panics (unimplemented opcodes, debug-build overflow traps, `unreachable!`, unsupported mappers, the PPU mode bits, an APU store outside its registers) are error results (`None`, `Err`, `ok == false`) or preconditions; the panic message is not modelled.
- Counters the source keeps in `u64`/`usize` (the CPU cycle count, the PPU frame number, the disassembler's addresses) are unbounded `nat`; their wrap-around after 2^64 is not modelled.
- `Rc<RefCell>` sharing of devices on the CPU bus: the bus owns its devices; there is no concurrency to model.
- Nes: the CPU inside `Nes` runs over the plain 64 KiB memory the CPU tests use rather than through `CpuBus`, so the CPU's stores are not routed to the PPU, APU or controller within `Nes.Step`. `CpuBus` is modelled and proved on its own. That memory starts as `Nes.CartridgeImage`: the PRG from 0x8000 up and zeros below, so the CPU does not see the device registers, and a PRG address past a short image reads 0 where prg_loadb indexes out of range.
- Nes: `Input::default` and `input.step` are not part of nes/src/input.rs; `Nes.Step` sets the controller and does nothing for the step call. `CpuBus::new` is called with five arguments at nes/src/nes.rs:29 but takes four; the model wires the four.
- Nes.Step: the APU's IRQ result is discarded, as written at nes/src/nes.rs:41, so the frame-counter IRQ never reaches the CPU.
- Nes.Deliver: the PPU never reports a scanline IRQ (its step always reports false), so the IRQ-delivery branch is unreachable in the model.
- Mappers: nes/src/mapper.rs only builds NROM (the UxROM arm is commented out); UxROM is modelled as a standalone class. The mapper trait of nes/src/mapper/nrom.rs is not part of this model; the NROM functions stand alone.
- Ppu: `scroll_x`/`scroll_y` (read only by the emulation loop, which is not part of this model) and `set_cycle_from_cpu` (no caller) are not modelled.
- PpuOam: the OAM address is kept as a number below 256 rather than a byte, which is the same value set.
- Ppu: the background pixel condition `px < 8 && background_rendering_enabled()` and the sprite `hide_first_sprite_tile` naming are modelled as written, not as the left-column masking the hardware does.
- Object nesting: the classes `ApuChannels.Square`, `ApuChannels.Noise`, `ApuChannels.Triangle` and `Ppu.Ppu` hold their counters, sequencers, sweep, timer and shifters as values of the units' state datatypes (`ApuCounters.DividerState`, `ApuCounters.TimerState`, `PpuShifters.PatternShifterState`, ...), updated by the same functions that the stand-alone classes (`ApuCounters.Divider` through `ApuCounters.Sweep`, `ApuChannels.NoiseShift`, `PpuShifters.PatternShifter`, `PpuShifters.SpriteShift`) are proved against; the source's objects held inside objects are not modelled as separate heap objects.
- ApuChannels.Triangle.SetEnabled: as written it only queries the length counter, so disabling the triangle does not silence it; modelled as written.
- DisasmOperation.NextAddresses: the JSR successor is `from + byte_len + 1`, one past the next instruction, kept as written; the `unreachable!` arms (a JMP, JSR or branch with another operand form) are `None`, and `DisasmAddress.ModeAgreesWithCpu` shows they cannot be reached from real opcodes. Branches use the corrected target: for offset -128, where the negation at disasm/src/operation.rs:361 overflows (a panic in a debug build), the model continues 128 bytes back, so `Disassembler.ParseOps` and `Disassembler.New` list a ROM on which the source panics.
- Disassembler.ParseOps: when it reports failure (a root outside cartridge space or too close to its end, where the source indexes out of range) the cause is not characterised; only success is specified.
- Disassembler.Disassembler.Get: returns the address as a number below 65536 when it fits rather than the source's `as u16` cast; on every listing `New` builds the addresses fit, as `GetListed` shows.
- The agreement between the disassembler's mnemonic table and the CPU's operation table is not proved; the addressing modes and operand lengths are (`DisasmAddress.ModeAgreesWithCpu`).
- Rom.FromPath: a reader that fails is a parameter; the model states what a successful parse returns and that every short stream fails, not which read error is reported.
