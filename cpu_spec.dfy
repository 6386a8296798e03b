/**
 * A functional reference for the 6502 core of nes/src/cpu.rs: every routine of
 * the CPU written as a function from the machine state before it to the state
 * after it. The class in module Cpu is proved to follow these functions step
 * by step. The memory is the flat 64 KiB vector memory of the CPU tests.
 *
 * A Rust panic (an unimplemented opcode, KIL, an `unreachable!` arm, or a
 * debug-build overflow trap on unwrapped arithmetic) is an `Err` outcome.
 */
module CpuSpec {
  import opened Types
  import opened Bytes
  import opened Memory
  import opened Opcodes

  const CARRY: u8 := 0x01
  const ZERO: u8 := 0x02
  const IRQ_DISABLE: u8 := 0x04
  const DECIMAL: u8 := 0x08
  const BREAK: u8 := 0x10
  const OVERFLOW: u8 := 0x40
  const NEGATIVE: u8 := 0x80

  const STACK_BASE: u16 := 0x0100
  const NMI_VECTOR: u16 := 0xFFFA
  const RESET_VECTOR: u16 := 0xFFFC
  const BRK_VECTOR: u16 := 0xFFFE
  /** A store here starts an OAM DMA instead of reaching memory. */
  const OAM_DMA: u16 := 0x4014
  /** The PPU's OAM data port, the destination of every DMA byte. */
  const OAM_DATA: u16 := 0x2004

  /** Why an instruction cannot complete: the ways the Rust code panics. */
  datatype Fault =
    | Halted                    // the KIL opcodes
    | NotImplemented(op: Op)    // the undocumented opcodes without a body
    | Overflow                  // unwrapped u8/u16 arithmetic that would trap
    | InvalidAddress            // an `unreachable!` arm of an address match

  datatype Result<T> = Ok(value: T) | Err(fault: Fault) {
    predicate IsFailure() { Err? }
    function PropagateFailure<U>(): Result<U> requires Err? { Err(fault) }
    function Extract(): T requires Ok? { value }
  }

  /** What an addressing mode yields for the operation routine. */
  datatype Address =
    | Absolute(addr: u16)
    | Accumulator
    | Immediate(val: u8)
    | Implied
    | Indirect(ptr: u16)

  /**
   * The registers, the cycle counters and the memory. `log` is every store
   * that reached memory, in order; it only serves to state what DMA does.
   */
  datatype State = State(
    a: u8, x: u8, y: u8, s: u8, p: u8, pc: u16,
    cy: nat, busy: nat, mem: Image, log: seq<Write>)

  // ---------------------------------------------------------------- flags

  /** `flags.set(f, on)`: flag bit `f` becomes `on`, the other bits stay. */
  function SetFlag(p: u8, f: u8, on: bool): u8 {
    if on then p | f else p & !f
  }

  predicate Flag(p: u8, f: u8) {
    p & f != 0
  }

  /** set_zn: ZERO iff `v` is 0, NEGATIVE iff bit 7 of `v`. */
  function SetZn(p: u8, v: u8): u8 {
    SetFlag(SetFlag(p, ZERO, v == 0), NEGATIVE, v & 0x80 != 0)
  }

  /** CARRY from `c`, then Z/N from the result `r` (the shifts and rotates). */
  function CarryZn(p: u8, c: bool, r: u8): u8 {
    SetZn(SetFlag(p, CARRY, c), r)
  }

  /** CARRY and OVERFLOW from the adder, then Z/N from its result (ADC and SBC). */
  function ArithFlags(p: u8, c: bool, v: bool, r: u8): u8 {
    SetZn(SetFlag(SetFlag(p, OVERFLOW, v), CARRY, c), r)
  }

  /** The flags BRK and PHP push: BREAK and the unused bit 5 forced on. */
  function PushedFlags(p: u8): u8 {
    p | 0x30
  }

  // -------------------------------------------------------- address sums

  /** A 16-bit address moved forward by `n`, wrapping (callers rule out the wrap where it traps). */
  function Advance(w: u16, n: u16): u16 {
    w + n
  }

  /** A 16-bit address moved back by one, wrapping. */
  function Retreat(w: u16): u16 {
    w - 1
  }

  /** The stack slot for stack pointer `s`: 0x0100 + s. */
  function StackAddr(s: u8): u16 {
    STACK_BASE + s as u16
  }

  /** A 16-bit base plus an 8-bit index, wrapping at 16 bits. */
  function IndexAdd(base: u16, index: u8): u16 {
    base + index as u16
  }

  /** The page-0 address of an 8-bit operand. */
  function ZeroPage(v: u8): u16 {
    v as u16
  }

  /** An 8-bit base plus an 8-bit index, wrapping inside page 0. */
  function ZeroPageAdd(base: u8, index: u8): u16 {
    (base + index) as u16
  }

  // --------------------------------------------------------------- memory

  /** `st1` has the pc and busy count of `st` and no fewer cycles: what every store guarantees. */
  predicate KeepsPc(st: State, st1: State) {
    st1.pc == st.pc && st1.busy == st.busy && st1.cy >= st.cy
  }

  /** loadb through the CPU: the plain memory has no read side effects. */
  function Load(st: State, addr: u16): u8 {
    Read(st.mem, addr)
  }

  /** loadw through the CPU; `addr + 1` is unwrapped and traps at 0xFFFF. */
  function LoadWord(st: State, addr: u16): Result<u16> {
    if addr == 0xFFFF then Err(Overflow) else Ok(ReadWord(st.mem, addr))
  }

  /** A store that reaches memory. */
  function Poke(st: State, addr: u16, val: u8): State {
    st.(mem := Update(st.mem, addr, val), log := st.log + [Write(addr, val)])
  }

  /** storeb through the CPU: 0x4014 starts a DMA from page `val` instead. */
  function Store(st: State, addr: u16, val: u8): (r: Result<State>)
    ensures r.Ok? ==> KeepsPc(st, r.value)
  {
    if addr == OAM_DMA then Dma(st, val) else Ok(Poke(st, addr, val))
  }

  /** The cycles a DMA costs: 513, or 514 when it starts on an odd cycle. */
  function DmaCycles(cy: nat): nat {
    if cy % 2 == 0 then 513 else 514
  }

  /**
   * dma: copy page `page` to the OAM data port. `start + 0x100` traps for
   * page 0xFF.
   */
  function Dma(st: State, page: u8): (r: Result<State>)
    ensures r.Ok? ==> KeepsPc(st, r.value)
  {
    if page == 0xFF then Err(Overflow)
    else
      Ok(DmaCopy(st.(cy := st.cy + DmaCycles(st.cy)), PageStart(page), 0x100))
  }

  /** The first address of page `page`. */
  function PageStart(page: u8): u16 {
    (page as u16) << 8
  }

  /** The address the DMA loop reads in iteration `i`. */
  function DmaSource(start: u16, i: nat): u16
    requires i < 0x100
  {
    start + i as u16
  }

  /** The first `n` iterations of the DMA loop: each loads one byte and stores it to 0x2004. */
  function DmaCopy(st: State, start: u16, n: nat): (r: State)
    requires n <= 0x100
    ensures r == st.(mem := r.mem, log := r.log)
  {
    if n == 0 then st
    else
      var prev := DmaCopy(st, start, n - 1);
      Poke(prev, OAM_DATA, Load(prev, DmaSource(start, n - 1)))
  }

  // ---------------------------------------------------------------- stack

  /** pushb: write at 0x0100 + s, then s - 1 (which traps at s == 0). */
  function PushB(st: State, val: u8): Result<State> {
    if st.s == 0 then Err(Overflow)
    else Store(st.(s := st.s - 1), StackAddr(st.s), val)
  }

  /** pushw: the high byte first, then the low byte. */
  function PushW(st: State, val: u16): Result<State> {
    var st1 :- PushB(st, Hi(val));
    PushB(st1, Lo(val))
  }

  /** popb: s + 1 (which traps at s == 0xFF), then read 0x0100 + s + 1. */
  function PopB(st: State): Result<(State, u8)> {
    if st.s == 0xFF then Err(Overflow)
    else Ok((st.(s := st.s + 1), Load(st, Advance(StackAddr(st.s), 1))))
  }

  /** popw: s + 2 (which traps at s >= 0xFE), then the word at 0x0100 + s + 1. */
  function PopW(st: State): Result<(State, u16)> {
    if st.s >= 0xFE then Err(Overflow)
    else
      var w :- LoadWord(st, Advance(StackAddr(st.s), 1));
      Ok((st.(s := st.s + 2), w))
  }

  // ------------------------------------------------------------ pc fetches

  /** loadb_bump_pc: the byte at pc; pc + 1 traps at 0xFFFF. */
  function FetchB(st: State): Result<(State, u8)> {
    if st.pc == 0xFFFF then Err(Overflow)
    else Ok((st.(pc := Advance(st.pc, 1)), Load(st, st.pc)))
  }

  /** loadw_bump_pc: the word at pc; the load or pc + 2 traps when pc >= 0xFFFE. */
  function FetchW(st: State): Result<(State, u16)> {
    var w :- LoadWord(st, st.pc);
    if st.pc == 0xFFFE then Err(Overflow)
    else Ok((st.(pc := Advance(st.pc, 2)), w))
  }

  // ------------------------------------------------------ addressing modes

  /** True when two addresses lie on different 256-byte pages. */
  predicate PageCrossed(from: u16, to: u16) {
    from & 0xFF00 != to & 0xFF00
  }

  /** One more cycle when the row's extra flag is set and a page was crossed. */
  function PagePenalty(st: State, extra: bool, base: u16, addr: u16): State {
    if extra && PageCrossed(base, addr) then st.(cy := st.cy + 1) else st
  }

  /** abs,X and abs,Y: a 16-bit wrapping add of the index register. */
  function AbsIndexed(st: State, index: u8, extra: bool): Result<(State, Address)> {
    var (st1, base) :- FetchW(st);
    var addr := IndexAdd(base, index);
    Ok((PagePenalty(st1, extra, base, addr), Absolute(addr)))
  }

  /** zp,X and zp,Y: an 8-bit wrapping add, so the address stays in page 0. */
  function ZeroPageIndexed(st: State, index: u8): Result<(State, Address)> {
    var (st1, base) :- FetchB(st);
    Ok((st1, Absolute(ZeroPageAdd(base, index))))
  }

  /** (zp,X): the pointer wraps inside page 0, also between its two bytes. */
  function IndexedIndirect(st: State): Result<(State, Address)> {
    var (st1, base) :- FetchB(st);
    var ptr := ZeroPageAdd(base, st1.x);
    if ptr == 0x00FF then Ok((st1, Absolute(Word(Load(st1, 0x00FF), Load(st1, 0x0000)))))
    else
      var w :- LoadWord(st1, ptr);
      Ok((st1, Absolute(w)))
  }

  /** (zp),Y: the pointer's high byte comes from (zp + 1) mod 256; the add of Y wraps at 16 bits. */
  function IndirectIndexed(st: State, extra: bool): Result<(State, Address)> {
    var (st1, zp) :- FetchB(st);
    var base := Word(Load(st1, ZeroPage(zp)), Load(st1, ZeroPageAdd(zp, 1)));
    var addr := IndexAdd(base, st1.y);
    Ok((PagePenalty(st1, extra, base, addr), Absolute(addr)))
  }

  /** The offset byte read as a two's-complement number, widened to 16 bits. */
  function SignExtend(d: u8): u16 {
    if d < 0x80 then d as u16 else d as u16 | 0xFF00
  }

  /** The branch target: `pc` plus the offset read as signed, wrapping at 16 bits. */
  function BranchTarget(pc: u16, d: u8): u16 {
    pc + SignExtend(d)
  }

  /** rel: the branch target, from pc already past the operand. */
  function Relative(st: State): Result<(State, Address)> {
    var (st1, d) :- FetchB(st);
    Ok((st1, Absolute(BranchTarget(st1.pc, d))))
  }

  /** The target rel computes as written: the offset byte widened without its sign. */
  function UnsignedTarget(pc: u16, d: u8): u16 {
    d as u16 + pc
  }

  /** rel as written. */
  function RelativeAsWritten(st: State): Result<(State, Address)> {
    var (st1, d) :- FetchB(st);
    Ok((st1, Absolute(UnsignedTarget(st1.pc, d))))
  }

  /** The addressing-mode routine a table row names, with the row's extra flag. */
  function Resolve(st: State, mode: Mode, extra: bool): Result<(State, Address)> {
    match mode
    case Abs =>
      var (st1, w) :- FetchW(st);
      Ok((st1, Absolute(w)))
    case Abx => AbsIndexed(st, st.x, extra)
    case Aby => AbsIndexed(st, st.y, extra)
    case Acc => Ok((st, Accumulator))
    case Imm =>
      var (st1, v) :- FetchB(st);
      Ok((st1, Immediate(v)))
    case Imp => Ok((st, Implied))
    case Ind =>
      var (st1, lo) :- FetchB(st);
      var (st2, hi) :- FetchB(st1);
      Ok((st2, Indirect(Word(lo, hi))))
    case Izx => IndexedIndirect(st)
    case Izy => IndirectIndexed(st, extra)
    case Rel => Relative(st)
    case Zp0 =>
      var (st1, v) :- FetchB(st);
      Ok((st1, Absolute(ZeroPage(v))))
    case Zpx => ZeroPageIndexed(st, st.x)
    case Zpy => ZeroPageIndexed(st, st.y)
  }

  // ------------------------------------------------------ operand access

  /** addr_loadb. */
  function Operand(st: State, addr: Address): Result<u8> {
    match addr
    case Absolute(a) => Ok(Load(st, a))
    case Accumulator => Ok(st.a)
    case Immediate(v) => Ok(v)
    case Indirect(_) => Err(InvalidAddress)
    case Implied => Err(InvalidAddress)
  }

  /** addr_storeb. */
  function SetOperand(st: State, addr: Address, val: u8): Result<State> {
    match addr
    case Absolute(a) => Store(st, a, val)
    case Accumulator => Ok(st.(a := val))
    case _ => Err(InvalidAddress)
  }

  // ----------------------------------------------------------- arithmetic

  /**
   * The adder shared by ADC and RRA: the 8-bit sum, the carry out and the
   * overflow flag, computed in 16 bits as the source does.
   */
  function AddWithCarry(a: u8, m: u8, c: u8): (r: (u8, bool, bool)) {
    var a16, m16 := a as u16, m as u16;
    var sum := a16 + m16 + c as u16;
    ((sum & 0xFF) as u8, sum > 0x00FF, (!(a16 ^ m16) & (a16 ^ sum)) & 0x80 != 0)
  }

  /** The subtracter of SBC and ISC: complement the operand, add, and flag as the source does. */
  function SubtractWithBorrow(a: u8, m: u8, c: u8): (r: (u8, bool, bool)) {
    var a16, m16 := a as u16, (m as u16) ^ 0x00FF;
    var sum := a16 + m16 + c as u16;
    ((sum & 0xFF) as u8, sum & 0xFF00 != 0, (sum ^ a16) & (sum ^ m16) & 0x80 != 0)
  }

  // ------------------------------------------------------------ operations

  function Adc(st: State, addr: Address): Result<State> {
    var m :- Operand(st, addr);
    var (r, c, v) := AddWithCarry(st.a, m, st.p & CARRY);
    Ok(st.(a := r, p := ArithFlags(st.p, c, v, r)))
  }

  function Sbc(st: State, addr: Address): Result<State> {
    var m :- Operand(st, addr);
    var (r, c, v) := SubtractWithBorrow(st.a, m, st.p & CARRY);
    Ok(st.(a := r, p := ArithFlags(st.p, c, v, r)))
  }

  /** AND, ORA, EOR: combine the operand into A and set Z/N from the result. */
  function Logic(st: State, addr: Address, op: Op): Result<State>
    requires (op.And? || op.Ora? || op.Eor?)
  {
    var m :- Operand(st, addr);
    var r := if op == And then m & st.a else if op == Ora then st.a | m else st.a ^ m;
    Ok(st.(a := r, p := SetZn(st.p, r)))
  }

  function Asl(st: State, addr: Address): Result<State> {
    var val :- Operand(st, addr);
    var r := val << 1;
    SetOperand(st.(p := CarryZn(st.p, val & 0x80 == 0x80, r)), addr, r)
  }

  function Lsr(st: State, addr: Address): Result<State> {
    var val :- Operand(st, addr);
    var r := val >> 1;
    SetOperand(st.(p := CarryZn(st.p, val & 0x01 != 0, r)), addr, r)
  }

  /** ROL: the store happens first and Z is then taken from A, as the source does. */
  function Rol(st: State, addr: Address): Result<State> {
    var val :- Operand(st, addr);
    var r := RotateLeft(val, Flag(st.p, CARRY));
    var st1 :- SetOperand(st, addr, r);
    Ok(st1.(p := RolFlags(st1.p, val, r, st1.a)))
  }

  /** Shift left, bit 0 from the carry. */
  function RotateLeft(val: u8, carry: bool): u8 {
    if carry then (val << 1) + 1 else val << 1
  }

  /** ROL's flags: CARRY from bit 7 of the old value, N from the result, Z from A. */
  function RolFlags(p: u8, val: u8, r: u8, a: u8): u8 {
    SetFlag(SetFlag(SetFlag(p, CARRY, val & 0x80 != 0), NEGATIVE, r & 0x80 != 0), ZERO, a == 0)
  }

  /** Shift right, bit 7 from the carry. */
  function RotateRight(val: u8, carry: bool): u8 {
    if carry then (val >> 1) | 0x80 else val >> 1
  }

  function Ror(st: State, addr: Address): Result<State> {
    var val :- Operand(st, addr);
    var r := RotateRight(val, Flag(st.p, CARRY));
    SetOperand(st.(p := CarryZn(st.p, val & 0x01 != 0, r)), addr, r)
  }

  function Bit(st: State, addr: Address): Result<State> {
    var val :- Operand(st, addr);
    Ok(st.(p := BitFlags(st.p, st.a, val)))
  }

  /** BIT's flags: Z iff A & M is 0, V from bit 6 and N from bit 7 of M. */
  function BitFlags(p: u8, a: u8, val: u8): u8 {
    SetFlag(SetFlag(SetFlag(p, ZERO, a & val == 0), OVERFLOW, val & 0x40 != 0), NEGATIVE, val & 0x80 != 0)
  }

  /** CMP, CPX, CPY: C iff reg >= operand, Z iff equal, N from bit 7 of reg - operand. */
  function Compare(st: State, reg: u8, addr: Address): Result<State> {
    var val :- Operand(st, addr);
    Ok(st.(p := CompareFlags(st.p, reg, val)))
  }

  /** The compare flags: C iff reg >= val, Z iff equal, N from bit 7 of the wrapped difference. */
  function CompareFlags(p: u8, reg: u8, val: u8): u8 {
    SetFlag(SetFlag(SetFlag(p, CARRY, reg >= val), ZERO, reg == val), NEGATIVE, (reg - val) & 0x80 != 0)
  }

  /** An 8-bit add that wraps, as `wrapping_add` does. */
  function AddWrapped(v: u8, delta: u8): u8 {
    v + delta
  }

  /** DEC and INC on memory (or A): store first, then set Z/N. */
  function IncDec(st: State, addr: Address, delta: u8): Result<State> {
    var val :- Operand(st, addr);
    var r := AddWrapped(val, delta);
    var st1 :- SetOperand(st, addr, r);
    Ok(st1.(p := SetZn(st1.p, r)))
  }

  /** branch_base: a taken branch costs a cycle, and one more when it lands on another page. */
  function Branch(st: State, cond: bool, addr: Address): Result<State> {
    if !cond then Ok(st)
    else match addr
      case Absolute(t) =>
        Ok(st.(cy := st.cy + BranchCycles(st.pc, t), pc := t))
      case _ => Err(InvalidAddress)
  }

  /** The cycles a taken branch adds: one, or two when the target is on another page. */
  function BranchCycles(pc: u16, target: u16): nat {
    if PageCrossed(pc, target) then 2 else 1
  }

  /** The condition each branch opcode tests. */
  function BranchTaken(op: Op, p: u8): bool
    requires IsBranch(op)
  {
    if op.Bcc? then !Flag(p, CARRY)
    else if op.Bcs? then Flag(p, CARRY)
    else if op.Beq? then Flag(p, ZERO)
    else if op.Bne? then !Flag(p, ZERO)
    else if op.Bmi? then Flag(p, NEGATIVE)
    else if op.Bpl? then !Flag(p, NEGATIVE)
    else if op.Bvs? then Flag(p, OVERFLOW)
    else !Flag(p, OVERFLOW)  // Bvc
  }

  /** BRK: push pc + 1 (unwrapped) and flags | 0x30, then jump through 0xFFFE. */
  function Brk(st: State): Result<State> {
    if st.pc == 0xFFFF then Err(Overflow)
    else
      var st1 :- PushW(st, Advance(st.pc, 1));
      var st2 :- PushB(st1, PushedFlags(st.p));
      var w :- LoadWord(st2, BRK_VECTOR);
      Ok(st2.(pc := w))
  }

  /** JMP: absolute, or indirect with the page-wrap of a pointer at $xxFF. */
  function Jmp(st: State, addr: Address): Result<State> {
    match addr
    case Indirect(ptr) =>
      if ptr & 0x00FF == 0x00FF then
        var page := ptr & 0xFF00;
        Ok(st.(pc := Word(Load(st, page + 0x00FF), Load(st, page))))
      else
        var w :- LoadWord(st, ptr);
        Ok(st.(pc := w))
    case Absolute(t) => Ok(st.(pc := t))
    case _ => Err(InvalidAddress)
  }

  /** JSR: push pc - 1 (wrapping), then jump. */
  function Jsr(st: State, addr: Address): Result<State> {
    match addr
    case Absolute(t) =>
      var st1 :- PushW(st, Retreat(st.pc));
      Ok(st1.(pc := t))
    case _ => Err(InvalidAddress)
  }

  function Pla(st: State): Result<State> {
    var (st1, v) :- PopB(st);
    Ok(st1.(a := v, p := SetZn(st1.p, v)))
  }

  /** PLP: bit 4 is dropped and bit 5 forced on. */
  function Plp(st: State): Result<State> {
    var (st1, v) :- PopB(st);
    Ok(st1.(p := (v & 0xEF) | 0x20))
  }

  function Rti(st: State): Result<State> {
    var (st1, v) :- PopB(st);
    var (st2, w) :- PopW(st1.(p := v | 0x20));
    Ok(st2.(pc := w))
  }

  function Rts(st: State): Result<State> {
    var (st1, w) :- PopW(st);
    Ok(st1.(pc := Advance(w, 1)))
  }

  /** LDA, LDX, LDY, LAX. */
  function LoadRegister(st: State, addr: Address, op: Op): Result<State>
    requires (op.Lda? || op.Ldx? || op.Ldy? || op.Lax?)
  {
    var v :- Operand(st, addr);
    var p := SetZn(st.p, v);
    if op.Lda? then Ok(st.(a := v, p := p))
    else if op.Ldx? then Ok(st.(x := v, p := p))
    else if op.Ldy? then Ok(st.(y := v, p := p))
    else Ok(st.(a := v, x := v, p := p))  // Lax
  }

  /** TAX, TAY, TSX, TXA, TYA and the flag-free TXS. */
  function Transfer(st: State, op: Op): State
    requires (op.Tax? || op.Tay? || op.Tsx? || op.Txa? || op.Tya? || op.Txs?)
  {
    if op.Tax? then st.(x := st.a, p := SetZn(st.p, st.a))
    else if op.Tay? then st.(y := st.a, p := SetZn(st.p, st.a))
    else if op.Tsx? then st.(x := st.s, p := SetZn(st.p, st.s))
    else if op.Txa? then st.(a := st.x, p := SetZn(st.p, st.x))
    else if op.Tya? then st.(a := st.y, p := SetZn(st.p, st.y))
    else st.(s := st.x)  // Txs
  }

  /** DEX, DEY, INX, INY: wrapping. */
  function StepRegister(st: State, op: Op): State
    requires (op.Dex? || op.Dey? || op.Inx? || op.Iny?)
  {
    if op.Dex? then st.(x := st.x - 1, p := SetZn(st.p, st.x - 1))
    else if op.Dey? then st.(y := st.y - 1, p := SetZn(st.p, st.y - 1))
    else if op.Inx? then st.(x := st.x + 1, p := SetZn(st.p, st.x + 1))
    else st.(y := st.y + 1, p := SetZn(st.p, st.y + 1))  // Iny
  }

  /** The flag instructions CLC, CLD, CLI, CLV, SEC, SED, SEI. */
  function FlagOp(st: State, op: Op): State
    requires (op.Clc? || op.Cld? || op.Cli? || op.Clv? || op.Sec? || op.Sed? || op.Sei?)
  {
    if op.Clc? then st.(p := st.p & !CARRY)
    else if op.Cld? then st.(p := st.p & !DECIMAL)
    else if op.Cli? then st.(p := st.p & !IRQ_DISABLE)
    else if op.Clv? then st.(p := st.p & !OVERFLOW)
    else if op.Sec? then st.(p := st.p | CARRY)
    else if op.Sed? then st.(p := st.p | DECIMAL)
    else st.(p := st.p | IRQ_DISABLE)  // Sei
  }

  /** The undocumented opcodes the source leaves unimplemented (they panic). */
  predicate Unimplemented(op: Op) {
    (op.Ahx? || op.Alr? || op.Anc? || op.Arr? || op.Axs? || op.Las?
     || op.Shx? || op.Shy? || op.Tas? || op.Xaa?)
  }

  /** The operations that read their operand and change only registers and flags. */
  predicate ReadsOperand(op: Op) {
    (op.Adc? || op.Sbc? || op.And? || op.Ora? || op.Eor? || op.Bit?
     || op.Cmp? || op.Cpx? || op.Cpy? || op.Lda? || op.Ldx? || op.Ldy?
     || op.Lax?)
  }

  /** The operations that write their operand (the shifts, INC/DEC and the stores). */
  predicate WritesOperand(op: Op) {
    (op.Asl? || op.Lsr? || op.Rol? || op.Ror? || op.Dec? || op.Inc?
     || op.Sta? || op.Stx? || op.Sty? || op.Sax?)
  }

  /** The branches, jumps, returns and stack operations. */
  predicate ControlFlow(op: Op) {
    IsBranch(op) || (op.Brk? || op.Jmp? || op.Jsr? || op.Rti? || op.Rts? || op.Pha?
     || op.Php? || op.Pla? || op.Plp?)
  }

  /** The implied-mode operations on registers and flags alone. */
  predicate RegisterOnly(op: Op) {
    (op.Tax? || op.Tay? || op.Tsx? || op.Txa? || op.Tya? || op.Txs?
     || op.Dex? || op.Dey? || op.Inx? || op.Iny? || op.Clc? || op.Cld?
     || op.Cli? || op.Clv? || op.Sec? || op.Sed? || op.Sei? || op.Nop?)
  }

  /** The undocumented read-modify-write operations built from two documented ones. */
  predicate IsCombined(op: Op) {
    (op.Dcp? || op.Isc? || op.Slo? || op.Rla? || op.Sre? || op.Rra?)
  }

  /** The operation routine a table row names, applied to the resolved address. */
  function Exec(st: State, op: Op, addr: Address): Result<State> {
    if ReadsOperand(op) then ExecRead(st, op, addr)
    else if WritesOperand(op) then ExecWrite(st, op, addr)
    else if ControlFlow(op) then ExecFlow(st, op, addr)
    else if RegisterOnly(op) then Ok(ExecImplied(st, op))
    else if IsCombined(op) then ExecCombined(st, op, addr)
    else if op == Kil then Err(Halted)
    else Err(NotImplemented(op))
  }

  function ExecRead(st: State, op: Op, addr: Address): Result<State>
    requires ReadsOperand(op)
  {
    if op.Adc? then Adc(st, addr)
    else if op.Sbc? then Sbc(st, addr)
    else if op.And? || op.Ora? || op.Eor? then Logic(st, addr, op)
    else if op.Bit? then Bit(st, addr)
    else if op.Cmp? then Compare(st, st.a, addr)
    else if op.Cpx? then Compare(st, st.x, addr)
    else if op.Cpy? then Compare(st, st.y, addr)
    else LoadRegister(st, addr, op)  // Lda, Ldx, Ldy, Lax
  }

  function ExecWrite(st: State, op: Op, addr: Address): Result<State>
    requires WritesOperand(op)
  {
    if op.Asl? then Asl(st, addr)
    else if op.Lsr? then Lsr(st, addr)
    else if op.Rol? then Rol(st, addr)
    else if op.Ror? then Ror(st, addr)
    else if op.Dec? then IncDec(st, addr, 0xFF)
    else if op.Inc? then IncDec(st, addr, 0x01)
    else if op.Sta? then SetOperand(st, addr, st.a)
    else if op.Stx? then SetOperand(st, addr, st.x)
    else if op.Sty? then SetOperand(st, addr, st.y)
    else SetOperand(st, addr, st.a & st.x)  // Sax
  }

  function ExecFlow(st: State, op: Op, addr: Address): Result<State>
    requires ControlFlow(op)
  {
    if op.Brk? then Brk(st)
    else if op.Jmp? then Jmp(st, addr)
    else if op.Jsr? then Jsr(st, addr)
    else if op.Rti? then Rti(st)
    else if op.Rts? then Rts(st)
    else if op.Pha? then PushB(st, st.a)
    else if op.Php? then PushB(st, PushedFlags(st.p))
    else if op.Pla? then Pla(st)
    else if op.Plp? then Plp(st)
    else Branch(st, BranchTaken(op, st.p), addr)  // the eight branches
  }

  function ExecImplied(st: State, op: Op): State
    requires RegisterOnly(op)
  {
    if op.Tax? || op.Tay? || op.Tsx? || op.Txa? || op.Tya? || op.Txs? then Transfer(st, op)
    else if op.Dex? || op.Dey? || op.Inx? || op.Iny? then StepRegister(st, op)
    else if op.Nop? then st
    else FlagOp(st, op)  // Clc, Cld, Cli, Clv, Sec, Sed, Sei
  }

  /** DCP, ISC, SLO, RLA, SRE, RRA: two routines on the same address, in order. */
  function ExecCombined(st: State, op: Op, addr: Address): Result<State>
    requires IsCombined(op)
  {
    if op.Dcp? then (var st1 :- IncDec(st, addr, 0xFF); Compare(st1, st1.a, addr))
    else if op.Isc? then (var st1 :- IncDec(st, addr, 0x01); Sbc(st1, addr))
    else if op.Slo? then (var st1 :- Asl(st, addr); Logic(st1, addr, Ora))
    else if op.Rla? then (var st1 :- Rol(st, addr); Logic(st1, addr, And))
    else if op.Sre? then (var st1 :- Lsr(st, addr); Logic(st1, addr, Eor))
    else (var st1 :- Ror(st, addr); Adc(st1, addr))  // Rra
  }

  // ------------------------------------------------------ step and entry

  /**
   * step: a busy cycle only counts down; otherwise fetch the opcode and run
   * the instruction its table row describes.
   */
  function Step(st: State): Result<State> {
    if st.busy > 0 then Ok(st.(busy := st.busy - 1, cy := st.cy + 1))
    else
      var (st1, opcode) :- FetchB(st);
      TableShape(opcode);
      Dispatch(st1, Decode(opcode))
  }

  /**
   * One arm of the opcode table: resolve the row's addressing mode, run its
   * routine, then stay busy for the row's remaining cycles.
   */
  function Dispatch(st: State, e: Entry): Result<State>
    requires RowShape(e)
  {
    var (st1, addr) :- Resolve(st, e.mode, e.extra);
    var st2 :- Exec(st1, e.op, addr);
    Ok(st2.(busy := e.cycles - 1, cy := st2.cy + 1))
  }

  /** new: A = X = Y = 0, flags 0x24, s = 0xFD, pc = 0, no cycles, not busy. */
  function PowerOn(mem: Image): State {
    State(0, 0, 0, 0xFD, 0x24, 0, 0, 0, mem, [])
  }

  /** reset: pc from the reset vector, then IRQ disable on. */
  function Reset(st: State): State {
    st.(pc := ReadWord(st.mem, RESET_VECTOR), p := st.p | IRQ_DISABLE)
  }

  /** The entry sequence shared by NMI and IRQ. */
  function Interrupt(st: State, vector: u16): Result<State>
    requires (vector == NMI_VECTOR || vector == BRK_VECTOR)
  {
    var st0 := st.(p := SetFlag(st.p, BREAK, false));
    var st1 :- PushW(st0, st0.pc);
    var st2 :- PushB(st1, st1.p);
    var st3 := st2.(p := SetFlag(st2.p, IRQ_DISABLE, true));
    var w :- LoadWord(st3, vector);
    Ok(st3.(pc := w))
  }

  /** nmi: always taken. */
  function Nmi(st: State): Result<State> {
    Interrupt(st, NMI_VECTOR)
  }

  /** irq: ignored while IRQ disable is set. */
  function Irq(st: State): Result<State> {
    if Flag(st.p, IRQ_DISABLE) then Ok(st) else Interrupt(st, BRK_VECTOR)
  }
}
