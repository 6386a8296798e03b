/**
 * What the reference CPU of module CpuSpec guarantees: the busy countdown,
 * the pc advance of an instruction, the adder, the addressing-mode wraps and
 * page penalties, the JMP page bug, branch timing, the stack and interrupt
 * frames, and the OAM DMA copy.
 */
module CpuProps {
  import opened Types
  import opened Bytes
  import opened Memory
  import opened Opcodes
  import opened CpuSpec

  // ----------------------------------------------------------------- step

  /** A busy cycle only counts: busy goes down by one, cy up by one, nothing else moves. */
  lemma BusyStep(st: State)
    requires st.busy > 0
    ensures Step(st).Ok?
    ensures Step(st).value == st.(busy := st.busy - 1, cy := st.cy + 1)
  {
  }

  // ---------------------------------------------------------------- adder

  /** Bit 7 of a byte, its sign in two's complement. */
  predicate Negative(v: u8) {
    v & 0x80 != 0
  }

  /**
   * ADC's adder: the result is the 8-bit wrapped sum, the carry says the sum
   * wrapped, and V says two operands of the same sign gave a result of the
   * other sign (a signed overflow).
   */
  lemma AddWithCarryMeaning(a: u8, m: u8, c: u8)
    requires c == 0 || c == 1
    ensures AddWithCarry(a, m, c).0 == a + m + c
    ensures AddWithCarry(a, m, c).1 <==> AddWithCarry(a, m, c).0 < a || (c == 1 && AddWithCarry(a, m, c).0 == a)
    ensures AddWithCarry(a, m, c).2 <==> Negative(a) == Negative(m) && Negative(AddWithCarry(a, m, c).0) != Negative(a)
  {
  }

  /** SBC's subtracter computes a - m - (1 - c), wrapped to 8 bits. */
  lemma SubtractWithBorrowResult(a: u8, m: u8, c: u8)
    requires c == 0 || c == 1
    ensures SubtractWithBorrow(a, m, c).0 == a - m - (1 - c)
  {
    SubtractWithBorrowAddsComplement(a, m, c);
    ComplementSubtracts(a, m, c);
  }

  /** The subtracter is the adder run on the complement of m. */
  lemma SubtractWithBorrowAddsComplement(a: u8, m: u8, c: u8)
    ensures SubtractWithBorrow(a, m, c).0 == a + !m + c
  {
  }

  /** Adding the complement of m and c is subtracting m and the borrow 1 - c. */
  lemma ComplementSubtracts(a: u8, m: u8, c: u8)
    ensures a + !m + c == a - m - (1 - c)
  {
  }

  /** SBC's carry is the inverted borrow: set exactly when a - m - (1 - c) did not go below zero. */
  lemma SubtractWithBorrowCarry(a: u8, m: u8, c: u8)
    requires c == 0 || c == 1
    ensures SubtractWithBorrow(a, m, c).1 <==> a > m || (c == 1 && a == m)
  {
  }

  /** SBC's V: operands of different signs gave a result whose sign differs from a's. */
  lemma SubtractWithBorrowOverflow(a: u8, m: u8, c: u8)
    requires c == 0 || c == 1
    ensures SubtractWithBorrow(a, m, c).2 <==> Negative(a) != Negative(m) && Negative(SubtractWithBorrow(a, m, c).0) != Negative(a)
  {
  }

  /** The flags ADC and SBC leave: C and V from the adder, Z and N from the result, the rest kept. */
  lemma ArithFlagsMeaning(p: u8, c: bool, v: bool, r: u8)
    ensures Flag(ArithFlags(p, c, v, r), CARRY) == c
    ensures Flag(ArithFlags(p, c, v, r), OVERFLOW) == v
    ensures Flag(ArithFlags(p, c, v, r), ZERO) == (r == 0)
    ensures Flag(ArithFlags(p, c, v, r), NEGATIVE) == Negative(r)
    ensures ArithFlags(p, c, v, r) & 0x3C == p & 0x3C
  {
  }

  /** ADC on an immediate operand only writes A and P, and A becomes the wrapped sum a + m + C. */
  lemma AdcImmediateSum(st: State, m: u8)
    ensures CpuSpec.Adc(st, Immediate(m)).Ok?
    ensures var st1 := CpuSpec.Adc(st, Immediate(m)).value;
      st1.a == st.a + m + (st.p & CARRY) && st1 == st.(a := st1.a, p := st1.p)
  {
    AdcImmediateUnfolds(st, m);
    AddWithCarryMeaning(st.a, m, st.p & CARRY);
  }

  /** ADC on an immediate operand is the adder applied to A, m and C, with ArithFlags on top. */
  lemma AdcImmediateUnfolds(st: State, m: u8)
    ensures st.p & CARRY == 0 || st.p & CARRY == 1
    ensures var t := AddWithCarry(st.a, m, st.p & CARRY);
      CpuSpec.Adc(st, Immediate(m)) == Ok(st.(a := t.0, p := ArithFlags(st.p, t.1, t.2, t.0)))
  {
  }

  /** ADC on an immediate operand: C is set exactly when the sum wrapped past 0xFF. */
  lemma AdcImmediateCarry(st: State, m: u8)
    ensures CpuSpec.Adc(st, Immediate(m)).Ok?
    ensures var st1 := CpuSpec.Adc(st, Immediate(m)).value;
      Flag(st1.p, CARRY) <==> st1.a < st.a || (st.p & CARRY == 1 && st1.a == st.a)
  {
    AdcImmediateUnfolds(st, m);
    AddWithCarryMeaning(st.a, m, st.p & CARRY);
    var t := AddWithCarry(st.a, m, st.p & CARRY);
    ArithFlagsMeaning(st.p, t.1, t.2, t.0);
  }

  /** ADC on an immediate operand: V is set exactly on a signed overflow. */
  lemma AdcImmediateOverflow(st: State, m: u8)
    ensures CpuSpec.Adc(st, Immediate(m)).Ok?
    ensures var st1 := CpuSpec.Adc(st, Immediate(m)).value;
      Flag(st1.p, OVERFLOW) <==> Negative(st.a) == Negative(m) && Negative(st1.a) != Negative(st.a)
  {
    AdcImmediateUnfolds(st, m);
    AddWithCarryMeaning(st.a, m, st.p & CARRY);
    var t := AddWithCarry(st.a, m, st.p & CARRY);
    ArithFlagsMeaning(st.p, t.1, t.2, t.0);
  }

  // ------------------------------------------------------ addressing modes

  /** Two addresses are on different pages exactly when their high bytes differ. */
  lemma PageCrossedMeaning(from: u16, to: u16)
    ensures PageCrossed(from, to) <==> Hi(from) != Hi(to)
  {
  }

  /** zp,X and zp,Y stay in page 0: the high byte is 0 and the low byte is the 8-bit wrapped sum. */
  lemma ZeroPageIndexedWraps(st: State, index: u8)
    requires st.pc != 0xFFFF
    ensures ZeroPageIndexed(st, index).Ok?
    ensures ZeroPageIndexed(st, index).value.1.Absolute?
    ensures Hi(ZeroPageIndexed(st, index).value.1.addr) == 0
    ensures Lo(ZeroPageIndexed(st, index).value.1.addr) == Load(st, st.pc) + index
    ensures ZeroPageIndexed(st, index).value.0 == st.(pc := st.pc + 1)
  {
  }

  /** (zp,X) with the pointer at 0xFF: the high byte of the target comes from 0x00, not 0x100. */
  lemma IndexedIndirectPointerWraps(st: State)
    requires st.pc != 0xFFFF && Load(st, st.pc) + st.x == 0xFF
    ensures IndexedIndirect(st).Ok?
    ensures IndexedIndirect(st).value.1 == Absolute(Word(Load(st, 0x00FF), Load(st, 0x0000)))
  {
  }

  /** The indexed sum: the index is what separates target from base, modulo 2^16. */
  lemma IndexAddMeaning(base: u16, index: u8)
    ensures IndexAdd(base, index) - base == index as u16
    ensures Hi(IndexAdd(base, index)) != Hi(base) <==> Lo(base) as u16 + index as u16 > 0xFF
  {
  }

  /**
   * abs,X and abs,Y: the target is the 16-bit wrapped sum of the operand word
   * and the index, and one cycle is added exactly when the row's extra flag is
   * set and the high bytes differ.
   */
  lemma AbsIndexedPenalty(st: State, index: u8, extra: bool)
    requires st.pc < 0xFFFE
    ensures AbsIndexed(st, index, extra).Ok?
    ensures var (st1, addr) := AbsIndexed(st, index, extra).value;
      var base := ReadWord(st.mem, st.pc);
      && addr == Absolute(IndexAdd(base, index))
      && st1.cy == st.cy + (if extra && Hi(base) != Hi(addr.addr) then 1 else 0)
      && st1 == st.(pc := Advance(st.pc, 2), cy := st1.cy)
  {
    var base := ReadWord(st.mem, st.pc);
    PageCrossedMeaning(base, IndexAdd(base, index));
  }

  /** (zp),Y with zp = 0xFF: the pointer's high byte comes from 0x00. */
  lemma IndirectIndexedPointerWraps(st: State, extra: bool)
    requires st.pc != 0xFFFF && Load(st, st.pc) == 0xFF
    ensures IndirectIndexed(st, extra).Ok?
    ensures IndirectIndexed(st, extra).value.1 == Absolute(Word(Load(st, 0x00FF), Load(st, 0x0000)) + st.y as u16)
  {
  }

  /** JMP ($xxFF) reads the high byte of the target from $xx00 of the same page. */
  lemma JmpIndirectPageBug(st: State, ptr: u16)
    requires Lo(ptr) == 0xFF
    ensures CpuSpec.Jmp(st, Indirect(ptr)) == Ok(st.(pc := Word(Load(st, ptr), Load(st, ptr & 0xFF00))))
  {
    assert ptr & 0x00FF == 0x00FF;
    assert (ptr & 0xFF00) + 0x00FF == ptr;
  }

  // -------------------------------------------------------------- branches

  /** A branch not taken changes nothing, whatever the target. */
  lemma BranchNotTaken(st: State, addr: Address)
    ensures Branch(st, false, addr) == Ok(st)
  {
  }

  /** A taken branch jumps and costs one cycle, or two when the target lies on another page. */
  lemma BranchTakenTiming(st: State, t: u16)
    ensures Branch(st, true, Absolute(t)).Ok?
    ensures Branch(st, true, Absolute(t)).value.pc == t
    ensures Branch(st, true, Absolute(t)).value.cy == st.cy + if Hi(st.pc) != Hi(t) then 2 else 1
    ensures Branch(st, true, Absolute(t)).value == st.(pc := t, cy := Branch(st, true, Absolute(t)).value.cy)
  {
    PageCrossedMeaning(st.pc, t);
  }

  /** The corrected target: a forward offset adds, an offset of 0x80 or more moves back by 0x100 - d. */
  lemma BranchTargetSigned(pc: u16, d: u8)
    ensures d < 0x80 ==> BranchTarget(pc, d) - pc == d as u16
    ensures d >= 0x80 ==> pc - BranchTarget(pc, d) == (0 - d) as u16
  {
  }

  /** The memory of the rel tests: every byte of the first six is `b`. */
  function RelTestMemory(b: u8): Image {
    seq(SIZE, i => if i < 6 then b else 0)
  }

  /** The CPU of the rel tests: pc = 5 over RelTestMemory(b). */
  function RelTestState(b: u8): State {
    PowerOn(RelTestMemory(b)).(pc := 0x0005)
  }

  /**
   * rel as written zero-extends the offset: with 0xFE at pc = 5 it yields
   * 0x0104, not the 0x0004 that the negative-delta test expects.
   */
  lemma RelativeAsWrittenMissesNegativeDelta()
    ensures RelativeAsWritten(RelTestState(0xFE)) == Ok((RelTestState(0xFE).(pc := 6), Absolute(0x0104)))
  {
    assert Load(RelTestState(0xFE), 5) == 0xFE;
  }

  /** The corrected rel gives the expected targets of both tests. */
  lemma RelativeMeetsTests()
    ensures Relative(RelTestState(0xFE)) == Ok((RelTestState(0xFE).(pc := 6), Absolute(0x0004)))
    ensures Relative(RelTestState(0x01)) == Ok((RelTestState(0x01).(pc := 6), Absolute(0x0007)))
  {
    assert Load(RelTestState(0xFE), 5) == 0xFE;
    assert Load(RelTestState(0x01), 5) == 0x01;
  }

  /** Signed and unsigned widening give the same target exactly for offsets below 0x80. */
  lemma TargetsAgreeOnForwardOffsets(pc: u16, d: u8)
    ensures d < 0x80 <==> BranchTarget(pc, d) == UnsignedTarget(pc, d)
  {
    if d < 0x80 {
      assert SignExtend(d) == d as u16;
    } else {
      assert SignExtend(d) == d as u16 | 0xFF00;
      assert SignExtend(d) - d as u16 == 0xFF00;
    }
  }

  /** The two versions of rel agree exactly on the forward offsets. */
  lemma RelativeAgreesOnForwardOffsets(st: State)
    requires st.pc != 0xFFFF
    ensures Load(st, st.pc) < 0x80 <==> Relative(st) == RelativeAsWritten(st)
  {
    TargetsAgreeOnForwardOffsets(Advance(st.pc, 1), Load(st, st.pc));
  }

  // ----------------------------------------------------------------- stack

  /** The stack lives in page 1: slot s is 0x0100 + s, away from the DMA port and the top of memory. */
  lemma StackAddrInPageOne(s: u8)
    ensures Hi(StackAddr(s)) == 0x01 && Lo(StackAddr(s)) == s
    ensures StackAddr(s) != OAM_DMA && StackAddr(s) != 0xFFFF
  {
  }

  /** The slot above slot s - 1 is slot s. */
  lemma StackAddrNext(s: u8)
    requires s != 0
    ensures Advance(StackAddr(s - 1), 1) == StackAddr(s)
  {
  }

  /** pushb writes the byte at 0x0100 + s and lowers s; a popb then returns it and restores s. */
  lemma PushThenPopByte(st: State, v: u8)
    requires st.s != 0
    ensures PushB(st, v).Ok?
    ensures var st1 := PushB(st, v).value;
      && st1.s == st.s - 1
      && Read(st1.mem, StackAddr(st.s)) == v
      && st1 == st.(s := st1.s, mem := st1.mem, log := st1.log)
      && PopB(st1) == Ok((st1.(s := st.s), v))
  {
    StackAddrInPageOne(st.s);
    StackAddrNext(st.s);
  }

  /** pushw leaves the low byte at slot s - 1 and the high byte at slot s, and s lowered by two. */
  lemma PushWordLayout(st: State, w: u16)
    requires st.s >= 2
    ensures PushW(st, w).Ok?
    ensures var st2 := PushW(st, w).value;
      && st2.s == st.s - 2
      && Read(st2.mem, StackAddr(st.s - 1)) == Lo(w)
      && Read(st2.mem, StackAddr(st.s)) == Hi(w)
  {
    PushThenPopByte(st, Hi(w));
    var st1 := PushB(st, Hi(w)).value;
    PushThenPopByte(st1, Lo(w));
    StackAddrInPageOne(st.s);
    StackAddrInPageOne(st.s - 1);
  }

  /** popw reads the word whose low byte is at slot s + 1 and high byte at slot s + 2. */
  lemma PopWordReads(st: State)
    requires st.s < 0xFE
    ensures PopW(st) == Ok((st.(s := st.s + 2), Word(Read(st.mem, StackAddr(st.s + 1)), Read(st.mem, StackAddr(st.s + 2)))))
  {
    StackAddrNext(st.s + 1);
    StackAddrNext(st.s + 2);
    StackAddrInPageOne(st.s + 1);
  }

  /** pushw then popw returns the word and restores s. */
  lemma PushThenPopWord(st: State, w: u16)
    requires st.s >= 2
    ensures PushW(st, w).Ok?
    ensures var st2 := PushW(st, w).value;
      st2.s == st.s - 2 && PopW(st2) == Ok((st2.(s := st.s), w))
  {
    PushWordLayout(st, w);
    var st2 := PushW(st, w).value;
    PopWordReads(st2);
    assert st2.s + 1 == st.s - 1 && st2.s + 2 == st.s;
    WordOfBytes(w);
  }

  /** JSR pushes pc - 1 and jumps; the RTS after it comes back to pc with s restored. */
  lemma JsrThenRts(st: State, t: u16)
    requires st.s >= 2
    ensures CpuSpec.Jsr(st, Absolute(t)).Ok?
    ensures var st1 := CpuSpec.Jsr(st, Absolute(t)).value;
      st1.pc == t && st1.s == st.s - 2 && CpuSpec.Rts(st1) == Ok(st1.(s := st.s, pc := st.pc))
  {
    PushThenPopWord(st, Retreat(st.pc));
    RetreatThenAdvance(st.pc);
  }

  /** Stepping an address back by one and forward by one returns it, wraps included. */
  lemma RetreatThenAdvance(w: u16)
    ensures Advance(Retreat(w), 1) == w
  {
  }

  /** PHP then PLP: s comes back and P comes back with BREAK cleared and bit 5 set, all other flags kept. */
  lemma PhpThenPlp(st: State)
    requires st.s != 0
    ensures PushB(st, PushedFlags(st.p)).Ok?
    ensures var st1 := PushB(st, PushedFlags(st.p)).value;
      && CpuSpec.Plp(st1).Ok?
      && CpuSpec.Plp(st1).value == st1.(s := st.s, p := CpuSpec.Plp(st1).value.p)
      && !Flag(CpuSpec.Plp(st1).value.p, BREAK)
      && Flag(CpuSpec.Plp(st1).value.p, 0x20)
      && CpuSpec.Plp(st1).value.p & 0xCF == st.p & 0xCF
  {
    PushThenPopByte(st, PushedFlags(st.p));
  }

  // ------------------------------------------------------------ interrupts

  /** IRQ is ignored while IRQ disable is set. */
  lemma IrqMasked(st: State)
    requires Flag(st.p, IRQ_DISABLE)
    ensures Irq(st) == Ok(st)
  {
  }

  /** The interrupt vectors lie in the top page, away from the stack. */
  lemma VectorsAboveStack(vector: u16, s: u8)
    requires vector == NMI_VECTOR || vector == BRK_VECTOR
    ensures vector != StackAddr(s) && vector + 1 != StackAddr(s) && vector != 0xFFFF
  {
    StackAddrInPageOne(s);
  }

  /** pushb changes no memory byte other than slot s. */
  lemma PushByteFrame(st: State, v: u8, addr: u16)
    requires st.s != 0 && addr != StackAddr(st.s)
    ensures PushB(st, v).Ok?
    ensures Read(PushB(st, v).value.mem, addr) == Read(st.mem, addr)
  {
    StackAddrInPageOne(st.s);
  }

  /** The three pushes of an interrupt succeed, lower s by three and change only s, memory and the log; pushw keeps P. */
  lemma FramePushesSucceed(st: State, w: u16, b: u8)
    requires st.s >= 3
    ensures PushW(st, w).Ok? && PushB(PushW(st, w).value, b).Ok?
    ensures PushW(st, w).value.p == st.p
    ensures var st3 := PushB(PushW(st, w).value, b).value;
      st3 == st.(s := st.s - 3, mem := st3.mem, log := st3.log)
  {
    PushWordLayout(st, w);
    var st2 := PushW(st, w).value;
    PushThenPopByte(st2, b);
    PushThenPopByte(st, Hi(w));
    PushThenPopByte(PushB(st, Hi(w)).value, Lo(w));
  }

  /** An interrupt frame below slot s: the high byte of pc at s, its low byte at s - 1, the flags at s - 2. */
  predicate StackFrame(mem: Image, s: u8, pc: u16, p: u8) {
    && Read(mem, StackAddr(s)) == Hi(pc)
    && Read(mem, StackAddr(s - 1)) == Lo(pc)
    && Read(mem, StackAddr(s - 2)) == p
  }

  /** The three pushes of an interrupt lay down the frame of `w` and `b` below slot s. */
  lemma FramePushesLayout(st: State, w: u16, b: u8)
    requires st.s >= 3
    ensures PushW(st, w).Ok? && PushB(PushW(st, w).value, b).Ok?
    ensures StackFrame(PushB(PushW(st, w).value, b).value.mem, st.s, w, b)
  {
    PushWordLayout(st, w);
    var st2 := PushW(st, w).value;
    assert st2.s == st.s - 2;
    PushThenPopByte(st2, b);
    PushByteFrame(st2, b, StackAddr(st.s));
    PushByteFrame(st2, b, StackAddr(st.s - 1));
  }

  /** The three pushes of an interrupt leave the interrupt vectors alone. */
  lemma FramePushesKeepVector(st: State, w: u16, b: u8, vector: u16)
    requires vector == NMI_VECTOR || vector == BRK_VECTOR
    requires st.s >= 3
    ensures PushW(st, w).Ok? && PushB(PushW(st, w).value, b).Ok?
    ensures ReadWord(PushB(PushW(st, w).value, b).value.mem, vector) == ReadWord(st.mem, vector)
  {
    PushWordLayout(st, w);
    var st1 := PushB(st, Hi(w)).value;
    var st2 := PushW(st, w).value;
    VectorsAboveStack(vector, st.s);
    VectorsAboveStack(vector, st.s - 1);
    VectorsAboveStack(vector, st.s - 2);
    PushByteFrame(st, Hi(w), vector);
    PushByteFrame(st, Hi(w), vector + 1);
    PushByteFrame(st1, Lo(w), vector);
    PushByteFrame(st1, Lo(w), vector + 1);
    PushByteFrame(st2, b, vector);
    PushByteFrame(st2, b, vector + 1);
  }

  /**
   * The interrupt frame on the stack: the high byte of pc at slot s, its low
   * byte at s - 1, P with BREAK cleared at s - 2.
   */
  lemma InterruptFrame(st: State, vector: u16)
    requires vector == NMI_VECTOR || vector == BRK_VECTOR
    requires st.s >= 3
    ensures Interrupt(st, vector).Ok?
    ensures StackFrame(Interrupt(st, vector).value.mem, st.s, st.pc, SetFlag(st.p, BREAK, false))
  {
    var st0 := st.(p := SetFlag(st.p, BREAK, false));
    FramePushesSucceed(st0, st0.pc, st0.p);
    FramePushesLayout(st0, st0.pc, st0.p);
  }

  /**
   * After the interrupt frame: pc from the vector, BREAK cleared and IRQ
   * disable set in P, and A, X, Y and the cycle counters untouched.
   */
  lemma InterruptTarget(st: State, vector: u16)
    requires vector == NMI_VECTOR || vector == BRK_VECTOR
    requires st.s >= 3
    ensures Interrupt(st, vector).Ok?
    ensures var st3 := Interrupt(st, vector).value;
      && st3.pc == ReadWord(st.mem, vector)
      && st3.p == SetFlag(SetFlag(st.p, BREAK, false), IRQ_DISABLE, true)
      && st3 == st.(s := st3.s, pc := st3.pc, p := st3.p, mem := st3.mem, log := st3.log)
  {
    var st0 := st.(p := SetFlag(st.p, BREAK, false));
    FramePushesSucceed(st0, st0.pc, st0.p);
    FramePushesKeepVector(st0, st0.pc, st0.p, vector);
  }

  /** An interrupt lowers s by three, the size of its frame. */
  lemma InterruptStackPointer(st: State, vector: u16)
    requires vector == NMI_VECTOR || vector == BRK_VECTOR
    requires st.s >= 3
    ensures Interrupt(st, vector).Ok?
    ensures Interrupt(st, vector).value.s == st.s - 3
  {
    var st0 := st.(p := SetFlag(st.p, BREAK, false));
    FramePushesSucceed(st0, st0.pc, st0.p);
    var st1 := PushW(st0, st0.pc).value;
    var st2 := PushB(st1, st1.p).value;
    var st3 := st2.(p := SetFlag(st2.p, IRQ_DISABLE, true));
    assert Interrupt(st, vector) == Ok(st3.(pc := ReadWord(st3.mem, vector)));
  }

  // ------------------------------------------------------------------- DMA

  /** The stores the DMA copy should make: byte i of the source, in order, to the OAM data port. */
  function DmaWrites(mem: Image, start: u16, n: nat): (r: seq<Write>)
    requires n <= 0x100
    ensures |r| == n
    ensures forall i :: 0 <= i < n ==> r[i] == Write(OAM_DATA, Read(mem, DmaSource(start, i)))
  {
    seq(n, i requires 0 <= i < n => Write(OAM_DATA, Read(mem, DmaSource(start, i))))
  }

  /** Every byte read in the copy of page `page` lies on that page. */
  lemma DmaSourcePage(page: u8, i: nat)
    requires i < 0x100
    ensures Hi(DmaSource(PageStart(page), i)) == page
  {
  }

  /**
   * The first n iterations of the DMA loop, when no source byte is the OAM
   * data port itself: the log grows by the n source bytes in order and memory
   * changes only at the port.
   */
  lemma {:induction false} DmaCopyWrites(st: State, start: u16, n: nat)
    requires n <= 0x100
    requires forall i :: 0 <= i < n ==> DmaSource(start, i) != OAM_DATA
    ensures DmaCopy(st, start, n).log == st.log + DmaWrites(st.mem, start, n)
    ensures forall a :: a != OAM_DATA ==> Read(DmaCopy(st, start, n).mem, a) == Read(st.mem, a)
  {
    if n > 0 {
      DmaCopyWrites(st, start, n - 1);
      var prev := DmaCopy(st, start, n - 1);
      var src := DmaSource(start, n - 1);
      assert Load(prev, src) == Read(st.mem, src);
      assert DmaWrites(st.mem, start, n) == DmaWrites(st.mem, start, n - 1) + [Write(OAM_DATA, Read(st.mem, src))];
    }
  }

  /**
   * A store to 0x4014 with a page other than 0xFF (whose end address traps)
   * and 0x20 (which holds the port itself): the 256 bytes of the page reach
   * 0x2004 in order, nothing reaches 0x4014, and the CPU pays 513 cycles, or
   * 514 from an odd cycle.
   */
  lemma StoreToDmaPort(st: State, page: u8)
    requires page != 0xFF && page != 0x20
    ensures Store(st, OAM_DMA, page).Ok?
    ensures var st1 := Store(st, OAM_DMA, page).value;
      && st1.log == st.log + DmaWrites(st.mem, PageStart(page), 0x100)
      && st1.cy == st.cy + (if st.cy % 2 == 0 then 513 else 514)
      && st1 == st.(cy := st1.cy, mem := st1.mem, log := st1.log)
  {
    forall i | 0 <= i < 0x100
      ensures DmaSource(PageStart(page), i) != OAM_DATA
    {
      DmaSourcePage(page, i);
    }
    DmaCopyWrites(st.(cy := st.cy + DmaCycles(st.cy)), PageStart(page), 0x100);
  }

  // ------------------------------------------------------ instruction start

  /** Where an addressing mode leaves pc: past its operand bytes. */
  function PcAfterOperand(pc: u16, mode: Mode): u16 {
    if OperandBytes(mode) == 0 then pc
    else if OperandBytes(mode) == 1 then Advance(pc, 1)
    else Advance(pc, 2)
  }

  /** `st1` is `st` after an operand of `mode` was fetched: pc past it, busy kept, no cycles taken back. */
  predicate AfterOperand(st: State, st1: State, mode: Mode) {
    st1.pc == PcAfterOperand(st.pc, mode) && st1.busy == st.busy && st1.cy >= st.cy
  }

  /** Every addressing mode consumes exactly its operand bytes and never takes cycles back. */
  lemma ResolveAdvancesPc(st: State, mode: Mode, extra: bool)
    requires Resolve(st, mode, extra).Ok?
    ensures AfterOperand(st, Resolve(st, mode, extra).value.0, mode)
  {
    if OperandBytes(mode) == 0 {
      ResolveNoOperand(st, mode, extra);
    } else if OperandBytes(mode) == 1 {
      ResolveOneByte(st, mode, extra);
    } else {
      ResolveTwoBytes(st, mode, extra);
    }
  }

  /** Accumulator and implied modes fetch nothing. */
  lemma ResolveNoOperand(st: State, mode: Mode, extra: bool)
    requires mode == Acc || mode == Imp
    ensures Resolve(st, mode, extra).Ok? && Resolve(st, mode, extra).value.0 == st
  {
  }

  /** The one-byte modes move pc by one. */
  lemma ResolveOneByte(st: State, mode: Mode, extra: bool)
    requires mode.Imm? || mode.Izx? || mode.Izy? || mode.Rel? || mode.Zp0? || mode.Zpx? || mode.Zpy?
    requires Resolve(st, mode, extra).Ok?
    ensures var st1 := Resolve(st, mode, extra).value.0;
      st1.pc == Advance(st.pc, 1) && st1.busy == st.busy && st1.cy >= st.cy
  {
  }

  /** The two-byte modes move pc by two. */
  lemma ResolveTwoBytes(st: State, mode: Mode, extra: bool)
    requires mode.Abs? || mode.Abx? || mode.Aby? || mode.Ind?
    requires Resolve(st, mode, extra).Ok?
    ensures var st1 := Resolve(st, mode, extra).value.0;
      st1.pc == Advance(st.pc, 2) && st1.busy == st.busy && st1.cy >= st.cy
  {
    if mode.Ind? {
      FetchTwiceAdvancesPc(st);
    } else if mode.Abx? {
      AbsIndexedAdvancesPc(st, st.x, extra);
    } else if mode.Aby? {
      AbsIndexedAdvancesPc(st, st.y, extra);
    }
  }

  /** Two byte fetches move pc by two. */
  lemma FetchTwiceAdvancesPc(st: State)
    requires FetchB(st).Ok? && FetchB(FetchB(st).value.0).Ok?
    ensures FetchB(FetchB(st).value.0).value.0 == st.(pc := Advance(st.pc, 2))
  {
    assert Advance(Advance(st.pc, 1), 1) == Advance(st.pc, 2);
  }

  /** abs,X and abs,Y move pc by two and may only add to the cycle count. */
  lemma AbsIndexedAdvancesPc(st: State, index: u8, extra: bool)
    requires AbsIndexed(st, index, extra).Ok?
    ensures var st1 := AbsIndexed(st, index, extra).value.0;
      st1.pc == Advance(st.pc, 2) && st1.busy == st.busy && st1.cy >= st.cy
  {
  }

  /** The operations that read their operand move neither pc nor the counters. */
  lemma ExecReadKeepsPc(st: State, op: Op, addr: Address)
    requires ReadsOperand(op) && ExecRead(st, op, addr).Ok?
    ensures KeepsPc(st, ExecRead(st, op, addr).value)
  {
  }

  /** The operations that write their operand keep pc; a store to 0x4014 only adds cycles. */
  lemma ExecWriteKeepsPc(st: State, op: Op, addr: Address)
    requires WritesOperand(op) && ExecWrite(st, op, addr).Ok?
    ensures KeepsPc(st, ExecWrite(st, op, addr).value)
  {
  }

  /** The register and flag operations keep pc and the counters. */
  lemma ExecImpliedKeepsPc(st: State, op: Op)
    requires RegisterOnly(op)
    ensures KeepsPc(st, ExecImplied(st, op))
  {
  }

  /** The combined operations keep pc: each half does. */
  lemma ExecCombinedKeepsPc(st: State, op: Op, addr: Address)
    requires IsCombined(op) && ExecCombined(st, op, addr).Ok?
    ensures KeepsPc(st, ExecCombined(st, op, addr).value)
  {
  }

  /** Every operation outside the branch, jump and stack group keeps pc and the counters. */
  lemma ExecKeepsPc(st: State, op: Op, addr: Address)
    requires !ControlFlow(op) && Exec(st, op, addr).Ok?
    ensures KeepsPc(st, Exec(st, op, addr).value)
  {
    if ReadsOperand(op) {
      ExecReadKeepsPc(st, op, addr);
    } else if WritesOperand(op) {
      ExecWriteKeepsPc(st, op, addr);
    } else if RegisterOnly(op) {
      ExecImpliedKeepsPc(st, op);
    } else {
      ExecCombinedKeepsPc(st, op, addr);
    }
  }

  /**
   * Starting an instruction that is not a branch, jump or stack operation:
   * pc moves past the opcode and its operand bytes, busy becomes the row's
   * cycles minus one, and at least one cycle is counted.
   */
  lemma StartAdvancesPc(st: State)
    requires st.busy == 0 && Step(st).Ok?
    requires !ControlFlow(Decode(Load(st, st.pc)).op)
    ensures var e := Decode(Load(st, st.pc));
      var st1 := Step(st).value;
      && st1.pc == PcAfterOperand(Advance(st.pc, 1), e.mode)
      && st1.busy == e.cycles - 1
      && st1.cy >= st.cy + 1
  {
    var opcode := Load(st, st.pc);
    var e := Decode(opcode);
    TableShape(opcode);
    var st0 := st.(pc := Advance(st.pc, 1));
    assert FetchB(st) == Ok((st0, opcode));
    assert Step(st) == Dispatch(st0, e);
    ResolveAdvancesPc(st0, e.mode, e.extra);
    var (st1, addr) := Resolve(st0, e.mode, e.extra).value;
    ExecKeepsPc(st1, e.op, addr);
  }

  /** No operation takes cycles back: the branches only add them, everything else keeps or adds. */
  lemma ExecNeverTakesCycles(st: State, op: Op, addr: Address)
    requires Exec(st, op, addr).Ok?
    ensures Exec(st, op, addr).value.cy >= st.cy
  {
    hide ExecRead, ExecWrite, ExecFlow, ExecImplied, ExecCombined;
    if ReadsOperand(op) {
      ExecReadKeepsPc(st, op, addr);
    } else if WritesOperand(op) {
      ExecWriteKeepsPc(st, op, addr);
    } else if ControlFlow(op) {
      FlowNeverTakesCycles(st, op, addr);
    } else if RegisterOnly(op) {
      ExecImpliedKeepsPc(st, op);
    } else if IsCombined(op) {
      ExecCombinedKeepsPc(st, op, addr);
    }
  }

  /** The branch, jump and stack operations only add cycles: a taken branch adds one or two. */
  lemma FlowNeverTakesCycles(st: State, op: Op, addr: Address)
    requires ControlFlow(op) && ExecFlow(st, op, addr).Ok?
    ensures ExecFlow(st, op, addr).value.cy >= st.cy
  {
    if op.Brk? {
      BrkKeepsCycles(st);
    } else if op.Jsr? {
      JsrKeepsCycles(st, addr);
    } else if op.Pha? {
      PushKeepsCycles(st, st.a);
    } else if op.Php? {
      PushKeepsCycles(st, PushedFlags(st.p));
    }
  }

  /** A push stores into page one, which the DMA port is not in: no cycles taken back. */
  lemma PushKeepsCycles(st: State, v: u8)
    requires PushB(st, v).Ok?
    ensures PushB(st, v).value.cy >= st.cy
  {
  }

  /** A word push is two byte pushes. */
  lemma PushWordKeepsCycles(st: State, w: u16)
    requires PushW(st, w).Ok?
    ensures PushW(st, w).value.cy >= st.cy
  {
    PushKeepsCycles(st, Hi(w));
    PushKeepsCycles(PushB(st, Hi(w)).value, Lo(w));
  }

  /** BRK pushes three bytes and loads the vector. */
  lemma BrkKeepsCycles(st: State)
    requires CpuSpec.Brk(st).Ok?
    ensures CpuSpec.Brk(st).value.cy >= st.cy
  {
    PushWordKeepsCycles(st, Advance(st.pc, 1));
    var st1 := PushW(st, Advance(st.pc, 1)).value;
    PushKeepsCycles(st1, PushedFlags(st.p));
  }

  /** JSR pushes the return address and jumps. */
  lemma JsrKeepsCycles(st: State, addr: Address)
    requires CpuSpec.Jsr(st, addr).Ok?
    ensures CpuSpec.Jsr(st, addr).value.cy >= st.cy
  {
    PushWordKeepsCycles(st, Retreat(st.pc));
  }

  /**
   * Every step counts at least one cycle. Starting an instruction leaves busy
   * at its row's cycles minus one, so the following steps count the rest.
   */
  lemma StepCountsCycles(st: State)
    requires Step(st).Ok?
    ensures Step(st).value.cy >= st.cy + 1
    ensures st.busy == 0 ==> Step(st).value.busy == Decode(Load(st, st.pc)).cycles - 1
  {
    if st.busy == 0 {
      var opcode := Load(st, st.pc);
      var e := Decode(opcode);
      TableShape(opcode);
      var st0 := st.(pc := Advance(st.pc, 1));
      assert FetchB(st) == Ok((st0, opcode));
      assert Step(st) == Dispatch(st0, e);
      ResolveAdvancesPc(st0, e.mode, e.extra);
      var (st1, addr) := Resolve(st0, e.mode, e.extra).value;
      ExecNeverTakesCycles(st1, e.op, addr);
    }
  }
}
