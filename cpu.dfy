/**
 * The CPU of nes/src/cpu.rs as a class: registers, flags, pc, the cycle and
 * busy counters, and the memory it owns. Every method is proved to do what
 * the matching function of CpuSpec says; a method returns `ok == false`
 * exactly where the Rust code panics.
 */
module Cpu {
  import opened Types
  import opened Bytes
  import opened Memory
  import opened Opcodes
  import opened CpuSpec

  class Cpu {
    var a: u8
    var x: u8
    var y: u8
    var s: u8
    var flags: u8
    var pc: u16
    var cy: nat
    var busy: nat
    const mem: VecMem

    /** The machine state as the reference functions see it. */
    ghost function State(): CpuSpec.State
      reads this, mem
    {
      CpuSpec.State(a, x, y, s, flags, pc, cy, busy, mem.cells, mem.log)
    }

    /** The method finished (`ok`) exactly when `r` is a success, and then in state `r`. */
    ghost predicate Done(ok: bool, r: Result<CpuSpec.State>)
      reads this, mem
    {
      ok == r.Ok? && (ok ==> State() == r.value)
    }

    /** As Done, for a method that also yields a value. */
    ghost predicate Yields<T>(ok: bool, v: T, r: Result<(CpuSpec.State, T)>)
      reads this, mem
    {
      ok == r.Ok? && (ok ==> State() == r.value.0 && v == r.value.1)
    }

    /** new: the power-on register values over the given memory. */
    constructor (m: VecMem)
      ensures mem == m
      ensures State() == PowerOn(m.cells).(log := m.log)
    {
      a, x, y := 0, 0, 0;
      flags := 0x24;
      s := 0xFD;
      pc := 0x0000;
      cy := 0;
      busy := 0;
      mem := m;
    }

    // ------------------------------------------------------------ memory

    /** loadb through the CPU. */
    method Loadb(addr: u16) returns (v: u8)
      ensures v == Load(State(), addr)
    {
      v := mem.Loadb(addr);
    }

    /** loadw through the CPU (the Mem default, over two loadb calls). */
    method Loadw(addr: u16) returns (ok: bool, w: u16)
      ensures ok == LoadWord(State(), addr).Ok?
      ensures ok ==> w == LoadWord(State(), addr).value
    {
      if addr == 0xFFFF {
        return false, 0;
      }
      var lo := Loadb(addr);
      var hi := Loadb(addr + 1);
      ok, w := true, Word(lo, hi);
    }

    /** storeb through the CPU: 0x4014 runs a DMA, anything else reaches memory. */
    method Storeb(addr: u16, val: u8) returns (ok: bool)
      modifies this, mem
      ensures Done(ok, Store(old(State()), addr, val))
    {
      if addr == OAM_DMA {
        ok := Dma(val);
      } else {
        mem.Storeb(addr, val);
        ok := true;
      }
    }

    /**
     * dma: copy page `page` byte by byte to 0x2004. The destination is never
     * 0x4014, so each store goes straight to memory.
     */
    method Dma(page: u8) returns (ok: bool)
      modifies this, mem
      ensures Done(ok, CpuSpec.Dma(old(State()), page))
    {
      if page == 0xFF {
        return false;
      }
      var start := PageStart(page);
      cy := cy + DmaCycles(cy);
      ghost var st0 := State();
      var i: nat := 0;
      while i < 0x100
        invariant i <= 0x100
        invariant State() == DmaCopy(st0, start, i)
      {
        var val := Loadb(DmaSource(start, i));
        mem.Storeb(OAM_DATA, val);
        i := i + 1;
      }
      ok := true;
    }

    // ------------------------------------------------------ pc and stack

    method LoadbBumpPc() returns (ok: bool, v: u8)
      modifies this
      ensures Yields(ok, v, FetchB(old(State())))
    {
      v := Loadb(pc);
      if pc == 0xFFFF {
        return false, v;
      }
      pc := Advance(pc, 1);
      ok := true;
    }

    method LoadwBumpPc() returns (ok: bool, w: u16)
      modifies this
      ensures Yields(ok, w, FetchW(old(State())))
    {
      ok, w := Loadw(pc);
      if !ok {
        return;
      }
      if pc == 0xFFFE {
        return false, w;
      }
      pc := Advance(pc, 2);
    }

    method Pushb(val: u8) returns (ok: bool)
      modifies this, mem
      ensures Done(ok, PushB(old(State()), val))
    {
      if s == 0 {
        return false;
      }
      var addr := StackAddr(s);
      s := s - 1;
      ok := Storeb(addr, val);
    }

    method Pushw(val: u16) returns (ok: bool)
      modifies this, mem
      ensures Done(ok, PushW(old(State()), val))
    {
      ok := Pushb(Hi(val));
      if !ok {
        return;
      }
      ok := Pushb(Lo(val));
    }

    method Popb() returns (ok: bool, v: u8)
      modifies this
      ensures Yields(ok, v, PopB(old(State())))
    {
      if s == 0xFF {
        return false, 0;
      }
      var addr := Advance(StackAddr(s), 1);
      s := s + 1;
      v := Loadb(addr);
      ok := true;
    }

    method Popw() returns (ok: bool, w: u16)
      modifies this
      ensures Yields(ok, w, PopW(old(State())))
    {
      if s >= 0xFE {
        return false, 0;
      }
      var addr := Advance(StackAddr(s), 1);
      s := s + 2;
      ok, w := Loadw(addr);
    }

    /** set_zn: sets Z and N from `v` and hands `v` back. */
    method SetZn(v: u8) returns (r: u8)
      modifies this
      ensures r == v
      ensures State() == old(State()).(p := CpuSpec.SetZn(old(flags), v))
    {
      flags := SetFlag(flags, ZERO, v == 0);
      flags := SetFlag(flags, NEGATIVE, v & 0x80 != 0);
      r := v;
    }

    // -------------------------------------------------- addressing modes

    method AbsIndexed(index: u8, extra: bool) returns (ok: bool, addr: Address)
      modifies this
      ensures Yields(ok, addr, CpuSpec.AbsIndexed(old(State()), index, extra))
    {
      var base;
      ok, base := LoadwBumpPc();
      if !ok {
        return false, Implied;
      }
      var target := IndexAdd(base, index);
      if extra && PageCrossed(base, target) {
        cy := cy + 1;
      }
      addr := Absolute(target);
    }

    method ZeroPageIndexed(index: u8) returns (ok: bool, addr: Address)
      modifies this
      ensures Yields(ok, addr, CpuSpec.ZeroPageIndexed(old(State()), index))
    {
      var base;
      ok, base := LoadbBumpPc();
      addr := Absolute(ZeroPageAdd(base, index));
    }

    /** izx. */
    method IndexedIndirect() returns (ok: bool, addr: Address)
      modifies this
      ensures Yields(ok, addr, CpuSpec.IndexedIndirect(old(State())))
    {
      var base;
      ok, base := LoadbBumpPc();
      if !ok {
        return false, Implied;
      }
      var ptr := ZeroPageAdd(base, x);
      if ptr == 0x00FF {
        var lo := Loadb(0x00FF);
        var hi := Loadb(0x0000);
        addr := Absolute(Word(lo, hi));
      } else {
        var w;
        ok, w := Loadw(ptr);
        addr := Absolute(w);
      }
    }

    /** izy. */
    method IndirectIndexed(extra: bool) returns (ok: bool, addr: Address)
      modifies this
      ensures Yields(ok, addr, CpuSpec.IndirectIndexed(old(State()), extra))
    {
      var zp;
      ok, zp := LoadbBumpPc();
      if !ok {
        return false, Implied;
      }
      var lo := Loadb(ZeroPage(zp));
      var hi := Loadb(ZeroPageAdd(zp, 1));
      var base := Word(lo, hi);
      var target := IndexAdd(base, y);
      if extra && PageCrossed(base, target) {
        cy := cy + 1;
      }
      addr := Absolute(target);
    }

    /** rel, with the offset taken as signed. */
    method Relative() returns (ok: bool, addr: Address)
      modifies this
      ensures Yields(ok, addr, CpuSpec.Relative(old(State())))
    {
      var d;
      ok, d := LoadbBumpPc();
      addr := Absolute(BranchTarget(pc, d));
    }

    /** The addressing-mode routine for a table row. */
    method Resolve(mode: Mode, extra: bool) returns (ok: bool, addr: Address)
      modifies this
      ensures Yields(ok, addr, CpuSpec.Resolve(old(State()), mode, extra))
    {
      match mode
      case Abs =>
        var w;
        ok, w := LoadwBumpPc();
        addr := Absolute(w);
      case Abx => ok, addr := AbsIndexed(x, extra);
      case Aby => ok, addr := AbsIndexed(y, extra);
      case Acc => ok, addr := true, Accumulator;
      case Imm =>
        var v;
        ok, v := LoadbBumpPc();
        addr := Immediate(v);
      case Imp => ok, addr := true, Implied;
      case Ind =>
        var lo, hi;
        ok, lo := LoadbBumpPc();
        if !ok {
          return false, Implied;
        }
        ok, hi := LoadbBumpPc();
        addr := Indirect(Word(lo, hi));
      case Izx => ok, addr := IndexedIndirect();
      case Izy => ok, addr := IndirectIndexed(extra);
      case Rel => ok, addr := Relative();
      case Zp0 =>
        var v;
        ok, v := LoadbBumpPc();
        addr := Absolute(ZeroPage(v));
      case Zpx => ok, addr := ZeroPageIndexed(x);
      case Zpy => ok, addr := ZeroPageIndexed(y);
    }

    // ------------------------------------------------------ operand access

    method AddrLoadb(addr: Address) returns (ok: bool, v: u8)
      ensures ok == Operand(State(), addr).Ok?
      ensures ok ==> v == Operand(State(), addr).value
    {
      match addr
      case Absolute(t) => ok := true; v := Loadb(t);
      case Accumulator => ok, v := true, a;
      case Immediate(val) => ok, v := true, val;
      case Indirect(_) => ok, v := false, 0;
      case Implied => ok, v := false, 0;
    }

    method AddrStoreb(addr: Address, val: u8) returns (ok: bool)
      modifies this, mem
      ensures Done(ok, SetOperand(old(State()), addr, val))
    {
      match addr
      case Absolute(t) => ok := Storeb(t, val);
      case Accumulator => a := val; ok := true;
      case _ => ok := false;
    }

    // ---------------------------------------------------------- operations

    method Adc(addr: Address) returns (ok: bool)
      modifies this
      ensures Done(ok, CpuSpec.Adc(old(State()), addr))
    {
      var m;
      ok, m := AddrLoadb(addr);
      if !ok {
        return;
      }
      var (r, carry, overflow) := AddWithCarry(a, m, flags & CARRY);
      a, flags := r, ArithFlags(flags, carry, overflow, r);
    }

    method Sbc(addr: Address) returns (ok: bool)
      modifies this
      ensures Done(ok, CpuSpec.Sbc(old(State()), addr))
    {
      var m;
      ok, m := AddrLoadb(addr);
      if !ok {
        return;
      }
      var (r, carry, overflow) := SubtractWithBorrow(a, m, flags & CARRY);
      a, flags := r, ArithFlags(flags, carry, overflow, r);
    }

    /** and, ora, eor. */
    method Logic(addr: Address, op: Op) returns (ok: bool)
      requires (op.And? || op.Ora? || op.Eor?)
      modifies this
      ensures Done(ok, CpuSpec.Logic(old(State()), addr, op))
    {
      var m;
      ok, m := AddrLoadb(addr);
      if !ok {
        return;
      }
      if op == And {
        a := SetZn(m & a);
      } else if op == Ora {
        a := SetZn(a | m);
      } else {
        a := a ^ m;
        var _ := SetZn(a);
      }
    }

    method Asl(addr: Address) returns (ok: bool)
      modifies this, mem
      ensures Done(ok, CpuSpec.Asl(old(State()), addr))
    {
      var val;
      ok, val := AddrLoadb(addr);
      if !ok {
        return;
      }
      var r := val << 1;
      flags := CarryZn(flags, val & 0x80 == 0x80, r);
      ok := AddrStoreb(addr, r);
    }

    method Lsr(addr: Address) returns (ok: bool)
      modifies this, mem
      ensures Done(ok, CpuSpec.Lsr(old(State()), addr))
    {
      var val;
      ok, val := AddrLoadb(addr);
      if !ok {
        return;
      }
      var r := val >> 1;
      flags := CarryZn(flags, val & 0x01 != 0, r);
      ok := AddrStoreb(addr, r);
    }

    method Rol(addr: Address) returns (ok: bool)
      modifies this, mem
      ensures Done(ok, CpuSpec.Rol(old(State()), addr))
    {
      var val;
      ok, val := AddrLoadb(addr);
      if !ok {
        return;
      }
      var r := RotateLeft(val, flags & CARRY != 0);
      ok := AddrStoreb(addr, r);
      if !ok {
        return;
      }
      flags := RolFlags(flags, val, r, a);
    }

    method Ror(addr: Address) returns (ok: bool)
      modifies this, mem
      ensures Done(ok, CpuSpec.Ror(old(State()), addr))
    {
      var val;
      ok, val := AddrLoadb(addr);
      if !ok {
        return;
      }
      var r := RotateRight(val, flags & CARRY != 0);
      flags := CarryZn(flags, val & 0x01 != 0, r);
      ok := AddrStoreb(addr, r);
    }

    method Bit(addr: Address) returns (ok: bool)
      modifies this
      ensures Done(ok, CpuSpec.Bit(old(State()), addr))
    {
      var val;
      ok, val := AddrLoadb(addr);
      if !ok {
        return;
      }
      flags := BitFlags(flags, a, val);
    }

    /** cmp, cpx, cpy against the register value `reg`. */
    method Compare(reg: u8, addr: Address) returns (ok: bool)
      modifies this
      ensures Done(ok, CpuSpec.Compare(old(State()), reg, addr))
    {
      var val;
      ok, val := AddrLoadb(addr);
      if !ok {
        return;
      }
      flags := CompareFlags(flags, reg, val);
    }

    /** dec (delta 0xFF) and inc (delta 0x01). */
    method IncDec(addr: Address, delta: u8) returns (ok: bool)
      modifies this, mem
      ensures Done(ok, CpuSpec.IncDec(old(State()), addr, delta))
    {
      var val;
      ok, val := AddrLoadb(addr);
      if !ok {
        return;
      }
      var r := AddWrapped(val, delta);
      ok := AddrStoreb(addr, r);
      if !ok {
        return;
      }
      flags := CpuSpec.SetZn(flags, r);
    }

    /** branch_base. */
    method Branch(cond: bool, addr: Address) returns (ok: bool)
      modifies this
      ensures Done(ok, CpuSpec.Branch(old(State()), cond, addr))
    {
      if !cond {
        return true;
      }
      match addr
      case Absolute(t) =>
        cy, pc := cy + BranchCycles(pc, t), t;
        ok := true;
      case _ => ok := false;
    }

    method Brk() returns (ok: bool)
      modifies this, mem
      ensures Done(ok, CpuSpec.Brk(old(State())))
    {
      var bits := PushedFlags(flags);
      if pc == 0xFFFF {
        return false;
      }
      ok := Pushw(Advance(pc, 1));
      if !ok {
        return;
      }
      ok := Pushb(bits);
      if !ok {
        return;
      }
      ok, pc := Loadw(BRK_VECTOR);
    }

    method Jmp(addr: Address) returns (ok: bool)
      modifies this
      ensures Done(ok, CpuSpec.Jmp(old(State()), addr))
    {
      match addr
      case Indirect(ptr) =>
        if ptr & 0x00FF == 0x00FF {
          var page := ptr & 0xFF00;
          var lo := Loadb(page + 0x00FF);
          var hi := Loadb(page);
          pc := Word(lo, hi);
          ok := true;
        } else {
          var w;
          ok, w := Loadw(ptr);
          if ok {
            pc := w;
          }
        }
      case Absolute(t) =>
        pc := t;
        ok := true;
      case _ => ok := false;
    }

    method Jsr(addr: Address) returns (ok: bool)
      modifies this, mem
      ensures Done(ok, CpuSpec.Jsr(old(State()), addr))
    {
      match addr
      case Absolute(t) =>
        ok := Pushw(Retreat(pc));
        if ok {
          pc := t;
        }
      case _ => ok := false;
    }

    method Pla() returns (ok: bool)
      modifies this
      ensures Done(ok, CpuSpec.Pla(old(State())))
    {
      var v;
      ok, v := Popb();
      if !ok {
        return;
      }
      a := v;
      var _ := SetZn(a);
    }

    method Plp() returns (ok: bool)
      modifies this
      ensures Done(ok, CpuSpec.Plp(old(State())))
    {
      var v;
      ok, v := Popb();
      if ok {
        flags := (v & 0xEF) | 0x20;
      }
    }

    method Rti() returns (ok: bool)
      modifies this
      ensures Done(ok, CpuSpec.Rti(old(State())))
    {
      var v;
      ok, v := Popb();
      if !ok {
        return;
      }
      flags := v | 0x20;
      var w;
      ok, w := Popw();
      if ok {
        pc := w;
      }
    }

    method Rts() returns (ok: bool)
      modifies this
      ensures Done(ok, CpuSpec.Rts(old(State())))
    {
      var w;
      ok, w := Popw();
      if ok {
        pc := Advance(w, 1);
      }
    }

    /** lda, ldx, ldy, lax. */
    method LoadRegister(addr: Address, op: Op) returns (ok: bool)
      requires (op.Lda? || op.Ldx? || op.Ldy? || op.Lax?)
      modifies this
      ensures Done(ok, CpuSpec.LoadRegister(old(State()), addr, op))
    {
      var v;
      ok, v := AddrLoadb(addr);
      if !ok {
        return;
      }
      if op.Lda? {
        a := SetZn(v);
      } else if op.Ldx? {
        x := SetZn(v);
      } else if op.Ldy? {
        y := SetZn(v);
      } else {  // Lax
        a := v;
        x := v;
        var _ := SetZn(v);
      }
    }

    /** tax, tay, tsx, txa, tya, txs. */
    method Transfer(op: Op)
      requires (op.Tax? || op.Tay? || op.Tsx? || op.Txa? || op.Tya? || op.Txs?)
      modifies this
      ensures State() == CpuSpec.Transfer(old(State()), op)
    {
      if op.Tax? {
        x := SetZn(a);
      } else if op.Tay? {
        y := SetZn(a);
      } else if op.Tsx? {
        x := SetZn(s);
      } else if op.Txa? {
        a := SetZn(x);
      } else if op.Tya? {
        a := SetZn(y);
      } else {  // Txs
        s := x;
      }
    }

    /** dex, dey, inx, iny. */
    method StepRegister(op: Op)
      requires (op.Dex? || op.Dey? || op.Inx? || op.Iny?)
      modifies this
      ensures State() == CpuSpec.StepRegister(old(State()), op)
    {
      if op.Dex? {
        x := SetZn(x - 1);
      } else if op.Dey? {
        y := SetZn(y - 1);
      } else if op.Inx? {
        x := SetZn(x + 1);
      } else {  // Iny
        y := SetZn(y + 1);
      }
    }

    /** clc, cld, cli, clv, sec, sed, sei. */
    method FlagOp(op: Op)
      requires (op.Clc? || op.Cld? || op.Cli? || op.Clv? || op.Sec? || op.Sed? || op.Sei?)
      modifies this
      ensures State() == CpuSpec.FlagOp(old(State()), op)
    {
      if op.Clc? {
        flags := flags & !CARRY;
      } else if op.Cld? {
        flags := flags & !DECIMAL;
      } else if op.Cli? {
        flags := flags & !IRQ_DISABLE;
      } else if op.Clv? {
        flags := flags & !OVERFLOW;
      } else if op.Sec? {
        flags := flags | CARRY;
      } else if op.Sed? {
        flags := flags | DECIMAL;
      } else {  // Sei
        flags := flags | IRQ_DISABLE;
      }
    }

    /** The operation routine of a table row. */
    method Exec(op: Op, addr: Address) returns (ok: bool)
      modifies this, mem
      ensures Done(ok, CpuSpec.Exec(old(State()), op, addr))
    {
      ghost var st0 := State();
      if ReadsOperand(op) {
        assert CpuSpec.Exec(st0, op, addr) == CpuSpec.ExecRead(st0, op, addr);
        ok := ExecRead(op, addr);
      } else if WritesOperand(op) {
        assert CpuSpec.Exec(st0, op, addr) == CpuSpec.ExecWrite(st0, op, addr);
        ok := ExecWrite(op, addr);
      } else if ControlFlow(op) {
        assert CpuSpec.Exec(st0, op, addr) == CpuSpec.ExecFlow(st0, op, addr);
        ok := ExecFlow(op, addr);
      } else if RegisterOnly(op) {
        assert CpuSpec.Exec(st0, op, addr) == Ok(CpuSpec.ExecImplied(st0, op));
        ExecImplied(op);
        ok := true;
      } else if IsCombined(op) {
        assert CpuSpec.Exec(st0, op, addr) == CpuSpec.ExecCombined(st0, op, addr);
        ok := ExecCombined(op, addr);
      } else {
        assert CpuSpec.Exec(st0, op, addr).Err?;
        ok := false;
      }
    }

    method ExecRead(op: Op, addr: Address) returns (ok: bool)
      requires ReadsOperand(op)
      modifies this
      ensures Done(ok, CpuSpec.ExecRead(old(State()), op, addr))
    {
      if op.Adc? {
        ok := Adc(addr);
      } else if op.Sbc? {
        ok := Sbc(addr);
      } else if op.And? || op.Ora? || op.Eor? {
        ok := Logic(addr, op);
      } else if op.Bit? {
        ok := Bit(addr);
      } else if op.Cmp? {
        ok := Compare(a, addr);
      } else if op.Cpx? {
        ok := Compare(x, addr);
      } else if op.Cpy? {
        ok := Compare(y, addr);
      } else {
        ok := LoadRegister(addr, op);
      }
    }

    method ExecWrite(op: Op, addr: Address) returns (ok: bool)
      requires WritesOperand(op)
      modifies this, mem
      ensures Done(ok, CpuSpec.ExecWrite(old(State()), op, addr))
    {
      if op.Asl? {
        ok := Asl(addr);
      } else if op.Lsr? {
        ok := Lsr(addr);
      } else if op.Rol? {
        ok := Rol(addr);
      } else if op.Ror? {
        ok := Ror(addr);
      } else if op.Dec? {
        ok := IncDec(addr, 0xFF);
      } else if op.Inc? {
        ok := IncDec(addr, 0x01);
      } else if op.Sta? {
        ok := AddrStoreb(addr, a);
      } else if op.Stx? {
        ok := AddrStoreb(addr, x);
      } else if op.Sty? {
        ok := AddrStoreb(addr, y);
      } else {
        ok := AddrStoreb(addr, a & x);
      }
    }

    method ExecFlow(op: Op, addr: Address) returns (ok: bool)
      requires ControlFlow(op)
      modifies this, mem
      ensures Done(ok, CpuSpec.ExecFlow(old(State()), op, addr))
    {
      if op.Brk? {
        ok := Brk();
      } else if op.Jmp? {
        ok := Jmp(addr);
      } else if op.Jsr? {
        ok := Jsr(addr);
      } else if op.Rti? {
        ok := Rti();
      } else if op.Rts? {
        ok := Rts();
      } else if op.Pha? {
        ok := Pushb(a);
      } else if op.Php? {
        ok := Pushb(PushedFlags(flags));
      } else if op.Pla? {
        ok := Pla();
      } else if op.Plp? {
        ok := Plp();
      } else {
        ok := Branch(BranchTaken(op, flags), addr);
      }
    }

    method ExecImplied(op: Op)
      requires RegisterOnly(op)
      modifies this
      ensures State() == CpuSpec.ExecImplied(old(State()), op)
    {
      if op.Tax? || op.Tay? || op.Tsx? || op.Txa? || op.Tya? || op.Txs? {
        Transfer(op);
      } else if op.Dex? || op.Dey? || op.Inx? || op.Iny? {
        StepRegister(op);
      } else if op.Nop? {
      } else {
        FlagOp(op);
      }
    }

    /** dcp, isc, slo, rla, sre, rra: a read-modify-write, then an ALU routine on the same address. */
    method ExecCombined(op: Op, addr: Address) returns (ok: bool)
      requires IsCombined(op)
      modifies this, mem
      ensures Done(ok, CpuSpec.ExecCombined(old(State()), op, addr))
    {
      if op.Dcp? {
        ok := IncDec(addr, 0xFF);
        if ok { ok := Compare(a, addr); }
      } else if op.Isc? {
        ok := IncDec(addr, 0x01);
        if ok { ok := Sbc(addr); }
      } else if op.Slo? {
        ok := Asl(addr);
        if ok { ok := Logic(addr, Ora); }
      } else if op.Rla? {
        ok := Rol(addr);
        if ok { ok := Logic(addr, And); }
      } else if op.Sre? {
        ok := Lsr(addr);
        if ok { ok := Logic(addr, Eor); }
      } else {
        ok := Ror(addr);
        if ok { ok := Adc(addr); }
      }
    }

    // ------------------------------------------------------ step and entry

    /** step: one CPU cycle. */
    method Step() returns (ok: bool)
      modifies this, mem
      ensures Done(ok, CpuSpec.Step(old(State())))
    {
      if busy > 0 {
        busy := busy - 1;
        cy := cy + 1;
        return true;
      }
      var opcode;
      ok, opcode := LoadbBumpPc();
      if !ok {
        return;
      }
      TableShape(opcode);
      ok := Dispatch(Decode(opcode));
    }

    /** One arm of the ops! table. */
    method Dispatch(e: Entry) returns (ok: bool)
      requires RowShape(e)
      modifies this, mem
      ensures Done(ok, CpuSpec.Dispatch(old(State()), e))
    {
      var addr;
      ok, addr := Resolve(e.mode, e.extra);
      if !ok {
        return;
      }
      ok := Exec(e.op, addr);
      if !ok {
        return;
      }
      busy := e.cycles - 1;
      cy := cy + 1;
    }

    /** reset. */
    method Reset()
      modifies this
      ensures State() == CpuSpec.Reset(old(State()))
    {
      var ok, w := Loadw(RESET_VECTOR);
      pc := w;
      flags := flags | IRQ_DISABLE;
    }

    /** The push-and-jump shared by nmi and irq. */
    method Interrupt(vector: u16) returns (ok: bool)
      requires (vector == NMI_VECTOR || vector == BRK_VECTOR)
      modifies this, mem
      ensures Done(ok, CpuSpec.Interrupt(old(State()), vector))
    {
      flags := SetFlag(flags, BREAK, false);
      ok := Pushw(pc);
      if !ok {
        return;
      }
      ok := Pushb(flags);
      if !ok {
        return;
      }
      flags := SetFlag(flags, IRQ_DISABLE, true);
      ok, pc := Loadw(vector);
    }

    method Nmi() returns (ok: bool)
      modifies this, mem
      ensures Done(ok, CpuSpec.Nmi(old(State())))
    {
      ok := Interrupt(NMI_VECTOR);
    }

    method Irq() returns (ok: bool)
      modifies this, mem
      ensures Done(ok, CpuSpec.Irq(old(State())))
    {
      if flags & IRQ_DISABLE != 0 {
        return true;
      }
      ok := Interrupt(BRK_VECTOR);
    }
  }
}
