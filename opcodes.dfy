/**
 * The dispatch table of nes/src/cpu.rs: the `ops!` macro expands every opcode
 * into a call of one addressing-mode routine and one operation routine, then
 * sets the busy counter from the listed cycle count. The table is data here.
 */
module Opcodes {
  import opened Types

  /** The operation routines of the CPU, one per mnemonic the table names. */
  datatype Op = Adc | Ahx | Alr | Anc | And | Arr | Asl | Axs | Bcc | Bcs | Beq | Bit | Bmi | Bne | Bpl | Brk | Bvc | Bvs | Clc | Cld | Cli | Clv | Cmp | Cpx | Cpy | Dcp | Dec | Dex | Dey | Eor | Inc | Inx | Iny | Isc | Jmp | Jsr | Kil | Las | Lax | Lda | Ldx | Ldy | Lsr | Nop | Ora | Pha | Php | Pla | Plp | Rla | Rol | Ror | Rra | Rti | Rts | Sax | Sbc | Sec | Sed | Sei | Shx | Shy | Slo | Sre | Sta | Stx | Sty | Tas | Tax | Tay | Tsx | Txa | Txs | Tya | Xaa

  /** The addressing-mode routines. */
  datatype Mode = Abs | Abx | Aby | Acc | Imm | Imp | Ind | Izx | Izy | Rel | Zp0 | Zpx | Zpy

  /**
   * One row of the table: the operation, its addressing mode, its base cycle
   * count and whether a page crossing (or a taken branch) adds cycles.
   */
  datatype Entry = Entry(op: Op, mode: Mode, cycles: nat, extra: bool)

  /**
   * The row for an opcode: the `ops!` match, one arm per opcode, laid out as
   * sixteen rows of sixteen by the opcode's high and low nibbles.
   */
  function Decode(opcode: u8): Entry {
    var hi, lo := (opcode >> 4) as int, (opcode & 0xF) as int;
    match hi
    case 0 => Row0(lo)
    case 1 => Row1(lo)
    case 2 => Row2(lo)
    case 3 => Row3(lo)
    case 4 => Row4(lo)
    case 5 => Row5(lo)
    case 6 => Row6(lo)
    case 7 => Row7(lo)
    case 8 => Row8(lo)
    case 9 => Row9(lo)
    case 10 => RowA(lo)
    case 11 => RowB(lo)
    case 12 => RowC(lo)
    case 13 => RowD(lo)
    case 14 => RowE(lo)
    case _ => RowF(lo)
  }

  /** The opcodes 0x00 to 0x0F. */
  function Row0(lo: nat): Entry
    requires lo < 0x10
  {
    match lo
    case 0 => Entry(Brk, Imp, 7, false)  // 0x00
    case 1 => Entry(Ora, Izx, 6, false)  // 0x01
    case 2 => Entry(Kil, Imp, 2, false)  // 0x02
    case 3 => Entry(Slo, Izx, 8, false)  // 0x03
    case 4 => Entry(Nop, Zp0, 3, false)  // 0x04
    case 5 => Entry(Ora, Zp0, 3, false)  // 0x05
    case 6 => Entry(Asl, Zp0, 5, false)  // 0x06
    case 7 => Entry(Slo, Zp0, 5, false)  // 0x07
    case 8 => Entry(Php, Imp, 3, false)  // 0x08
    case 9 => Entry(Ora, Imm, 2, false)  // 0x09
    case 10 => Entry(Asl, Acc, 2, false)  // 0x0A
    case 11 => Entry(Anc, Imm, 2, false)  // 0x0B
    case 12 => Entry(Nop, Abs, 4, false)  // 0x0C
    case 13 => Entry(Ora, Abs, 4, false)  // 0x0D
    case 14 => Entry(Asl, Abs, 6, false)  // 0x0E
    case _ => Entry(Slo, Abs, 6, false)  // 0x0F
  }

  /** The opcodes 0x10 to 0x1F. */
  function Row1(lo: nat): Entry
    requires lo < 0x10
  {
    match lo
    case 0 => Entry(Bpl, Rel, 2, true)  // 0x10
    case 1 => Entry(Ora, Izy, 5, true)  // 0x11
    case 2 => Entry(Kil, Imp, 2, false)  // 0x12
    case 3 => Entry(Slo, Izy, 8, false)  // 0x13
    case 4 => Entry(Nop, Zpx, 4, false)  // 0x14
    case 5 => Entry(Ora, Zpx, 4, false)  // 0x15
    case 6 => Entry(Asl, Zpx, 6, false)  // 0x16
    case 7 => Entry(Slo, Zpx, 6, false)  // 0x17
    case 8 => Entry(Clc, Imp, 2, false)  // 0x18
    case 9 => Entry(Ora, Aby, 4, true)  // 0x19
    case 10 => Entry(Nop, Imp, 2, false)  // 0x1A
    case 11 => Entry(Slo, Aby, 7, false)  // 0x1B
    case 12 => Entry(Nop, Abx, 4, true)  // 0x1C
    case 13 => Entry(Ora, Abx, 4, true)  // 0x1D
    case 14 => Entry(Asl, Abx, 7, false)  // 0x1E
    case _ => Entry(Slo, Abx, 7, false)  // 0x1F
  }

  /** The opcodes 0x20 to 0x2F. */
  function Row2(lo: nat): Entry
    requires lo < 0x10
  {
    match lo
    case 0 => Entry(Jsr, Abs, 6, false)  // 0x20
    case 1 => Entry(And, Izx, 6, false)  // 0x21
    case 2 => Entry(Kil, Imp, 2, false)  // 0x22
    case 3 => Entry(Rla, Izx, 8, false)  // 0x23
    case 4 => Entry(Bit, Zp0, 3, false)  // 0x24
    case 5 => Entry(And, Zp0, 3, false)  // 0x25
    case 6 => Entry(Rol, Zp0, 5, false)  // 0x26
    case 7 => Entry(Rla, Zp0, 5, false)  // 0x27
    case 8 => Entry(Plp, Imp, 4, false)  // 0x28
    case 9 => Entry(And, Imm, 2, false)  // 0x29
    case 10 => Entry(Rol, Acc, 2, false)  // 0x2A
    case 11 => Entry(Anc, Imm, 2, false)  // 0x2B
    case 12 => Entry(Bit, Abs, 4, false)  // 0x2C
    case 13 => Entry(And, Abs, 4, false)  // 0x2D
    case 14 => Entry(Rol, Abs, 6, false)  // 0x2E
    case _ => Entry(Rla, Abs, 6, false)  // 0x2F
  }

  /** The opcodes 0x30 to 0x3F. */
  function Row3(lo: nat): Entry
    requires lo < 0x10
  {
    match lo
    case 0 => Entry(Bmi, Rel, 2, true)  // 0x30
    case 1 => Entry(And, Izy, 5, true)  // 0x31
    case 2 => Entry(Kil, Imp, 2, false)  // 0x32
    case 3 => Entry(Rla, Izy, 8, false)  // 0x33
    case 4 => Entry(Nop, Zpx, 4, false)  // 0x34
    case 5 => Entry(And, Zpx, 4, false)  // 0x35
    case 6 => Entry(Rol, Zpx, 6, false)  // 0x36
    case 7 => Entry(Rla, Zpx, 6, false)  // 0x37
    case 8 => Entry(Sec, Imp, 2, false)  // 0x38
    case 9 => Entry(And, Aby, 4, true)  // 0x39
    case 10 => Entry(Nop, Imp, 2, false)  // 0x3A
    case 11 => Entry(Rla, Aby, 7, false)  // 0x3B
    case 12 => Entry(Nop, Abx, 4, true)  // 0x3C
    case 13 => Entry(And, Abx, 4, true)  // 0x3D
    case 14 => Entry(Rol, Abx, 7, false)  // 0x3E
    case _ => Entry(Rla, Abx, 7, false)  // 0x3F
  }

  /** The opcodes 0x40 to 0x4F. */
  function Row4(lo: nat): Entry
    requires lo < 0x10
  {
    match lo
    case 0 => Entry(Rti, Imp, 6, false)  // 0x40
    case 1 => Entry(Eor, Izx, 6, false)  // 0x41
    case 2 => Entry(Kil, Imp, 2, false)  // 0x42
    case 3 => Entry(Sre, Izx, 8, false)  // 0x43
    case 4 => Entry(Nop, Zp0, 3, false)  // 0x44
    case 5 => Entry(Eor, Zp0, 3, false)  // 0x45
    case 6 => Entry(Lsr, Zp0, 5, false)  // 0x46
    case 7 => Entry(Sre, Zp0, 5, false)  // 0x47
    case 8 => Entry(Pha, Imp, 3, false)  // 0x48
    case 9 => Entry(Eor, Imm, 2, false)  // 0x49
    case 10 => Entry(Lsr, Acc, 2, false)  // 0x4A
    case 11 => Entry(Alr, Imm, 2, false)  // 0x4B
    case 12 => Entry(Jmp, Abs, 3, false)  // 0x4C
    case 13 => Entry(Eor, Abs, 4, false)  // 0x4D
    case 14 => Entry(Lsr, Abs, 6, false)  // 0x4E
    case _ => Entry(Sre, Abs, 6, false)  // 0x4F
  }

  /** The opcodes 0x50 to 0x5F. */
  function Row5(lo: nat): Entry
    requires lo < 0x10
  {
    match lo
    case 0 => Entry(Bvc, Rel, 2, true)  // 0x50
    case 1 => Entry(Eor, Izy, 5, true)  // 0x51
    case 2 => Entry(Kil, Imp, 2, false)  // 0x52
    case 3 => Entry(Sre, Izy, 8, false)  // 0x53
    case 4 => Entry(Nop, Zpx, 4, false)  // 0x54
    case 5 => Entry(Eor, Zpx, 4, false)  // 0x55
    case 6 => Entry(Lsr, Zpx, 6, false)  // 0x56
    case 7 => Entry(Sre, Zpx, 6, false)  // 0x57
    case 8 => Entry(Cli, Imp, 2, false)  // 0x58
    case 9 => Entry(Eor, Aby, 4, true)  // 0x59
    case 10 => Entry(Nop, Imp, 2, false)  // 0x5A
    case 11 => Entry(Sre, Aby, 7, false)  // 0x5B
    case 12 => Entry(Nop, Abx, 4, true)  // 0x5C
    case 13 => Entry(Eor, Abx, 4, true)  // 0x5D
    case 14 => Entry(Lsr, Abx, 7, false)  // 0x5E
    case _ => Entry(Sre, Abx, 7, false)  // 0x5F
  }

  /** The opcodes 0x60 to 0x6F. */
  function Row6(lo: nat): Entry
    requires lo < 0x10
  {
    match lo
    case 0 => Entry(Rts, Imp, 6, false)  // 0x60
    case 1 => Entry(Adc, Izx, 6, false)  // 0x61
    case 2 => Entry(Kil, Imp, 2, false)  // 0x62
    case 3 => Entry(Rra, Izx, 8, false)  // 0x63
    case 4 => Entry(Nop, Zp0, 3, false)  // 0x64
    case 5 => Entry(Adc, Zp0, 3, false)  // 0x65
    case 6 => Entry(Ror, Zp0, 5, false)  // 0x66
    case 7 => Entry(Rra, Zp0, 5, false)  // 0x67
    case 8 => Entry(Pla, Imp, 4, false)  // 0x68
    case 9 => Entry(Adc, Imm, 2, false)  // 0x69
    case 10 => Entry(Ror, Acc, 2, false)  // 0x6A
    case 11 => Entry(Arr, Imm, 2, false)  // 0x6B
    case 12 => Entry(Jmp, Ind, 5, false)  // 0x6C
    case 13 => Entry(Adc, Abs, 4, false)  // 0x6D
    case 14 => Entry(Ror, Abs, 6, false)  // 0x6E
    case _ => Entry(Rra, Abs, 6, false)  // 0x6F
  }

  /** The opcodes 0x70 to 0x7F. */
  function Row7(lo: nat): Entry
    requires lo < 0x10
  {
    match lo
    case 0 => Entry(Bvs, Rel, 2, true)  // 0x70
    case 1 => Entry(Adc, Izy, 5, true)  // 0x71
    case 2 => Entry(Kil, Imp, 2, false)  // 0x72
    case 3 => Entry(Rra, Izy, 8, false)  // 0x73
    case 4 => Entry(Nop, Zpx, 4, false)  // 0x74
    case 5 => Entry(Adc, Zpx, 4, false)  // 0x75
    case 6 => Entry(Ror, Zpx, 6, false)  // 0x76
    case 7 => Entry(Rra, Zpx, 6, false)  // 0x77
    case 8 => Entry(Sei, Imp, 2, false)  // 0x78
    case 9 => Entry(Adc, Aby, 4, true)  // 0x79
    case 10 => Entry(Nop, Imp, 2, false)  // 0x7A
    case 11 => Entry(Rra, Aby, 7, false)  // 0x7B
    case 12 => Entry(Nop, Abx, 4, true)  // 0x7C
    case 13 => Entry(Adc, Abx, 4, true)  // 0x7D
    case 14 => Entry(Ror, Abx, 7, false)  // 0x7E
    case _ => Entry(Rra, Abx, 7, false)  // 0x7F
  }

  /** The opcodes 0x80 to 0x8F. */
  function Row8(lo: nat): Entry
    requires lo < 0x10
  {
    match lo
    case 0 => Entry(Nop, Imm, 2, false)  // 0x80
    case 1 => Entry(Sta, Izx, 6, false)  // 0x81
    case 2 => Entry(Nop, Imm, 2, false)  // 0x82
    case 3 => Entry(Sax, Izx, 6, false)  // 0x83
    case 4 => Entry(Sty, Zp0, 3, false)  // 0x84
    case 5 => Entry(Sta, Zp0, 3, false)  // 0x85
    case 6 => Entry(Stx, Zp0, 3, false)  // 0x86
    case 7 => Entry(Sax, Zp0, 3, false)  // 0x87
    case 8 => Entry(Dey, Imp, 2, false)  // 0x88
    case 9 => Entry(Nop, Imm, 2, false)  // 0x89
    case 10 => Entry(Txa, Imp, 2, false)  // 0x8A
    case 11 => Entry(Xaa, Imm, 2, false)  // 0x8B
    case 12 => Entry(Sty, Abs, 4, false)  // 0x8C
    case 13 => Entry(Sta, Abs, 4, false)  // 0x8D
    case 14 => Entry(Stx, Abs, 4, false)  // 0x8E
    case _ => Entry(Sax, Abs, 4, false)  // 0x8F
  }

  /** The opcodes 0x90 to 0x9F. */
  function Row9(lo: nat): Entry
    requires lo < 0x10
  {
    match lo
    case 0 => Entry(Bcc, Rel, 2, true)  // 0x90
    case 1 => Entry(Sta, Izy, 6, false)  // 0x91
    case 2 => Entry(Kil, Imp, 2, false)  // 0x92
    case 3 => Entry(Ahx, Izy, 6, false)  // 0x93
    case 4 => Entry(Sty, Zpx, 4, false)  // 0x94
    case 5 => Entry(Sta, Zpx, 4, false)  // 0x95
    case 6 => Entry(Stx, Zpy, 4, false)  // 0x96
    case 7 => Entry(Sax, Zpy, 4, false)  // 0x97
    case 8 => Entry(Tya, Imp, 2, false)  // 0x98
    case 9 => Entry(Sta, Aby, 5, false)  // 0x99
    case 10 => Entry(Txs, Imp, 2, false)  // 0x9A
    case 11 => Entry(Tas, Aby, 5, false)  // 0x9B
    case 12 => Entry(Shy, Abx, 5, false)  // 0x9C
    case 13 => Entry(Sta, Abx, 5, false)  // 0x9D
    case 14 => Entry(Shx, Aby, 5, false)  // 0x9E
    case _ => Entry(Ahx, Aby, 5, false)  // 0x9F
  }

  /** The opcodes 0xA0 to 0xAF. */
  function RowA(lo: nat): Entry
    requires lo < 0x10
  {
    match lo
    case 0 => Entry(Ldy, Imm, 2, false)  // 0xA0
    case 1 => Entry(Lda, Izx, 6, false)  // 0xA1
    case 2 => Entry(Ldx, Imm, 2, false)  // 0xA2
    case 3 => Entry(Lax, Izx, 6, false)  // 0xA3
    case 4 => Entry(Ldy, Zp0, 3, false)  // 0xA4
    case 5 => Entry(Lda, Zp0, 3, false)  // 0xA5
    case 6 => Entry(Ldx, Zp0, 3, false)  // 0xA6
    case 7 => Entry(Lax, Zp0, 3, false)  // 0xA7
    case 8 => Entry(Tay, Imp, 2, false)  // 0xA8
    case 9 => Entry(Lda, Imm, 2, false)  // 0xA9
    case 10 => Entry(Tax, Imp, 2, false)  // 0xAA
    case 11 => Entry(Lax, Imm, 2, false)  // 0xAB
    case 12 => Entry(Ldy, Abs, 4, false)  // 0xAC
    case 13 => Entry(Lda, Abs, 4, false)  // 0xAD
    case 14 => Entry(Ldx, Abs, 4, false)  // 0xAE
    case _ => Entry(Lax, Abs, 4, false)  // 0xAF
  }

  /** The opcodes 0xB0 to 0xBF. */
  function RowB(lo: nat): Entry
    requires lo < 0x10
  {
    match lo
    case 0 => Entry(Bcs, Rel, 2, true)  // 0xB0
    case 1 => Entry(Lda, Izy, 5, true)  // 0xB1
    case 2 => Entry(Kil, Imp, 2, false)  // 0xB2
    case 3 => Entry(Lax, Izy, 5, true)  // 0xB3
    case 4 => Entry(Ldy, Zpx, 4, false)  // 0xB4
    case 5 => Entry(Lda, Zpx, 4, false)  // 0xB5
    case 6 => Entry(Ldx, Zpy, 4, false)  // 0xB6
    case 7 => Entry(Lax, Zpy, 4, false)  // 0xB7
    case 8 => Entry(Clv, Imp, 2, false)  // 0xB8
    case 9 => Entry(Lda, Aby, 4, true)  // 0xB9
    case 10 => Entry(Tsx, Imp, 2, false)  // 0xBA
    case 11 => Entry(Las, Aby, 4, true)  // 0xBB
    case 12 => Entry(Ldy, Abx, 4, true)  // 0xBC
    case 13 => Entry(Lda, Abx, 4, true)  // 0xBD
    case 14 => Entry(Ldx, Aby, 4, true)  // 0xBE
    case _ => Entry(Lax, Aby, 4, true)  // 0xBF
  }

  /** The opcodes 0xC0 to 0xCF. */
  function RowC(lo: nat): Entry
    requires lo < 0x10
  {
    match lo
    case 0 => Entry(Cpy, Imm, 2, false)  // 0xC0
    case 1 => Entry(Cmp, Izx, 6, false)  // 0xC1
    case 2 => Entry(Nop, Imm, 2, false)  // 0xC2
    case 3 => Entry(Dcp, Izx, 8, false)  // 0xC3
    case 4 => Entry(Cpy, Zp0, 3, false)  // 0xC4
    case 5 => Entry(Cmp, Zp0, 3, false)  // 0xC5
    case 6 => Entry(Dec, Zp0, 5, false)  // 0xC6
    case 7 => Entry(Dcp, Zp0, 5, false)  // 0xC7
    case 8 => Entry(Iny, Imp, 2, false)  // 0xC8
    case 9 => Entry(Cmp, Imm, 2, false)  // 0xC9
    case 10 => Entry(Dex, Imp, 2, false)  // 0xCA
    case 11 => Entry(Axs, Imm, 2, false)  // 0xCB
    case 12 => Entry(Cpy, Abs, 4, false)  // 0xCC
    case 13 => Entry(Cmp, Abs, 4, false)  // 0xCD
    case 14 => Entry(Dec, Abs, 6, false)  // 0xCE
    case _ => Entry(Dcp, Abs, 6, false)  // 0xCF
  }

  /** The opcodes 0xD0 to 0xDF. */
  function RowD(lo: nat): Entry
    requires lo < 0x10
  {
    match lo
    case 0 => Entry(Bne, Rel, 2, true)  // 0xD0
    case 1 => Entry(Cmp, Izy, 5, true)  // 0xD1
    case 2 => Entry(Kil, Imp, 2, false)  // 0xD2
    case 3 => Entry(Dcp, Izy, 8, false)  // 0xD3
    case 4 => Entry(Nop, Zpx, 4, false)  // 0xD4
    case 5 => Entry(Cmp, Zpx, 4, false)  // 0xD5
    case 6 => Entry(Dec, Zpx, 6, false)  // 0xD6
    case 7 => Entry(Dcp, Zpx, 6, false)  // 0xD7
    case 8 => Entry(Cld, Imp, 2, false)  // 0xD8
    case 9 => Entry(Cmp, Aby, 4, true)  // 0xD9
    case 10 => Entry(Nop, Imp, 2, false)  // 0xDA
    case 11 => Entry(Dcp, Aby, 7, false)  // 0xDB
    case 12 => Entry(Nop, Abx, 4, true)  // 0xDC
    case 13 => Entry(Cmp, Abx, 4, true)  // 0xDD
    case 14 => Entry(Dec, Abx, 7, false)  // 0xDE
    case _ => Entry(Dcp, Abx, 7, false)  // 0xDF
  }

  /** The opcodes 0xE0 to 0xEF. */
  function RowE(lo: nat): Entry
    requires lo < 0x10
  {
    match lo
    case 0 => Entry(Cpx, Imm, 2, false)  // 0xE0
    case 1 => Entry(Sbc, Izx, 6, false)  // 0xE1
    case 2 => Entry(Nop, Imm, 2, false)  // 0xE2
    case 3 => Entry(Isc, Izx, 8, false)  // 0xE3
    case 4 => Entry(Cpx, Zp0, 3, false)  // 0xE4
    case 5 => Entry(Sbc, Zp0, 3, false)  // 0xE5
    case 6 => Entry(Inc, Zp0, 5, false)  // 0xE6
    case 7 => Entry(Isc, Zp0, 5, false)  // 0xE7
    case 8 => Entry(Inx, Imp, 2, false)  // 0xE8
    case 9 => Entry(Sbc, Imm, 2, false)  // 0xE9
    case 10 => Entry(Nop, Imp, 2, false)  // 0xEA
    case 11 => Entry(Sbc, Imm, 2, false)  // 0xEB
    case 12 => Entry(Cpx, Abs, 4, false)  // 0xEC
    case 13 => Entry(Sbc, Abs, 4, false)  // 0xED
    case 14 => Entry(Inc, Abs, 6, false)  // 0xEE
    case _ => Entry(Isc, Abs, 6, false)  // 0xEF
  }

  /** The opcodes 0xF0 to 0xFF. */
  function RowF(lo: nat): Entry
    requires lo < 0x10
  {
    match lo
    case 0 => Entry(Beq, Rel, 2, true)  // 0xF0
    case 1 => Entry(Sbc, Izy, 5, true)  // 0xF1
    case 2 => Entry(Kil, Imp, 2, false)  // 0xF2
    case 3 => Entry(Isc, Izy, 8, false)  // 0xF3
    case 4 => Entry(Nop, Zpx, 4, false)  // 0xF4
    case 5 => Entry(Sbc, Zpx, 4, false)  // 0xF5
    case 6 => Entry(Inc, Zpx, 6, false)  // 0xF6
    case 7 => Entry(Isc, Zpx, 6, false)  // 0xF7
    case 8 => Entry(Sed, Imp, 2, false)  // 0xF8
    case 9 => Entry(Sbc, Aby, 4, true)  // 0xF9
    case 10 => Entry(Nop, Imp, 2, false)  // 0xFA
    case 11 => Entry(Isc, Aby, 7, false)  // 0xFB
    case 12 => Entry(Nop, Abx, 4, true)  // 0xFC
    case 13 => Entry(Sbc, Abx, 4, true)  // 0xFD
    case 14 => Entry(Inc, Abx, 7, false)  // 0xFE
    case _ => Entry(Isc, Abx, 7, false)  // 0xFF
  }

  /** The number of operand bytes a mode fetches after the opcode. */
  function OperandBytes(mode: Mode): (n: nat)
    ensures n <= 2
    ensures n == 0 <==> mode == Acc || mode == Imp
    ensures n == 2 <==> (mode.Abs? || mode.Abx? || mode.Aby? || mode.Ind?)
  {
    match mode
    case Abs | Abx | Aby | Ind => 2
    case Acc | Imp => 0
    case Imm | Izx | Izy | Rel | Zp0 | Zpx | Zpy => 1
  }

  /** The eight conditional branches. */
  predicate IsBranch(op: Op) {
    (op.Bcc? || op.Bcs? || op.Beq? || op.Bmi? || op.Bne? || op.Bpl? || op.Bvc? || op.Bvs?)
  }

  /**
   * What every row satisfies: 2 to 8 base cycles; the extra-cycle flag only on
   * abs,X, abs,Y, (zp),Y and relative rows; exactly the branches use relative
   * mode, and each branch row is 2 cycles with the extra flag.
   */
  predicate RowShape(e: Entry) {
    && 2 <= e.cycles <= 8
    && (e.extra ==> (e.mode.Abx? || e.mode.Aby? || e.mode.Izy? || e.mode.Rel?))
    && (IsBranch(e.op) <==> e.mode == Rel)
    && (IsBranch(e.op) ==> e.cycles == 2 && e.extra)
  }

  /** Every opcode decodes to a well-shaped row. */
  lemma TableShape(opcode: u8)
    ensures RowShape(Decode(opcode))
  {
    var hi, lo := (opcode >> 4) as int, (opcode & 0xF) as int;
    match hi
    case 0 => RowShape0(lo);
    case 1 => RowShape1(lo);
    case 2 => RowShape2(lo);
    case 3 => RowShape3(lo);
    case 4 => RowShape4(lo);
    case 5 => RowShape5(lo);
    case 6 => RowShape6(lo);
    case 7 => RowShape7(lo);
    case 8 => RowShape8(lo);
    case 9 => RowShape9(lo);
    case 10 => RowShapeA(lo);
    case 11 => RowShapeB(lo);
    case 12 => RowShapeC(lo);
    case 13 => RowShapeD(lo);
    case 14 => RowShapeE(lo);
    case _ => RowShapeF(lo);
  }

  /** RowShape for the opcodes 0x00 to 0x0F, arm by arm. */
  lemma RowShape0(lo: nat)
    requires lo < 0x10
    ensures RowShape(Row0(lo))
  {
    match lo
      case 0 => {}
      case 1 => {}
      case 2 => {}
      case 3 => {}
      case 4 => {}
      case 5 => {}
      case 6 => {}
      case 7 => {}
      case 8 => {}
      case 9 => {}
      case 10 => {}
      case 11 => {}
      case 12 => {}
      case 13 => {}
      case 14 => {}
      case _ => {}
  }

  /** RowShape for the opcodes 0x10 to 0x1F, arm by arm. */
  lemma RowShape1(lo: nat)
    requires lo < 0x10
    ensures RowShape(Row1(lo))
  {
    match lo
      case 0 => {}
      case 1 => {}
      case 2 => {}
      case 3 => {}
      case 4 => {}
      case 5 => {}
      case 6 => {}
      case 7 => {}
      case 8 => {}
      case 9 => {}
      case 10 => {}
      case 11 => {}
      case 12 => {}
      case 13 => {}
      case 14 => {}
      case _ => {}
  }

  /** RowShape for the opcodes 0x20 to 0x2F, arm by arm. */
  lemma RowShape2(lo: nat)
    requires lo < 0x10
    ensures RowShape(Row2(lo))
  {
    match lo
      case 0 => {}
      case 1 => {}
      case 2 => {}
      case 3 => {}
      case 4 => {}
      case 5 => {}
      case 6 => {}
      case 7 => {}
      case 8 => {}
      case 9 => {}
      case 10 => {}
      case 11 => {}
      case 12 => {}
      case 13 => {}
      case 14 => {}
      case _ => {}
  }

  /** RowShape for the opcodes 0x30 to 0x3F, arm by arm. */
  lemma RowShape3(lo: nat)
    requires lo < 0x10
    ensures RowShape(Row3(lo))
  {
    match lo
      case 0 => {}
      case 1 => {}
      case 2 => {}
      case 3 => {}
      case 4 => {}
      case 5 => {}
      case 6 => {}
      case 7 => {}
      case 8 => {}
      case 9 => {}
      case 10 => {}
      case 11 => {}
      case 12 => {}
      case 13 => {}
      case 14 => {}
      case _ => {}
  }

  /** RowShape for the opcodes 0x40 to 0x4F, arm by arm. */
  lemma RowShape4(lo: nat)
    requires lo < 0x10
    ensures RowShape(Row4(lo))
  {
    match lo
      case 0 => {}
      case 1 => {}
      case 2 => {}
      case 3 => {}
      case 4 => {}
      case 5 => {}
      case 6 => {}
      case 7 => {}
      case 8 => {}
      case 9 => {}
      case 10 => {}
      case 11 => {}
      case 12 => {}
      case 13 => {}
      case 14 => {}
      case _ => {}
  }

  /** RowShape for the opcodes 0x50 to 0x5F, arm by arm. */
  lemma RowShape5(lo: nat)
    requires lo < 0x10
    ensures RowShape(Row5(lo))
  {
    match lo
      case 0 => {}
      case 1 => {}
      case 2 => {}
      case 3 => {}
      case 4 => {}
      case 5 => {}
      case 6 => {}
      case 7 => {}
      case 8 => {}
      case 9 => {}
      case 10 => {}
      case 11 => {}
      case 12 => {}
      case 13 => {}
      case 14 => {}
      case _ => {}
  }

  /** RowShape for the opcodes 0x60 to 0x6F, arm by arm. */
  lemma RowShape6(lo: nat)
    requires lo < 0x10
    ensures RowShape(Row6(lo))
  {
    match lo
      case 0 => {}
      case 1 => {}
      case 2 => {}
      case 3 => {}
      case 4 => {}
      case 5 => {}
      case 6 => {}
      case 7 => {}
      case 8 => {}
      case 9 => {}
      case 10 => {}
      case 11 => {}
      case 12 => {}
      case 13 => {}
      case 14 => {}
      case _ => {}
  }

  /** RowShape for the opcodes 0x70 to 0x7F, arm by arm. */
  lemma RowShape7(lo: nat)
    requires lo < 0x10
    ensures RowShape(Row7(lo))
  {
    match lo
      case 0 => {}
      case 1 => {}
      case 2 => {}
      case 3 => {}
      case 4 => {}
      case 5 => {}
      case 6 => {}
      case 7 => {}
      case 8 => {}
      case 9 => {}
      case 10 => {}
      case 11 => {}
      case 12 => {}
      case 13 => {}
      case 14 => {}
      case _ => {}
  }

  /** RowShape for the opcodes 0x80 to 0x8F, arm by arm. */
  lemma RowShape8(lo: nat)
    requires lo < 0x10
    ensures RowShape(Row8(lo))
  {
    match lo
      case 0 => {}
      case 1 => {}
      case 2 => {}
      case 3 => {}
      case 4 => {}
      case 5 => {}
      case 6 => {}
      case 7 => {}
      case 8 => {}
      case 9 => {}
      case 10 => {}
      case 11 => {}
      case 12 => {}
      case 13 => {}
      case 14 => {}
      case _ => {}
  }

  /** RowShape for the opcodes 0x90 to 0x9F, arm by arm. */
  lemma RowShape9(lo: nat)
    requires lo < 0x10
    ensures RowShape(Row9(lo))
  {
    match lo
      case 0 => {}
      case 1 => {}
      case 2 => {}
      case 3 => {}
      case 4 => {}
      case 5 => {}
      case 6 => {}
      case 7 => {}
      case 8 => {}
      case 9 => {}
      case 10 => {}
      case 11 => {}
      case 12 => {}
      case 13 => {}
      case 14 => {}
      case _ => {}
  }

  /** RowShape for the opcodes 0xA0 to 0xAF, arm by arm. */
  lemma RowShapeA(lo: nat)
    requires lo < 0x10
    ensures RowShape(RowA(lo))
  {
    match lo
      case 0 => {}
      case 1 => {}
      case 2 => {}
      case 3 => {}
      case 4 => {}
      case 5 => {}
      case 6 => {}
      case 7 => {}
      case 8 => {}
      case 9 => {}
      case 10 => {}
      case 11 => {}
      case 12 => {}
      case 13 => {}
      case 14 => {}
      case _ => {}
  }

  /** RowShape for the opcodes 0xB0 to 0xBF, arm by arm. */
  lemma RowShapeB(lo: nat)
    requires lo < 0x10
    ensures RowShape(RowB(lo))
  {
    match lo
      case 0 => {}
      case 1 => {}
      case 2 => {}
      case 3 => {}
      case 4 => {}
      case 5 => {}
      case 6 => {}
      case 7 => {}
      case 8 => {}
      case 9 => {}
      case 10 => {}
      case 11 => {}
      case 12 => {}
      case 13 => {}
      case 14 => {}
      case _ => {}
  }

  /** RowShape for the opcodes 0xC0 to 0xCF, arm by arm. */
  lemma RowShapeC(lo: nat)
    requires lo < 0x10
    ensures RowShape(RowC(lo))
  {
    match lo
      case 0 => {}
      case 1 => {}
      case 2 => {}
      case 3 => {}
      case 4 => {}
      case 5 => {}
      case 6 => {}
      case 7 => {}
      case 8 => {}
      case 9 => {}
      case 10 => {}
      case 11 => {}
      case 12 => {}
      case 13 => {}
      case 14 => {}
      case _ => {}
  }

  /** RowShape for the opcodes 0xD0 to 0xDF, arm by arm. */
  lemma RowShapeD(lo: nat)
    requires lo < 0x10
    ensures RowShape(RowD(lo))
  {
    match lo
      case 0 => {}
      case 1 => {}
      case 2 => {}
      case 3 => {}
      case 4 => {}
      case 5 => {}
      case 6 => {}
      case 7 => {}
      case 8 => {}
      case 9 => {}
      case 10 => {}
      case 11 => {}
      case 12 => {}
      case 13 => {}
      case 14 => {}
      case _ => {}
  }

  /** RowShape for the opcodes 0xE0 to 0xEF, arm by arm. */
  lemma RowShapeE(lo: nat)
    requires lo < 0x10
    ensures RowShape(RowE(lo))
  {
    match lo
      case 0 => {}
      case 1 => {}
      case 2 => {}
      case 3 => {}
      case 4 => {}
      case 5 => {}
      case 6 => {}
      case 7 => {}
      case 8 => {}
      case 9 => {}
      case 10 => {}
      case 11 => {}
      case 12 => {}
      case 13 => {}
      case 14 => {}
      case _ => {}
  }

  /** RowShape for the opcodes 0xF0 to 0xFF, arm by arm. */
  lemma RowShapeF(lo: nat)
    requires lo < 0x10
    ensures RowShape(RowF(lo))
  {
    match lo
      case 0 => {}
      case 1 => {}
      case 2 => {}
      case 3 => {}
      case 4 => {}
      case 5 => {}
      case 6 => {}
      case 7 => {}
      case 8 => {}
      case 9 => {}
      case 10 => {}
      case 11 => {}
      case 12 => {}
      case 13 => {}
      case 14 => {}
      case _ => {}
  }
}
