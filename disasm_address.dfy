/**
 * Operand decoding of the disassembler (disasm/src/address.rs): the
 * addressing mode and operand of an instruction, read from its opcode and the
 * two bytes after it, and the operand bytes given back.
 */
module DisasmAddress {
  import opened Types
  import Bytes
  import Opcodes

  /** Rust `i8`. */
  newtype i8 = x: int | -0x80 <= x < 0x80

  /** An instruction's operand, tagged with its addressing mode. */
  datatype Address =
    | Absolute(addr: u16)
    | AbsoluteX(addr: u16)
    | AbsoluteY(addr: u16)
    | Immediate(val: u8)
    | Implied
    | Indirect(addr: u16)
    | IndirectX(val: u8)
    | IndirectY(val: u8)
    | Relative(offset: i8)
    | ZeroPage(val: u8)
    | ZeroPageX(val: u8)
    | ZeroPageY(val: u8)

  /** `b as i8`: the byte read as a two's-complement number. */
  function AsI8(b: u8): (r: i8)
    ensures (r < 0) <==> (b >= 0x80)
    ensures r as int % 0x100 == b as int
  {
    if b < 0x80 then b as int as i8 else (b as int - 0x100) as i8
  }

  /** `x as u8`: the two's-complement byte of an i8. */
  function AsU8(x: i8): (r: u8)
    ensures r as int == x as int % 0x100
  {
    if x >= 0 then x as int as u8 else (x as int + 0x100) as u8
  }

  /** The two casts are inverse to each other. */
  lemma ByteCastRoundTrip(b: u8)
    ensures AsU8(AsI8(b)) == b
  {
    assert (AsU8(AsI8(b)) as int) as u8 == AsU8(AsI8(b));
    assert (b as int) as u8 == b;
  }

  lemma OffsetCastRoundTrip(x: i8)
    ensures AsI8(AsU8(x)) == x
  {
    var r := AsI8(AsU8(x));
    SameResidueSameOffset(r as int, x as int);
  }

  /** Two offsets in i8's range with the same residue modulo 0x100 are equal. */
  lemma SameResidueSameOffset(a: int, c: int)
    requires -0x80 <= a < 0x80 && -0x80 <= c < 0x80
    requires a % 0x100 == c % 0x100
    ensures a == c
  {
  }

  /**
   * from_bytes: the operand of the instruction `op lo hi`. The opcodes whose
   * mode breaks the column pattern come first; every other opcode is decoded
   * by its column `op % 0x20`. The column match lists all 32 columns, so it
   * needs no fallback arm.
   */
  function FromBytes(op: u8, lo: u8, hi: u8): Address {
    var addr16 := Bytes.Word(lo, hi);
    match op
    case 0x20 => Absolute(addr16)
    case 0x9E | 0xBE | 0xBF | 0x9F => AbsoluteY(addr16)
    case 0x00 | 0x40 | 0x60 => Implied
    case 0x02 | 0x22 | 0x42 | 0x62 => Implied
    case 0x6C => Indirect(addr16)
    case 0x96 | 0x97 | 0xB6 | 0xB7 => ZeroPageY(lo)
    case _ =>
      match op % 0x20
      case 0x0C | 0x0D | 0x0E | 0x0F => Absolute(addr16)
      case 0x1C | 0x1D | 0x1E | 0x1F => AbsoluteX(addr16)
      case 0x19 | 0x1B => AbsoluteY(addr16)
      case 0x00 | 0x02 | 0x09 | 0x0B => Immediate(lo)
      case 0x08 | 0x0A | 0x12 | 0x18 | 0x1A => Implied
      case 0x01 | 0x03 => IndirectX(lo)
      case 0x11 | 0x13 => IndirectY(lo)
      case 0x10 => Relative(AsI8(lo))
      case 0x04 | 0x05 | 0x06 | 0x07 => ZeroPage(lo)
      case 0x14 | 0x15 | 0x16 | 0x17 => ZeroPageX(lo)
  }

  /** absolute_from_le: the absolute operand of the little-endian word `lo hi`. */
  function AbsoluteFromLe(lo: u8, hi: u8): (r: Address)
    ensures r.Absolute? && Bytes.Lo(r.addr) == lo && Bytes.Hi(r.addr) == hi
  {
    Absolute(Bytes.Word(lo, hi))
  }

  /** The modes with a 16-bit operand. */
  predicate IsWide(a: Address) {
    a.Absolute? || a.AbsoluteX? || a.AbsoluteY? || a.Indirect?
  }

  /** byte_len: the number of operand bytes after the opcode. */
  function ByteLen(a: Address): (r: nat)
    ensures r <= 2
    ensures r == 2 <==> IsWide(a)
    ensures r == 0 <==> a.Implied?
  {
    match a
    case Absolute(_) => 2
    case AbsoluteX(_) => 2
    case AbsoluteY(_) => 2
    case Immediate(_) => 1
    case Implied => 0
    case Indirect(_) => 2
    case IndirectX(_) => 1
    case IndirectY(_) => 1
    case Relative(_) => 1
    case ZeroPage(_) => 1
    case ZeroPageX(_) => 1
    case ZeroPageY(_) => 1
  }

  /** byte1: the first operand byte, the low byte of a 16-bit operand; None when there is no operand. */
  function Byte1(a: Address): (r: Option<u8>)
    ensures r.None? <==> a.Implied?
  {
    match a
    case Absolute(w) => Some(Bytes.Lo(w))
    case AbsoluteX(w) => Some(Bytes.Lo(w))
    case AbsoluteY(w) => Some(Bytes.Lo(w))
    case Indirect(w) => Some(Bytes.Lo(w))
    case Immediate(v) => Some(v)
    case IndirectX(v) => Some(v)
    case IndirectY(v) => Some(v)
    case ZeroPage(v) => Some(v)
    case ZeroPageX(v) => Some(v)
    case ZeroPageY(v) => Some(v)
    case Relative(offset) => Some(AsU8(offset))
    case Implied => None
  }

  /** byte2: the high byte of a 16-bit operand; None for every other mode. */
  function Byte2(a: Address): (r: Option<u8>)
    ensures r.Some? <==> ByteLen(a) == 2
  {
    match a
    case Absolute(w) => Some(Bytes.Hi(w))
    case AbsoluteX(w) => Some(Bytes.Hi(w))
    case AbsoluteY(w) => Some(Bytes.Hi(w))
    case Indirect(w) => Some(Bytes.Hi(w))
    case _ => None
  }

  /** The operand bytes an address shows, padded with zero where it has none. */
  function ByteOr0(b: Option<u8>): u8 {
    if b.Some? then b.value else 0
  }

  /**
   * Decoding then reading back gives the bytes that were decoded: both for a
   * 16-bit operand, the low one for an 8-bit operand (a relative offset goes
   * through i8 and back), none when implied.
   */
  lemma FromBytesRoundTrip(op: u8, lo: u8, hi: u8)
    ensures ByteLen(FromBytes(op, lo, hi)) == 2 ==>
      Byte1(FromBytes(op, lo, hi)) == Some(lo) && Byte2(FromBytes(op, lo, hi)) == Some(hi)
    ensures ByteLen(FromBytes(op, lo, hi)) == 1 ==>
      Byte1(FromBytes(op, lo, hi)) == Some(lo) && Byte2(FromBytes(op, lo, hi)) == None
    ensures ByteLen(FromBytes(op, lo, hi)) == 0 ==>
      Byte1(FromBytes(op, lo, hi)) == None && Byte2(FromBytes(op, lo, hi)) == None
  {
    ByteCastRoundTrip(lo);
  }

  /** The operand is determined by the bytes it shows: decoding them again gives the same address. */
  lemma ReencodeRoundTrip(op: u8, lo: u8, hi: u8)
    ensures FromBytes(op, ByteOr0(Byte1(FromBytes(op, lo, hi))), ByteOr0(Byte2(FromBytes(op, lo, hi)))) ==
      FromBytes(op, lo, hi)
  {
    var a := FromBytes(op, lo, hi);
    FromBytesRoundTrip(op, lo, hi);
    if ByteLen(a) == 1 {
      assert FromBytes(op, lo, 0) == a;
    } else if ByteLen(a) == 0 {
      assert FromBytes(op, 0, 0) == a;
    }
  }

  /** The addressing mode the CPU's dispatch table would name for an operand (the disassembler has no separate accumulator mode). */
  function ModeOf(a: Address): Opcodes.Mode {
    match a
    case Absolute(_) => Opcodes.Abs
    case AbsoluteX(_) => Opcodes.Abx
    case AbsoluteY(_) => Opcodes.Aby
    case Immediate(_) => Opcodes.Imm
    case Implied => Opcodes.Imp
    case Indirect(_) => Opcodes.Ind
    case IndirectX(_) => Opcodes.Izx
    case IndirectY(_) => Opcodes.Izy
    case Relative(_) => Opcodes.Rel
    case ZeroPage(_) => Opcodes.Zp0
    case ZeroPageX(_) => Opcodes.Zpx
    case ZeroPageY(_) => Opcodes.Zpy
  }

  /** The CPU's mode for an opcode, with the accumulator mode shown as implied. */
  function CpuMode(op: u8): Opcodes.Mode {
    var m := Opcodes.Decode(op).mode;
    if m == Opcodes.Acc then Opcodes.Imp else m
  }

  /** The operand byte count of a mode, read off the CPU's mode. */
  lemma ByteLenOfMode(a: Address)
    ensures ByteLen(a) == Opcodes.OperandBytes(ModeOf(a))
  {
  }

  /**
   * The disassembler decodes every one of the 256 opcodes in the addressing
   * mode the CPU executes it with.
   */
  lemma ModeAgreesWithCpu(op: u8, lo: u8, hi: u8)
    ensures ModeOf(FromBytes(op, lo, hi)) == CpuMode(op)
  {
    var row := op >> 4;
    if row == 0 {
      ModeAgreesRow0(op, lo, hi);
    } else if row == 1 {
      ModeAgreesRow1(op, lo, hi);
    } else if row == 2 {
      ModeAgreesRow2(op, lo, hi);
    } else if row == 3 {
      ModeAgreesRow3(op, lo, hi);
    } else if row == 4 {
      ModeAgreesRow4(op, lo, hi);
    } else if row == 5 {
      ModeAgreesRow5(op, lo, hi);
    } else if row == 6 {
      ModeAgreesRow6(op, lo, hi);
    } else if row == 7 {
      ModeAgreesRow7(op, lo, hi);
    } else if row == 8 {
      ModeAgreesRow8(op, lo, hi);
    } else if row == 9 {
      ModeAgreesRow9(op, lo, hi);
    } else if row == 10 {
      ModeAgreesRowA(op, lo, hi);
    } else if row == 11 {
      ModeAgreesRowB(op, lo, hi);
    } else if row == 12 {
      ModeAgreesRowC(op, lo, hi);
    } else if row == 13 {
      ModeAgreesRowD(op, lo, hi);
    } else if row == 14 {
      ModeAgreesRowE(op, lo, hi);
    } else {
      ModeAgreesRowF(op, lo, hi);
    }
  }

  /** ModeAgreesWithCpu for the opcodes 0x00 to 0x0F. */
  lemma ModeAgreesRow0(op: u8, lo: u8, hi: u8)
    requires op >> 4 == 0
    ensures ModeOf(FromBytes(op, lo, hi)) == CpuMode(op)
  {
  }

  /** ModeAgreesWithCpu for the opcodes 0x10 to 0x1F. */
  lemma ModeAgreesRow1(op: u8, lo: u8, hi: u8)
    requires op >> 4 == 1
    ensures ModeOf(FromBytes(op, lo, hi)) == CpuMode(op)
  {
  }

  /** ModeAgreesWithCpu for the opcodes 0x20 to 0x2F. */
  lemma ModeAgreesRow2(op: u8, lo: u8, hi: u8)
    requires op >> 4 == 2
    ensures ModeOf(FromBytes(op, lo, hi)) == CpuMode(op)
  {
  }

  /** ModeAgreesWithCpu for the opcodes 0x30 to 0x3F. */
  lemma ModeAgreesRow3(op: u8, lo: u8, hi: u8)
    requires op >> 4 == 3
    ensures ModeOf(FromBytes(op, lo, hi)) == CpuMode(op)
  {
  }

  /** ModeAgreesWithCpu for the opcodes 0x40 to 0x4F. */
  lemma ModeAgreesRow4(op: u8, lo: u8, hi: u8)
    requires op >> 4 == 4
    ensures ModeOf(FromBytes(op, lo, hi)) == CpuMode(op)
  {
  }

  /** ModeAgreesWithCpu for the opcodes 0x50 to 0x5F. */
  lemma ModeAgreesRow5(op: u8, lo: u8, hi: u8)
    requires op >> 4 == 5
    ensures ModeOf(FromBytes(op, lo, hi)) == CpuMode(op)
  {
  }

  /** ModeAgreesWithCpu for the opcodes 0x60 to 0x6F. */
  lemma ModeAgreesRow6(op: u8, lo: u8, hi: u8)
    requires op >> 4 == 6
    ensures ModeOf(FromBytes(op, lo, hi)) == CpuMode(op)
  {
  }

  /** ModeAgreesWithCpu for the opcodes 0x70 to 0x7F. */
  lemma ModeAgreesRow7(op: u8, lo: u8, hi: u8)
    requires op >> 4 == 7
    ensures ModeOf(FromBytes(op, lo, hi)) == CpuMode(op)
  {
  }

  /** ModeAgreesWithCpu for the opcodes 0x80 to 0x8F. */
  lemma ModeAgreesRow8(op: u8, lo: u8, hi: u8)
    requires op >> 4 == 8
    ensures ModeOf(FromBytes(op, lo, hi)) == CpuMode(op)
  {
  }

  /** ModeAgreesWithCpu for the opcodes 0x90 to 0x9F. */
  lemma ModeAgreesRow9(op: u8, lo: u8, hi: u8)
    requires op >> 4 == 9
    ensures ModeOf(FromBytes(op, lo, hi)) == CpuMode(op)
  {
  }

  /** ModeAgreesWithCpu for the opcodes 0xA0 to 0xAF. */
  lemma ModeAgreesRowA(op: u8, lo: u8, hi: u8)
    requires op >> 4 == 10
    ensures ModeOf(FromBytes(op, lo, hi)) == CpuMode(op)
  {
  }

  /** ModeAgreesWithCpu for the opcodes 0xB0 to 0xBF. */
  lemma ModeAgreesRowB(op: u8, lo: u8, hi: u8)
    requires op >> 4 == 11
    ensures ModeOf(FromBytes(op, lo, hi)) == CpuMode(op)
  {
  }

  /** ModeAgreesWithCpu for the opcodes 0xC0 to 0xCF. */
  lemma ModeAgreesRowC(op: u8, lo: u8, hi: u8)
    requires op >> 4 == 12
    ensures ModeOf(FromBytes(op, lo, hi)) == CpuMode(op)
  {
  }

  /** ModeAgreesWithCpu for the opcodes 0xD0 to 0xDF. */
  lemma ModeAgreesRowD(op: u8, lo: u8, hi: u8)
    requires op >> 4 == 13
    ensures ModeOf(FromBytes(op, lo, hi)) == CpuMode(op)
  {
  }

  /** ModeAgreesWithCpu for the opcodes 0xE0 to 0xEF. */
  lemma ModeAgreesRowE(op: u8, lo: u8, hi: u8)
    requires op >> 4 == 14
    ensures ModeOf(FromBytes(op, lo, hi)) == CpuMode(op)
  {
  }

  /** ModeAgreesWithCpu for the opcodes 0xF0 to 0xFF. */
  lemma ModeAgreesRowF(op: u8, lo: u8, hi: u8)
    requires op >> 4 == 15
    ensures ModeOf(FromBytes(op, lo, hi)) == CpuMode(op)
  {
  }

  /** So it reads as many operand bytes as the CPU fetches. */
  lemma ByteLenAgreesWithCpu(op: u8, lo: u8, hi: u8)
    ensures ByteLen(FromBytes(op, lo, hi)) == Opcodes.OperandBytes(Opcodes.Decode(op).mode)
  {
    ModeAgreesWithCpu(op, lo, hi);
    ByteLenOfMode(FromBytes(op, lo, hi));
  }
}
