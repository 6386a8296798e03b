/**
 * Instructions of the disassembler (disasm/src/operation.rs): the mnemonic of
 * every opcode, the undocumented-opcode test, the instruction length and the
 * addresses control flow may reach next.
 */
module DisasmOperation {
  import opened Types
  import Opcodes
  import Bytes
  import A = DisasmAddress

  /** PRG_ROM_BASE (declared in disasm/src/disassembler.rs): the lowest address of cartridge space. */
  const PRG_ROM_BASE: nat := 0x4020

  /** The instruction names, documented and undocumented. */
  datatype Mnemonic =
    ADC | AHX | ANC | ALR | AND | ARR | ASL | AXS | BCC | BCS | BEQ | BIT | BMI | BNE | BPL
    | BRK | BVC | BVS | CLC | CLD | CLI | CLV | CMP | CPX | CPY | DCP | DEC | DEX | DEY | EOR
    | INC | INX | INY | ISB | JMP | JSR | LAS | LAX | LDA | LDX | LDY | LSR | NOP | ORA | PHA
    | PHP | PLA | PLP | RLA | ROL | ROR | RRA | RTI | RTS | SAX | SBC | SEC | SED | SEI | SHX
    | SHY | SLO | SRE | STA | STP | STX | STY | TAS | TAX | TAY | TSX | TXA | TXS | TYA | XAA

  /** The opcodes named NOP other than the official 0xEA. */
  const UNOFFICIAL_NOPS: set<u8> :=
    {0x04, 0x0C, 0x14, 0x1A, 0x1C, 0x34, 0x3A, 0x3C, 0x44, 0x54, 0x5A, 0x5C, 0x64, 0x74,
     0x7A, 0x7C, 0x80, 0x82, 0x89, 0xC2, 0xD4, 0xDA, 0xDC, 0xE2, 0xF4, 0xFA, 0xFC}

  /** Mnemonic::from: the name of every one of the 256 opcodes; the match has no fallback arm. */
  function MnemonicOf(value: u8): Mnemonic {
    match value as int
    case 0x69 | 0x65 | 0x75 | 0x61 | 0x71 | 0x6D | 0x7D | 0x79 => ADC
    case 0x93 | 0x9F => AHX
    case 0x0B | 0x2B => ANC
    case 0x4B => ALR
    case 0x29 | 0x25 | 0x35 | 0x21 | 0x31 | 0x2D | 0x3D | 0x39 => AND
    case 0x6B => ARR
    case 0x0A | 0x06 | 0x16 | 0x0E | 0x1E => ASL
    case 0xCB => AXS
    case 0x90 => BCC
    case 0xB0 => BCS
    case 0xF0 => BEQ
    case 0x24 | 0x2C => BIT
    case 0x30 => BMI
    case 0xD0 => BNE
    case 0x10 => BPL
    case 0x00 => BRK
    case 0x50 => BVC
    case 0x70 => BVS
    case 0x18 => CLC
    case 0xD8 => CLD
    case 0x58 => CLI
    case 0xB8 => CLV
    case 0xC9 | 0xC5 | 0xD5 | 0xC1 | 0xD1 | 0xCD | 0xDD | 0xD9 => CMP
    case 0xE0 | 0xE4 | 0xEC => CPX
    case 0xC0 | 0xC4 | 0xCC => CPY
    case 0xC7 | 0xD7 | 0xC3 | 0xD3 | 0xCF | 0xDF | 0xDB => DCP
    case 0xC6 | 0xD6 | 0xCE | 0xDE => DEC
    case 0xCA => DEX
    case 0x88 => DEY
    case 0x49 | 0x45 | 0x55 | 0x41 | 0x51 | 0x4D | 0x5D | 0x59 => EOR
    case 0xE6 | 0xF6 | 0xEE | 0xFE => INC
    case 0xE8 => INX
    case 0xC8 => INY
    case 0xE7 | 0xF7 | 0xE3 | 0xF3 | 0xEF | 0xFF | 0xFB => ISB
    case 0x4C | 0x6C => JMP
    case 0x20 => JSR
    case 0xBB => LAS
    case 0xA7 | 0xB7 | 0xA3 | 0xB3 | 0xAB | 0xAF | 0xBF => LAX
    case 0xA9 | 0xA5 | 0xB5 | 0xA1 | 0xB1 | 0xAD | 0xBD | 0xB9 => LDA
    case 0xA2 | 0xA6 | 0xB6 | 0xAE | 0xBE => LDX
    case 0xA0 | 0xA4 | 0xB4 | 0xAC | 0xBC => LDY
    case 0x4A | 0x46 | 0x56 | 0x4E | 0x5E => LSR
    case 0xEA | 0x04 | 0x0C | 0x14 | 0x1A | 0x1C | 0x34 | 0x3A | 0x3C | 0x44 | 0x54 | 0x5A | 0x5C | 0x64 | 0x74 | 0x7A | 0x7C | 0x80 | 0x82 | 0x89 | 0xC2 | 0xD4 | 0xDA | 0xDC | 0xE2 | 0xF4 | 0xFA | 0xFC => NOP
    case 0x09 | 0x05 | 0x15 | 0x01 | 0x11 | 0x0D | 0x1D | 0x19 => ORA
    case 0x48 => PHA
    case 0x08 => PHP
    case 0x68 => PLA
    case 0x28 => PLP
    case 0x27 | 0x37 | 0x23 | 0x33 | 0x2F | 0x3F | 0x3B => RLA
    case 0x2A | 0x26 | 0x36 | 0x2E | 0x3E => ROL
    case 0x6A | 0x66 | 0x76 | 0x6E | 0x7E => ROR
    case 0x67 | 0x77 | 0x63 | 0x73 | 0x6F | 0x7F | 0x7B => RRA
    case 0x40 => RTI
    case 0x60 => RTS
    case 0x87 | 0x97 | 0x83 | 0x8F => SAX
    case 0xE9 | 0xE5 | 0xF5 | 0xE1 | 0xF1 | 0xED | 0xFD | 0xF9 | 0xEB => SBC
    case 0x38 => SEC
    case 0xF8 => SED
    case 0x78 => SEI
    case 0x9E => SHX
    case 0x9C => SHY
    case 0x07 | 0x17 | 0x03 | 0x13 | 0x0F | 0x1F | 0x1B => SLO
    case 0x47 | 0x57 | 0x43 | 0x53 | 0x4F | 0x5F | 0x5B => SRE
    case 0x85 | 0x95 | 0x81 | 0x91 | 0x8D | 0x9D | 0x99 => STA
    case 0x02 | 0x22 | 0x42 | 0x62 | 0x12 | 0x32 | 0x52 | 0x72 | 0x92 | 0xB2 | 0xD2 | 0xF2 => STP
    case 0x86 | 0x96 | 0x8E => STX
    case 0x84 | 0x94 | 0x8C => STY
    case 0x9B => TAS
    case 0xAA => TAX
    case 0xA8 => TAY
    case 0xBA => TSX
    case 0x8A => TXA
    case 0x9A => TXS
    case 0x98 => TYA
    case 0x8B => XAA
  }

  /** An instruction: its opcode, its name and its operand. */
  datatype Op = Op(opcode: u8, mnemonic: Mnemonic, addr: A.Address)

  /** Op::from_bytes: the instruction `opcode next1 next2`. */
  function OpFromBytes(opcode: u8, next1: u8, next2: u8): (r: Op)
    ensures r.opcode == opcode && r.mnemonic == MnemonicOf(opcode)
    ensures r.addr == A.FromBytes(opcode, next1, next2)
  {
    Op(opcode, MnemonicOf(opcode), A.FromBytes(opcode, next1, next2))
  }

  /** The undocumented instructions other than the NOP variants. */
  predicate IsIllegalMnemonic(m: Mnemonic) {
    match m
    case SLO | ANC | RLA | SRE | ALR | RRA | ARR | SAX | XAA | AHX | TAS | LAX | LAS | DCP | AXS | ISB => true
    case _ => false
  }

  /**
   * is_undocumented: the 0xEB copy of SBC, every NOP but 0xEA, and the
   * illegal instructions.
   */
  predicate IsUndocumented(op: Op) {
    if op.opcode == 0xEB then true
    else if op.mnemonic == NOP then op.opcode != 0xEA
    else IsIllegalMnemonic(op.mnemonic)
  }

  /** byte_len: the opcode byte and the operand bytes. */
  function OpByteLen(op: Op): (r: nat)
    ensures 1 <= r <= 3
    ensures r == 1 <==> op.addr.Implied?
  {
    A.ByteLen(op.addr) + 1
  }

  /** An instruction is as long as the opcode byte and the operand bytes the CPU fetches for it. */
  lemma OpByteLenAgreesWithCpu(c: u8, next1: u8, next2: u8)
    ensures OpByteLen(OpFromBytes(c, next1, next2)) == 1 + Opcodes.OperandBytes(Opcodes.Decode(c).mode)
  {
    A.ByteLenAgreesWithCpu(c, next1, next2);
  }

  /** The eight conditional branches. */
  predicate IsBranch(m: Mnemonic) {
    m in {BCC, BCS, BEQ, BMI, BNE, BPL, BVC, BVS}
  }

  /**
   * The target of a taken branch at `from` (the source's `from as u16 + 2`,
   * then a wrapping add or subtract of the offset), as written: negating an
   * offset of -128 overflows i8 and panics, and so does `+ 2` past 0xFFFF;
   * both are None here.
   */
  function BranchTargetAsWritten(from: nat, offset: A.i8): (r: Option<nat>)
    ensures r.Some? ==> r.value < 0x1_0000
  {
    var from16 := from % 0x1_0000;
    if from16 + 2 > 0xFFFF then None
    else if offset < 0 then
      if offset == -0x80 then None
      else Some((from16 + 2 - (-offset) as int) % 0x1_0000)
    else Some((from16 + 2 + offset as int) % 0x1_0000)
  }

  /** The branch target with the negation widened past i8, so that -128 moves 128 bytes back. */
  function BranchTarget(from: nat, offset: A.i8): (r: Option<nat>)
    ensures r.Some? <==> from % 0x1_0000 + 2 <= 0xFFFF
    ensures r.Some? ==> r.value == (from % 0x1_0000 + 2 + offset as int) % 0x1_0000
  {
    var from16 := from % 0x1_0000;
    if from16 + 2 > 0xFFFF then None
    else if offset < 0 then Some((from16 + 2 - (-(offset as int))) % 0x1_0000)
    else Some((from16 + 2 + offset as int) % 0x1_0000)
  }

  /** The branch byte 0x80 breaks the target as written, while the corrected target moves 128 bytes back. */
  lemma BranchTargetAsWrittenPanicsOnMinus128()
    ensures BranchTargetAsWritten(0xC010, A.AsI8(0x80)).None?
    ensures BranchTarget(0xC010, A.AsI8(0x80)) == Some(0xBF92)
  {
  }

  /** The two agree on every other offset. */
  lemma BranchTargetAgrees(from: nat, offset: A.i8)
    requires offset != -0x80
    ensures BranchTargetAsWritten(from, offset) == BranchTarget(from, offset)
  {
  }

  /**
   * next_addresses: where control flow may go after the instruction at
   * `from`, as a pair; None stands for the source's panics (a JMP, JSR or
   * branch whose operand is not of its mode, and `from + 2` past 0xFFFF).
   * Branches use the corrected BranchTarget: for offset -128 the source's
   * negation panics, and here the target is 128 bytes back.
   * STP goes nowhere; JMP goes to an absolute target in cartridge space and
   * nowhere for an indirect one; JSR goes to the target and, as written, to
   * `from + byte_len + 1`; a branch goes to the next instruction and to its
   * target in cartridge space; everything else to the next instruction.
   */
  function NextAddresses(op: Op, from: nat): Option<(Option<nat>, Option<nat>)> {
    if op.mnemonic == JMP then
      match op.addr
      case Absolute(addr) =>
        if addr as int >= PRG_ROM_BASE then Some((Some(addr as int), None)) else Some((None, None))
      case Indirect(_) => Some((None, None))
      case _ => None
    else if op.mnemonic == JSR then
      if op.addr.Absolute? then
        var next := from + OpByteLen(op) + 1;
        var target := op.addr.addr as int;
        if target >= PRG_ROM_BASE then Some((Some(next), Some(target))) else Some((Some(next), None))
      else None
    else if IsBranch(op.mnemonic) then
      if op.addr.Relative? then
        var next := from + OpByteLen(op);
        match BranchTarget(from, op.addr.offset)
        case None => None
        case Some(target) =>
          if target >= PRG_ROM_BASE then Some((Some(next), Some(target))) else Some((Some(next), None))
      else None
    else if op.mnemonic == STP then Some((None, None))
    else Some((Some(from + OpByteLen(op)), None))
  }

  /** JMP absolute (0x4C) goes only to its target, and only when that is in cartridge space. */
  lemma NextAfterJmpAbsolute(lo: u8, hi: u8, from: nat)
    ensures NextAddresses(OpFromBytes(0x4C, lo, hi), from) ==
      Some((if Bytes.Word(lo, hi) as int >= PRG_ROM_BASE then Some(Bytes.Word(lo, hi) as int) else None, None))
  {
    assert MnemonicOf(0x4C) == JMP;
    assert A.FromBytes(0x4C, lo, hi) == A.Absolute(Bytes.Word(lo, hi));
    hide MnemonicOf, A.FromBytes;
  }

  /** JMP indirect (0x6C) is not followed: its target is only known at run time. */
  lemma NextAfterJmpIndirect(lo: u8, hi: u8, from: nat)
    ensures NextAddresses(OpFromBytes(0x6C, lo, hi), from) == Some((None, None))
  {
    assert MnemonicOf(0x6C) == JMP;
    assert A.FromBytes(0x6C, lo, hi) == A.Indirect(Bytes.Word(lo, hi));
    hide MnemonicOf, A.FromBytes;
  }

  /** JSR (0x20), as written, continues four bytes on, one past the next instruction, and goes to its target in cartridge space. */
  lemma NextAfterJsr(lo: u8, hi: u8, from: nat)
    ensures NextAddresses(OpFromBytes(0x20, lo, hi), from) ==
      Some((Some(from + 4), if Bytes.Word(lo, hi) as int >= PRG_ROM_BASE then Some(Bytes.Word(lo, hi) as int) else None))
    ensures OpByteLen(OpFromBytes(0x20, lo, hi)) == 3
  {
    assert MnemonicOf(0x20) == JSR;
    assert A.FromBytes(0x20, lo, hi) == A.Absolute(Bytes.Word(lo, hi));
    hide MnemonicOf, A.FromBytes;
  }

  /**
   * A branch continues with the next instruction and goes to its signed
   * target when that is in cartridge space; a branch whose `from + 2`
   * overflows has no successors. The target is the corrected one, so offset
   * -128 moves 128 bytes back where the source panics.
   */
  lemma NextAfterBranch(op: Op, from: nat)
    requires IsBranch(op.mnemonic) && op.addr.Relative?
    ensures from % 0x1_0000 + 2 > 0xFFFF ==> NextAddresses(op, from).None?
    ensures from % 0x1_0000 + 2 <= 0xFFFF ==>
      (var target := (from % 0x1_0000 + 2 + op.addr.offset as int) % 0x1_0000;
       NextAddresses(op, from) == Some((Some(from + 2), if target >= PRG_ROM_BASE then Some(target) else None)))
  {
  }

  /** The branch opcodes decode as branches with a relative operand, the offset being the byte after the opcode read as signed. */
  lemma BranchOpcodes(c: u8, lo: u8, hi: u8)
    requires c in {0x10, 0x30, 0x50, 0x70}
    ensures IsBranch(MnemonicOf(c)) && A.FromBytes(c, lo, hi) == A.Relative(A.AsI8(lo))
  {
  }

  lemma BranchOpcodesHigh(c: u8, lo: u8, hi: u8)
    requires c in {0x90, 0xB0, 0xD0, 0xF0}
    ensures IsBranch(MnemonicOf(c)) && A.FromBytes(c, lo, hi) == A.Relative(A.AsI8(lo))
  {
  }

  /** STP halts the processor, so nothing follows it. */
  lemma NextAfterStp(op: Op, from: nat)
    requires op.mnemonic == STP
    ensures NextAddresses(op, from) == Some((None, None))
  {
  }

  /** Every other instruction falls through to the one after its operand bytes. */
  lemma NextAfterOther(op: Op, from: nat)
    requires op.mnemonic !in {JMP, JSR, STP} && !IsBranch(op.mnemonic)
    ensures NextAddresses(op, from) == Some((Some(from + OpByteLen(op)), None))
  {
  }
}
