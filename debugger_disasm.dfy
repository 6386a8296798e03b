/**
 * The debugger's own instruction decoder (debugger/src/disasm.rs): the
 * operand decoding it repeats from the disassembler, the mnemonic names it
 * shows, and its undocumented-opcode flag.
 */
module DebuggerDisasm {
  import opened Types
  import A = DisasmAddress
  import O = DisasmOperation
  import N = DisasmNames

  /** An instruction as the debugger shows it: its operand and its three raw bytes. */
  datatype Op = Op(addr: A.Address, code: u8, next1: u8, next2: u8)

  /**
   * Op::from_bytes. The debugger's Address::from_bytes is the
   * disassembler's, case for case, so the operand is DisasmAddress.FromBytes;
   * the operand shows exactly the raw bytes it was decoded from.
   */
  function OpFromBytes(code: u8, next1: u8, next2: u8): (r: Op)
    ensures r.code == code && r.next1 == next1 && r.next2 == next2
    ensures r.addr == A.FromBytes(code, next1, next2)
    ensures A.ByteLen(r.addr) >= 1 ==> A.Byte1(r.addr) == Some(next1)
    ensures A.ByteLen(r.addr) == 2 ==> A.Byte2(r.addr) == Some(next2)
  {
    A.FromBytesRoundTrip(code, next1, next2);
    Op(A.FromBytes(code, next1, next2), code, next1, next2)
  }

  /**
   * name, as written: the mnemonic the debugger shows for an opcode; None
   * where the source panics with "Unknown opcode". CLI (0x58) has no arm.
   */
  function Name(code: u8): Option<O.Mnemonic> {
    match code as int
    case 0x69 | 0x65 | 0x75 | 0x61 | 0x71 | 0x6D | 0x7D | 0x79 => Some(O.ADC)
    case 0x29 | 0x25 | 0x35 | 0x21 | 0x31 | 0x2D | 0x3D | 0x39 => Some(O.AND)
    case 0x0A | 0x06 | 0x16 | 0x0E | 0x1E => Some(O.ASL)
    case 0x90 => Some(O.BCC)
    case 0xB0 => Some(O.BCS)
    case 0xF0 => Some(O.BEQ)
    case 0x24 | 0x2C => Some(O.BIT)
    case 0x30 => Some(O.BMI)
    case 0xD0 => Some(O.BNE)
    case 0x10 => Some(O.BPL)
    case 0x00 => Some(O.BRK)
    case 0x50 => Some(O.BVC)
    case 0x70 => Some(O.BVS)
    case 0x18 => Some(O.CLC)
    case 0xD8 => Some(O.CLD)
    case 0xB8 => Some(O.CLV)
    case 0xC9 | 0xC5 | 0xD5 | 0xC1 | 0xD1 | 0xCD | 0xDD | 0xD9 => Some(O.CMP)
    case 0xE0 | 0xE4 | 0xEC => Some(O.CPX)
    case 0xC0 | 0xC4 | 0xCC => Some(O.CPY)
    case 0xC7 | 0xD7 | 0xC3 | 0xD3 | 0xCF | 0xDF | 0xDB => Some(O.DCP)
    case 0xC6 | 0xD6 | 0xCE | 0xDE => Some(O.DEC)
    case 0xCA => Some(O.DEX)
    case 0x88 => Some(O.DEY)
    case 0x49 | 0x45 | 0x55 | 0x41 | 0x51 | 0x4D | 0x5D | 0x59 => Some(O.EOR)
    case 0xE6 | 0xF6 | 0xEE | 0xFE => Some(O.INC)
    case 0xE8 => Some(O.INX)
    case 0xC8 => Some(O.INY)
    case 0xE7 | 0xF7 | 0xE3 | 0xF3 | 0xEF | 0xFF | 0xFB => Some(O.ISB)
    case 0x4C | 0x6C => Some(O.JMP)
    case 0x20 => Some(O.JSR)
    case 0xA7 | 0xB7 | 0xA3 | 0xB3 | 0xAF | 0xBF => Some(O.LAX)
    case 0xA9 | 0xA5 | 0xB5 | 0xA1 | 0xB1 | 0xAD | 0xBD | 0xB9 => Some(O.LDA)
    case 0xA2 | 0xA6 | 0xB6 | 0xAE | 0xBE => Some(O.LDX)
    case 0xA0 | 0xA4 | 0xB4 | 0xAC | 0xBC => Some(O.LDY)
    case 0x4A | 0x46 | 0x56 | 0x4E | 0x5E => Some(O.LSR)
    case 0xEA | 0x04 | 0x0C | 0x14 | 0x1A | 0x1C | 0x34 | 0x3A | 0x3C | 0x44 | 0x54 | 0x5A | 0x5C | 0x64 | 0x74 | 0x7A | 0x7C | 0x80 | 0x82 | 0x89 | 0xC2 | 0xD4 | 0xDA | 0xDC | 0xE2 | 0xF4 | 0xFA | 0xFC => Some(O.NOP)
    case 0x09 | 0x05 | 0x15 | 0x01 | 0x11 | 0x0D | 0x1D | 0x19 => Some(O.ORA)
    case 0x48 => Some(O.PHA)
    case 0x08 => Some(O.PHP)
    case 0x68 => Some(O.PLA)
    case 0x28 => Some(O.PLP)
    case 0x27 | 0x37 | 0x23 | 0x33 | 0x2F | 0x3F | 0x3B => Some(O.RLA)
    case 0x2A | 0x26 | 0x36 | 0x2E | 0x3E => Some(O.ROL)
    case 0x6A | 0x66 | 0x76 | 0x6E | 0x7E => Some(O.ROR)
    case 0x67 | 0x77 | 0x63 | 0x73 | 0x6F | 0x7F | 0x7B => Some(O.RRA)
    case 0x40 => Some(O.RTI)
    case 0x60 => Some(O.RTS)
    case 0x87 | 0x97 | 0x83 | 0x8F => Some(O.SAX)
    case 0xE9 | 0xE5 | 0xF5 | 0xE1 | 0xF1 | 0xED | 0xFD | 0xF9 | 0xEB => Some(O.SBC)
    case 0x38 => Some(O.SEC)
    case 0xF8 => Some(O.SED)
    case 0x78 => Some(O.SEI)
    case 0x07 | 0x17 | 0x03 | 0x13 | 0x0F | 0x1F | 0x1B => Some(O.SLO)
    case 0x47 | 0x57 | 0x43 | 0x53 | 0x4F | 0x5F | 0x5B => Some(O.SRE)
    case 0x85 | 0x95 | 0x81 | 0x91 | 0x8D | 0x9D | 0x99 => Some(O.STA)
    case 0x86 | 0x96 | 0x8E => Some(O.STX)
    case 0x84 | 0x94 | 0x8C => Some(O.STY)
    case 0xAA => Some(O.TAX)
    case 0xA8 => Some(O.TAY)
    case 0xBA => Some(O.TSX)
    case 0x8A => Some(O.TXA)
    case 0x9A => Some(O.TXS)
    case 0x98 => Some(O.TYA)
    case _ => None
  }

  /** name with the missing CLI arm restored. */
  function NameWithCli(code: u8): Option<O.Mnemonic> {
    if code == 0x58 then Some(O.CLI) else Name(code)
  }

  /**
   * is_undocumented: nine columns of the opcode table (code % 0x20) and a
   * list of single opcodes, the unofficial NOPs among them.
   */
  predicate IsUndocumented(code: u8) {
    code % 0x20 in {0x12, 0x03, 0x07, 0x0B, 0x0F, 0x13, 0x17, 0x1B, 0x1F} ||
    code in {0x80, 0x04, 0x44, 0x64, 0x0C, 0x14, 0x34, 0x54,
             0x74, 0xD4, 0xF4, 0x1C, 0x3C, 0x5C, 0x7C, 0x9C,
             0xDC, 0xFC, 0x89, 0x02, 0x22, 0x42, 0x62, 0x82,
             0xC2, 0xE2, 0x1A, 0x3A, 0x5A, 0x7A, 0xDA, 0xFA,
             0x9E}
  }

  /**
   * The debugger's list flags every opcode that the disassembler's
   * is_undocumented flags, and besides those column 0x12, the opcodes 0x02,
   * 0x22, 0x42 and 0x62, and 0x9C and 0x9E.
   */
  lemma UndocumentedListsCompared(code: u8, next1: u8, next2: u8)
    ensures IsUndocumented(code) <==>
      O.IsUndocumented(O.OpFromBytes(code, next1, next2))
      || code % 0x20 == 0x12 || code in {0x02, 0x22, 0x42, 0x62, 0x9C, 0x9E}
  {
    N.UndocumentedOpcodes(code, next1, next2);
    hide O.MnemonicOf, A.FromBytes;
  }

  /**
   * name as written panics on CLI, a documented instruction that the
   * disassembler names and the CPU runs; with the arm restored it is CLI.
   */
  lemma NameMissesCli()
    ensures Name(0x58).None? && !IsUndocumented(0x58)
    ensures NameWithCli(0x58) == Some(O.CLI) && O.MnemonicOf(0x58) == O.CLI
  {
  }

  /** Among opcodes 0x00-0x7F, name fails only on undocumented opcodes and CLI. */
  lemma NameDefinedLow(code: u8)
    requires code < 0x80 && code != 0x58 && !IsUndocumented(code)
    ensures Name(code).Some?
  {
  }

  /** Among opcodes 0x80-0xFF, name fails only on undocumented opcodes. */
  lemma NameDefinedHigh(code: u8)
    requires code >= 0x80 && !IsUndocumented(code)
    ensures Name(code).Some?
  {
  }

  /** With the CLI arm restored, name is defined on every documented opcode. */
  lemma NameWithCliDefined(code: u8)
    requires !IsUndocumented(code)
    ensures NameWithCli(code).Some?
  {
    if code < 0x80 {
      if code != 0x58 {
        NameDefinedLow(code);
      }
    } else {
      NameDefinedHigh(code);
    }
  }

  /** Undocumented opcodes whose names the debugger lacks make it panic: ANC 0x0B. */
  lemma UndocumentedAncPanics()
    ensures IsUndocumented(0x0B) && Name(0x0B).None? && O.MnemonicOf(0x0B) == O.ANC
  {
  }

  /** STP 0x02 has no name in the debugger either. */
  lemma UndocumentedStpPanics()
    ensures IsUndocumented(0x02) && Name(0x02).None? && O.MnemonicOf(0x02) == O.STP
  {
  }

  /** Other undocumented opcodes it names: the second SBC, 0xEB. */
  lemma UndocumentedSbcNamed()
    ensures IsUndocumented(0xEB) && Name(0xEB) == Some(O.SBC) && !IsUndocumented(0xE9)
  {
  }

  /** The unofficial NOP 0x1A is named NOP and flagged; the official 0xEA is not flagged. */
  lemma UndocumentedNopNamed()
    ensures IsUndocumented(0x1A) && Name(0x1A) == Some(O.NOP)
    ensures !IsUndocumented(0xEA) && Name(0xEA) == Some(O.NOP)
  {
  }
}
