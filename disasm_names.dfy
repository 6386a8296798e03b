/**
 * The shape of the disassembler's name table (Mnemonic::from in
 * disasm/src/operation.rs) and what it means for is_undocumented: the
 * illegal instructions are exactly the opcodes whose two low bits are set,
 * except the second SBC at 0xEB, and NOP is 0xEA and the unofficial NOPs.
 *
 * The solver evaluates the 256-arm match once for each opcode a lemma
 * covers, so the table is checked in blocks of a few rows or columns and
 * the blocks are put together by IllegalNames and NopNames.
 */
module DisasmNames {
  import opened Types
  import opened DisasmOperation
  import DisasmAddress

  /** Opcodes 0x00 to 0x0F outside the illegal columns name no illegal instruction. */
  lemma DocumentedRow0(c: u8)
    requires c >> 4 == 0x0 && c % 4 != 3
    ensures !IsIllegalMnemonic(MnemonicOf(c))
  {
  }

  /** Opcodes 0x10 to 0x1F outside the illegal columns name no illegal instruction. */
  lemma DocumentedRow1(c: u8)
    requires c >> 4 == 0x1 && c % 4 != 3
    ensures !IsIllegalMnemonic(MnemonicOf(c))
  {
  }

  /** Opcodes 0x20 to 0x2F outside the illegal columns name no illegal instruction. */
  lemma DocumentedRow2(c: u8)
    requires c >> 4 == 0x2 && c % 4 != 3
    ensures !IsIllegalMnemonic(MnemonicOf(c))
  {
  }

  /** Opcodes 0x30 to 0x3F outside the illegal columns name no illegal instruction. */
  lemma DocumentedRow3(c: u8)
    requires c >> 4 == 0x3 && c % 4 != 3
    ensures !IsIllegalMnemonic(MnemonicOf(c))
  {
  }

  /** Opcodes 0x40 to 0x4F outside the illegal columns name no illegal instruction. */
  lemma DocumentedRow4(c: u8)
    requires c >> 4 == 0x4 && c % 4 != 3
    ensures !IsIllegalMnemonic(MnemonicOf(c))
  {
  }

  /** Opcodes 0x50 to 0x5F outside the illegal columns name no illegal instruction. */
  lemma DocumentedRow5(c: u8)
    requires c >> 4 == 0x5 && c % 4 != 3
    ensures !IsIllegalMnemonic(MnemonicOf(c))
  {
  }

  /** Opcodes 0x60 to 0x6F outside the illegal columns name no illegal instruction. */
  lemma DocumentedRow6(c: u8)
    requires c >> 4 == 0x6 && c % 4 != 3
    ensures !IsIllegalMnemonic(MnemonicOf(c))
  {
  }

  /** Opcodes 0x70 to 0x7F outside the illegal columns name no illegal instruction. */
  lemma DocumentedRow7(c: u8)
    requires c >> 4 == 0x7 && c % 4 != 3
    ensures !IsIllegalMnemonic(MnemonicOf(c))
  {
  }

  /** Opcodes 0x80 to 0x87 outside the illegal columns name no illegal instruction. */
  lemma DocumentedRow8a(c: u8)
    requires c >> 3 == 0x10 && c % 4 != 3
    ensures !IsIllegalMnemonic(MnemonicOf(c))
  {
  }

  /** Opcodes 0x88 to 0x8F outside the illegal columns name no illegal instruction. */
  lemma DocumentedRow8b(c: u8)
    requires c >> 3 == 0x11 && c % 4 != 3
    ensures !IsIllegalMnemonic(MnemonicOf(c))
  {
  }

  /** Opcodes 0x90 to 0x97 outside the illegal columns name no illegal instruction. */
  lemma DocumentedRow9a(c: u8)
    requires c >> 3 == 0x12 && c % 4 != 3
    ensures !IsIllegalMnemonic(MnemonicOf(c))
  {
  }

  /** Opcodes 0x98 to 0x9F outside the illegal columns name no illegal instruction. */
  lemma DocumentedRow9b(c: u8)
    requires c >> 3 == 0x13 && c % 4 != 3
    ensures !IsIllegalMnemonic(MnemonicOf(c))
  {
  }

  /** Opcodes 0xA0 to 0xAF outside the illegal columns name no illegal instruction. */
  lemma DocumentedRowA(c: u8)
    requires c >> 4 == 0xA && c % 4 != 3
    ensures !IsIllegalMnemonic(MnemonicOf(c))
  {
  }

  /** Opcodes 0xB0 to 0xBF outside the illegal columns name no illegal instruction. */
  lemma DocumentedRowB(c: u8)
    requires c >> 4 == 0xB && c % 4 != 3
    ensures !IsIllegalMnemonic(MnemonicOf(c))
  {
  }

  /** Opcodes 0xC0 to 0xDF outside the illegal columns name no illegal instruction. */
  lemma DocumentedRowsCD(c: u8)
    requires c >> 5 == 6 && c % 4 != 3
    ensures !IsIllegalMnemonic(MnemonicOf(c))
  {
  }

  /** Opcodes 0xE0 to 0xEF outside the illegal columns name no illegal instruction. */
  lemma DocumentedRowE(c: u8)
    requires c >> 4 == 0xE && c % 4 != 3
    ensures !IsIllegalMnemonic(MnemonicOf(c))
  {
  }

  /** Opcodes 0xF0 to 0xFF outside the illegal columns name no illegal instruction. */
  lemma DocumentedRowF(c: u8)
    requires c >> 4 == 0xF && c % 4 != 3
    ensures !IsIllegalMnemonic(MnemonicOf(c))
  {
  }

  /** Column 0x03, opcodes below 0x80: illegal instructions. */
  lemma IllegalColumn03a(c: u8)
    requires c & 0x1F == 0x03 && c >> 7 == 0
    ensures IsIllegalMnemonic(MnemonicOf(c))
  {
  }

  /** Column 0x03, opcodes from 0x80: illegal instructions. */
  lemma IllegalColumn03b(c: u8)
    requires c & 0x1F == 0x03 && c >> 7 == 1
    ensures IsIllegalMnemonic(MnemonicOf(c))
  {
  }

  /** Column 0x07, opcodes below 0x80: illegal instructions. */
  lemma IllegalColumn07a(c: u8)
    requires c & 0x1F == 0x07 && c >> 7 == 0
    ensures IsIllegalMnemonic(MnemonicOf(c))
  {
  }

  /** Column 0x07, opcodes from 0x80: illegal instructions. */
  lemma IllegalColumn07b(c: u8)
    requires c & 0x1F == 0x07 && c >> 7 == 1
    ensures IsIllegalMnemonic(MnemonicOf(c))
  {
  }

  /** Column 0x0B names illegal instructions, but for the second SBC at 0xEB. */
  lemma IllegalColumn0B(c: u8)
    requires c & 0x1F == 0x0B
    ensures IsIllegalMnemonic(MnemonicOf(c)) <==> c != 0xEB
  {
  }

  /** Column 0x0F, opcodes below 0x80: illegal instructions. */
  lemma IllegalColumn0Fa(c: u8)
    requires c & 0x1F == 0x0F && c >> 7 == 0
    ensures IsIllegalMnemonic(MnemonicOf(c))
  {
  }

  /** Column 0x0F, opcodes from 0x80: illegal instructions. */
  lemma IllegalColumn0Fb(c: u8)
    requires c & 0x1F == 0x0F && c >> 7 == 1
    ensures IsIllegalMnemonic(MnemonicOf(c))
  {
  }

  /** Column 0x13, opcodes below 0x80: illegal instructions. */
  lemma IllegalColumn13a(c: u8)
    requires c & 0x1F == 0x13 && c >> 7 == 0
    ensures IsIllegalMnemonic(MnemonicOf(c))
  {
  }

  /** Column 0x13, opcodes from 0x80: illegal instructions. */
  lemma IllegalColumn13b(c: u8)
    requires c & 0x1F == 0x13 && c >> 7 == 1
    ensures IsIllegalMnemonic(MnemonicOf(c))
  {
  }

  /** Column 0x17, opcodes below 0x80: illegal instructions. */
  lemma IllegalColumn17a(c: u8)
    requires c & 0x1F == 0x17 && c >> 7 == 0
    ensures IsIllegalMnemonic(MnemonicOf(c))
  {
  }

  /** Column 0x17, opcodes from 0x80: illegal instructions. */
  lemma IllegalColumn17b(c: u8)
    requires c & 0x1F == 0x17 && c >> 7 == 1
    ensures IsIllegalMnemonic(MnemonicOf(c))
  {
  }

  /** Column 0x1B, opcodes below 0x80: illegal instructions. */
  lemma IllegalColumn1Ba(c: u8)
    requires c & 0x1F == 0x1B && c >> 7 == 0
    ensures IsIllegalMnemonic(MnemonicOf(c))
  {
  }

  /** Column 0x1B, opcodes from 0x80: illegal instructions. */
  lemma IllegalColumn1Bb(c: u8)
    requires c & 0x1F == 0x1B && c >> 7 == 1
    ensures IsIllegalMnemonic(MnemonicOf(c))
  {
  }

  /** Column 0x1F, opcodes below 0x80: illegal instructions. */
  lemma IllegalColumn1Fa(c: u8)
    requires c & 0x1F == 0x1F && c >> 7 == 0
    ensures IsIllegalMnemonic(MnemonicOf(c))
  {
  }

  /** Column 0x1F, opcodes from 0x80: illegal instructions. */
  lemma IllegalColumn1Fb(c: u8)
    requires c & 0x1F == 0x1F && c >> 7 == 1
    ensures IsIllegalMnemonic(MnemonicOf(c))
  {
  }

  /** Opcodes 0x00 to 0x1F other than the unofficial NOPs are not NOP. */
  lemma NopFree0(c: u8)
    requires c >> 5 == 0 && c !in UNOFFICIAL_NOPS
    ensures MnemonicOf(c) != NOP
  {
  }

  /** Opcodes 0x20 to 0x3F other than the unofficial NOPs are not NOP. */
  lemma NopFree1(c: u8)
    requires c >> 5 == 1 && c !in UNOFFICIAL_NOPS
    ensures MnemonicOf(c) != NOP
  {
  }

  /** Opcodes 0x40 to 0x5F other than the unofficial NOPs are not NOP. */
  lemma NopFree2(c: u8)
    requires c >> 5 == 2 && c !in UNOFFICIAL_NOPS
    ensures MnemonicOf(c) != NOP
  {
  }

  /** Opcodes 0x60 to 0x7F other than the unofficial NOPs are not NOP. */
  lemma NopFree3(c: u8)
    requires c >> 5 == 3 && c !in UNOFFICIAL_NOPS
    ensures MnemonicOf(c) != NOP
  {
  }

  /** Opcodes 0x80 to 0x8F other than the unofficial NOPs are not NOP. */
  lemma NopFree4a(c: u8)
    requires c >> 4 == 8 && c !in UNOFFICIAL_NOPS
    ensures MnemonicOf(c) != NOP
  {
  }

  /** Opcodes 0x90 to 0x9F are not NOP. */
  lemma NopFree4b(c: u8)
    requires c >> 4 == 9 && c !in UNOFFICIAL_NOPS
    ensures MnemonicOf(c) != NOP
  {
  }

  /** Opcodes 0xA0 to 0xBF other than the unofficial NOPs are not NOP. */
  lemma NopFree5(c: u8)
    requires c >> 5 == 5 && c !in UNOFFICIAL_NOPS
    ensures MnemonicOf(c) != NOP
  {
  }

  /** Opcodes 0xC0 to 0xDF other than the unofficial NOPs are not NOP. */
  lemma NopFree6(c: u8)
    requires c >> 5 == 6 && c !in UNOFFICIAL_NOPS
    ensures MnemonicOf(c) != NOP
  {
  }

  /** Opcodes 0xE0 to 0xFF other than 0xEA and the unofficial NOPs are not NOP. */
  lemma NopFree7(c: u8)
    requires c >> 5 == 7 && c != 0xEA && c !in UNOFFICIAL_NOPS
    ensures MnemonicOf(c) != NOP
  {
  }

  /** Opcodes named NOP: 0x04, 0x0C, 0x14. */
  lemma NopGroup0(c: u8)
    requires c in {0x04, 0x0C, 0x14}
    ensures MnemonicOf(c) == NOP
  {
  }

  /** Opcodes named NOP: 0x1A, 0x1C, 0x34. */
  lemma NopGroup1(c: u8)
    requires c in {0x1A, 0x1C, 0x34}
    ensures MnemonicOf(c) == NOP
  {
  }

  /** Opcodes named NOP: 0x3A, 0x3C, 0x44. */
  lemma NopGroup2(c: u8)
    requires c in {0x3A, 0x3C, 0x44}
    ensures MnemonicOf(c) == NOP
  {
  }

  /** Opcodes named NOP: 0x54, 0x5A, 0x5C. */
  lemma NopGroup3(c: u8)
    requires c in {0x54, 0x5A, 0x5C}
    ensures MnemonicOf(c) == NOP
  {
  }

  /** Opcodes named NOP: 0x64, 0x74, 0x7A. */
  lemma NopGroup4(c: u8)
    requires c in {0x64, 0x74, 0x7A}
    ensures MnemonicOf(c) == NOP
  {
  }

  /** Opcodes named NOP: 0x7C, 0x80, 0x82. */
  lemma NopGroup5(c: u8)
    requires c in {0x7C, 0x80, 0x82}
    ensures MnemonicOf(c) == NOP
  {
  }

  /** Opcodes named NOP: 0x89, 0xC2, 0xD4. */
  lemma NopGroup6(c: u8)
    requires c in {0x89, 0xC2, 0xD4}
    ensures MnemonicOf(c) == NOP
  {
  }

  /** Opcodes named NOP: 0xDA, 0xDC, 0xE2. */
  lemma NopGroup7(c: u8)
    requires c in {0xDA, 0xDC, 0xE2}
    ensures MnemonicOf(c) == NOP
  {
  }

  /** Opcodes named NOP: 0xEA, 0xF4, 0xFA. */
  lemma NopGroup8(c: u8)
    requires c in {0xEA, 0xF4, 0xFA}
    ensures MnemonicOf(c) == NOP
  {
  }

  /** Opcodes named NOP: 0xFC. */
  lemma NopGroup9(c: u8)
    requires c in {0xFC}
    ensures MnemonicOf(c) == NOP
  {
  }

  /**
   * The illegal instructions are exactly the opcodes whose two low bits are
   * set, except the second SBC at 0xEB.
   */
  lemma IllegalNames(c: u8)
    ensures IsIllegalMnemonic(MnemonicOf(c)) <==> c % 4 == 3 && c != 0xEB
  {
    hide MnemonicOf;
    if c % 4 == 3 {
      var column := c & 0x1F;
      if column == 0x03 {
        if c >> 7 == 0 { IllegalColumn03a(c); } else { IllegalColumn03b(c); }
      } else if column == 0x07 {
        if c >> 7 == 0 { IllegalColumn07a(c); } else { IllegalColumn07b(c); }
      } else if column == 0x0B {
        IllegalColumn0B(c);
      } else if column == 0x0F {
        if c >> 7 == 0 { IllegalColumn0Fa(c); } else { IllegalColumn0Fb(c); }
      } else if column == 0x13 {
        if c >> 7 == 0 { IllegalColumn13a(c); } else { IllegalColumn13b(c); }
      } else if column == 0x17 {
        if c >> 7 == 0 { IllegalColumn17a(c); } else { IllegalColumn17b(c); }
      } else if column == 0x1B {
        if c >> 7 == 0 { IllegalColumn1Ba(c); } else { IllegalColumn1Bb(c); }
      } else {
        if c >> 7 == 0 { IllegalColumn1Fa(c); } else { IllegalColumn1Fb(c); }
      }
    } else {
      var row := c >> 4;
      if row == 0x0 {
        DocumentedRow0(c);
      } else if row == 0x1 {
        DocumentedRow1(c);
      } else if row == 0x2 {
        DocumentedRow2(c);
      } else if row == 0x3 {
        DocumentedRow3(c);
      } else if row == 0x4 {
        DocumentedRow4(c);
      } else if row == 0x5 {
        DocumentedRow5(c);
      } else if row == 0x6 {
        DocumentedRow6(c);
      } else if row == 0x7 {
        DocumentedRow7(c);
      } else if row == 0x8 {
        if c >> 3 == 0x10 { DocumentedRow8a(c); } else { DocumentedRow8b(c); }
      } else if row == 0x9 {
        if c >> 3 == 0x12 { DocumentedRow9a(c); } else { DocumentedRow9b(c); }
      } else if row == 0xA {
        DocumentedRowA(c);
      } else if row == 0xB {
        DocumentedRowB(c);
      } else if row == 0xC || row == 0xD {
        DocumentedRowsCD(c);
      } else if row == 0xE {
        DocumentedRowE(c);
      } else {
        DocumentedRowF(c);
      }
    }
  }

  /** NOP is 0xEA and the unofficial NOPs. */
  lemma NopNames(c: u8)
    ensures MnemonicOf(c) == NOP <==> c == 0xEA || c in UNOFFICIAL_NOPS
  {
    hide MnemonicOf;
    if c == 0xEA || c in UNOFFICIAL_NOPS {
      if c in {0x04, 0x0C, 0x14} {
        NopGroup0(c);
      } else if c in {0x1A, 0x1C, 0x34} {
        NopGroup1(c);
      } else if c in {0x3A, 0x3C, 0x44} {
        NopGroup2(c);
      } else if c in {0x54, 0x5A, 0x5C} {
        NopGroup3(c);
      } else if c in {0x64, 0x74, 0x7A} {
        NopGroup4(c);
      } else if c in {0x7C, 0x80, 0x82} {
        NopGroup5(c);
      } else if c in {0x89, 0xC2, 0xD4} {
        NopGroup6(c);
      } else if c in {0xDA, 0xDC, 0xE2} {
        NopGroup7(c);
      } else if c in {0xEA, 0xF4, 0xFA} {
        NopGroup8(c);
      } else {
        NopGroup9(c);
      }
    } else {
      var block := c >> 5;
      if block == 0 {
        NopFree0(c);
      } else if block == 1 {
        NopFree1(c);
      } else if block == 2 {
        NopFree2(c);
      } else if block == 3 {
        NopFree3(c);
      } else if block == 4 {
        if c >> 4 == 8 { NopFree4a(c); } else { NopFree4b(c); }
      } else if block == 5 {
        NopFree5(c);
      } else if block == 6 {
        NopFree6(c);
      } else {
        NopFree7(c);
      }
    }
  }

  /**
   * is_undocumented flags exactly the opcodes whose two low bits are set and
   * the unofficial NOPs; the operand bytes play no part.
   */
  lemma UndocumentedOpcodes(c: u8, next1: u8, next2: u8)
    ensures IsUndocumented(OpFromBytes(c, next1, next2)) <==> c % 4 == 3 || c in UNOFFICIAL_NOPS
  {
    IllegalNames(c);
    NopNames(c);
    hide MnemonicOf, DisasmAddress.FromBytes;
  }

}
