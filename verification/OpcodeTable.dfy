/** The opcode matrix: what the opcode's bit fields decode to, section by section of the dispatch table. */
module OpcodeTable {
  import opened InstructionSet
  import opened Words

  predicate IsLoadsA(op: u8)
  {
    op == 0xA9 || op == 0xA5 || op == 0xB5 || op == 0xAD || op == 0xBD || op == 0xB9 || op == 0xA1 || op == 0xB1
  }

  lemma LoadsA()
    ensures Decode(0xA9) == Load(LDA, Imm) && Decode(0xA5) == Load(LDA, Zp)
    ensures Decode(0xB5) == Load(LDA, ZpX) && Decode(0xAD) == Load(LDA, Abs)
    ensures Decode(0xBD) == Load(LDA, AbsX) && Decode(0xB9) == Load(LDA, AbsY)
    ensures Decode(0xA1) == Load(LDA, IndX) && Decode(0xB1) == Load(LDA, IndY)
  {
  }

  predicate IsLoadsX(op: u8)
  {
    op == 0xA2 || op == 0xA6 || op == 0xB6 || op == 0xAE || op == 0xBE
  }

  lemma LoadsX()
    ensures Decode(0xA2) == Load(LDX, Imm) && Decode(0xA6) == Load(LDX, Zp)
    ensures Decode(0xB6) == Load(LDX, ZpY) && Decode(0xAE) == Load(LDX, Abs)
    ensures Decode(0xBE) == Load(LDX, AbsY)
  {
  }

  predicate IsLoadsY(op: u8)
  {
    op == 0xA0 || op == 0xA4 || op == 0xB4 || op == 0xAC || op == 0xBC
  }

  lemma LoadsY()
    ensures Decode(0xA0) == Load(LDY, Imm) && Decode(0xA4) == Load(LDY, Zp)
    ensures Decode(0xB4) == Load(LDY, ZpX) && Decode(0xAC) == Load(LDY, Abs)
    ensures Decode(0xBC) == Load(LDY, AbsX)
  {
  }

  predicate IsStoresA(op: u8)
  {
    op == 0x85 || op == 0x95 || op == 0x8D || op == 0x81
  }

  lemma StoresA()
    ensures Decode(0x85) == Store(STA, Zp) && Decode(0x95) == Store(STA, ZpX)
    ensures Decode(0x8D) == Store(STA, Abs) && Decode(0x81) == Store(STA, IndX)
  {
  }

  predicate IsStoresAIndexed(op: u8)
  {
    op == 0x9D || op == 0x99 || op == 0x91
  }

  lemma StoresAIndexed()
    ensures Decode(0x9D) == Store(STA, AbsX) && Decode(0x99) == Store(STA, AbsY)
    ensures Decode(0x91) == Store(STA, IndY)
  {
  }

  predicate IsStoresXY(op: u8)
  {
    op == 0x86 || op == 0x96 || op == 0x8E || op == 0x84 || op == 0x94 || op == 0x8C
  }

  lemma StoresXY()
    ensures Decode(0x86) == Store(STX, Zp) && Decode(0x96) == Store(STX, ZpY)
    ensures Decode(0x8E) == Store(STX, Abs) && Decode(0x84) == Store(STY, Zp)
    ensures Decode(0x94) == Store(STY, ZpX) && Decode(0x8C) == Store(STY, Abs)
  {
  }

  predicate IsTransfers(op: u8)
  {
    op == 0xAA || op == 0xA8 || op == 0xBA || op == 0x8A || op == 0x9A || op == 0x98
  }

  lemma Transfers()
    ensures Decode(0xAA) == Implied(TAX) && Decode(0xA8) == Implied(TAY)
    ensures Decode(0xBA) == Implied(TSX) && Decode(0x8A) == Implied(TXA)
    ensures Decode(0x9A) == Implied(TXS) && Decode(0x98) == Implied(TYA)
  {
  }

  predicate IsStackOps(op: u8)
  {
    op == 0x48 || op == 0x08 || op == 0x68 || op == 0x28
  }

  lemma StackOps()
    ensures Decode(0x48) == Pha && Decode(0x08) == Php
    ensures Decode(0x68) == Pla && Decode(0x28) == Plp
  {
  }

  predicate IsAnds(op: u8)
  {
    op == 0x29 || op == 0x25 || op == 0x35 || op == 0x2D || op == 0x3D || op == 0x39 || op == 0x21 || op == 0x31
  }

  lemma Ands()
    ensures Decode(0x29) == Load(AND, Imm) && Decode(0x25) == Load(AND, Zp)
    ensures Decode(0x35) == Load(AND, ZpX) && Decode(0x2D) == Load(AND, Abs)
    ensures Decode(0x3D) == Load(AND, AbsX) && Decode(0x39) == Load(AND, AbsY)
    ensures Decode(0x21) == Load(AND, IndX) && Decode(0x31) == Load(AND, IndY)
  {
  }

  predicate IsOrs(op: u8)
  {
    op == 0x09 || op == 0x05 || op == 0x15 || op == 0x0D || op == 0x1D || op == 0x19 || op == 0x01 || op == 0x11
  }

  lemma Ors()
    ensures Decode(0x09) == Load(ORA, Imm) && Decode(0x05) == Load(ORA, Zp)
    ensures Decode(0x15) == Load(ORA, ZpX) && Decode(0x0D) == Load(ORA, Abs)
    ensures Decode(0x1D) == Load(ORA, AbsX) && Decode(0x19) == Load(ORA, AbsY)
    ensures Decode(0x01) == Load(ORA, IndX) && Decode(0x11) == Load(ORA, IndY)
  {
  }

  predicate IsXors(op: u8)
  {
    op == 0x49 || op == 0x45 || op == 0x55 || op == 0x4D || op == 0x5D || op == 0x59 || op == 0x41 || op == 0x51
  }

  lemma Xors()
    ensures Decode(0x49) == Load(EOR, Imm) && Decode(0x45) == Load(EOR, Zp)
    ensures Decode(0x55) == Load(EOR, ZpX) && Decode(0x4D) == Load(EOR, Abs)
    ensures Decode(0x5D) == Load(EOR, AbsX) && Decode(0x59) == Load(EOR, AbsY)
    ensures Decode(0x41) == Load(EOR, IndX) && Decode(0x51) == Load(EOR, IndY)
  {
  }

  predicate IsBits(op: u8)
  {
    op == 0x24 || op == 0x2C
  }

  lemma Bits()
    ensures Decode(0x24) == Load(BIT, Zp) && Decode(0x2C) == Load(BIT, Abs)
  {
  }

  predicate IsAdditions(op: u8)
  {
    op == 0x69 || op == 0x65 || op == 0x75 || op == 0x6D || op == 0x7D || op == 0x79 || op == 0x61 || op == 0x71
  }

  lemma Additions()
    ensures Decode(0x69) == Load(ADC, Imm) && Decode(0x65) == Load(ADC, Zp)
    ensures Decode(0x75) == Load(ADC, ZpX) && Decode(0x6D) == Load(ADC, Abs)
    ensures Decode(0x7D) == Load(ADC, AbsX) && Decode(0x79) == Load(ADC, AbsY)
    ensures Decode(0x61) == Load(ADC, IndX) && Decode(0x71) == Load(ADC, IndY)
  {
  }

  predicate IsSubtractions(op: u8)
  {
    op == 0xE9 || op == 0xEB || op == 0xE5 || op == 0xF5 || op == 0xED || op == 0xFD || op == 0xF9 || op == 0xE1
    || op == 0xF1
  }

  lemma Subtractions()
    ensures Decode(0xE9) == Load(SBC, Imm) && Decode(0xEB) == Load(SBC, Imm)
    ensures Decode(0xE5) == Load(SBC, Zp) && Decode(0xF5) == Load(SBC, ZpX)
    ensures Decode(0xED) == Load(SBC, Abs) && Decode(0xFD) == Load(SBC, AbsX)
    ensures Decode(0xF9) == Load(SBC, AbsY) && Decode(0xE1) == Load(SBC, IndX)
    ensures Decode(0xF1) == Load(SBC, IndY)
  {
  }

  predicate IsComparesA(op: u8)
  {
    op == 0xC9 || op == 0xC5 || op == 0xD5 || op == 0xCD || op == 0xDD || op == 0xD9 || op == 0xC1 || op == 0xD1
  }

  lemma ComparesA()
    ensures Decode(0xC9) == Load(CMP, Imm) && Decode(0xC5) == Load(CMP, Zp)
    ensures Decode(0xD5) == Load(CMP, ZpX) && Decode(0xCD) == Load(CMP, Abs)
    ensures Decode(0xDD) == Load(CMP, AbsX) && Decode(0xD9) == Load(CMP, AbsY)
    ensures Decode(0xC1) == Load(CMP, IndX) && Decode(0xD1) == Load(CMP, IndY)
  {
  }

  predicate IsComparesX(op: u8)
  {
    op == 0xE0 || op == 0xE4 || op == 0xEC
  }

  lemma ComparesX()
    ensures Decode(0xE0) == Load(CPX, Imm) && Decode(0xE4) == Load(CPX, Zp)
    ensures Decode(0xEC) == Load(CPX, Abs)
  {
  }

  predicate IsComparesY(op: u8)
  {
    op == 0xC0 || op == 0xC4 || op == 0xCC
  }

  lemma ComparesY()
    ensures Decode(0xC0) == Load(CPY, Imm) && Decode(0xC4) == Load(CPY, Zp)
    ensures Decode(0xCC) == Load(CPY, Abs)
  {
  }

  predicate IsMemoryCounts(op: u8)
  {
    op == 0xE6 || op == 0xF6 || op == 0xEE || op == 0xFE || op == 0xC6 || op == 0xD6 || op == 0xCE || op == 0xDE
  }

  lemma MemoryCounts()
    ensures Decode(0xE6) == Modify(INC, Zp) && Decode(0xF6) == Modify(INC, ZpX)
    ensures Decode(0xEE) == Modify(INC, Abs) && Decode(0xFE) == Modify(INC, AbsX)
    ensures Decode(0xC6) == Modify(DEC, Zp) && Decode(0xD6) == Modify(DEC, ZpX)
    ensures Decode(0xCE) == Modify(DEC, Abs) && Decode(0xDE) == Modify(DEC, AbsX)
  {
  }

  predicate IsRegisterCounts(op: u8)
  {
    op == 0xE8 || op == 0xCA || op == 0xC8 || op == 0x88
  }

  lemma RegisterCounts()
    ensures Decode(0xE8) == Implied(INX) && Decode(0xCA) == Implied(DEX)
    ensures Decode(0xC8) == Implied(INY) && Decode(0x88) == Implied(DEY)
  {
  }

  predicate IsShiftsLeft(op: u8)
  {
    op == 0x0A || op == 0x06 || op == 0x16 || op == 0x0E || op == 0x1E
  }

  lemma ShiftsLeft()
    ensures Decode(0x0A) == Implied(ASLA) && Decode(0x06) == Modify(ASL, Zp)
    ensures Decode(0x16) == Modify(ASL, ZpX) && Decode(0x0E) == Modify(ASL, Abs)
    ensures Decode(0x1E) == Modify(ASL, AbsX)
  {
  }

  predicate IsShiftsRight(op: u8)
  {
    op == 0x4A || op == 0x46 || op == 0x56 || op == 0x4E || op == 0x5E
  }

  lemma ShiftsRight()
    ensures Decode(0x4A) == Implied(LSRA) && Decode(0x46) == Modify(LSR, Zp)
    ensures Decode(0x56) == Modify(LSR, ZpX) && Decode(0x4E) == Modify(LSR, Abs)
    ensures Decode(0x5E) == Modify(LSR, AbsX)
  {
  }

  predicate IsRotatesLeft(op: u8)
  {
    op == 0x2A || op == 0x26 || op == 0x36 || op == 0x2E || op == 0x3E
  }

  lemma RotatesLeft()
    ensures Decode(0x2A) == Implied(ROLA) && Decode(0x26) == Modify(ROL, Zp)
    ensures Decode(0x36) == Modify(ROL, ZpX) && Decode(0x2E) == Modify(ROL, Abs)
    ensures Decode(0x3E) == Modify(ROL, AbsX)
  {
  }

  predicate IsRotatesRight(op: u8)
  {
    op == 0x6A || op == 0x66 || op == 0x76 || op == 0x6E || op == 0x7E
  }

  lemma RotatesRight()
    ensures Decode(0x6A) == Implied(RORA) && Decode(0x66) == Modify(ROR, Zp)
    ensures Decode(0x76) == Modify(ROR, ZpX) && Decode(0x6E) == Modify(ROR, Abs)
    ensures Decode(0x7E) == Modify(ROR, AbsX)
  {
  }

  predicate IsBranches(op: u8)
  {
    op == 0x10 || op == 0x30 || op == 0x50 || op == 0x70 || op == 0x90 || op == 0xB0 || op == 0xD0 || op == 0xF0
  }

  lemma Branches()
    ensures Decode(0x10) == Branch(FlagN, false) && Decode(0x30) == Branch(FlagN, true)
    ensures Decode(0x50) == Branch(FlagV, false) && Decode(0x70) == Branch(FlagV, true)
    ensures Decode(0x90) == Branch(FlagC, false) && Decode(0xB0) == Branch(FlagC, true)
    ensures Decode(0xD0) == Branch(FlagZ, false) && Decode(0xF0) == Branch(FlagZ, true)
  {
  }

  predicate IsJumps(op: u8)
  {
    op == 0x4C || op == 0x6C || op == 0x20
  }

  lemma Jumps()
    ensures Decode(0x4C) == Jmp && Decode(0x6C) == JmpInd
    ensures Decode(0x20) == Jsr
  {
  }

  predicate IsReturns(op: u8)
  {
    op == 0x60 || op == 0x40 || op == 0x00 || op == 0xEA
  }

  lemma Returns()
    ensures Decode(0x60) == Rts && Decode(0x40) == Rti
    ensures Decode(0x00) == Brk && Decode(0xEA) == Implied(NOPI)
  {
  }

  predicate IsFlagsCI(op: u8)
  {
    op == 0x18 || op == 0x38 || op == 0x58 || op == 0x78
  }

  lemma FlagsCI()
    ensures Decode(0x18) == Implied(CLC) && Decode(0x38) == Implied(SEC)
    ensures Decode(0x58) == Implied(CLI) && Decode(0x78) == Implied(SEI)
  {
  }

  predicate IsFlagsVD(op: u8)
  {
    op == 0xB8 || op == 0xD8 || op == 0xF8
  }

  lemma FlagsVD()
    ensures Decode(0xB8) == Implied(CLV) && Decode(0xD8) == Implied(CLD)
    ensures Decode(0xF8) == Implied(SED)
  {
  }

  predicate IsShortNops(op: u8)
  {
    op == 0x1A || op == 0x3A || op == 0x5A || op == 0x7A || op == 0xDA || op == 0xFA || op == 0x80 || op == 0x82
    || op == 0x89 || op == 0xC2 || op == 0xE2
  }

  lemma ShortNops()
    ensures Decode(0x1A) == Implied(NOPI) && Decode(0x3A) == Implied(NOPI)
    ensures Decode(0x5A) == Implied(NOPI) && Decode(0x7A) == Implied(NOPI)
    ensures Decode(0xDA) == Implied(NOPI) && Decode(0xFA) == Implied(NOPI)
    ensures Decode(0x80) == Load(NOP, Imm) && Decode(0x82) == Load(NOP, Imm)
    ensures Decode(0x89) == Load(NOP, Imm) && Decode(0xC2) == Load(NOP, Imm)
    ensures Decode(0xE2) == Load(NOP, Imm)
  {
  }

  predicate IsMemoryNops(op: u8)
  {
    op == 0x04 || op == 0x44 || op == 0x64 || op == 0x14 || op == 0x34 || op == 0x54 || op == 0x74 || op == 0xD4
    || op == 0xF4 || op == 0x0C || op == 0x1C || op == 0x3C || op == 0x5C || op == 0x7C || op == 0xDC || op == 0xFC
  }

  lemma MemoryNops()
    ensures Decode(0x04) == Load(NOP, Zp) && Decode(0x44) == Load(NOP, Zp)
    ensures Decode(0x64) == Load(NOP, Zp) && Decode(0x14) == Load(NOP, ZpX)
    ensures Decode(0x34) == Load(NOP, ZpX) && Decode(0x54) == Load(NOP, ZpX)
    ensures Decode(0x74) == Load(NOP, ZpX) && Decode(0xD4) == Load(NOP, ZpX)
    ensures Decode(0xF4) == Load(NOP, ZpX) && Decode(0x0C) == Load(NOP, Abs)
    ensures Decode(0x1C) == Load(NOP, AbsX) && Decode(0x3C) == Load(NOP, AbsX)
    ensures Decode(0x5C) == Load(NOP, AbsX) && Decode(0x7C) == Load(NOP, AbsX)
    ensures Decode(0xDC) == Load(NOP, AbsX) && Decode(0xFC) == Load(NOP, AbsX)
  {
  }

  predicate IsLoadsAX(op: u8)
  {
    op == 0xA7 || op == 0xB7 || op == 0xAF
  }

  lemma LoadsAX()
    ensures Decode(0xA7) == Load(LAX, Zp) && Decode(0xB7) == Load(LAX, ZpY)
    ensures Decode(0xAF) == Load(LAX, Abs)
  {
  }

  predicate IsLoadsAXIndexed(op: u8)
  {
    op == 0xBF || op == 0xA3 || op == 0xB3
  }

  lemma LoadsAXIndexed()
    ensures Decode(0xBF) == Load(LAX, AbsY) && Decode(0xA3) == Load(LAX, IndX)
    ensures Decode(0xB3) == Load(LAX, IndY)
  {
  }

  predicate IsLoadsLXA(op: u8)
  {
    op == 0xAB
  }

  lemma LoadsLXA()
    ensures Decode(0xAB) == Load(LXA, Imm)
  {
  }

  predicate IsStoresAX(op: u8)
  {
    op == 0x87 || op == 0x97 || op == 0x8F || op == 0x83
  }

  lemma StoresAX()
    ensures Decode(0x87) == Store(SAX, Zp) && Decode(0x97) == Store(SAX, ZpY)
    ensures Decode(0x8F) == Store(SAX, Abs) && Decode(0x83) == Store(SAX, IndX)
  {
  }

  predicate IsDcpOps(op: u8)
  {
    op == 0xC7 || op == 0xD7 || op == 0xCF || op == 0xDF || op == 0xDB || op == 0xC3 || op == 0xD3
  }

  lemma DcpOps()
    ensures Decode(0xC7) == Modify(DCP, Zp) && Decode(0xD7) == Modify(DCP, ZpX)
    ensures Decode(0xCF) == Modify(DCP, Abs) && Decode(0xDF) == Modify(DCP, AbsX)
    ensures Decode(0xDB) == Modify(DCP, AbsY) && Decode(0xC3) == Modify(DCP, IndX)
    ensures Decode(0xD3) == Modify(DCP, IndY)
  {
  }

  predicate IsIscOps(op: u8)
  {
    op == 0xE7 || op == 0xF7 || op == 0xEF || op == 0xFF || op == 0xFB || op == 0xE3 || op == 0xF3
  }

  lemma IscOps()
    ensures Decode(0xE7) == Modify(ISC, Zp) && Decode(0xF7) == Modify(ISC, ZpX)
    ensures Decode(0xEF) == Modify(ISC, Abs) && Decode(0xFF) == Modify(ISC, AbsX)
    ensures Decode(0xFB) == Modify(ISC, AbsY) && Decode(0xE3) == Modify(ISC, IndX)
    ensures Decode(0xF3) == Modify(ISC, IndY)
  {
  }

  predicate IsSloOps(op: u8)
  {
    op == 0x07 || op == 0x17 || op == 0x0F || op == 0x1F || op == 0x1B || op == 0x03 || op == 0x13
  }

  lemma SloOps()
    ensures Decode(0x07) == Modify(SLO, Zp) && Decode(0x17) == Modify(SLO, ZpX)
    ensures Decode(0x0F) == Modify(SLO, Abs) && Decode(0x1F) == Modify(SLO, AbsX)
    ensures Decode(0x1B) == Modify(SLO, AbsY) && Decode(0x03) == Modify(SLO, IndX)
    ensures Decode(0x13) == Modify(SLO, IndY)
  {
  }

  predicate IsRlaOps(op: u8)
  {
    op == 0x27 || op == 0x37 || op == 0x2F || op == 0x3F || op == 0x3B || op == 0x23 || op == 0x33
  }

  lemma RlaOps()
    ensures Decode(0x27) == Modify(RLA, Zp) && Decode(0x37) == Modify(RLA, ZpX)
    ensures Decode(0x2F) == Modify(RLA, Abs) && Decode(0x3F) == Modify(RLA, AbsX)
    ensures Decode(0x3B) == Modify(RLA, AbsY) && Decode(0x23) == Modify(RLA, IndX)
    ensures Decode(0x33) == Modify(RLA, IndY)
  {
  }

  predicate IsSreOps(op: u8)
  {
    op == 0x47 || op == 0x57 || op == 0x4F || op == 0x5F || op == 0x5B || op == 0x43 || op == 0x53
  }

  lemma SreOps()
    ensures Decode(0x47) == Modify(SRE, Zp) && Decode(0x57) == Modify(SRE, ZpX)
    ensures Decode(0x4F) == Modify(SRE, Abs) && Decode(0x5F) == Modify(SRE, AbsX)
    ensures Decode(0x5B) == Modify(SRE, AbsY) && Decode(0x43) == Modify(SRE, IndX)
    ensures Decode(0x53) == Modify(SRE, IndY)
  {
  }

  predicate IsRraOps(op: u8)
  {
    op == 0x67 || op == 0x77 || op == 0x6F || op == 0x7F || op == 0x7B || op == 0x63 || op == 0x73
  }

  lemma RraOps()
    ensures Decode(0x67) == Modify(RRA, Zp) && Decode(0x77) == Modify(RRA, ZpX)
    ensures Decode(0x6F) == Modify(RRA, Abs) && Decode(0x7F) == Modify(RRA, AbsX)
    ensures Decode(0x7B) == Modify(RRA, AbsY) && Decode(0x63) == Modify(RRA, IndX)
    ensures Decode(0x73) == Modify(RRA, IndY)
  {
  }

  predicate IsAncs(op: u8)
  {
    op == 0x0B || op == 0x2B
  }

  lemma Ancs()
    ensures Decode(0x0B) == Load(ANC, Imm) && Decode(0x2B) == Load(ANC, Imm)
  {
  }

  predicate IsAlrs(op: u8)
  {
    op == 0x4B
  }

  lemma Alrs()
    ensures Decode(0x4B) == Load(ALR, Imm)
  {
  }

  predicate IsArrs(op: u8)
  {
    op == 0x6B
  }

  lemma Arrs()
    ensures Decode(0x6B) == Load(ARR, Imm)
  {
  }

  predicate IsImmediatesX(op: u8)
  {
    op == 0xCB
  }

  lemma ImmediatesX()
    ensures Decode(0xCB) == Load(AXS, Imm)
  {
  }

  predicate IsXaas(op: u8)
  {
    op == 0x8B
  }

  lemma Xaas()
    ensures Decode(0x8B) == Load(XAA, Imm)
  {
  }

  predicate IsLass(op: u8)
  {
    op == 0xBB
  }

  lemma Lass()
    ensures Decode(0xBB) == Load(LAS, AbsY)
  {
  }

  predicate IsUnstableStores(op: u8)
  {
    op == 0x9B || op == 0x9F || op == 0x93
  }

  lemma UnstableStores()
    ensures Decode(0x9B) == HighStore(TAS, AbsY) && Decode(0x9F) == HighStore(SHA, AbsY)
    ensures Decode(0x93) == HighStore(SHA, IndY)
  {
  }

  predicate IsUnstableIndexStores(op: u8)
  {
    op == 0x9E || op == 0x9C
  }

  lemma UnstableIndexStores()
    ensures Decode(0x9E) == HighStore(SHX, AbsY) && Decode(0x9C) == HighStore(SHY, AbsX)
  {
  }

  predicate IsJams(op: u8)
  {
    op == 0x02 || op == 0x12 || op == 0x22 || op == 0x32 || op == 0x42 || op == 0x52 || op == 0x62 || op == 0x72
    || op == 0x92 || op == 0xB2 || op == 0xD2 || op == 0xF2
  }

  lemma Jams()
    ensures Decode(0x02) == Jam && Decode(0x12) == Jam
    ensures Decode(0x22) == Jam && Decode(0x32) == Jam
    ensures Decode(0x42) == Jam && Decode(0x52) == Jam
    ensures Decode(0x62) == Jam && Decode(0x72) == Jam
    ensures Decode(0x92) == Jam && Decode(0xB2) == Jam
    ensures Decode(0xD2) == Jam && Decode(0xF2) == Jam
  {
  }

  lemma EveryOpcodeIsListed(op: u8)
    ensures IsLoadsA(op) || IsLoadsX(op) || IsLoadsY(op) || IsStoresA(op) || IsStoresAIndexed(op) || IsStoresXY(op)
      || IsTransfers(op) || IsStackOps(op) || IsAnds(op) || IsOrs(op) || IsXors(op) || IsBits(op) || IsAdditions(op)
      || IsSubtractions(op) || IsComparesA(op) || IsComparesX(op) || IsComparesY(op) || IsMemoryCounts(op)
      || IsRegisterCounts(op) || IsShiftsLeft(op) || IsShiftsRight(op) || IsRotatesLeft(op) || IsRotatesRight(op)
      || IsBranches(op) || IsJumps(op) || IsReturns(op) || IsFlagsCI(op) || IsFlagsVD(op) || IsShortNops(op)
      || IsMemoryNops(op) || IsLoadsAX(op) || IsLoadsAXIndexed(op) || IsLoadsLXA(op) || IsStoresAX(op) || IsDcpOps(op)
      || IsIscOps(op) || IsSloOps(op) || IsRlaOps(op) || IsSreOps(op) || IsRraOps(op) || IsAncs(op) || IsAlrs(op)
      || IsArrs(op) || IsImmediatesX(op) || IsXaas(op) || IsLass(op) || IsUnstableStores(op)
      || IsUnstableIndexStores(op) || IsJams(op)
  {
  }
}
