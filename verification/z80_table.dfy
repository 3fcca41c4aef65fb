/**
 * The instruction descriptor table `instSet` of src/cpu/z80a.cpp: 1792
 * entries in seven groups of 256, indexed by the decoded opcode byte plus
 * 0x100 times the group (main, CB, DD, ED, FD, DD CB, FD CB). Each entry
 * names its handler, the cycle count used when the handler returns true,
 * the count used when it returns false, and the instruction length.
 */
module Z80Table {

  /** The member functions an entry can point at, by their names in src/cpu/z80a.h. */
  datatype Handler =
      LDRR | LDiRR | LDRRi | LDRN | LDAiBC | LDAiDE | LDAiNN | LDiBCA | LDiDEA | LDiNNA | LDAI
    | LDAR | LDIA | LDRA | LDDDNN | LDHLiNN | LDDDiNN | LDIXiNN | LDIYiNN | LDiNNHL | LDiNNDD
    | LDiNNIX | LDiNNIY | LDSPHL | LDSPIX | LDSPIY | PUSHQQ | PUSHIX | PUSHIY | POPQQ | POPIX
    | POPIY | EXDEHL | EXAF | EXX | EXiSPHL | EXiSPIX | EXiSPIY | LDI | LDIR | LDD | LDDR | CPI
    | CPIR | CPD | CPDR | ADDR | ADDN | ADCR | ADCN | SUBR | SUBN | SBCR | SBCN | ANDR | ANDN
    | ORR | ORN | XORR | XORN | CPR | CPN | INCR | DECR | DAA | CPL | NEG | CCF | SCF | NOP
    | HALT | DI | EI | IM0 | IM1 | IM2 | ADDHLSS | ADCHLSS | SBCHLSS | ADDIXSS | ADDIYSS
    | INCSS | INCIX | INCIY | DECSS | DECIX | DECIY | RLCA | RLA | RRCA | RRA | RLCR | RLR
    | RRCR | RRR | SLAR | SRAR | SRLR | SLLR | RLD | RRD | BITBR | SETBR | RESBR | JPNN
    | JPCCNN | JRE | JRCE | JRNCE | JRZE | JRNZE | JPiHL | JPiIX | JPiIY | DJNZE | CALLNN
    | CALLCCNN | RET | RETCC | RETI | RETN | RSTP | INAiN | INRiC | INI | INIR | IND | INDR
    | OUTiNA | OUTiCR | OUTI | OTIR | OUTD | OTDR | INiC | OUTiC0 | UNDOC | INVAL

  /** An instruction is one to four bytes long. */
  type Length = n: bv8 | 1 <= n <= 4 witness 1

  /** `INSTRUCTION` without its mnemonic: handler, `cycles1`, `cycles2`, `lenght`. */
  datatype Instr = Instr(handler: Handler, cycles1: bv8, cycles2: bv8, length: Length)

  /** Group 0, main (no prefix): source lines 39-294. */
  function Group0(b: int): (e: Instr)
    requires 0 <= b < 256
    ensures e.length <= 3
  {
    match b
    case 0x00 => Instr(NOP, 4, 0, 1)
    case 0x01 => Instr(LDDDNN, 10, 0, 3)
    case 0x02 => Instr(LDiBCA, 7, 0, 1)
    case 0x03 => Instr(INCSS, 6, 0, 1)
    case 0x04 => Instr(INCR, 4, 0, 1)
    case 0x05 => Instr(DECR, 4, 0, 1)
    case 0x06 => Instr(LDRN, 7, 0, 2)
    case 0x07 => Instr(RLCA, 4, 0, 1)
    case 0x08 => Instr(EXAF, 4, 0, 1)
    case 0x09 => Instr(ADDHLSS, 11, 0, 1)
    case 0x0A => Instr(LDAiBC, 7, 0, 1)
    case 0x0B => Instr(DECSS, 6, 0, 1)
    case 0x0C => Instr(INCR, 4, 0, 1)
    case 0x0D => Instr(DECR, 4, 0, 1)
    case 0x0E => Instr(LDRN, 7, 0, 2)
    case 0x0F => Instr(RRCA, 4, 0, 1)
    case 0x10 => Instr(DJNZE, 13, 8, 2)
    case 0x11 => Instr(LDDDNN, 10, 0, 3)
    case 0x12 => Instr(LDiDEA, 7, 0, 1)
    case 0x13 => Instr(INCSS, 6, 0, 1)
    case 0x14 => Instr(INCR, 4, 0, 1)
    case 0x15 => Instr(DECR, 4, 0, 1)
    case 0x16 => Instr(LDRN, 7, 0, 2)
    case 0x17 => Instr(RLA, 4, 0, 1)
    case 0x18 => Instr(JRE, 12, 0, 2)
    case 0x19 => Instr(ADDHLSS, 11, 0, 1)
    case 0x1A => Instr(LDAiDE, 7, 0, 1)
    case 0x1B => Instr(DECSS, 6, 0, 1)
    case 0x1C => Instr(INCR, 4, 0, 1)
    case 0x1D => Instr(DECR, 4, 0, 1)
    case 0x1E => Instr(LDRN, 7, 0, 2)
    case 0x1F => Instr(RRA, 4, 0, 1)
    case 0x20 => Instr(JRNZE, 12, 7, 2)
    case 0x21 => Instr(LDDDNN, 10, 0, 3)
    case 0x22 => Instr(LDiNNHL, 16, 0, 3)
    case 0x23 => Instr(INCSS, 6, 0, 1)
    case 0x24 => Instr(INCR, 4, 0, 1)
    case 0x25 => Instr(DECR, 4, 0, 1)
    case 0x26 => Instr(LDRN, 7, 0, 2)
    case 0x27 => Instr(DAA, 4, 0, 1)
    case 0x28 => Instr(JRZE, 12, 7, 2)
    case 0x29 => Instr(ADDHLSS, 11, 0, 1)
    case 0x2A => Instr(LDHLiNN, 16, 0, 3)
    case 0x2B => Instr(DECSS, 6, 0, 1)
    case 0x2C => Instr(INCR, 4, 0, 1)
    case 0x2D => Instr(DECR, 4, 0, 1)
    case 0x2E => Instr(LDRN, 7, 0, 2)
    case 0x2F => Instr(CPL, 4, 0, 1)
    case 0x30 => Instr(JRNCE, 12, 7, 2)
    case 0x31 => Instr(LDDDNN, 10, 0, 3)
    case 0x32 => Instr(LDiNNA, 13, 0, 3)
    case 0x33 => Instr(INCSS, 6, 0, 1)
    case 0x34 => Instr(INCR, 11, 0, 1)
    case 0x35 => Instr(DECR, 11, 0, 1)
    case 0x36 => Instr(LDRN, 10, 0, 2)
    case 0x37 => Instr(SCF, 4, 0, 1)
    case 0x38 => Instr(JRCE, 12, 7, 2)
    case 0x39 => Instr(ADDHLSS, 11, 0, 1)
    case 0x3A => Instr(LDAiNN, 13, 0, 3)
    case 0x3B => Instr(DECSS, 6, 0, 1)
    case 0x3C => Instr(INCR, 4, 0, 1)
    case 0x3D => Instr(DECR, 4, 0, 1)
    case 0x3E => Instr(LDRN, 7, 0, 2)
    case 0x3F => Instr(CCF, 4, 0, 1)
    case 0x40 => Instr(LDRR, 4, 0, 1)
    case 0x41 => Instr(LDRR, 4, 0, 1)
    case 0x42 => Instr(LDRR, 4, 0, 1)
    case 0x43 => Instr(LDRR, 4, 0, 1)
    case 0x44 => Instr(LDRR, 4, 0, 1)
    case 0x45 => Instr(LDRR, 4, 0, 1)
    case 0x46 => Instr(LDRRi, 7, 0, 1)
    case 0x47 => Instr(LDRR, 4, 0, 1)
    case 0x48 => Instr(LDRR, 4, 0, 1)
    case 0x49 => Instr(LDRR, 4, 0, 1)
    case 0x4A => Instr(LDRR, 4, 0, 1)
    case 0x4B => Instr(LDRR, 4, 0, 1)
    case 0x4C => Instr(LDRR, 4, 0, 1)
    case 0x4D => Instr(LDRR, 4, 0, 1)
    case 0x4E => Instr(LDRRi, 7, 0, 1)
    case 0x4F => Instr(LDRR, 4, 0, 1)
    case 0x50 => Instr(LDRR, 4, 0, 1)
    case 0x51 => Instr(LDRR, 4, 0, 1)
    case 0x52 => Instr(LDRR, 4, 0, 1)
    case 0x53 => Instr(LDRR, 4, 0, 1)
    case 0x54 => Instr(LDRR, 4, 0, 1)
    case 0x55 => Instr(LDRR, 4, 0, 1)
    case 0x56 => Instr(LDRRi, 7, 0, 1)
    case 0x57 => Instr(LDRR, 4, 0, 1)
    case 0x58 => Instr(LDRR, 4, 0, 1)
    case 0x59 => Instr(LDRR, 4, 0, 1)
    case 0x5A => Instr(LDRR, 4, 0, 1)
    case 0x5B => Instr(LDRR, 4, 0, 1)
    case 0x5C => Instr(LDRR, 4, 0, 1)
    case 0x5D => Instr(LDRR, 4, 0, 1)
    case 0x5E => Instr(LDRRi, 7, 0, 1)
    case 0x5F => Instr(LDRR, 4, 0, 1)
    case 0x60 => Instr(LDRR, 4, 0, 1)
    case 0x61 => Instr(LDRR, 4, 0, 1)
    case 0x62 => Instr(LDRR, 4, 0, 1)
    case 0x63 => Instr(LDRR, 4, 0, 1)
    case 0x64 => Instr(LDRR, 4, 0, 1)
    case 0x65 => Instr(LDRR, 4, 0, 1)
    case 0x66 => Instr(LDRRi, 7, 0, 1)
    case 0x67 => Instr(LDRR, 4, 0, 1)
    case 0x68 => Instr(LDRR, 4, 0, 1)
    case 0x69 => Instr(LDRR, 4, 0, 1)
    case 0x6A => Instr(LDRR, 4, 0, 1)
    case 0x6B => Instr(LDRR, 4, 0, 1)
    case 0x6C => Instr(LDRR, 4, 0, 1)
    case 0x6D => Instr(LDRR, 4, 0, 1)
    case 0x6E => Instr(LDRRi, 7, 0, 1)
    case 0x6F => Instr(LDRR, 4, 0, 1)
    case 0x70 => Instr(LDiRR, 7, 0, 1)
    case 0x71 => Instr(LDiRR, 7, 0, 1)
    case 0x72 => Instr(LDiRR, 7, 0, 1)
    case 0x73 => Instr(LDiRR, 7, 0, 1)
    case 0x74 => Instr(LDiRR, 7, 0, 1)
    case 0x75 => Instr(LDiRR, 7, 0, 1)
    case 0x76 => Instr(HALT, 4, 0, 1)
    case 0x77 => Instr(LDiRR, 7, 0, 1)
    case 0x78 => Instr(LDRR, 4, 0, 1)
    case 0x79 => Instr(LDRR, 4, 0, 1)
    case 0x7A => Instr(LDRR, 4, 0, 1)
    case 0x7B => Instr(LDRR, 4, 0, 1)
    case 0x7C => Instr(LDRR, 4, 0, 1)
    case 0x7D => Instr(LDRR, 4, 0, 1)
    case 0x7E => Instr(LDRRi, 7, 0, 1)
    case 0x7F => Instr(LDRR, 4, 0, 1)
    case 0x80 => Instr(ADDR, 4, 0, 1)
    case 0x81 => Instr(ADDR, 4, 0, 1)
    case 0x82 => Instr(ADDR, 4, 0, 1)
    case 0x83 => Instr(ADDR, 4, 0, 1)
    case 0x84 => Instr(ADDR, 4, 0, 1)
    case 0x85 => Instr(ADDR, 4, 0, 1)
    case 0x86 => Instr(ADDR, 7, 0, 1)
    case 0x87 => Instr(ADDR, 4, 0, 1)
    case 0x88 => Instr(ADCR, 4, 0, 1)
    case 0x89 => Instr(ADCR, 4, 0, 1)
    case 0x8A => Instr(ADCR, 4, 0, 1)
    case 0x8B => Instr(ADCR, 4, 0, 1)
    case 0x8C => Instr(ADCR, 4, 0, 1)
    case 0x8D => Instr(ADCR, 4, 0, 1)
    case 0x8E => Instr(ADCR, 7, 0, 1)
    case 0x8F => Instr(ADCR, 4, 0, 1)
    case 0x90 => Instr(SUBR, 4, 0, 1)
    case 0x91 => Instr(SUBR, 4, 0, 1)
    case 0x92 => Instr(SUBR, 4, 0, 1)
    case 0x93 => Instr(SUBR, 4, 0, 1)
    case 0x94 => Instr(SUBR, 4, 0, 1)
    case 0x95 => Instr(SUBR, 4, 0, 1)
    case 0x96 => Instr(SUBR, 7, 0, 1)
    case 0x97 => Instr(SUBR, 4, 0, 1)
    case 0x98 => Instr(SBCR, 4, 0, 1)
    case 0x99 => Instr(SBCR, 4, 0, 1)
    case 0x9A => Instr(SBCR, 4, 0, 1)
    case 0x9B => Instr(SBCR, 4, 0, 1)
    case 0x9C => Instr(SBCR, 4, 0, 1)
    case 0x9D => Instr(SBCR, 4, 0, 1)
    case 0x9E => Instr(SBCR, 7, 0, 1)
    case 0x9F => Instr(SBCR, 4, 0, 1)
    case 0xA0 => Instr(ANDR, 4, 0, 1)
    case 0xA1 => Instr(ANDR, 4, 0, 1)
    case 0xA2 => Instr(ANDR, 4, 0, 1)
    case 0xA3 => Instr(ANDR, 4, 0, 1)
    case 0xA4 => Instr(ANDR, 4, 0, 1)
    case 0xA5 => Instr(ANDR, 4, 0, 1)
    case 0xA6 => Instr(ANDR, 7, 0, 1)
    case 0xA7 => Instr(ANDR, 4, 0, 1)
    case 0xA8 => Instr(XORR, 4, 0, 1)
    case 0xA9 => Instr(XORR, 4, 0, 1)
    case 0xAA => Instr(XORR, 4, 0, 1)
    case 0xAB => Instr(XORR, 4, 0, 1)
    case 0xAC => Instr(XORR, 4, 0, 1)
    case 0xAD => Instr(XORR, 4, 0, 1)
    case 0xAE => Instr(XORR, 7, 0, 1)
    case 0xAF => Instr(XORR, 4, 0, 1)
    case 0xB0 => Instr(ORR, 4, 0, 1)
    case 0xB1 => Instr(ORR, 4, 0, 1)
    case 0xB2 => Instr(ORR, 4, 0, 1)
    case 0xB3 => Instr(ORR, 4, 0, 1)
    case 0xB4 => Instr(ORR, 4, 0, 1)
    case 0xB5 => Instr(ORR, 4, 0, 1)
    case 0xB6 => Instr(ORR, 7, 0, 1)
    case 0xB7 => Instr(ORR, 4, 0, 1)
    case 0xB8 => Instr(CPR, 4, 0, 1)
    case 0xB9 => Instr(CPR, 4, 0, 1)
    case 0xBA => Instr(CPR, 4, 0, 1)
    case 0xBB => Instr(CPR, 4, 0, 1)
    case 0xBC => Instr(CPR, 4, 0, 1)
    case 0xBD => Instr(CPR, 4, 0, 1)
    case 0xBE => Instr(CPR, 7, 0, 1)
    case 0xBF => Instr(CPR, 4, 0, 1)
    case 0xC0 => Instr(RETCC, 11, 5, 1)
    case 0xC1 => Instr(POPQQ, 10, 0, 1)
    case 0xC2 => Instr(JPCCNN, 10, 0, 3)
    case 0xC3 => Instr(JPNN, 10, 0, 3)
    case 0xC4 => Instr(CALLCCNN, 17, 10, 3)
    case 0xC5 => Instr(PUSHQQ, 11, 0, 1)
    case 0xC6 => Instr(ADDN, 7, 0, 2)
    case 0xC7 => Instr(RSTP, 11, 0, 1)
    case 0xC8 => Instr(RETCC, 11, 5, 1)
    case 0xC9 => Instr(RET, 10, 0, 1)
    case 0xCA => Instr(JPCCNN, 10, 0, 3)
    case 0xCB => Instr(INVAL, 0, 0, 1)
    case 0xCC => Instr(CALLCCNN, 17, 10, 3)
    case 0xCD => Instr(CALLNN, 17, 0, 3)
    case 0xCE => Instr(ADCN, 7, 0, 2)
    case 0xCF => Instr(RSTP, 11, 0, 1)
    case 0xD0 => Instr(RETCC, 11, 5, 1)
    case 0xD1 => Instr(POPQQ, 10, 0, 1)
    case 0xD2 => Instr(JPCCNN, 10, 0, 3)
    case 0xD3 => Instr(OUTiNA, 11, 0, 2)
    case 0xD4 => Instr(CALLCCNN, 17, 10, 3)
    case 0xD5 => Instr(PUSHQQ, 11, 0, 1)
    case 0xD6 => Instr(SUBN, 7, 0, 2)
    case 0xD7 => Instr(RSTP, 11, 0, 1)
    case 0xD8 => Instr(RETCC, 11, 5, 1)
    case 0xD9 => Instr(EXX, 4, 0, 1)
    case 0xDA => Instr(JPCCNN, 10, 0, 3)
    case 0xDB => Instr(INAiN, 11, 0, 2)
    case 0xDC => Instr(CALLCCNN, 17, 10, 3)
    case 0xDD => Instr(INVAL, 0, 0, 1)
    case 0xDE => Instr(SBCN, 7, 0, 2)
    case 0xDF => Instr(RSTP, 11, 0, 1)
    case 0xE0 => Instr(RETCC, 11, 5, 1)
    case 0xE1 => Instr(POPQQ, 10, 0, 1)
    case 0xE2 => Instr(JPCCNN, 10, 0, 3)
    case 0xE3 => Instr(EXiSPHL, 19, 0, 1)
    case 0xE4 => Instr(CALLCCNN, 17, 10, 3)
    case 0xE5 => Instr(PUSHQQ, 11, 0, 1)
    case 0xE6 => Instr(ANDN, 7, 0, 2)
    case 0xE7 => Instr(RSTP, 11, 0, 1)
    case 0xE8 => Instr(RETCC, 11, 5, 1)
    case 0xE9 => Instr(JPiHL, 4, 0, 1)
    case 0xEA => Instr(JPCCNN, 10, 0, 3)
    case 0xEB => Instr(EXDEHL, 4, 0, 1)
    case 0xEC => Instr(CALLCCNN, 17, 10, 3)
    case 0xED => Instr(INVAL, 0, 0, 1)
    case 0xEE => Instr(XORN, 7, 0, 2)
    case 0xEF => Instr(RSTP, 11, 0, 1)
    case 0xF0 => Instr(RETCC, 11, 5, 1)
    case 0xF1 => Instr(POPQQ, 10, 0, 1)
    case 0xF2 => Instr(JPCCNN, 10, 0, 3)
    case 0xF3 => Instr(DI, 4, 0, 1)
    case 0xF4 => Instr(CALLCCNN, 17, 10, 3)
    case 0xF5 => Instr(PUSHQQ, 11, 0, 1)
    case 0xF6 => Instr(ORN, 7, 0, 2)
    case 0xF7 => Instr(RSTP, 11, 0, 1)
    case 0xF8 => Instr(RETCC, 11, 5, 1)
    case 0xF9 => Instr(LDSPHL, 6, 0, 1)
    case 0xFA => Instr(JPCCNN, 10, 0, 3)
    case 0xFB => Instr(EI, 4, 0, 1)
    case 0xFC => Instr(CALLCCNN, 17, 10, 3)
    case 0xFD => Instr(INVAL, 0, 0, 1)
    case 0xFE => Instr(CPN, 7, 0, 2)
    case _ => Instr(RSTP, 11, 0, 1)
  }

  /** Group 1, CB prefix: source lines 297-552. */
  function Group1(b: int): (e: Instr)
    requires 0 <= b < 256
    ensures e.length == 2 && 8 <= e.cycles1 && e.cycles2 == 0
  {
    match b
    case 0x00 => Instr(RLCR, 8, 0, 2)
    case 0x01 => Instr(RLCR, 8, 0, 2)
    case 0x02 => Instr(RLCR, 8, 0, 2)
    case 0x03 => Instr(RLCR, 8, 0, 2)
    case 0x04 => Instr(RLCR, 8, 0, 2)
    case 0x05 => Instr(RLCR, 8, 0, 2)
    case 0x06 => Instr(RLCR, 15, 0, 2)
    case 0x07 => Instr(RLCR, 8, 0, 2)
    case 0x08 => Instr(RRCR, 8, 0, 2)
    case 0x09 => Instr(RRCR, 8, 0, 2)
    case 0x0A => Instr(RRCR, 8, 0, 2)
    case 0x0B => Instr(RRCR, 8, 0, 2)
    case 0x0C => Instr(RRCR, 8, 0, 2)
    case 0x0D => Instr(RRCR, 8, 0, 2)
    case 0x0E => Instr(RRCR, 15, 0, 2)
    case 0x0F => Instr(RRCR, 8, 0, 2)
    case 0x10 => Instr(RLR, 8, 0, 2)
    case 0x11 => Instr(RLR, 8, 0, 2)
    case 0x12 => Instr(RLR, 8, 0, 2)
    case 0x13 => Instr(RLR, 8, 0, 2)
    case 0x14 => Instr(RLR, 8, 0, 2)
    case 0x15 => Instr(RLR, 8, 0, 2)
    case 0x16 => Instr(RLR, 15, 0, 2)
    case 0x17 => Instr(RLR, 8, 0, 2)
    case 0x18 => Instr(RRR, 8, 0, 2)
    case 0x19 => Instr(RRR, 8, 0, 2)
    case 0x1A => Instr(RRR, 8, 0, 2)
    case 0x1B => Instr(RRR, 8, 0, 2)
    case 0x1C => Instr(RRR, 8, 0, 2)
    case 0x1D => Instr(RRR, 8, 0, 2)
    case 0x1E => Instr(RRR, 15, 0, 2)
    case 0x1F => Instr(RRR, 8, 0, 2)
    case 0x20 => Instr(SLAR, 8, 0, 2)
    case 0x21 => Instr(SLAR, 8, 0, 2)
    case 0x22 => Instr(SLAR, 8, 0, 2)
    case 0x23 => Instr(SLAR, 8, 0, 2)
    case 0x24 => Instr(SLAR, 8, 0, 2)
    case 0x25 => Instr(SLAR, 8, 0, 2)
    case 0x26 => Instr(SLAR, 15, 0, 2)
    case 0x27 => Instr(SLAR, 8, 0, 2)
    case 0x28 => Instr(SRAR, 8, 0, 2)
    case 0x29 => Instr(SRAR, 8, 0, 2)
    case 0x2A => Instr(SRAR, 8, 0, 2)
    case 0x2B => Instr(SRAR, 8, 0, 2)
    case 0x2C => Instr(SRAR, 8, 0, 2)
    case 0x2D => Instr(SRAR, 8, 0, 2)
    case 0x2E => Instr(SRAR, 15, 0, 2)
    case 0x2F => Instr(SRAR, 8, 0, 2)
    case 0x30 => Instr(SLLR, 8, 0, 2)
    case 0x31 => Instr(SLLR, 8, 0, 2)
    case 0x32 => Instr(SLLR, 8, 0, 2)
    case 0x33 => Instr(SLLR, 8, 0, 2)
    case 0x34 => Instr(SLLR, 8, 0, 2)
    case 0x35 => Instr(SLLR, 8, 0, 2)
    case 0x36 => Instr(SLLR, 15, 0, 2)
    case 0x37 => Instr(SLLR, 8, 0, 2)
    case 0x38 => Instr(SRLR, 8, 0, 2)
    case 0x39 => Instr(SRLR, 8, 0, 2)
    case 0x3A => Instr(SRLR, 8, 0, 2)
    case 0x3B => Instr(SRLR, 8, 0, 2)
    case 0x3C => Instr(SRLR, 8, 0, 2)
    case 0x3D => Instr(SRLR, 8, 0, 2)
    case 0x3E => Instr(SRLR, 15, 0, 2)
    case 0x3F => Instr(SRLR, 8, 0, 2)
    case 0x40 => Instr(BITBR, 8, 0, 2)
    case 0x41 => Instr(BITBR, 8, 0, 2)
    case 0x42 => Instr(BITBR, 8, 0, 2)
    case 0x43 => Instr(BITBR, 8, 0, 2)
    case 0x44 => Instr(BITBR, 8, 0, 2)
    case 0x45 => Instr(BITBR, 8, 0, 2)
    case 0x46 => Instr(BITBR, 12, 0, 2)
    case 0x47 => Instr(BITBR, 8, 0, 2)
    case 0x48 => Instr(BITBR, 8, 0, 2)
    case 0x49 => Instr(BITBR, 8, 0, 2)
    case 0x4A => Instr(BITBR, 8, 0, 2)
    case 0x4B => Instr(BITBR, 8, 0, 2)
    case 0x4C => Instr(BITBR, 8, 0, 2)
    case 0x4D => Instr(BITBR, 8, 0, 2)
    case 0x4E => Instr(BITBR, 12, 0, 2)
    case 0x4F => Instr(BITBR, 8, 0, 2)
    case 0x50 => Instr(BITBR, 8, 0, 2)
    case 0x51 => Instr(BITBR, 8, 0, 2)
    case 0x52 => Instr(BITBR, 8, 0, 2)
    case 0x53 => Instr(BITBR, 8, 0, 2)
    case 0x54 => Instr(BITBR, 8, 0, 2)
    case 0x55 => Instr(BITBR, 8, 0, 2)
    case 0x56 => Instr(BITBR, 12, 0, 2)
    case 0x57 => Instr(BITBR, 8, 0, 2)
    case 0x58 => Instr(BITBR, 8, 0, 2)
    case 0x59 => Instr(BITBR, 8, 0, 2)
    case 0x5A => Instr(BITBR, 8, 0, 2)
    case 0x5B => Instr(BITBR, 8, 0, 2)
    case 0x5C => Instr(BITBR, 8, 0, 2)
    case 0x5D => Instr(BITBR, 8, 0, 2)
    case 0x5E => Instr(BITBR, 12, 0, 2)
    case 0x5F => Instr(BITBR, 8, 0, 2)
    case 0x60 => Instr(BITBR, 8, 0, 2)
    case 0x61 => Instr(BITBR, 8, 0, 2)
    case 0x62 => Instr(BITBR, 8, 0, 2)
    case 0x63 => Instr(BITBR, 8, 0, 2)
    case 0x64 => Instr(BITBR, 8, 0, 2)
    case 0x65 => Instr(BITBR, 8, 0, 2)
    case 0x66 => Instr(BITBR, 12, 0, 2)
    case 0x67 => Instr(BITBR, 8, 0, 2)
    case 0x68 => Instr(BITBR, 8, 0, 2)
    case 0x69 => Instr(BITBR, 8, 0, 2)
    case 0x6A => Instr(BITBR, 8, 0, 2)
    case 0x6B => Instr(BITBR, 8, 0, 2)
    case 0x6C => Instr(BITBR, 8, 0, 2)
    case 0x6D => Instr(BITBR, 8, 0, 2)
    case 0x6E => Instr(BITBR, 12, 0, 2)
    case 0x6F => Instr(BITBR, 8, 0, 2)
    case 0x70 => Instr(BITBR, 8, 0, 2)
    case 0x71 => Instr(BITBR, 8, 0, 2)
    case 0x72 => Instr(BITBR, 8, 0, 2)
    case 0x73 => Instr(BITBR, 8, 0, 2)
    case 0x74 => Instr(BITBR, 8, 0, 2)
    case 0x75 => Instr(BITBR, 8, 0, 2)
    case 0x76 => Instr(BITBR, 12, 0, 2)
    case 0x77 => Instr(BITBR, 8, 0, 2)
    case 0x78 => Instr(BITBR, 8, 0, 2)
    case 0x79 => Instr(BITBR, 8, 0, 2)
    case 0x7A => Instr(BITBR, 8, 0, 2)
    case 0x7B => Instr(BITBR, 8, 0, 2)
    case 0x7C => Instr(BITBR, 8, 0, 2)
    case 0x7D => Instr(BITBR, 8, 0, 2)
    case 0x7E => Instr(BITBR, 12, 0, 2)
    case 0x7F => Instr(BITBR, 8, 0, 2)
    case 0x80 => Instr(RESBR, 8, 0, 2)
    case 0x81 => Instr(RESBR, 8, 0, 2)
    case 0x82 => Instr(RESBR, 8, 0, 2)
    case 0x83 => Instr(RESBR, 8, 0, 2)
    case 0x84 => Instr(RESBR, 8, 0, 2)
    case 0x85 => Instr(RESBR, 8, 0, 2)
    case 0x86 => Instr(RESBR, 15, 0, 2)
    case 0x87 => Instr(RESBR, 8, 0, 2)
    case 0x88 => Instr(RESBR, 8, 0, 2)
    case 0x89 => Instr(RESBR, 8, 0, 2)
    case 0x8A => Instr(RESBR, 8, 0, 2)
    case 0x8B => Instr(RESBR, 8, 0, 2)
    case 0x8C => Instr(RESBR, 8, 0, 2)
    case 0x8D => Instr(RESBR, 8, 0, 2)
    case 0x8E => Instr(RESBR, 15, 0, 2)
    case 0x8F => Instr(RESBR, 8, 0, 2)
    case 0x90 => Instr(RESBR, 8, 0, 2)
    case 0x91 => Instr(RESBR, 8, 0, 2)
    case 0x92 => Instr(RESBR, 8, 0, 2)
    case 0x93 => Instr(RESBR, 8, 0, 2)
    case 0x94 => Instr(RESBR, 8, 0, 2)
    case 0x95 => Instr(RESBR, 8, 0, 2)
    case 0x96 => Instr(RESBR, 15, 0, 2)
    case 0x97 => Instr(RESBR, 8, 0, 2)
    case 0x98 => Instr(RESBR, 8, 0, 2)
    case 0x99 => Instr(RESBR, 8, 0, 2)
    case 0x9A => Instr(RESBR, 8, 0, 2)
    case 0x9B => Instr(RESBR, 8, 0, 2)
    case 0x9C => Instr(RESBR, 8, 0, 2)
    case 0x9D => Instr(RESBR, 8, 0, 2)
    case 0x9E => Instr(RESBR, 15, 0, 2)
    case 0x9F => Instr(RESBR, 8, 0, 2)
    case 0xA0 => Instr(RESBR, 8, 0, 2)
    case 0xA1 => Instr(RESBR, 8, 0, 2)
    case 0xA2 => Instr(RESBR, 8, 0, 2)
    case 0xA3 => Instr(RESBR, 8, 0, 2)
    case 0xA4 => Instr(RESBR, 8, 0, 2)
    case 0xA5 => Instr(RESBR, 8, 0, 2)
    case 0xA6 => Instr(RESBR, 15, 0, 2)
    case 0xA7 => Instr(RESBR, 8, 0, 2)
    case 0xA8 => Instr(RESBR, 8, 0, 2)
    case 0xA9 => Instr(RESBR, 8, 0, 2)
    case 0xAA => Instr(RESBR, 8, 0, 2)
    case 0xAB => Instr(RESBR, 8, 0, 2)
    case 0xAC => Instr(RESBR, 8, 0, 2)
    case 0xAD => Instr(RESBR, 8, 0, 2)
    case 0xAE => Instr(RESBR, 15, 0, 2)
    case 0xAF => Instr(RESBR, 8, 0, 2)
    case 0xB0 => Instr(RESBR, 8, 0, 2)
    case 0xB1 => Instr(RESBR, 8, 0, 2)
    case 0xB2 => Instr(RESBR, 8, 0, 2)
    case 0xB3 => Instr(RESBR, 8, 0, 2)
    case 0xB4 => Instr(RESBR, 8, 0, 2)
    case 0xB5 => Instr(RESBR, 8, 0, 2)
    case 0xB6 => Instr(RESBR, 15, 0, 2)
    case 0xB7 => Instr(RESBR, 8, 0, 2)
    case 0xB8 => Instr(RESBR, 8, 0, 2)
    case 0xB9 => Instr(RESBR, 8, 0, 2)
    case 0xBA => Instr(RESBR, 8, 0, 2)
    case 0xBB => Instr(RESBR, 8, 0, 2)
    case 0xBC => Instr(RESBR, 8, 0, 2)
    case 0xBD => Instr(RESBR, 8, 0, 2)
    case 0xBE => Instr(RESBR, 15, 0, 2)
    case 0xBF => Instr(RESBR, 8, 0, 2)
    case 0xC0 => Instr(SETBR, 8, 0, 2)
    case 0xC1 => Instr(SETBR, 8, 0, 2)
    case 0xC2 => Instr(SETBR, 8, 0, 2)
    case 0xC3 => Instr(SETBR, 8, 0, 2)
    case 0xC4 => Instr(SETBR, 8, 0, 2)
    case 0xC5 => Instr(SETBR, 8, 0, 2)
    case 0xC6 => Instr(SETBR, 15, 0, 2)
    case 0xC7 => Instr(SETBR, 8, 0, 2)
    case 0xC8 => Instr(SETBR, 8, 0, 2)
    case 0xC9 => Instr(SETBR, 8, 0, 2)
    case 0xCA => Instr(SETBR, 8, 0, 2)
    case 0xCB => Instr(SETBR, 8, 0, 2)
    case 0xCC => Instr(SETBR, 8, 0, 2)
    case 0xCD => Instr(SETBR, 8, 0, 2)
    case 0xCE => Instr(SETBR, 15, 0, 2)
    case 0xCF => Instr(SETBR, 8, 0, 2)
    case 0xD0 => Instr(SETBR, 8, 0, 2)
    case 0xD1 => Instr(SETBR, 8, 0, 2)
    case 0xD2 => Instr(SETBR, 8, 0, 2)
    case 0xD3 => Instr(SETBR, 8, 0, 2)
    case 0xD4 => Instr(SETBR, 8, 0, 2)
    case 0xD5 => Instr(SETBR, 8, 0, 2)
    case 0xD6 => Instr(SETBR, 15, 0, 2)
    case 0xD7 => Instr(SETBR, 8, 0, 2)
    case 0xD8 => Instr(SETBR, 8, 0, 2)
    case 0xD9 => Instr(SETBR, 8, 0, 2)
    case 0xDA => Instr(SETBR, 8, 0, 2)
    case 0xDB => Instr(SETBR, 8, 0, 2)
    case 0xDC => Instr(SETBR, 8, 0, 2)
    case 0xDD => Instr(SETBR, 8, 0, 2)
    case 0xDE => Instr(SETBR, 15, 0, 2)
    case 0xDF => Instr(SETBR, 8, 0, 2)
    case 0xE0 => Instr(SETBR, 8, 0, 2)
    case 0xE1 => Instr(SETBR, 8, 0, 2)
    case 0xE2 => Instr(SETBR, 8, 0, 2)
    case 0xE3 => Instr(SETBR, 8, 0, 2)
    case 0xE4 => Instr(SETBR, 8, 0, 2)
    case 0xE5 => Instr(SETBR, 8, 0, 2)
    case 0xE6 => Instr(SETBR, 15, 0, 2)
    case 0xE7 => Instr(SETBR, 8, 0, 2)
    case 0xE8 => Instr(SETBR, 8, 0, 2)
    case 0xE9 => Instr(SETBR, 8, 0, 2)
    case 0xEA => Instr(SETBR, 8, 0, 2)
    case 0xEB => Instr(SETBR, 8, 0, 2)
    case 0xEC => Instr(SETBR, 8, 0, 2)
    case 0xED => Instr(SETBR, 8, 0, 2)
    case 0xEE => Instr(SETBR, 15, 0, 2)
    case 0xEF => Instr(SETBR, 8, 0, 2)
    case 0xF0 => Instr(SETBR, 8, 0, 2)
    case 0xF1 => Instr(SETBR, 8, 0, 2)
    case 0xF2 => Instr(SETBR, 8, 0, 2)
    case 0xF3 => Instr(SETBR, 8, 0, 2)
    case 0xF4 => Instr(SETBR, 8, 0, 2)
    case 0xF5 => Instr(SETBR, 8, 0, 2)
    case 0xF6 => Instr(SETBR, 15, 0, 2)
    case 0xF7 => Instr(SETBR, 8, 0, 2)
    case 0xF8 => Instr(SETBR, 8, 0, 2)
    case 0xF9 => Instr(SETBR, 8, 0, 2)
    case 0xFA => Instr(SETBR, 8, 0, 2)
    case 0xFB => Instr(SETBR, 8, 0, 2)
    case 0xFC => Instr(SETBR, 8, 0, 2)
    case 0xFD => Instr(SETBR, 8, 0, 2)
    case 0xFE => Instr(SETBR, 15, 0, 2)
    case _ => Instr(SETBR, 8, 0, 2)
  }

  /** Group 2, DD prefix: source lines 555-810. */
  function Group2(b: int): (e: Instr)
    requires 0 <= b < 256
    ensures 2 <= e.length && e.cycles2 == 0
  {
    match b
    case 0x00 => Instr(INVAL, 0, 0, 2)
    case 0x01 => Instr(INVAL, 0, 0, 2)
    case 0x02 => Instr(INVAL, 0, 0, 2)
    case 0x03 => Instr(INVAL, 0, 0, 2)
    case 0x04 => Instr(INVAL, 0, 0, 2)
    case 0x05 => Instr(INVAL, 0, 0, 2)
    case 0x06 => Instr(INVAL, 0, 0, 2)
    case 0x07 => Instr(INVAL, 0, 0, 2)
    case 0x08 => Instr(INVAL, 0, 0, 2)
    case 0x09 => Instr(ADDIXSS, 15, 0, 2)
    case 0x0A => Instr(INVAL, 0, 0, 2)
    case 0x0B => Instr(INVAL, 0, 0, 2)
    case 0x0C => Instr(INVAL, 0, 0, 2)
    case 0x0D => Instr(INVAL, 0, 0, 2)
    case 0x0E => Instr(INVAL, 0, 0, 2)
    case 0x0F => Instr(INVAL, 0, 0, 2)
    case 0x10 => Instr(INVAL, 0, 0, 2)
    case 0x11 => Instr(INVAL, 0, 0, 2)
    case 0x12 => Instr(INVAL, 0, 0, 2)
    case 0x13 => Instr(INVAL, 0, 0, 2)
    case 0x14 => Instr(INVAL, 0, 0, 2)
    case 0x15 => Instr(INVAL, 0, 0, 2)
    case 0x16 => Instr(INVAL, 0, 0, 2)
    case 0x17 => Instr(INVAL, 0, 0, 2)
    case 0x18 => Instr(INVAL, 0, 0, 2)
    case 0x19 => Instr(ADDIXSS, 15, 0, 2)
    case 0x1A => Instr(INVAL, 0, 0, 2)
    case 0x1B => Instr(INVAL, 0, 0, 2)
    case 0x1C => Instr(INVAL, 0, 0, 2)
    case 0x1D => Instr(INVAL, 0, 0, 2)
    case 0x1E => Instr(INVAL, 0, 0, 2)
    case 0x1F => Instr(INVAL, 0, 0, 2)
    case 0x20 => Instr(INVAL, 0, 0, 2)
    case 0x21 => Instr(LDDDNN, 14, 0, 4)
    case 0x22 => Instr(LDiNNIX, 20, 0, 4)
    case 0x23 => Instr(INCIX, 10, 0, 2)
    case 0x24 => Instr(INCR, 8, 0, 2)
    case 0x25 => Instr(DECR, 8, 0, 2)
    case 0x26 => Instr(LDRN, 11, 0, 3)
    case 0x27 => Instr(INVAL, 0, 0, 2)
    case 0x28 => Instr(INVAL, 0, 0, 2)
    case 0x29 => Instr(ADDIXSS, 15, 0, 2)
    case 0x2A => Instr(LDIXiNN, 20, 0, 4)
    case 0x2B => Instr(DECIX, 10, 0, 2)
    case 0x2C => Instr(INCR, 8, 0, 2)
    case 0x2D => Instr(DECR, 8, 0, 2)
    case 0x2E => Instr(LDRN, 11, 0, 3)
    case 0x2F => Instr(INVAL, 0, 0, 2)
    case 0x30 => Instr(INVAL, 0, 0, 2)
    case 0x31 => Instr(INVAL, 0, 0, 2)
    case 0x32 => Instr(INVAL, 0, 0, 2)
    case 0x33 => Instr(INVAL, 0, 0, 2)
    case 0x34 => Instr(INCR, 23, 0, 3)
    case 0x35 => Instr(DECR, 23, 0, 3)
    case 0x36 => Instr(LDRN, 19, 0, 4)
    case 0x37 => Instr(INVAL, 0, 0, 2)
    case 0x38 => Instr(INVAL, 0, 0, 2)
    case 0x39 => Instr(ADDIXSS, 15, 0, 2)
    case 0x3A => Instr(INVAL, 0, 0, 2)
    case 0x3B => Instr(INVAL, 0, 0, 2)
    case 0x3C => Instr(INVAL, 0, 0, 2)
    case 0x3D => Instr(INVAL, 0, 0, 2)
    case 0x3E => Instr(INVAL, 0, 0, 2)
    case 0x3F => Instr(INVAL, 0, 0, 2)
    case 0x40 => Instr(LDRR, 8, 0, 2)
    case 0x41 => Instr(LDRR, 8, 0, 2)
    case 0x42 => Instr(LDRR, 8, 0, 2)
    case 0x43 => Instr(LDRR, 8, 0, 2)
    case 0x44 => Instr(LDRR, 8, 0, 2)
    case 0x45 => Instr(LDRR, 8, 0, 2)
    case 0x46 => Instr(LDRRi, 19, 0, 3)
    case 0x47 => Instr(LDRR, 8, 0, 2)
    case 0x48 => Instr(LDRR, 8, 0, 2)
    case 0x49 => Instr(LDRR, 8, 0, 2)
    case 0x4A => Instr(LDRR, 8, 0, 2)
    case 0x4B => Instr(LDRR, 8, 0, 2)
    case 0x4C => Instr(LDRR, 8, 0, 2)
    case 0x4D => Instr(LDRR, 8, 0, 2)
    case 0x4E => Instr(LDRRi, 19, 0, 3)
    case 0x4F => Instr(LDRR, 8, 0, 2)
    case 0x50 => Instr(LDRR, 8, 0, 2)
    case 0x51 => Instr(LDRR, 8, 0, 2)
    case 0x52 => Instr(LDRR, 8, 0, 2)
    case 0x53 => Instr(LDRR, 8, 0, 2)
    case 0x54 => Instr(LDRR, 8, 0, 2)
    case 0x55 => Instr(LDRR, 8, 0, 2)
    case 0x56 => Instr(LDRRi, 19, 0, 3)
    case 0x57 => Instr(LDRR, 8, 0, 2)
    case 0x58 => Instr(LDRR, 8, 0, 2)
    case 0x59 => Instr(LDRR, 8, 0, 2)
    case 0x5A => Instr(LDRR, 8, 0, 2)
    case 0x5B => Instr(LDRR, 8, 0, 2)
    case 0x5C => Instr(LDRR, 8, 0, 2)
    case 0x5D => Instr(LDRR, 8, 0, 2)
    case 0x5E => Instr(LDRRi, 19, 0, 3)
    case 0x5F => Instr(LDRR, 8, 0, 2)
    case 0x60 => Instr(LDRR, 8, 0, 2)
    case 0x61 => Instr(LDRR, 8, 0, 2)
    case 0x62 => Instr(LDRR, 8, 0, 2)
    case 0x63 => Instr(LDRR, 8, 0, 2)
    case 0x64 => Instr(LDRR, 8, 0, 2)
    case 0x65 => Instr(LDRR, 8, 0, 2)
    case 0x66 => Instr(LDRRi, 19, 0, 3)
    case 0x67 => Instr(LDRR, 8, 0, 2)
    case 0x68 => Instr(LDRR, 8, 0, 2)
    case 0x69 => Instr(LDRR, 8, 0, 2)
    case 0x6A => Instr(LDRR, 8, 0, 2)
    case 0x6B => Instr(LDRR, 8, 0, 2)
    case 0x6C => Instr(LDRR, 8, 0, 2)
    case 0x6D => Instr(LDRR, 8, 0, 2)
    case 0x6E => Instr(LDRRi, 19, 0, 3)
    case 0x6F => Instr(LDRR, 8, 0, 2)
    case 0x70 => Instr(LDiRR, 19, 0, 3)
    case 0x71 => Instr(LDiRR, 19, 0, 3)
    case 0x72 => Instr(LDiRR, 19, 0, 3)
    case 0x73 => Instr(LDiRR, 19, 0, 3)
    case 0x74 => Instr(LDiRR, 19, 0, 3)
    case 0x75 => Instr(LDiRR, 19, 0, 3)
    case 0x76 => Instr(HALT, 8, 0, 2)
    case 0x77 => Instr(LDiRR, 19, 0, 3)
    case 0x78 => Instr(LDRR, 8, 0, 2)
    case 0x79 => Instr(LDRR, 8, 0, 2)
    case 0x7A => Instr(LDRR, 8, 0, 2)
    case 0x7B => Instr(LDRR, 8, 0, 2)
    case 0x7C => Instr(LDRR, 8, 0, 2)
    case 0x7D => Instr(LDRR, 8, 0, 2)
    case 0x7E => Instr(LDRRi, 19, 0, 3)
    case 0x7F => Instr(LDRR, 8, 0, 2)
    case 0x80 => Instr(ADDR, 8, 0, 2)
    case 0x81 => Instr(ADDR, 8, 0, 2)
    case 0x82 => Instr(ADDR, 8, 0, 2)
    case 0x83 => Instr(ADDR, 8, 0, 2)
    case 0x84 => Instr(ADDR, 8, 0, 2)
    case 0x85 => Instr(ADDR, 8, 0, 2)
    case 0x86 => Instr(ADDR, 19, 0, 3)
    case 0x87 => Instr(ADDR, 8, 0, 2)
    case 0x88 => Instr(ADCR, 8, 0, 2)
    case 0x89 => Instr(ADCR, 8, 0, 2)
    case 0x8A => Instr(ADCR, 8, 0, 2)
    case 0x8B => Instr(ADCR, 8, 0, 2)
    case 0x8C => Instr(ADCR, 8, 0, 2)
    case 0x8D => Instr(ADCR, 8, 0, 2)
    case 0x8E => Instr(ADCR, 19, 0, 3)
    case 0x8F => Instr(ADCR, 8, 0, 2)
    case 0x90 => Instr(SUBR, 8, 0, 2)
    case 0x91 => Instr(SUBR, 8, 0, 2)
    case 0x92 => Instr(SUBR, 8, 0, 2)
    case 0x93 => Instr(SUBR, 8, 0, 2)
    case 0x94 => Instr(SUBR, 8, 0, 2)
    case 0x95 => Instr(SUBR, 8, 0, 2)
    case 0x96 => Instr(SUBR, 19, 0, 3)
    case 0x97 => Instr(SUBR, 8, 0, 2)
    case 0x98 => Instr(SBCR, 8, 0, 2)
    case 0x99 => Instr(SBCR, 8, 0, 2)
    case 0x9A => Instr(SBCR, 8, 0, 2)
    case 0x9B => Instr(SBCR, 8, 0, 2)
    case 0x9C => Instr(SBCR, 8, 0, 2)
    case 0x9D => Instr(SBCR, 8, 0, 2)
    case 0x9E => Instr(SBCR, 19, 0, 3)
    case 0x9F => Instr(SBCR, 8, 0, 2)
    case 0xA0 => Instr(ANDR, 8, 0, 2)
    case 0xA1 => Instr(ANDR, 8, 0, 2)
    case 0xA2 => Instr(ANDR, 8, 0, 2)
    case 0xA3 => Instr(ANDR, 8, 0, 2)
    case 0xA4 => Instr(ANDR, 8, 0, 2)
    case 0xA5 => Instr(ANDR, 8, 0, 2)
    case 0xA6 => Instr(ANDR, 19, 0, 3)
    case 0xA7 => Instr(ANDR, 8, 0, 2)
    case 0xA8 => Instr(XORR, 8, 0, 2)
    case 0xA9 => Instr(XORR, 8, 0, 2)
    case 0xAA => Instr(XORR, 8, 0, 2)
    case 0xAB => Instr(XORR, 8, 0, 2)
    case 0xAC => Instr(XORR, 8, 0, 2)
    case 0xAD => Instr(XORR, 8, 0, 2)
    case 0xAE => Instr(XORR, 19, 0, 3)
    case 0xAF => Instr(XORR, 8, 0, 2)
    case 0xB0 => Instr(ORR, 8, 0, 2)
    case 0xB1 => Instr(ORR, 8, 0, 2)
    case 0xB2 => Instr(ORR, 8, 0, 2)
    case 0xB3 => Instr(ORR, 8, 0, 2)
    case 0xB4 => Instr(ORR, 8, 0, 2)
    case 0xB5 => Instr(ORR, 8, 0, 2)
    case 0xB6 => Instr(ORR, 19, 0, 3)
    case 0xB7 => Instr(ORR, 8, 0, 2)
    case 0xB8 => Instr(CPR, 8, 0, 2)
    case 0xB9 => Instr(CPR, 8, 0, 2)
    case 0xBA => Instr(CPR, 8, 0, 2)
    case 0xBB => Instr(CPR, 8, 0, 2)
    case 0xBC => Instr(CPR, 8, 0, 2)
    case 0xBD => Instr(CPR, 8, 0, 2)
    case 0xBE => Instr(CPR, 19, 0, 3)
    case 0xBF => Instr(CPR, 8, 0, 2)
    case 0xC0 => Instr(INVAL, 0, 0, 2)
    case 0xC1 => Instr(INVAL, 0, 0, 2)
    case 0xC2 => Instr(INVAL, 0, 0, 2)
    case 0xC3 => Instr(INVAL, 0, 0, 2)
    case 0xC4 => Instr(INVAL, 0, 0, 2)
    case 0xC5 => Instr(INVAL, 0, 0, 2)
    case 0xC6 => Instr(INVAL, 0, 0, 2)
    case 0xC7 => Instr(INVAL, 0, 0, 2)
    case 0xC8 => Instr(INVAL, 0, 0, 2)
    case 0xC9 => Instr(INVAL, 0, 0, 2)
    case 0xCA => Instr(INVAL, 0, 0, 2)
    case 0xCB => Instr(INVAL, 0, 0, 2)
    case 0xCC => Instr(INVAL, 0, 0, 2)
    case 0xCD => Instr(INVAL, 0, 0, 2)
    case 0xCE => Instr(INVAL, 0, 0, 2)
    case 0xCF => Instr(INVAL, 0, 0, 2)
    case 0xD0 => Instr(INVAL, 0, 0, 2)
    case 0xD1 => Instr(INVAL, 0, 0, 2)
    case 0xD2 => Instr(INVAL, 0, 0, 2)
    case 0xD3 => Instr(INVAL, 0, 0, 2)
    case 0xD4 => Instr(INVAL, 0, 0, 2)
    case 0xD5 => Instr(INVAL, 0, 0, 2)
    case 0xD6 => Instr(INVAL, 0, 0, 2)
    case 0xD7 => Instr(INVAL, 0, 0, 2)
    case 0xD8 => Instr(INVAL, 0, 0, 2)
    case 0xD9 => Instr(INVAL, 0, 0, 2)
    case 0xDA => Instr(INVAL, 0, 0, 2)
    case 0xDB => Instr(INVAL, 0, 0, 2)
    case 0xDC => Instr(INVAL, 0, 0, 2)
    case 0xDD => Instr(INVAL, 0, 0, 2)
    case 0xDE => Instr(INVAL, 0, 0, 2)
    case 0xDF => Instr(INVAL, 0, 0, 2)
    case 0xE0 => Instr(INVAL, 0, 0, 2)
    case 0xE1 => Instr(POPIX, 14, 0, 2)
    case 0xE2 => Instr(INVAL, 0, 0, 2)
    case 0xE3 => Instr(EXiSPIX, 23, 0, 2)
    case 0xE4 => Instr(INVAL, 0, 0, 2)
    case 0xE5 => Instr(PUSHIX, 15, 0, 2)
    case 0xE6 => Instr(INVAL, 0, 0, 2)
    case 0xE7 => Instr(INVAL, 0, 0, 2)
    case 0xE8 => Instr(INVAL, 0, 0, 2)
    case 0xE9 => Instr(JPiIX, 8, 0, 2)
    case 0xEA => Instr(INVAL, 0, 0, 2)
    case 0xEB => Instr(INVAL, 0, 0, 2)
    case 0xEC => Instr(INVAL, 0, 0, 2)
    case 0xED => Instr(INVAL, 0, 0, 2)
    case 0xEE => Instr(INVAL, 0, 0, 2)
    case 0xEF => Instr(INVAL, 0, 0, 2)
    case 0xF0 => Instr(INVAL, 0, 0, 2)
    case 0xF1 => Instr(INVAL, 0, 0, 2)
    case 0xF2 => Instr(INVAL, 0, 0, 2)
    case 0xF3 => Instr(INVAL, 0, 0, 2)
    case 0xF4 => Instr(INVAL, 0, 0, 2)
    case 0xF5 => Instr(INVAL, 0, 0, 2)
    case 0xF6 => Instr(INVAL, 0, 0, 2)
    case 0xF7 => Instr(INVAL, 0, 0, 2)
    case 0xF8 => Instr(INVAL, 0, 0, 2)
    case 0xF9 => Instr(LDSPIX, 10, 0, 2)
    case 0xFA => Instr(INVAL, 0, 0, 2)
    case 0xFB => Instr(INVAL, 0, 0, 2)
    case 0xFC => Instr(INVAL, 0, 0, 2)
    case 0xFD => Instr(INVAL, 0, 0, 2)
    case 0xFE => Instr(INVAL, 0, 0, 2)
    case _ => Instr(INVAL, 0, 0, 2)
  }

  /** Group 3, ED prefix: source lines 813-1068. */
  function Group3(b: int): (e: Instr)
    requires 0 <= b < 256
    ensures e.length == 2 || e.length == 4
  {
    match b
    case 0x00 => Instr(INVAL, 0, 0, 2)
    case 0x01 => Instr(INVAL, 0, 0, 2)
    case 0x02 => Instr(INVAL, 0, 0, 2)
    case 0x03 => Instr(INVAL, 0, 0, 2)
    case 0x04 => Instr(INVAL, 0, 0, 2)
    case 0x05 => Instr(INVAL, 0, 0, 2)
    case 0x06 => Instr(INVAL, 0, 0, 2)
    case 0x07 => Instr(INVAL, 0, 0, 2)
    case 0x08 => Instr(INVAL, 0, 0, 2)
    case 0x09 => Instr(INVAL, 0, 0, 2)
    case 0x0A => Instr(INVAL, 0, 0, 2)
    case 0x0B => Instr(INVAL, 0, 0, 2)
    case 0x0C => Instr(INVAL, 0, 0, 2)
    case 0x0D => Instr(INVAL, 0, 0, 2)
    case 0x0E => Instr(INVAL, 0, 0, 2)
    case 0x0F => Instr(INVAL, 0, 0, 2)
    case 0x10 => Instr(INVAL, 0, 0, 2)
    case 0x11 => Instr(INVAL, 0, 0, 2)
    case 0x12 => Instr(INVAL, 0, 0, 2)
    case 0x13 => Instr(INVAL, 0, 0, 2)
    case 0x14 => Instr(INVAL, 0, 0, 2)
    case 0x15 => Instr(INVAL, 0, 0, 2)
    case 0x16 => Instr(INVAL, 0, 0, 2)
    case 0x17 => Instr(INVAL, 0, 0, 2)
    case 0x18 => Instr(INVAL, 0, 0, 2)
    case 0x19 => Instr(INVAL, 0, 0, 2)
    case 0x1A => Instr(INVAL, 0, 0, 2)
    case 0x1B => Instr(INVAL, 0, 0, 2)
    case 0x1C => Instr(INVAL, 0, 0, 2)
    case 0x1D => Instr(INVAL, 0, 0, 2)
    case 0x1E => Instr(INVAL, 0, 0, 2)
    case 0x1F => Instr(INVAL, 0, 0, 2)
    case 0x20 => Instr(INVAL, 0, 0, 2)
    case 0x21 => Instr(INVAL, 0, 0, 2)
    case 0x22 => Instr(INVAL, 0, 0, 2)
    case 0x23 => Instr(INVAL, 0, 0, 2)
    case 0x24 => Instr(INVAL, 0, 0, 2)
    case 0x25 => Instr(INVAL, 0, 0, 2)
    case 0x26 => Instr(INVAL, 0, 0, 2)
    case 0x27 => Instr(INVAL, 0, 0, 2)
    case 0x28 => Instr(INVAL, 0, 0, 2)
    case 0x29 => Instr(INVAL, 0, 0, 2)
    case 0x2A => Instr(INVAL, 0, 0, 2)
    case 0x2B => Instr(INVAL, 0, 0, 2)
    case 0x2C => Instr(INVAL, 0, 0, 2)
    case 0x2D => Instr(INVAL, 0, 0, 2)
    case 0x2E => Instr(INVAL, 0, 0, 2)
    case 0x2F => Instr(INVAL, 0, 0, 2)
    case 0x30 => Instr(INVAL, 0, 0, 2)
    case 0x31 => Instr(INVAL, 0, 0, 2)
    case 0x32 => Instr(INVAL, 0, 0, 2)
    case 0x33 => Instr(INVAL, 0, 0, 2)
    case 0x34 => Instr(INVAL, 0, 0, 2)
    case 0x35 => Instr(INVAL, 0, 0, 2)
    case 0x36 => Instr(INVAL, 0, 0, 2)
    case 0x37 => Instr(INVAL, 0, 0, 2)
    case 0x38 => Instr(INVAL, 0, 0, 2)
    case 0x39 => Instr(INVAL, 0, 0, 2)
    case 0x3A => Instr(INVAL, 0, 0, 2)
    case 0x3B => Instr(INVAL, 0, 0, 2)
    case 0x3C => Instr(INVAL, 0, 0, 2)
    case 0x3D => Instr(INVAL, 0, 0, 2)
    case 0x3E => Instr(INVAL, 0, 0, 2)
    case 0x3F => Instr(INVAL, 0, 0, 2)
    case 0x40 => Instr(INRiC, 12, 0, 2)
    case 0x41 => Instr(OUTiCR, 12, 0, 2)
    case 0x42 => Instr(SBCHLSS, 15, 0, 2)
    case 0x43 => Instr(LDiNNDD, 20, 0, 4)
    case 0x44 => Instr(NEG, 8, 0, 2)
    case 0x45 => Instr(RETN, 14, 0, 2)
    case 0x46 => Instr(IM0, 8, 0, 2)
    case 0x47 => Instr(LDIA, 9, 0, 2)
    case 0x48 => Instr(INRiC, 12, 0, 2)
    case 0x49 => Instr(OUTiCR, 12, 0, 2)
    case 0x4A => Instr(ADCHLSS, 15, 0, 2)
    case 0x4B => Instr(LDDDiNN, 20, 0, 4)
    case 0x4C => Instr(NEG, 8, 0, 2)
    case 0x4D => Instr(RETI, 14, 0, 2)
    case 0x4E => Instr(IM0, 8, 0, 2)
    case 0x4F => Instr(LDRA, 9, 0, 2)
    case 0x50 => Instr(INRiC, 12, 0, 2)
    case 0x51 => Instr(OUTiCR, 12, 0, 2)
    case 0x52 => Instr(SBCHLSS, 15, 0, 2)
    case 0x53 => Instr(LDiNNDD, 20, 0, 4)
    case 0x54 => Instr(NEG, 8, 0, 2)
    case 0x55 => Instr(RETN, 14, 0, 2)
    case 0x56 => Instr(IM1, 8, 0, 2)
    case 0x57 => Instr(LDAI, 9, 0, 2)
    case 0x58 => Instr(INRiC, 12, 0, 2)
    case 0x59 => Instr(OUTiCR, 12, 0, 2)
    case 0x5A => Instr(ADCHLSS, 15, 0, 2)
    case 0x5B => Instr(LDDDiNN, 20, 0, 4)
    case 0x5C => Instr(NEG, 8, 0, 2)
    case 0x5D => Instr(RETN, 14, 0, 2)
    case 0x5E => Instr(IM2, 8, 0, 2)
    case 0x5F => Instr(LDAR, 9, 0, 2)
    case 0x60 => Instr(INRiC, 12, 0, 2)
    case 0x61 => Instr(OUTiCR, 12, 0, 2)
    case 0x62 => Instr(SBCHLSS, 15, 0, 2)
    case 0x63 => Instr(LDiNNDD, 20, 0, 4)
    case 0x64 => Instr(NEG, 8, 0, 2)
    case 0x65 => Instr(RETN, 14, 0, 2)
    case 0x66 => Instr(IM0, 8, 0, 2)
    case 0x67 => Instr(RRD, 18, 0, 2)
    case 0x68 => Instr(INRiC, 12, 0, 2)
    case 0x69 => Instr(OUTiCR, 12, 0, 2)
    case 0x6A => Instr(ADCHLSS, 15, 0, 2)
    case 0x6B => Instr(LDDDiNN, 20, 0, 4)
    case 0x6C => Instr(NEG, 8, 0, 2)
    case 0x6D => Instr(RETN, 14, 0, 2)
    case 0x6E => Instr(IM0, 8, 0, 2)
    case 0x6F => Instr(RLD, 18, 0, 2)
    case 0x70 => Instr(INiC, 12, 0, 2)
    case 0x71 => Instr(OUTiC0, 12, 0, 2)
    case 0x72 => Instr(SBCHLSS, 15, 0, 2)
    case 0x73 => Instr(LDiNNDD, 20, 0, 4)
    case 0x74 => Instr(NEG, 8, 0, 2)
    case 0x75 => Instr(RETN, 14, 0, 2)
    case 0x76 => Instr(IM1, 8, 0, 2)
    case 0x77 => Instr(INVAL, 0, 0, 2)
    case 0x78 => Instr(INRiC, 12, 0, 2)
    case 0x79 => Instr(OUTiCR, 12, 0, 2)
    case 0x7A => Instr(ADCHLSS, 15, 0, 2)
    case 0x7B => Instr(LDDDiNN, 40, 0, 4)
    case 0x7C => Instr(NEG, 8, 0, 2)
    case 0x7D => Instr(RETN, 14, 0, 2)
    case 0x7E => Instr(IM2, 8, 0, 2)
    case 0x7F => Instr(INVAL, 0, 0, 2)
    case 0x80 => Instr(INVAL, 0, 0, 2)
    case 0x81 => Instr(INVAL, 0, 0, 2)
    case 0x82 => Instr(INVAL, 0, 0, 2)
    case 0x83 => Instr(INVAL, 0, 0, 2)
    case 0x84 => Instr(INVAL, 0, 0, 2)
    case 0x85 => Instr(INVAL, 0, 0, 2)
    case 0x86 => Instr(INVAL, 0, 0, 2)
    case 0x87 => Instr(INVAL, 0, 0, 2)
    case 0x88 => Instr(INVAL, 0, 0, 2)
    case 0x89 => Instr(INVAL, 0, 0, 2)
    case 0x8A => Instr(INVAL, 0, 0, 2)
    case 0x8B => Instr(INVAL, 0, 0, 2)
    case 0x8C => Instr(INVAL, 0, 0, 2)
    case 0x8D => Instr(INVAL, 0, 0, 2)
    case 0x8E => Instr(INVAL, 0, 0, 2)
    case 0x8F => Instr(INVAL, 0, 0, 2)
    case 0x90 => Instr(INVAL, 0, 0, 2)
    case 0x91 => Instr(INVAL, 0, 0, 2)
    case 0x92 => Instr(INVAL, 0, 0, 2)
    case 0x93 => Instr(INVAL, 0, 0, 2)
    case 0x94 => Instr(INVAL, 0, 0, 2)
    case 0x95 => Instr(INVAL, 0, 0, 2)
    case 0x96 => Instr(INVAL, 0, 0, 2)
    case 0x97 => Instr(INVAL, 0, 0, 2)
    case 0x98 => Instr(INVAL, 0, 0, 2)
    case 0x99 => Instr(INVAL, 0, 0, 2)
    case 0x9A => Instr(INVAL, 0, 0, 2)
    case 0x9B => Instr(INVAL, 0, 0, 2)
    case 0x9C => Instr(INVAL, 0, 0, 2)
    case 0x9D => Instr(INVAL, 0, 0, 2)
    case 0x9E => Instr(INVAL, 0, 0, 2)
    case 0x9F => Instr(INVAL, 0, 0, 2)
    case 0xA0 => Instr(LDI, 16, 0, 2)
    case 0xA1 => Instr(CPI, 16, 0, 2)
    case 0xA2 => Instr(INI, 16, 0, 2)
    case 0xA3 => Instr(OUTI, 16, 0, 2)
    case 0xA4 => Instr(INVAL, 0, 0, 2)
    case 0xA5 => Instr(INVAL, 0, 0, 2)
    case 0xA6 => Instr(INVAL, 0, 0, 2)
    case 0xA7 => Instr(INVAL, 0, 0, 2)
    case 0xA8 => Instr(LDD, 16, 0, 2)
    case 0xA9 => Instr(CPD, 16, 0, 2)
    case 0xAA => Instr(IND, 16, 0, 2)
    case 0xAB => Instr(OUTD, 16, 0, 2)
    case 0xAC => Instr(INVAL, 0, 0, 2)
    case 0xAD => Instr(INVAL, 0, 0, 2)
    case 0xAE => Instr(INVAL, 0, 0, 2)
    case 0xAF => Instr(INVAL, 0, 0, 2)
    case 0xB0 => Instr(LDIR, 21, 16, 2)
    case 0xB1 => Instr(CPIR, 21, 16, 2)
    case 0xB2 => Instr(INIR, 21, 16, 2)
    case 0xB3 => Instr(OTIR, 21, 16, 2)
    case 0xB4 => Instr(INVAL, 0, 0, 2)
    case 0xB5 => Instr(INVAL, 0, 0, 2)
    case 0xB6 => Instr(INVAL, 0, 0, 2)
    case 0xB7 => Instr(INVAL, 0, 0, 2)
    case 0xB8 => Instr(LDDR, 21, 16, 2)
    case 0xB9 => Instr(CPDR, 21, 16, 2)
    case 0xBA => Instr(INDR, 21, 16, 2)
    case 0xBB => Instr(OTDR, 21, 16, 2)
    case 0xBC => Instr(INVAL, 0, 0, 2)
    case 0xBD => Instr(INVAL, 0, 0, 2)
    case 0xBE => Instr(INVAL, 0, 0, 2)
    case 0xBF => Instr(INVAL, 0, 0, 2)
    case 0xC0 => Instr(INVAL, 0, 0, 2)
    case 0xC1 => Instr(INVAL, 0, 0, 2)
    case 0xC2 => Instr(INVAL, 0, 0, 2)
    case 0xC3 => Instr(INVAL, 0, 0, 2)
    case 0xC4 => Instr(INVAL, 0, 0, 2)
    case 0xC5 => Instr(INVAL, 0, 0, 2)
    case 0xC6 => Instr(INVAL, 0, 0, 2)
    case 0xC7 => Instr(INVAL, 0, 0, 2)
    case 0xC8 => Instr(INVAL, 0, 0, 2)
    case 0xC9 => Instr(INVAL, 0, 0, 2)
    case 0xCA => Instr(INVAL, 0, 0, 2)
    case 0xCB => Instr(INVAL, 0, 0, 2)
    case 0xCC => Instr(INVAL, 0, 0, 2)
    case 0xCD => Instr(INVAL, 0, 0, 2)
    case 0xCE => Instr(INVAL, 0, 0, 2)
    case 0xCF => Instr(INVAL, 0, 0, 2)
    case 0xD0 => Instr(INVAL, 0, 0, 2)
    case 0xD1 => Instr(INVAL, 0, 0, 2)
    case 0xD2 => Instr(INVAL, 0, 0, 2)
    case 0xD3 => Instr(INVAL, 0, 0, 2)
    case 0xD4 => Instr(INVAL, 0, 0, 2)
    case 0xD5 => Instr(INVAL, 0, 0, 2)
    case 0xD6 => Instr(INVAL, 0, 0, 2)
    case 0xD7 => Instr(INVAL, 0, 0, 2)
    case 0xD8 => Instr(INVAL, 0, 0, 2)
    case 0xD9 => Instr(INVAL, 0, 0, 2)
    case 0xDA => Instr(INVAL, 0, 0, 2)
    case 0xDB => Instr(INVAL, 0, 0, 2)
    case 0xDC => Instr(INVAL, 0, 0, 2)
    case 0xDD => Instr(INVAL, 0, 0, 2)
    case 0xDE => Instr(INVAL, 0, 0, 2)
    case 0xDF => Instr(INVAL, 0, 0, 2)
    case 0xE0 => Instr(INVAL, 0, 0, 2)
    case 0xE1 => Instr(INVAL, 0, 0, 2)
    case 0xE2 => Instr(INVAL, 0, 0, 2)
    case 0xE3 => Instr(INVAL, 0, 0, 2)
    case 0xE4 => Instr(INVAL, 0, 0, 2)
    case 0xE5 => Instr(INVAL, 0, 0, 2)
    case 0xE6 => Instr(INVAL, 0, 0, 2)
    case 0xE7 => Instr(INVAL, 0, 0, 2)
    case 0xE8 => Instr(INVAL, 0, 0, 2)
    case 0xE9 => Instr(INVAL, 0, 0, 2)
    case 0xEA => Instr(INVAL, 0, 0, 2)
    case 0xEB => Instr(INVAL, 0, 0, 2)
    case 0xEC => Instr(INVAL, 0, 0, 2)
    case 0xED => Instr(INVAL, 0, 0, 2)
    case 0xEE => Instr(INVAL, 0, 0, 2)
    case 0xEF => Instr(INVAL, 0, 0, 2)
    case 0xF0 => Instr(INVAL, 0, 0, 2)
    case 0xF1 => Instr(INVAL, 0, 0, 2)
    case 0xF2 => Instr(INVAL, 0, 0, 2)
    case 0xF3 => Instr(INVAL, 0, 0, 2)
    case 0xF4 => Instr(INVAL, 0, 0, 2)
    case 0xF5 => Instr(INVAL, 0, 0, 2)
    case 0xF6 => Instr(INVAL, 0, 0, 2)
    case 0xF7 => Instr(INVAL, 0, 0, 2)
    case 0xF8 => Instr(INVAL, 0, 0, 2)
    case 0xF9 => Instr(INVAL, 0, 0, 2)
    case 0xFA => Instr(INVAL, 0, 0, 2)
    case 0xFB => Instr(INVAL, 0, 0, 2)
    case 0xFC => Instr(INVAL, 0, 0, 2)
    case 0xFD => Instr(INVAL, 0, 0, 2)
    case 0xFE => Instr(INVAL, 0, 0, 2)
    case _ => Instr(INVAL, 0, 0, 2)
  }

  /** Group 4, FD prefix: source lines 1071-1326. */
  function Group4(b: int): (e: Instr)
    requires 0 <= b < 256
    ensures 2 <= e.length && e.cycles2 == 0
  {
    match b
    case 0x00 => Instr(INVAL, 0, 0, 2)
    case 0x01 => Instr(INVAL, 0, 0, 2)
    case 0x02 => Instr(INVAL, 0, 0, 2)
    case 0x03 => Instr(INVAL, 0, 0, 2)
    case 0x04 => Instr(INVAL, 0, 0, 2)
    case 0x05 => Instr(INVAL, 0, 0, 2)
    case 0x06 => Instr(INVAL, 0, 0, 2)
    case 0x07 => Instr(INVAL, 0, 0, 2)
    case 0x08 => Instr(INVAL, 0, 0, 2)
    case 0x09 => Instr(ADDIYSS, 15, 0, 2)
    case 0x0A => Instr(INVAL, 0, 0, 2)
    case 0x0B => Instr(INVAL, 0, 0, 2)
    case 0x0C => Instr(INVAL, 0, 0, 2)
    case 0x0D => Instr(INVAL, 0, 0, 2)
    case 0x0E => Instr(INVAL, 0, 0, 2)
    case 0x0F => Instr(INVAL, 0, 0, 2)
    case 0x10 => Instr(INVAL, 0, 0, 2)
    case 0x11 => Instr(INVAL, 0, 0, 2)
    case 0x12 => Instr(INVAL, 0, 0, 2)
    case 0x13 => Instr(INVAL, 0, 0, 2)
    case 0x14 => Instr(INVAL, 0, 0, 2)
    case 0x15 => Instr(INVAL, 0, 0, 2)
    case 0x16 => Instr(INVAL, 0, 0, 2)
    case 0x17 => Instr(INVAL, 0, 0, 2)
    case 0x18 => Instr(INVAL, 0, 0, 2)
    case 0x19 => Instr(ADDIYSS, 15, 0, 2)
    case 0x1A => Instr(INVAL, 0, 0, 2)
    case 0x1B => Instr(INVAL, 0, 0, 2)
    case 0x1C => Instr(INVAL, 0, 0, 2)
    case 0x1D => Instr(INVAL, 0, 0, 2)
    case 0x1E => Instr(INVAL, 0, 0, 2)
    case 0x1F => Instr(INVAL, 0, 0, 2)
    case 0x20 => Instr(INVAL, 0, 0, 2)
    case 0x21 => Instr(LDDDNN, 14, 0, 4)
    case 0x22 => Instr(LDiNNIY, 20, 0, 4)
    case 0x23 => Instr(INCIY, 10, 0, 2)
    case 0x24 => Instr(INCR, 8, 0, 2)
    case 0x25 => Instr(DECR, 8, 0, 2)
    case 0x26 => Instr(LDRN, 11, 0, 3)
    case 0x27 => Instr(INVAL, 0, 0, 2)
    case 0x28 => Instr(INVAL, 0, 0, 2)
    case 0x29 => Instr(ADDIYSS, 15, 0, 2)
    case 0x2A => Instr(LDIYiNN, 20, 0, 4)
    case 0x2B => Instr(DECIY, 10, 0, 2)
    case 0x2C => Instr(INCR, 8, 0, 2)
    case 0x2D => Instr(DECR, 8, 0, 2)
    case 0x2E => Instr(LDRN, 11, 0, 3)
    case 0x2F => Instr(INVAL, 0, 0, 2)
    case 0x30 => Instr(INVAL, 0, 0, 2)
    case 0x31 => Instr(INVAL, 0, 0, 2)
    case 0x32 => Instr(INVAL, 0, 0, 2)
    case 0x33 => Instr(INVAL, 0, 0, 2)
    case 0x34 => Instr(INCR, 23, 0, 3)
    case 0x35 => Instr(DECR, 23, 0, 3)
    case 0x36 => Instr(LDRN, 19, 0, 4)
    case 0x37 => Instr(INVAL, 0, 0, 2)
    case 0x38 => Instr(INVAL, 0, 0, 2)
    case 0x39 => Instr(ADDIYSS, 15, 0, 2)
    case 0x3A => Instr(INVAL, 0, 0, 2)
    case 0x3B => Instr(INVAL, 0, 0, 2)
    case 0x3C => Instr(INVAL, 0, 0, 2)
    case 0x3D => Instr(INVAL, 0, 0, 2)
    case 0x3E => Instr(INVAL, 0, 0, 2)
    case 0x3F => Instr(INVAL, 0, 0, 2)
    case 0x40 => Instr(LDRR, 8, 0, 2)
    case 0x41 => Instr(LDRR, 8, 0, 2)
    case 0x42 => Instr(LDRR, 8, 0, 2)
    case 0x43 => Instr(LDRR, 8, 0, 2)
    case 0x44 => Instr(LDRR, 8, 0, 2)
    case 0x45 => Instr(LDRR, 8, 0, 2)
    case 0x46 => Instr(LDRRi, 19, 0, 3)
    case 0x47 => Instr(LDRR, 8, 0, 2)
    case 0x48 => Instr(LDRR, 8, 0, 2)
    case 0x49 => Instr(LDRR, 8, 0, 2)
    case 0x4A => Instr(LDRR, 8, 0, 2)
    case 0x4B => Instr(LDRR, 8, 0, 2)
    case 0x4C => Instr(LDRR, 8, 0, 2)
    case 0x4D => Instr(LDRR, 8, 0, 2)
    case 0x4E => Instr(LDRRi, 19, 0, 3)
    case 0x4F => Instr(LDRR, 8, 0, 2)
    case 0x50 => Instr(LDRR, 8, 0, 2)
    case 0x51 => Instr(LDRR, 8, 0, 2)
    case 0x52 => Instr(LDRR, 8, 0, 2)
    case 0x53 => Instr(LDRR, 8, 0, 2)
    case 0x54 => Instr(LDRR, 8, 0, 2)
    case 0x55 => Instr(LDRR, 8, 0, 2)
    case 0x56 => Instr(LDRRi, 19, 0, 3)
    case 0x57 => Instr(LDRR, 8, 0, 2)
    case 0x58 => Instr(LDRR, 8, 0, 2)
    case 0x59 => Instr(LDRR, 8, 0, 2)
    case 0x5A => Instr(LDRR, 8, 0, 2)
    case 0x5B => Instr(LDRR, 8, 0, 2)
    case 0x5C => Instr(LDRR, 8, 0, 2)
    case 0x5D => Instr(LDRR, 8, 0, 2)
    case 0x5E => Instr(LDRRi, 19, 0, 3)
    case 0x5F => Instr(LDRR, 8, 0, 2)
    case 0x60 => Instr(LDRR, 8, 0, 2)
    case 0x61 => Instr(LDRR, 8, 0, 2)
    case 0x62 => Instr(LDRR, 8, 0, 2)
    case 0x63 => Instr(LDRR, 8, 0, 2)
    case 0x64 => Instr(LDRR, 8, 0, 2)
    case 0x65 => Instr(LDRR, 8, 0, 2)
    case 0x66 => Instr(LDRRi, 19, 0, 3)
    case 0x67 => Instr(LDRR, 8, 0, 2)
    case 0x68 => Instr(LDRR, 8, 0, 2)
    case 0x69 => Instr(LDRR, 8, 0, 2)
    case 0x6A => Instr(LDRR, 8, 0, 2)
    case 0x6B => Instr(LDRR, 8, 0, 2)
    case 0x6C => Instr(LDRR, 8, 0, 2)
    case 0x6D => Instr(LDRR, 8, 0, 2)
    case 0x6E => Instr(LDRRi, 19, 0, 3)
    case 0x6F => Instr(LDRR, 8, 0, 2)
    case 0x70 => Instr(LDiRR, 19, 0, 3)
    case 0x71 => Instr(LDiRR, 19, 0, 3)
    case 0x72 => Instr(LDiRR, 19, 0, 3)
    case 0x73 => Instr(LDiRR, 19, 0, 3)
    case 0x74 => Instr(LDiRR, 19, 0, 3)
    case 0x75 => Instr(LDiRR, 19, 0, 3)
    case 0x76 => Instr(HALT, 8, 0, 2)
    case 0x77 => Instr(LDiRR, 19, 0, 3)
    case 0x78 => Instr(LDRR, 8, 0, 2)
    case 0x79 => Instr(LDRR, 8, 0, 2)
    case 0x7A => Instr(LDRR, 8, 0, 2)
    case 0x7B => Instr(LDRR, 8, 0, 2)
    case 0x7C => Instr(LDRR, 8, 0, 2)
    case 0x7D => Instr(LDRR, 8, 0, 2)
    case 0x7E => Instr(LDRRi, 19, 0, 3)
    case 0x7F => Instr(LDRR, 8, 0, 2)
    case 0x80 => Instr(ADDR, 8, 0, 2)
    case 0x81 => Instr(ADDR, 8, 0, 2)
    case 0x82 => Instr(ADDR, 8, 0, 2)
    case 0x83 => Instr(ADDR, 8, 0, 2)
    case 0x84 => Instr(ADDR, 8, 0, 2)
    case 0x85 => Instr(ADDR, 8, 0, 2)
    case 0x86 => Instr(ADDR, 19, 0, 3)
    case 0x87 => Instr(ADDR, 8, 0, 2)
    case 0x88 => Instr(ADCR, 8, 0, 2)
    case 0x89 => Instr(ADCR, 8, 0, 2)
    case 0x8A => Instr(ADCR, 8, 0, 2)
    case 0x8B => Instr(ADCR, 8, 0, 2)
    case 0x8C => Instr(ADCR, 8, 0, 2)
    case 0x8D => Instr(ADCR, 8, 0, 2)
    case 0x8E => Instr(ADCR, 19, 0, 3)
    case 0x8F => Instr(ADCR, 8, 0, 2)
    case 0x90 => Instr(SUBR, 8, 0, 2)
    case 0x91 => Instr(SUBR, 8, 0, 2)
    case 0x92 => Instr(SUBR, 8, 0, 2)
    case 0x93 => Instr(SUBR, 8, 0, 2)
    case 0x94 => Instr(SUBR, 8, 0, 2)
    case 0x95 => Instr(SUBR, 8, 0, 2)
    case 0x96 => Instr(SUBR, 19, 0, 3)
    case 0x97 => Instr(SUBR, 8, 0, 2)
    case 0x98 => Instr(SBCR, 8, 0, 2)
    case 0x99 => Instr(SBCR, 8, 0, 2)
    case 0x9A => Instr(SBCR, 8, 0, 2)
    case 0x9B => Instr(SBCR, 8, 0, 2)
    case 0x9C => Instr(SBCR, 8, 0, 2)
    case 0x9D => Instr(SBCR, 8, 0, 2)
    case 0x9E => Instr(SBCR, 19, 0, 3)
    case 0x9F => Instr(SBCR, 8, 0, 2)
    case 0xA0 => Instr(ANDR, 8, 0, 2)
    case 0xA1 => Instr(ANDR, 8, 0, 2)
    case 0xA2 => Instr(ANDR, 8, 0, 2)
    case 0xA3 => Instr(ANDR, 8, 0, 2)
    case 0xA4 => Instr(ANDR, 8, 0, 2)
    case 0xA5 => Instr(ANDR, 8, 0, 2)
    case 0xA6 => Instr(ANDR, 19, 0, 3)
    case 0xA7 => Instr(ANDR, 8, 0, 2)
    case 0xA8 => Instr(XORR, 8, 0, 2)
    case 0xA9 => Instr(XORR, 8, 0, 2)
    case 0xAA => Instr(XORR, 8, 0, 2)
    case 0xAB => Instr(XORR, 8, 0, 2)
    case 0xAC => Instr(XORR, 8, 0, 2)
    case 0xAD => Instr(XORR, 8, 0, 2)
    case 0xAE => Instr(XORR, 19, 0, 3)
    case 0xAF => Instr(XORR, 8, 0, 2)
    case 0xB0 => Instr(ORR, 8, 0, 2)
    case 0xB1 => Instr(ORR, 8, 0, 2)
    case 0xB2 => Instr(ORR, 8, 0, 2)
    case 0xB3 => Instr(ORR, 8, 0, 2)
    case 0xB4 => Instr(ORR, 8, 0, 2)
    case 0xB5 => Instr(ORR, 8, 0, 2)
    case 0xB6 => Instr(ORR, 19, 0, 3)
    case 0xB7 => Instr(ORR, 8, 0, 2)
    case 0xB8 => Instr(CPR, 8, 0, 2)
    case 0xB9 => Instr(CPR, 8, 0, 2)
    case 0xBA => Instr(CPR, 8, 0, 2)
    case 0xBB => Instr(CPR, 8, 0, 2)
    case 0xBC => Instr(CPR, 8, 0, 2)
    case 0xBD => Instr(CPR, 8, 0, 2)
    case 0xBE => Instr(CPR, 19, 0, 3)
    case 0xBF => Instr(CPR, 8, 0, 2)
    case 0xC0 => Instr(INVAL, 0, 0, 2)
    case 0xC1 => Instr(INVAL, 0, 0, 2)
    case 0xC2 => Instr(INVAL, 0, 0, 2)
    case 0xC3 => Instr(INVAL, 0, 0, 2)
    case 0xC4 => Instr(INVAL, 0, 0, 2)
    case 0xC5 => Instr(INVAL, 0, 0, 2)
    case 0xC6 => Instr(INVAL, 0, 0, 2)
    case 0xC7 => Instr(INVAL, 0, 0, 2)
    case 0xC8 => Instr(INVAL, 0, 0, 2)
    case 0xC9 => Instr(INVAL, 0, 0, 2)
    case 0xCA => Instr(INVAL, 0, 0, 2)
    case 0xCB => Instr(INVAL, 0, 0, 2)
    case 0xCC => Instr(INVAL, 0, 0, 2)
    case 0xCD => Instr(INVAL, 0, 0, 2)
    case 0xCE => Instr(INVAL, 0, 0, 2)
    case 0xCF => Instr(INVAL, 0, 0, 2)
    case 0xD0 => Instr(INVAL, 0, 0, 2)
    case 0xD1 => Instr(INVAL, 0, 0, 2)
    case 0xD2 => Instr(INVAL, 0, 0, 2)
    case 0xD3 => Instr(INVAL, 0, 0, 2)
    case 0xD4 => Instr(INVAL, 0, 0, 2)
    case 0xD5 => Instr(INVAL, 0, 0, 2)
    case 0xD6 => Instr(INVAL, 0, 0, 2)
    case 0xD7 => Instr(INVAL, 0, 0, 2)
    case 0xD8 => Instr(INVAL, 0, 0, 2)
    case 0xD9 => Instr(INVAL, 0, 0, 2)
    case 0xDA => Instr(INVAL, 0, 0, 2)
    case 0xDB => Instr(INVAL, 0, 0, 2)
    case 0xDC => Instr(INVAL, 0, 0, 2)
    case 0xDD => Instr(INVAL, 0, 0, 2)
    case 0xDE => Instr(INVAL, 0, 0, 2)
    case 0xDF => Instr(INVAL, 0, 0, 2)
    case 0xE0 => Instr(INVAL, 0, 0, 2)
    case 0xE1 => Instr(POPIY, 14, 0, 2)
    case 0xE2 => Instr(INVAL, 0, 0, 2)
    case 0xE3 => Instr(EXiSPIY, 23, 0, 2)
    case 0xE4 => Instr(INVAL, 0, 0, 2)
    case 0xE5 => Instr(PUSHIY, 15, 0, 2)
    case 0xE6 => Instr(INVAL, 0, 0, 2)
    case 0xE7 => Instr(INVAL, 0, 0, 2)
    case 0xE8 => Instr(INVAL, 0, 0, 2)
    case 0xE9 => Instr(JPiIY, 8, 0, 2)
    case 0xEA => Instr(INVAL, 0, 0, 2)
    case 0xEB => Instr(INVAL, 0, 0, 2)
    case 0xEC => Instr(INVAL, 0, 0, 2)
    case 0xED => Instr(INVAL, 0, 0, 2)
    case 0xEE => Instr(INVAL, 0, 0, 2)
    case 0xEF => Instr(INVAL, 0, 0, 2)
    case 0xF0 => Instr(INVAL, 0, 0, 2)
    case 0xF1 => Instr(INVAL, 0, 0, 2)
    case 0xF2 => Instr(INVAL, 0, 0, 2)
    case 0xF3 => Instr(INVAL, 0, 0, 2)
    case 0xF4 => Instr(INVAL, 0, 0, 2)
    case 0xF5 => Instr(INVAL, 0, 0, 2)
    case 0xF6 => Instr(INVAL, 0, 0, 2)
    case 0xF7 => Instr(INVAL, 0, 0, 2)
    case 0xF8 => Instr(INVAL, 0, 0, 2)
    case 0xF9 => Instr(LDSPIY, 10, 0, 2)
    case 0xFA => Instr(INVAL, 0, 0, 2)
    case 0xFB => Instr(INVAL, 0, 0, 2)
    case 0xFC => Instr(INVAL, 0, 0, 2)
    case 0xFD => Instr(INVAL, 0, 0, 2)
    case 0xFE => Instr(INVAL, 0, 0, 2)
    case _ => Instr(INVAL, 0, 0, 2)
  }

  /** Group 5, DD CB prefix: source lines 1329-1584. */
  function Group5(b: int): (e: Instr)
    requires 0 <= b < 256
    ensures e.length == 4 && 20 <= e.cycles1 && e.cycles2 == 0
  {
    match b
    case 0x00 => Instr(UNDOC, 23, 0, 4)
    case 0x01 => Instr(UNDOC, 23, 0, 4)
    case 0x02 => Instr(UNDOC, 23, 0, 4)
    case 0x03 => Instr(UNDOC, 23, 0, 4)
    case 0x04 => Instr(UNDOC, 23, 0, 4)
    case 0x05 => Instr(UNDOC, 23, 0, 4)
    case 0x06 => Instr(RLCR, 23, 0, 4)
    case 0x07 => Instr(UNDOC, 23, 0, 4)
    case 0x08 => Instr(UNDOC, 23, 0, 4)
    case 0x09 => Instr(UNDOC, 23, 0, 4)
    case 0x0A => Instr(UNDOC, 23, 0, 4)
    case 0x0B => Instr(UNDOC, 23, 0, 4)
    case 0x0C => Instr(UNDOC, 23, 0, 4)
    case 0x0D => Instr(UNDOC, 23, 0, 4)
    case 0x0E => Instr(RRCR, 23, 0, 4)
    case 0x0F => Instr(UNDOC, 23, 0, 4)
    case 0x10 => Instr(UNDOC, 23, 0, 4)
    case 0x11 => Instr(UNDOC, 23, 0, 4)
    case 0x12 => Instr(UNDOC, 23, 0, 4)
    case 0x13 => Instr(UNDOC, 23, 0, 4)
    case 0x14 => Instr(UNDOC, 23, 0, 4)
    case 0x15 => Instr(UNDOC, 23, 0, 4)
    case 0x16 => Instr(RLR, 23, 0, 4)
    case 0x17 => Instr(UNDOC, 23, 0, 4)
    case 0x18 => Instr(UNDOC, 23, 0, 4)
    case 0x19 => Instr(UNDOC, 23, 0, 4)
    case 0x1A => Instr(UNDOC, 23, 0, 4)
    case 0x1B => Instr(UNDOC, 23, 0, 4)
    case 0x1C => Instr(UNDOC, 23, 0, 4)
    case 0x1D => Instr(UNDOC, 23, 0, 4)
    case 0x1E => Instr(RRR, 23, 0, 4)
    case 0x1F => Instr(UNDOC, 23, 0, 4)
    case 0x20 => Instr(UNDOC, 23, 0, 4)
    case 0x21 => Instr(UNDOC, 23, 0, 4)
    case 0x22 => Instr(UNDOC, 23, 0, 4)
    case 0x23 => Instr(UNDOC, 23, 0, 4)
    case 0x24 => Instr(UNDOC, 23, 0, 4)
    case 0x25 => Instr(UNDOC, 23, 0, 4)
    case 0x26 => Instr(SLAR, 23, 0, 4)
    case 0x27 => Instr(UNDOC, 23, 0, 4)
    case 0x28 => Instr(UNDOC, 23, 0, 4)
    case 0x29 => Instr(UNDOC, 23, 0, 4)
    case 0x2A => Instr(UNDOC, 23, 0, 4)
    case 0x2B => Instr(UNDOC, 23, 0, 4)
    case 0x2C => Instr(UNDOC, 23, 0, 4)
    case 0x2D => Instr(UNDOC, 23, 0, 4)
    case 0x2E => Instr(SRAR, 23, 0, 4)
    case 0x2F => Instr(UNDOC, 23, 0, 4)
    case 0x30 => Instr(UNDOC, 23, 0, 4)
    case 0x31 => Instr(UNDOC, 23, 0, 4)
    case 0x32 => Instr(UNDOC, 23, 0, 4)
    case 0x33 => Instr(UNDOC, 23, 0, 4)
    case 0x34 => Instr(UNDOC, 23, 0, 4)
    case 0x35 => Instr(UNDOC, 23, 0, 4)
    case 0x36 => Instr(SLLR, 23, 0, 4)
    case 0x37 => Instr(UNDOC, 23, 0, 4)
    case 0x38 => Instr(UNDOC, 23, 0, 4)
    case 0x39 => Instr(UNDOC, 23, 0, 4)
    case 0x3A => Instr(UNDOC, 23, 0, 4)
    case 0x3B => Instr(UNDOC, 23, 0, 4)
    case 0x3C => Instr(UNDOC, 23, 0, 4)
    case 0x3D => Instr(UNDOC, 23, 0, 4)
    case 0x3E => Instr(SRLR, 23, 0, 4)
    case 0x3F => Instr(UNDOC, 23, 0, 4)
    case 0x40 => Instr(UNDOC, 20, 0, 4)
    case 0x41 => Instr(UNDOC, 20, 0, 4)
    case 0x42 => Instr(UNDOC, 20, 0, 4)
    case 0x43 => Instr(UNDOC, 20, 0, 4)
    case 0x44 => Instr(UNDOC, 20, 0, 4)
    case 0x45 => Instr(UNDOC, 20, 0, 4)
    case 0x46 => Instr(BITBR, 20, 0, 4)
    case 0x47 => Instr(UNDOC, 20, 0, 4)
    case 0x48 => Instr(UNDOC, 20, 0, 4)
    case 0x49 => Instr(UNDOC, 20, 0, 4)
    case 0x4A => Instr(UNDOC, 20, 0, 4)
    case 0x4B => Instr(UNDOC, 20, 0, 4)
    case 0x4C => Instr(UNDOC, 20, 0, 4)
    case 0x4D => Instr(UNDOC, 20, 0, 4)
    case 0x4E => Instr(BITBR, 20, 0, 4)
    case 0x4F => Instr(UNDOC, 20, 0, 4)
    case 0x50 => Instr(UNDOC, 20, 0, 4)
    case 0x51 => Instr(UNDOC, 20, 0, 4)
    case 0x52 => Instr(UNDOC, 20, 0, 4)
    case 0x53 => Instr(UNDOC, 20, 0, 4)
    case 0x54 => Instr(UNDOC, 20, 0, 4)
    case 0x55 => Instr(UNDOC, 20, 0, 4)
    case 0x56 => Instr(BITBR, 20, 0, 4)
    case 0x57 => Instr(UNDOC, 20, 0, 4)
    case 0x58 => Instr(UNDOC, 20, 0, 4)
    case 0x59 => Instr(UNDOC, 20, 0, 4)
    case 0x5A => Instr(UNDOC, 20, 0, 4)
    case 0x5B => Instr(UNDOC, 20, 0, 4)
    case 0x5C => Instr(UNDOC, 20, 0, 4)
    case 0x5D => Instr(UNDOC, 20, 0, 4)
    case 0x5E => Instr(BITBR, 20, 0, 4)
    case 0x5F => Instr(UNDOC, 20, 0, 4)
    case 0x60 => Instr(UNDOC, 20, 0, 4)
    case 0x61 => Instr(UNDOC, 20, 0, 4)
    case 0x62 => Instr(UNDOC, 20, 0, 4)
    case 0x63 => Instr(UNDOC, 20, 0, 4)
    case 0x64 => Instr(UNDOC, 20, 0, 4)
    case 0x65 => Instr(UNDOC, 20, 0, 4)
    case 0x66 => Instr(BITBR, 20, 0, 4)
    case 0x67 => Instr(UNDOC, 20, 0, 4)
    case 0x68 => Instr(UNDOC, 20, 0, 4)
    case 0x69 => Instr(UNDOC, 20, 0, 4)
    case 0x6A => Instr(UNDOC, 20, 0, 4)
    case 0x6B => Instr(UNDOC, 20, 0, 4)
    case 0x6C => Instr(UNDOC, 20, 0, 4)
    case 0x6D => Instr(UNDOC, 20, 0, 4)
    case 0x6E => Instr(BITBR, 20, 0, 4)
    case 0x6F => Instr(UNDOC, 20, 0, 4)
    case 0x70 => Instr(UNDOC, 20, 0, 4)
    case 0x71 => Instr(UNDOC, 20, 0, 4)
    case 0x72 => Instr(UNDOC, 20, 0, 4)
    case 0x73 => Instr(UNDOC, 20, 0, 4)
    case 0x74 => Instr(UNDOC, 20, 0, 4)
    case 0x75 => Instr(UNDOC, 20, 0, 4)
    case 0x76 => Instr(BITBR, 20, 0, 4)
    case 0x77 => Instr(UNDOC, 20, 0, 4)
    case 0x78 => Instr(UNDOC, 20, 0, 4)
    case 0x79 => Instr(UNDOC, 20, 0, 4)
    case 0x7A => Instr(UNDOC, 20, 0, 4)
    case 0x7B => Instr(UNDOC, 20, 0, 4)
    case 0x7C => Instr(UNDOC, 20, 0, 4)
    case 0x7D => Instr(UNDOC, 20, 0, 4)
    case 0x7E => Instr(BITBR, 20, 0, 4)
    case 0x7F => Instr(UNDOC, 20, 0, 4)
    case 0x80 => Instr(UNDOC, 23, 0, 4)
    case 0x81 => Instr(UNDOC, 23, 0, 4)
    case 0x82 => Instr(UNDOC, 23, 0, 4)
    case 0x83 => Instr(UNDOC, 23, 0, 4)
    case 0x84 => Instr(UNDOC, 23, 0, 4)
    case 0x85 => Instr(UNDOC, 23, 0, 4)
    case 0x86 => Instr(RESBR, 23, 0, 4)
    case 0x87 => Instr(UNDOC, 23, 0, 4)
    case 0x88 => Instr(UNDOC, 23, 0, 4)
    case 0x89 => Instr(UNDOC, 23, 0, 4)
    case 0x8A => Instr(UNDOC, 23, 0, 4)
    case 0x8B => Instr(UNDOC, 23, 0, 4)
    case 0x8C => Instr(UNDOC, 23, 0, 4)
    case 0x8D => Instr(UNDOC, 23, 0, 4)
    case 0x8E => Instr(RESBR, 23, 0, 4)
    case 0x8F => Instr(UNDOC, 23, 0, 4)
    case 0x90 => Instr(UNDOC, 23, 0, 4)
    case 0x91 => Instr(UNDOC, 23, 0, 4)
    case 0x92 => Instr(UNDOC, 23, 0, 4)
    case 0x93 => Instr(UNDOC, 23, 0, 4)
    case 0x94 => Instr(UNDOC, 23, 0, 4)
    case 0x95 => Instr(UNDOC, 23, 0, 4)
    case 0x96 => Instr(RESBR, 23, 0, 4)
    case 0x97 => Instr(UNDOC, 23, 0, 4)
    case 0x98 => Instr(UNDOC, 23, 0, 4)
    case 0x99 => Instr(UNDOC, 23, 0, 4)
    case 0x9A => Instr(UNDOC, 23, 0, 4)
    case 0x9B => Instr(UNDOC, 23, 0, 4)
    case 0x9C => Instr(UNDOC, 23, 0, 4)
    case 0x9D => Instr(UNDOC, 23, 0, 4)
    case 0x9E => Instr(RESBR, 23, 0, 4)
    case 0x9F => Instr(UNDOC, 23, 0, 4)
    case 0xA0 => Instr(UNDOC, 23, 0, 4)
    case 0xA1 => Instr(UNDOC, 23, 0, 4)
    case 0xA2 => Instr(UNDOC, 23, 0, 4)
    case 0xA3 => Instr(UNDOC, 23, 0, 4)
    case 0xA4 => Instr(UNDOC, 23, 0, 4)
    case 0xA5 => Instr(UNDOC, 23, 0, 4)
    case 0xA6 => Instr(RESBR, 23, 0, 4)
    case 0xA7 => Instr(UNDOC, 23, 0, 4)
    case 0xA8 => Instr(UNDOC, 23, 0, 4)
    case 0xA9 => Instr(UNDOC, 23, 0, 4)
    case 0xAA => Instr(UNDOC, 23, 0, 4)
    case 0xAB => Instr(UNDOC, 23, 0, 4)
    case 0xAC => Instr(UNDOC, 23, 0, 4)
    case 0xAD => Instr(UNDOC, 23, 0, 4)
    case 0xAE => Instr(RESBR, 23, 0, 4)
    case 0xAF => Instr(UNDOC, 23, 0, 4)
    case 0xB0 => Instr(UNDOC, 23, 0, 4)
    case 0xB1 => Instr(UNDOC, 23, 0, 4)
    case 0xB2 => Instr(UNDOC, 23, 0, 4)
    case 0xB3 => Instr(UNDOC, 23, 0, 4)
    case 0xB4 => Instr(UNDOC, 23, 0, 4)
    case 0xB5 => Instr(UNDOC, 23, 0, 4)
    case 0xB6 => Instr(RESBR, 23, 0, 4)
    case 0xB7 => Instr(UNDOC, 23, 0, 4)
    case 0xB8 => Instr(UNDOC, 23, 0, 4)
    case 0xB9 => Instr(UNDOC, 23, 0, 4)
    case 0xBA => Instr(UNDOC, 23, 0, 4)
    case 0xBB => Instr(UNDOC, 23, 0, 4)
    case 0xBC => Instr(UNDOC, 23, 0, 4)
    case 0xBD => Instr(UNDOC, 23, 0, 4)
    case 0xBE => Instr(RESBR, 23, 0, 4)
    case 0xBF => Instr(UNDOC, 23, 0, 4)
    case 0xC0 => Instr(UNDOC, 23, 0, 4)
    case 0xC1 => Instr(UNDOC, 23, 0, 4)
    case 0xC2 => Instr(UNDOC, 23, 0, 4)
    case 0xC3 => Instr(UNDOC, 23, 0, 4)
    case 0xC4 => Instr(UNDOC, 23, 0, 4)
    case 0xC5 => Instr(UNDOC, 23, 0, 4)
    case 0xC6 => Instr(SETBR, 23, 0, 4)
    case 0xC7 => Instr(UNDOC, 23, 0, 4)
    case 0xC8 => Instr(UNDOC, 23, 0, 4)
    case 0xC9 => Instr(UNDOC, 23, 0, 4)
    case 0xCA => Instr(UNDOC, 23, 0, 4)
    case 0xCB => Instr(UNDOC, 23, 0, 4)
    case 0xCC => Instr(UNDOC, 23, 0, 4)
    case 0xCD => Instr(UNDOC, 23, 0, 4)
    case 0xCE => Instr(SETBR, 23, 0, 4)
    case 0xCF => Instr(UNDOC, 23, 0, 4)
    case 0xD0 => Instr(UNDOC, 23, 0, 4)
    case 0xD1 => Instr(UNDOC, 23, 0, 4)
    case 0xD2 => Instr(UNDOC, 23, 0, 4)
    case 0xD3 => Instr(UNDOC, 23, 0, 4)
    case 0xD4 => Instr(UNDOC, 23, 0, 4)
    case 0xD5 => Instr(UNDOC, 23, 0, 4)
    case 0xD6 => Instr(SETBR, 23, 0, 4)
    case 0xD7 => Instr(UNDOC, 23, 0, 4)
    case 0xD8 => Instr(UNDOC, 23, 0, 4)
    case 0xD9 => Instr(UNDOC, 23, 0, 4)
    case 0xDA => Instr(UNDOC, 23, 0, 4)
    case 0xDB => Instr(UNDOC, 23, 0, 4)
    case 0xDC => Instr(UNDOC, 23, 0, 4)
    case 0xDD => Instr(UNDOC, 23, 0, 4)
    case 0xDE => Instr(SETBR, 23, 0, 4)
    case 0xDF => Instr(UNDOC, 23, 0, 4)
    case 0xE0 => Instr(UNDOC, 23, 0, 4)
    case 0xE1 => Instr(UNDOC, 23, 0, 4)
    case 0xE2 => Instr(UNDOC, 23, 0, 4)
    case 0xE3 => Instr(UNDOC, 23, 0, 4)
    case 0xE4 => Instr(UNDOC, 23, 0, 4)
    case 0xE5 => Instr(UNDOC, 23, 0, 4)
    case 0xE6 => Instr(SETBR, 23, 0, 4)
    case 0xE7 => Instr(UNDOC, 23, 0, 4)
    case 0xE8 => Instr(UNDOC, 23, 0, 4)
    case 0xE9 => Instr(UNDOC, 23, 0, 4)
    case 0xEA => Instr(UNDOC, 23, 0, 4)
    case 0xEB => Instr(UNDOC, 23, 0, 4)
    case 0xEC => Instr(UNDOC, 23, 0, 4)
    case 0xED => Instr(UNDOC, 23, 0, 4)
    case 0xEE => Instr(SETBR, 23, 0, 4)
    case 0xEF => Instr(UNDOC, 23, 0, 4)
    case 0xF0 => Instr(UNDOC, 23, 0, 4)
    case 0xF1 => Instr(UNDOC, 23, 0, 4)
    case 0xF2 => Instr(UNDOC, 23, 0, 4)
    case 0xF3 => Instr(UNDOC, 23, 0, 4)
    case 0xF4 => Instr(UNDOC, 23, 0, 4)
    case 0xF5 => Instr(UNDOC, 23, 0, 4)
    case 0xF6 => Instr(SETBR, 23, 0, 4)
    case 0xF7 => Instr(UNDOC, 23, 0, 4)
    case 0xF8 => Instr(UNDOC, 23, 0, 4)
    case 0xF9 => Instr(UNDOC, 23, 0, 4)
    case 0xFA => Instr(UNDOC, 23, 0, 4)
    case 0xFB => Instr(UNDOC, 23, 0, 4)
    case 0xFC => Instr(UNDOC, 23, 0, 4)
    case 0xFD => Instr(UNDOC, 23, 0, 4)
    case 0xFE => Instr(SETBR, 23, 0, 4)
    case _ => Instr(UNDOC, 23, 0, 4)
  }

  /**
   * Group 6, FD CB prefix: source lines 1587-1842. Entry for entry it is
   * the DD CB table (the two blocks differ only in their mnemonic strings),
   * since the handlers choose IX or IY from the prefix themselves.
   */
  function Group6(b: int): (e: Instr)
    requires 0 <= b < 256
    ensures e.length == 4 && 20 <= e.cycles1 && e.cycles2 == 0
  {
    Group5(b)
  }

  /** `instSet[i]` for every index the decoder can produce. */
  function Entry(i: int): (e: Instr)
    requires 0 <= i < 0x700
    ensures i < 0x100 ==> e.length <= 3
    ensures 0x100 <= i ==> 2 <= e.length
    ensures 0x100 <= i < 0x200 ==> e.length == 2 && 8 <= e.cycles1
    ensures 0x500 <= i ==> e.length == 4 && 20 <= e.cycles1
    ensures e.cycles2 != 0 ==> i < 0x100 || 0x300 <= i < 0x400
  {
    if i < 0x100 then Group0(i)
    else if i < 0x200 then Group1(i - 0x100)
    else if i < 0x300 then Group2(i - 0x200)
    else if i < 0x400 then Group3(i - 0x300)
    else if i < 0x500 then Group4(i - 0x400)
    else if i < 0x600 then Group5(i - 0x500)
    else Group6(i - 0x600)
  }
}
