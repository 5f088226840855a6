/**
  The four 256-entry opcode tables of the 6502 core and its handler table,
  indexed by opcode byte.
 */
module CpuTables {

  // Addressing modes, numbered from 1 as the iota constants of the source.
  const ModeAbsolute := 1
  const ModeAbsoluteX := 2
  const ModeAbsoluteY := 3
  const ModeAccumulator := 4
  const ModeImmediate := 5
  const ModeImplied := 6
  const ModeIndexedIndirect := 7
  const ModeIndirect := 8
  const ModeIndirectIndexed := 9
  const ModeRelative := 10
  const ModeZeroPage := 11
  const ModeZeroPageX := 12
  const ModeZeroPageY := 13

  /** A table entry of `instruction_modes`: always one of the 13 modes. */
  type ModeCode = m: int | ModeAbsolute <= m <= ModeZeroPageY witness ModeAbsolute

  /** A table entry of `instruction_sizes`: an instruction occupies 0 to 3 bytes
      (0 for most illegal opcodes and for opcode 0x89). */
  type SizeCode = n: int | 0 <= n <= 3

  /** The handler of an opcode, grouped by what it works on: the documented
      6502 instructions in six families, and the illegal opcodes, whose
      handlers panic. */
  datatype TransferOp = LDA | LDX | LDY | STA | STX | STY | TAX | TAY | TSX | TXA | TXS | TYA
  datatype ArithmeticOp =
    ADC | SBC | AND | ORA | EOR | BIT | CMP | CPX | CPY | INC | DEC | INX | INY | DEX | DEY
  datatype ShiftOp = ASL | LSR | ROL | ROR
  datatype JumpOp = BCC | BCS | BEQ | BMI | BNE | BPL | BVC | BVS | JMP | JSR | RTS | RTI | BRK
  datatype StackOp = PHA | PHP | PLA | PLP
  datatype FlagOp = CLC | CLI | CLV | SEC | SEI | CLD | SED | NOP
  datatype IllegalOp =
    AHX | ALR | ANC | ARR | AXS | DCP | ISC | KIL | LAS | LAX
    | RLA | RRA | SAX | SHX | SHY | SLO | SRE | TAS | XAA

  datatype Handler =
    | Transfer(transferOp: TransferOp)
    | Arithmetic(arithmeticOp: ArithmeticOp)
    | Shift(shiftOp: ShiftOp)
    | Jump(jumpOp: JumpOp)
    | Stack(stackOp: StackOp)
    | Flag(flagOp: FlagOp)
    | Illegal(illegalOp: IllegalOp)

  /** The handlers that branch on a status flag. */
  predicate IsBranch(j: JumpOp) {
    match j
    case BCC | BCS | BEQ | BMI | BNE | BPL | BVC | BVS => true
    case JMP | JSR | RTS | RTI | BRK => false
  }

  /** Addressing mode of each opcode. */
  const InstructionModes: seq<ModeCode> :=
    [6, 7, 6, 7, 11, 11, 11, 11, 6, 5, 4, 5, 1, 1, 1, 1] +
    [10, 9, 6, 9, 12, 12, 12, 12, 6, 3, 6, 3, 2, 2, 2, 2] +
    [1, 7, 6, 7, 11, 11, 11, 11, 6, 5, 4, 5, 1, 1, 1, 1] +
    [10, 9, 6, 9, 12, 12, 12, 12, 6, 3, 6, 3, 2, 2, 2, 2] +
    [6, 7, 6, 7, 11, 11, 11, 11, 6, 5, 4, 5, 1, 1, 1, 1] +
    [10, 9, 6, 9, 12, 12, 12, 12, 6, 3, 6, 3, 2, 2, 2, 2] +
    [6, 7, 6, 7, 11, 11, 11, 11, 6, 5, 4, 5, 8, 1, 1, 1] +
    [10, 9, 6, 9, 12, 12, 12, 12, 6, 3, 6, 3, 2, 2, 2, 2] +
    [5, 7, 5, 7, 11, 11, 11, 11, 6, 5, 6, 5, 1, 1, 1, 1] +
    [10, 9, 6, 9, 12, 12, 13, 13, 6, 3, 6, 3, 2, 2, 3, 3] +
    [5, 7, 5, 7, 11, 11, 11, 11, 6, 5, 6, 5, 1, 1, 1, 1] +
    [10, 9, 6, 9, 12, 12, 13, 13, 6, 3, 6, 3, 2, 2, 3, 3] +
    [5, 7, 5, 7, 11, 11, 11, 11, 6, 5, 6, 5, 1, 1, 1, 1] +
    [10, 9, 6, 9, 12, 12, 12, 12, 6, 3, 6, 3, 2, 2, 2, 2] +
    [5, 7, 5, 7, 11, 11, 11, 11, 6, 5, 6, 5, 1, 1, 1, 1] +
    [10, 9, 6, 9, 12, 12, 12, 12, 6, 3, 6, 3, 2, 2, 2, 2]

  /** Size of each instruction in bytes. */
  const InstructionSizes: seq<SizeCode> :=
    [1, 2, 0, 0, 2, 2, 2, 0, 1, 2, 1, 0, 3, 3, 3, 0] +
    [2, 2, 0, 0, 2, 2, 2, 0, 1, 3, 1, 0, 3, 3, 3, 0] +
    [3, 2, 0, 0, 2, 2, 2, 0, 1, 2, 1, 0, 3, 3, 3, 0] +
    [2, 2, 0, 0, 2, 2, 2, 0, 1, 3, 1, 0, 3, 3, 3, 0] +
    [1, 2, 0, 0, 2, 2, 2, 0, 1, 2, 1, 0, 3, 3, 3, 0] +
    [2, 2, 0, 0, 2, 2, 2, 0, 1, 3, 1, 0, 3, 3, 3, 0] +
    [1, 2, 0, 0, 2, 2, 2, 0, 1, 2, 1, 0, 3, 3, 3, 0] +
    [2, 2, 0, 0, 2, 2, 2, 0, 1, 3, 1, 0, 3, 3, 3, 0] +
    [2, 2, 0, 0, 2, 2, 2, 0, 1, 0, 1, 0, 3, 3, 3, 0] +
    [2, 2, 0, 0, 2, 2, 2, 0, 1, 3, 1, 0, 0, 3, 0, 0] +
    [2, 2, 2, 0, 2, 2, 2, 0, 1, 2, 1, 0, 3, 3, 3, 0] +
    [2, 2, 0, 0, 2, 2, 2, 0, 1, 3, 1, 0, 3, 3, 3, 0] +
    [2, 2, 0, 0, 2, 2, 2, 0, 1, 2, 1, 0, 3, 3, 3, 0] +
    [2, 2, 0, 0, 2, 2, 2, 0, 1, 3, 1, 0, 3, 3, 3, 0] +
    [2, 2, 0, 0, 2, 2, 2, 0, 1, 2, 1, 0, 3, 3, 3, 0] +
    [2, 2, 0, 0, 2, 2, 2, 0, 1, 3, 1, 0, 3, 3, 3, 0]

  /** Cycles used by each instruction, not counting a crossed page. */
  const InstructionCycles: seq<nat> :=
    [7, 6, 2, 8, 3, 3, 5, 5, 3, 2, 2, 2, 4, 4, 6, 6] +
    [2, 5, 2, 8, 4, 4, 6, 6, 2, 4, 2, 7, 4, 4, 7, 7] +
    [6, 6, 2, 8, 3, 3, 5, 5, 4, 2, 2, 2, 4, 4, 6, 6] +
    [2, 5, 2, 8, 4, 4, 6, 6, 2, 4, 2, 7, 4, 4, 7, 7] +
    [6, 6, 2, 8, 3, 3, 5, 5, 3, 2, 2, 2, 3, 4, 6, 6] +
    [2, 5, 2, 8, 4, 4, 6, 6, 2, 4, 2, 7, 4, 4, 7, 7] +
    [6, 6, 2, 8, 3, 3, 5, 5, 4, 2, 2, 2, 5, 4, 6, 6] +
    [2, 5, 2, 8, 4, 4, 6, 6, 2, 4, 2, 7, 4, 4, 7, 7] +
    [2, 6, 2, 6, 3, 3, 3, 3, 2, 2, 2, 2, 4, 4, 4, 4] +
    [2, 6, 2, 6, 4, 4, 4, 4, 2, 5, 2, 5, 5, 5, 5, 5] +
    [2, 6, 2, 6, 3, 3, 3, 3, 2, 2, 2, 2, 4, 4, 4, 4] +
    [2, 5, 2, 5, 4, 4, 4, 4, 2, 4, 2, 4, 4, 4, 4, 4] +
    [2, 6, 2, 8, 3, 3, 5, 5, 2, 2, 2, 2, 4, 4, 6, 6] +
    [2, 5, 2, 8, 4, 4, 6, 6, 2, 4, 2, 7, 4, 4, 7, 7] +
    [2, 6, 2, 8, 3, 3, 5, 5, 2, 2, 2, 2, 4, 4, 6, 6] +
    [2, 5, 2, 8, 4, 4, 6, 6, 2, 4, 2, 7, 4, 4, 7, 7]

  /** Extra cycles used by each instruction when its operand crosses a page. */
  const InstructionPageCycles: seq<nat> :=
    [0, 0, 0, 0, 0, 0, 0, 0, 0, 0, 0, 0, 0, 0, 0, 0] +
    [1, 1, 0, 0, 0, 0, 0, 0, 0, 1, 0, 0, 1, 1, 0, 0] +
    [0, 0, 0, 0, 0, 0, 0, 0, 0, 0, 0, 0, 0, 0, 0, 0] +
    [1, 1, 0, 0, 0, 0, 0, 0, 0, 1, 0, 0, 1, 1, 0, 0] +
    [0, 0, 0, 0, 0, 0, 0, 0, 0, 0, 0, 0, 0, 0, 0, 0] +
    [1, 1, 0, 0, 0, 0, 0, 0, 0, 1, 0, 0, 1, 1, 0, 0] +
    [0, 0, 0, 0, 0, 0, 0, 0, 0, 0, 0, 0, 0, 0, 0, 0] +
    [1, 1, 0, 0, 0, 0, 0, 0, 0, 1, 0, 0, 1, 1, 0, 0] +
    [0, 0, 0, 0, 0, 0, 0, 0, 0, 0, 0, 0, 0, 0, 0, 0] +
    [1, 0, 0, 0, 0, 0, 0, 0, 0, 0, 0, 0, 0, 0, 0, 0] +
    [0, 0, 0, 0, 0, 0, 0, 0, 0, 0, 0, 0, 0, 0, 0, 0] +
    [1, 1, 0, 1, 0, 0, 0, 0, 0, 1, 0, 1, 1, 1, 1, 1] +
    [0, 0, 0, 0, 0, 0, 0, 0, 0, 0, 0, 0, 0, 0, 0, 0] +
    [1, 1, 0, 0, 0, 0, 0, 0, 0, 1, 0, 0, 1, 1, 0, 0] +
    [0, 0, 0, 0, 0, 0, 0, 0, 0, 0, 0, 0, 0, 0, 0, 0] +
    [1, 1, 0, 0, 0, 0, 0, 0, 0, 1, 0, 0, 1, 1, 0, 0]

  /** The handler run for each opcode. */
  const Instructions: seq<Handler> :=
    [Jump(BRK), Arithmetic(ORA), Illegal(KIL), Illegal(SLO), Flag(NOP), Arithmetic(ORA), Shift(ASL), Illegal(SLO),
     Stack(PHP), Arithmetic(ORA), Shift(ASL), Illegal(ANC), Flag(NOP), Arithmetic(ORA), Shift(ASL), Illegal(SLO)] +
    [Jump(BPL), Arithmetic(ORA), Illegal(KIL), Illegal(SLO), Flag(NOP), Arithmetic(ORA), Shift(ASL), Illegal(SLO),
     Flag(CLC), Arithmetic(ORA), Flag(NOP), Illegal(SLO), Flag(NOP), Arithmetic(ORA), Shift(ASL), Illegal(SLO)] +
    [Jump(JSR), Arithmetic(AND), Illegal(KIL), Illegal(RLA), Arithmetic(BIT), Arithmetic(AND), Shift(ROL), Illegal(RLA),
     Stack(PLP), Arithmetic(AND), Shift(ROL), Illegal(ANC), Arithmetic(BIT), Arithmetic(AND), Shift(ROL), Illegal(RLA)] +
    [Jump(BMI), Arithmetic(AND), Illegal(KIL), Illegal(RLA), Flag(NOP), Arithmetic(AND), Shift(ROL), Illegal(RLA),
     Flag(SEC), Arithmetic(AND), Flag(NOP), Illegal(RLA), Flag(NOP), Arithmetic(AND), Shift(ROL), Illegal(RLA)] +
    [Jump(RTI), Arithmetic(EOR), Illegal(KIL), Illegal(SRE), Flag(NOP), Arithmetic(EOR), Shift(LSR), Illegal(SRE),
     Stack(PHA), Arithmetic(EOR), Shift(LSR), Illegal(ALR), Jump(JMP), Arithmetic(EOR), Shift(LSR), Illegal(SRE)] +
    [Jump(BVC), Arithmetic(EOR), Illegal(KIL), Illegal(SRE), Flag(NOP), Arithmetic(EOR), Shift(LSR), Illegal(SRE),
     Flag(CLI), Arithmetic(EOR), Flag(NOP), Illegal(SRE), Flag(NOP), Arithmetic(EOR), Shift(LSR), Illegal(SRE)] +
    [Jump(RTS), Arithmetic(ADC), Illegal(KIL), Illegal(RRA), Flag(NOP), Arithmetic(ADC), Shift(ROR), Illegal(RRA),
     Stack(PLA), Arithmetic(ADC), Shift(ROR), Illegal(ARR), Jump(JMP), Arithmetic(ADC), Shift(ROR), Illegal(RRA)] +
    [Jump(BVS), Arithmetic(ADC), Illegal(KIL), Illegal(RRA), Flag(NOP), Arithmetic(ADC), Shift(ROR), Illegal(RRA),
     Flag(SEI), Arithmetic(ADC), Flag(NOP), Illegal(RRA), Flag(NOP), Arithmetic(ADC), Shift(ROR), Illegal(RRA)] +
    [Flag(NOP), Transfer(STA), Flag(NOP), Illegal(SAX), Transfer(STY), Transfer(STA), Transfer(STX), Illegal(SAX),
     Arithmetic(DEY), Flag(NOP), Transfer(TXA), Illegal(XAA), Transfer(STY), Transfer(STA), Transfer(STX), Illegal(SAX)] +
    [Jump(BCC), Transfer(STA), Illegal(KIL), Illegal(AHX), Transfer(STY), Transfer(STA), Transfer(STX), Illegal(SAX),
     Transfer(TYA), Transfer(STA), Transfer(TXS), Illegal(TAS), Illegal(SHY), Transfer(STA), Illegal(SHX), Illegal(AHX)] +
    [Transfer(LDY), Transfer(LDA), Transfer(LDX), Illegal(LAX), Transfer(LDY), Transfer(LDA), Transfer(LDX), Illegal(LAX),
     Transfer(TAY), Transfer(LDA), Transfer(TAX), Illegal(LAX), Transfer(LDY), Transfer(LDA), Transfer(LDX), Illegal(LAX)] +
    [Jump(BCS), Transfer(LDA), Illegal(KIL), Illegal(LAX), Transfer(LDY), Transfer(LDA), Transfer(LDX), Illegal(LAX),
     Flag(CLV), Transfer(LDA), Transfer(TSX), Illegal(LAS), Transfer(LDY), Transfer(LDA), Transfer(LDX), Illegal(LAX)] +
    [Arithmetic(CPY), Arithmetic(CMP), Flag(NOP), Illegal(DCP), Arithmetic(CPY), Arithmetic(CMP), Arithmetic(DEC), Illegal(DCP),
     Arithmetic(INY), Arithmetic(CMP), Arithmetic(DEX), Illegal(AXS), Arithmetic(CPY), Arithmetic(CMP), Arithmetic(DEC), Illegal(DCP)] +
    [Jump(BNE), Arithmetic(CMP), Illegal(KIL), Illegal(DCP), Flag(NOP), Arithmetic(CMP), Arithmetic(DEC), Illegal(DCP),
     Flag(CLD), Arithmetic(CMP), Flag(NOP), Illegal(DCP), Flag(NOP), Arithmetic(CMP), Arithmetic(DEC), Illegal(DCP)] +
    [Arithmetic(CPX), Arithmetic(SBC), Flag(NOP), Illegal(ISC), Arithmetic(CPX), Arithmetic(SBC), Arithmetic(INC), Illegal(ISC),
     Arithmetic(INX), Arithmetic(SBC), Flag(NOP), Arithmetic(SBC), Arithmetic(CPX), Arithmetic(SBC), Arithmetic(INC), Illegal(ISC)] +
    [Jump(BEQ), Arithmetic(SBC), Illegal(KIL), Illegal(ISC), Flag(NOP), Arithmetic(SBC), Arithmetic(INC), Illegal(ISC),
     Flag(SED), Arithmetic(SBC), Flag(NOP), Illegal(ISC), Flag(NOP), Arithmetic(SBC), Arithmetic(INC), Illegal(ISC)]

  lemma TablesCoverEveryOpcode()
    ensures |InstructionModes| == |InstructionSizes| == |InstructionCycles| == 0x100
    ensures |InstructionPageCycles| == |Instructions| == 0x100
  {
  }
}
