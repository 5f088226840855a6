/**
  The 6502 engine as a function of its state: the registers, the cycle
  countdown, the pending interrupt and a 64 KB byte memory standing for the
  mapper behind `MMC`. Each function here is what one piece of the engine
  does to that state; the `Cpu` class in cpu.dfy does the same step by step
  and is proved equal to it.
 */
module CpuSpec {
  import opened Bits
  import opened CpuTables
  import opened CpuAlu
  import Mmc1

  // Interrupt kinds, numbered from 1 as the iota constants of the source. A
  // freshly allocated cpu holds 0, which is none of them.
  const InterruptNone := 1
  const InterruptNmi := 2
  const InterruptIrq := 3
  const InterruptBrk := 4

  const StackStart: Word := 0x100

  /** The memory behind the mapper, one byte per 16-bit address. */
  type Memory = m: seq<Byte> | |m| == 0x1_0000 witness seq(0x1_0000, _ => 0)

  datatype CpuState = CpuState(
    a: Byte, x: Byte, y: Byte, s: Byte, p: Byte, pc: Word,
    waitCycles: nat, interrupt: int, mem: Memory)

  // ---------------------------------------------------------------------------
  // 16-bit memory access, as the MMC1 mapper defines it
  // ---------------------------------------------------------------------------

  /** `GetAddress`: the byte at a is the high byte, the one after it the low. */
  function LoadAddress(mem: Memory, a: Word): Word {
    Mmc1.JoinAddress(mem[a], mem[Wrap16(a + 1)])
  }

  /** `SetAddress`: the low nibble of v at a, the high byte of v after it. */
  function StoreAddress(mem: Memory, a: Word, v: Word): Memory {
    mem[a := Mmc1.StoredFirst(v)][Wrap16(a + 1) := Mmc1.StoredSecond(v)]
  }

  /** GetAddress reads the two bytes high first: the stored cells come back
      as the swizzled value. */
  lemma StoreThenLoadAddress(mem: Memory, a: Word, v: Word)
    ensures LoadAddress(StoreAddress(mem, a, v), a) == Mmc1.Swizzled(v)
  {
    var m := StoreAddress(mem, a, v);
    assert m[a] == Mmc1.StoredFirst(v) && m[Wrap16(a + 1)] == Mmc1.StoredSecond(v);
  }

  /** SetAddress changes the two cells at a and a + 1 and no other. */
  lemma StoreAddressFrame(mem: Memory, a: Word, v: Word, i: Word)
    requires i != a && i != Wrap16(a + 1)
    ensures StoreAddress(mem, a, v)[i] == mem[i]
  {
  }

  // ---------------------------------------------------------------------------
  // The stack
  // ---------------------------------------------------------------------------

  /** push: store at 0x100 + S, then S decrements modulo 256. */
  function Push(st: CpuState, v: Byte): CpuState {
    st.(mem := st.mem[StackStart + st.s := v], s := Wrap8(st.s as int - 1))
  }

  /** pushAddress: SetAddress at 0x100 + S - 1, then S drops by 2 modulo 256. */
  function PushAddress(st: CpuState, v: Word): CpuState {
    st.(mem := StoreAddress(st.mem, StackStart + st.s - 1, v), s := Wrap8(st.s as int - 2))
  }

  /** pop: S increments modulo 256, then the byte at 0x100 + S. */
  function Pop(st: CpuState): (Byte, CpuState) {
    var s1 := Wrap8(st.s as int + 1);
    (st.mem[StackStart + s1], st.(s := s1))
  }

  /** popAddress: S increments, GetAddress at 0x100 + S, S increments again. */
  function PopAddress(st: CpuState): (Word, CpuState) {
    var s1 := Wrap8(st.s as int + 1);
    (LoadAddress(st.mem, StackStart + s1), st.(s := Wrap8(s1 as int + 1)))
  }

  lemma StackArith(s: int, k: int)
    requires 0 <= s < 0x100 && 0 <= k < 0x100
    ensures ((s - k) % 0x100 + k) % 0x100 == s
  {
    if s >= k {
      assert (s - k) % 0x100 == s - k;
    } else {
      assert (s - k) % 0x100 == s - k + 0x100;
    }
  }

  /** pop returns what push stored and restores S; only the stack cell changed. */
  lemma PushThenPop(st: CpuState, v: Byte)
    ensures Pop(Push(st, v)) == (v, st.(mem := st.mem[StackStart + st.s := v]))
  {
    StackArith(st.s, 1);
  }

  /** pushAddress lowers S by 2 and popAddress raises it by 2, so S comes back;
      the address comes back swizzled, and only if the two cells did not
      straddle the stack page (S = 0 writes 0xFF and 0x100). */
  lemma PushAddressThenPopAddress(st: CpuState, v: Word)
    requires st.s != 0
    ensures var (w, st2) := PopAddress(PushAddress(st, v));
      w == Mmc1.Swizzled(v) && st2.s == st.s &&
      st2.mem == StoreAddress(st.mem, StackStart + st.s - 1, v)
  {
    var st1 := PushAddress(st, v);
    StackArith(st.s, 2);
    assert Wrap8(st1.s as int + 1) == st.s - 1;
    StoreThenLoadAddress(st.mem, StackStart + st.s - 1, v);
  }

  /** The case PushAddressThenPopAddress leaves out: with S = 0, pushAddress
      writes 0xFF and 0x100, below the stack page, while popAddress reads
      0x1FF and 0x200, which the push did not touch. S still comes back, but
      the word popped is what those two cells held before. */
  lemma PushAddressAtBottom(st: CpuState, v: Word)
    requires st.s == 0
    ensures PushAddress(st, v).mem == StoreAddress(st.mem, 0xFF, v)
    ensures var (w, st2) := PopAddress(PushAddress(st, v));
      st2.s == 0 && w == LoadAddress(st.mem, 0x1FF)
  {
    StoreAddressFrame(st.mem, 0xFF, v, 0x1FF);
    StoreAddressFrame(st.mem, 0xFF, v, 0x200);
  }

  // ---------------------------------------------------------------------------
  // Operand addresses
  // ---------------------------------------------------------------------------

  lemma PageArith(a: nat, b: nat)
    requires a < 0x1_0000 && b < 0x1_0000
    ensures (a / 0x100) % 0x100 * 0x100 == (b / 0x100) % 0x100 * 0x100 <==> a / 0x100 == b / 0x100
  {
  }

  /** pages_differ: the two addresses lie in different 256-byte pages. */
  function PagesDiffer(a: Word, b: Word): bool
  {
    a / 0x100 != b / 0x100
  }

  /** The source compares `a & 0xFF00` with `b & 0xFF00`; masking off the
      low byte compares exactly the pages. */
  lemma PagesDifferIsMask(a: Word, b: Word)
    ensures PagesDiffer(a, b) <==> And16(a, 0xFF00) != And16(b, 0xFF00)
  {
    Pow2Widths();
    AndFieldMask(a, 8, 8, 16);
    AndFieldMask(b, 8, 8, 16);
    PageArith(a, b);
  }

  lemma IndexArith(base: int, index: int)
    requires 0 <= base < 0x1_0000 && 0 <= index < 0x100
    ensures ((base + index) % 0x1_0000 - index) % 0x1_0000 == base
  {
    if base + index >= 0x1_0000 {
      assert (base + index) % 0x1_0000 == base + index - 0x1_0000;
    }
  }

  /** An indexed address, `base + uint16(index)`, and whether it left the
      base's page, tested as `pages_differ(address - index, address)`. */
  function Indexed(base: Word, index: Byte): (r: (Word, bool))
    ensures r.0 == (base + index) % 0x1_0000
    ensures r.1 <==> base / 0x100 != r.0 / 0x100
  {
    var address := Wrap16(base + index);
    IndexArith(base, index);
    (address, PagesDiffer(Wrap16(address - index), address))
  }

  /** The relative-mode target: PC + 2 plus the offset read as a signed byte,
      modulo 65536. */
  function RelativeTarget(pc: Word, offset: Byte): (r: Word)
    ensures r == (pc + 2 + Signed(offset)) % 0x1_0000
  {
    if offset < 0x80 then Wrap16(pc + 2 + offset) else Wrap16(pc + 2 + offset - 0x100)
  }

  /** The operand address of each mode, read at PC (already past the
      opcode), and whether an indexed mode crossed a page. Zero-page sums
      wrap at 8 bits. */
  function Operand(st: CpuState, mode: ModeCode): (r: (Word, bool))
    ensures mode != ModeAbsoluteX && mode != ModeAbsoluteY && mode != ModeIndirectIndexed ==> !r.1
    ensures mode == ModeZeroPage || mode == ModeZeroPageX || mode == ModeZeroPageY ==> r.0 < 0x100
    ensures mode == ModeImmediate ==> r.0 == st.pc
    ensures mode == ModeRelative ==> r.0 == (st.pc + 2 + Signed(st.mem[st.pc])) % 0x1_0000
  {
    var pc := st.pc;
    var m := st.mem;
    if mode == ModeAbsolute then (LoadAddress(m, pc), false)
    else if mode == ModeAbsoluteX then Indexed(LoadAddress(m, pc), st.x)
    else if mode == ModeAbsoluteY then Indexed(LoadAddress(m, pc), st.y)
    else if mode == ModeAccumulator then (0, false)
    else if mode == ModeImmediate then (pc, false)
    else if mode == ModeImplied then (0, false)
    else if mode == ModeIndexedIndirect then (LoadAddress(m, Wrap8(m[pc] + st.x)), false)
    else if mode == ModeIndirect then (LoadAddress(m, LoadAddress(m, pc)), false)
    else if mode == ModeIndirectIndexed then Indexed(LoadAddress(m, m[pc]), st.y)
    else if mode == ModeRelative then (RelativeTarget(pc, m[pc]), false)
    else if mode == ModeZeroPage then (m[pc], false)
    else if mode == ModeZeroPageX then (Wrap8(m[pc] + st.x), false)
    else (Wrap8(m[pc] + st.y), false)
  }

  // ---------------------------------------------------------------------------
  // Branches
  // ---------------------------------------------------------------------------

  lemma BranchArith(addr: int, next: int)
    requires 0 <= addr < 0x1_0000 && next == (addr + 1) % 0x1_0000
    ensures next / 0x100 != addr / 0x100 <==> addr % 0x100 == 0xFF
    ensures (next + 1) % 0x1_0000 == (addr + 2) % 0x1_0000
  {
    if addr == 0xFFFF {
      assert next == 0;
    } else {
      assert next == addr + 1;
    }
  }

  /** A taken branch: `PC = addr`, then add_branch_wait increments PC, and
      increments it again when that left addr's page. PC ends one or two
      bytes past the target. */
  function BranchTaken(addr: Word): (r: Word)
    ensures r == if addr % 0x100 == 0xFF then (addr + 2) % 0x1_0000 else (addr + 1) % 0x1_0000
  {
    var pc := Wrap16(addr + 1);
    BranchArith(addr, pc);
    if PagesDiffer(pc, addr) then Wrap16(pc + 1) else pc
  }

  /** The flag test of each branch handler. */
  predicate BranchCondition(op: JumpOp, p: Byte)
    requires IsBranch(op)
  {
    match op
    case BCC => !GetFlag(p, FlagC)
    case BCS => GetFlag(p, FlagC)
    case BEQ => GetFlag(p, FlagZ)
    case BMI => GetFlag(p, FlagN)
    case BNE => !GetFlag(p, FlagZ)
    case BPL => !GetFlag(p, FlagN)
    case BVC => !GetFlag(p, FlagV)
    case BVS => GetFlag(p, FlagV)
  }

  /** The bits of P each branch tests; BVS and BVC test the three bits the
      V mask covers. */
  lemma BranchConditionBits(p: Byte)
    ensures BranchCondition(BCC, p) == !Bit(p, 0) && BranchCondition(BCS, p) == Bit(p, 0)
    ensures BranchCondition(BEQ, p) == Bit(p, 1) && BranchCondition(BNE, p) == !Bit(p, 1)
    ensures BranchCondition(BMI, p) == Bit(p, 3) && BranchCondition(BPL, p) == !Bit(p, 3)
    ensures BranchCondition(BVS, p) == (Bit(p, 0) || Bit(p, 1) || Bit(p, 2))
    ensures BranchCondition(BVC, p) == !(Bit(p, 0) || Bit(p, 1) || Bit(p, 2))
  {
    FlagReads(p);
  }

  // ---------------------------------------------------------------------------
  // The handlers
  // ---------------------------------------------------------------------------

  /** The operand of asl, lsr, rol and ror: A in accumulator mode, else memory. */
  function ShiftOperand(st: CpuState, mode: ModeCode, addr: Word): Byte {
    if mode == ModeAccumulator then st.a else st.mem[addr]
  }

  /** Where asl, lsr, rol and ror put their result, with the new P. */
  function ShiftStore(st: CpuState, mode: ModeCode, addr: Word, r: AluResult): CpuState {
    if mode == ModeAccumulator then st.(a := r.value, p := r.p)
    else st.(mem := st.mem[addr := r.value], p := r.p)
  }

  /** A register load: the value, and ZN from it. */
  function LoadA(st: CpuState, v: Byte): CpuState {
    st.(a := v, p := SetZN(st.p, v))
  }

  /** Loads, stores and register transfers; each load and transfer into a
      register other than memory sets ZN from the value (TXS too). */
  function ExecTransfer(st: CpuState, op: TransferOp, addr: Word): (r: CpuState)
    ensures r.waitCycles == st.waitCycles && r.interrupt == st.interrupt && r.pc == st.pc
  {
    match op
    case LDA => LoadA(st, st.mem[addr])
    case LDX => st.(x := st.mem[addr], p := SetZN(st.p, st.mem[addr]))
    case LDY => st.(y := st.mem[addr], p := SetZN(st.p, st.mem[addr]))
    case STA => st.(mem := st.mem[addr := st.a])
    case STX => st.(mem := st.mem[addr := st.x])
    case STY => st.(mem := st.mem[addr := st.y])
    case TAX => st.(x := st.a, p := SetZN(st.p, st.a))
    case TAY => st.(y := st.a, p := SetZN(st.p, st.a))
    case TSX => st.(x := st.s, p := SetZN(st.p, st.s))
    case TXA => st.(a := st.x, p := SetZN(st.p, st.x))
    case TXS => st.(s := st.x, p := SetZN(st.p, st.x))
    case TYA => st.(a := st.y, p := SetZN(st.p, st.y))
  }

  /** adc, sbc, the logic operations, bit, the compares, and the increments
      and decrements of memory and of X and Y. */
  function ExecArithmetic(st: CpuState, op: ArithmeticOp, addr: Word): (r: CpuState)
    ensures r.waitCycles == st.waitCycles && r.interrupt == st.interrupt && r.pc == st.pc
  {
    match op
    case ADC =>
      var r := AddWithCarry(st.a, st.mem[addr], st.p);
      st.(a := r.value, p := r.p)
    case SBC =>
      var r := SubtractWithBorrow(st.a, st.mem[addr], st.p);
      st.(a := r.value, p := r.p)
    case AND => LoadA(st, And8(st.a, st.mem[addr]))
    case ORA => LoadA(st, Or8(st.a, st.mem[addr]))
    case EOR => LoadA(st, Xor8(st.a, st.mem[addr]))
    case BIT => st.(p := BitTest(st.a, st.mem[addr], st.p))
    case CMP => st.(p := Compare(st.a, st.mem[addr], st.p))
    case CPX => st.(p := Compare(st.x, st.mem[addr], st.p))
    case CPY => st.(p := Compare(st.y, st.mem[addr], st.p))
    case INC =>
      var r := Increment(st.mem[addr], st.p);
      st.(mem := st.mem[addr := r.value], p := r.p)
    case DEC =>
      var r := Decrement(st.mem[addr], st.p);
      st.(mem := st.mem[addr := r.value], p := r.p)
    case INX => var r := Increment(st.x, st.p); st.(x := r.value, p := r.p)
    case INY => var r := Increment(st.y, st.p); st.(y := r.value, p := r.p)
    case DEX => var r := Decrement(st.x, st.p); st.(x := r.value, p := r.p)
    case DEY => var r := Decrement(st.y, st.p); st.(y := r.value, p := r.p)
  }

  /** asl, lsr, rol and ror, on A or on memory as the mode says. */
  function ExecShift(st: CpuState, op: ShiftOp, addr: Word, mode: ModeCode): (r: CpuState)
    ensures r.waitCycles == st.waitCycles && r.interrupt == st.interrupt && r.pc == st.pc
  {
    var v := ShiftOperand(st, mode, addr);
    match op
    case ASL => ShiftStore(st, mode, addr, ShiftLeft(v, st.p))
    case LSR => ShiftStore(st, mode, addr, CpuAlu.ShiftRight(v, st.p))
    case ROL => ShiftStore(st, mode, addr, RotateLeft(v, st.p))
    case ROR => ShiftStore(st, mode, addr, RotateRight(v, st.p))
  }

  /** The branches, jmp, jsr, rts, rti, and brk, which only raises the
      interrupt the next tick services. */
  function ExecJump(st: CpuState, op: JumpOp, addr: Word): (r: CpuState)
    ensures r.waitCycles == st.waitCycles
    ensures r.interrupt == if op == BRK then InterruptBrk else st.interrupt
  {
    match op
    case BCC | BCS | BEQ | BMI | BNE | BPL | BVC | BVS =>
      if BranchCondition(op, st.p) then st.(pc := BranchTaken(addr)) else st
    case JMP => st.(pc := addr)
    case JSR => PushAddress(st, Wrap16(st.pc as int - 1)).(pc := addr)
    case RTS =>
      var (pc, st1) := PopAddress(st);
      st1.(pc := Wrap16(pc + 1))
    case RTI =>
      var (p, st1) := Pop(st);
      var (pc, st2) := PopAddress(st1.(p := p));
      st2.(pc := pc)
    case BRK => st.(interrupt := InterruptBrk)
  }

  /** pha, php, pla (with ZN from the pulled byte) and plp. */
  function ExecStack(st: CpuState, op: StackOp): (r: CpuState)
    ensures r.waitCycles == st.waitCycles && r.interrupt == st.interrupt && r.pc == st.pc
  {
    match op
    case PHA => Push(st, st.a)
    case PHP => Push(st, st.p)
    case PLA =>
      var (v, st1) := Pop(st);
      st1.(a := v, p := SetZN(st1.p, v))
    case PLP =>
      var (v, st1) := Pop(st);
      st1.(p := v)
  }

  /** The flag instructions; cld, sed and nop have empty handlers. */
  function ExecFlag(st: CpuState, op: FlagOp): (r: CpuState)
    ensures r.waitCycles == st.waitCycles && r.interrupt == st.interrupt && r.pc == st.pc
  {
    match op
    case CLC => st.(p := SetFlag(st.p, FlagC, false))
    case CLI => st.(p := SetFlag(st.p, FlagI, false))
    case CLV => st.(p := SetFlag(st.p, FlagV, false))
    case SEC => st.(p := SetFlag(st.p, FlagC, true))
    case SEI => st.(p := SetFlag(st.p, FlagI, true))
    case CLD | SED | NOP => st
  }

  /** The handler of each documented opcode applied to the operand address.
      No handler touches the cycle count, only BRK raises an interrupt, and
      only the branches and jumps set PC. */
  function Exec(st: CpuState, h: Handler, addr: Word, mode: ModeCode): (r: CpuState)
    requires !h.Illegal?
    ensures r.waitCycles == st.waitCycles
    ensures r.interrupt == if h == Jump(BRK) then InterruptBrk else st.interrupt
    ensures !h.Jump? ==> r.pc == st.pc
  {
    match h
    case Transfer(op) => ExecTransfer(st, op, addr)
    case Arithmetic(op) => ExecArithmetic(st, op, addr)
    case Shift(op) => ExecShift(st, op, addr, mode)
    case Jump(op) => ExecJump(st, op, addr)
    case Stack(op) => ExecStack(st, op)
    case Flag(op) => ExecFlag(st, op)
  }

  // ---------------------------------------------------------------------------
  // Interrupts and the tick
  // ---------------------------------------------------------------------------

  /** NMI and IRQ entry: push PC and P, set I, clear B, jump through the vector. */
  function Enter(st: CpuState, vector: Word): CpuState {
    var st1 := Push(PushAddress(st, st.pc), st.p);
    var p := SetFlag(SetFlag(st1.p, FlagI, true), FlagB, false);
    st1.(p := p, pc := LoadAddress(st1.mem, vector))
  }

  /** The interrupt switch at the top of a tick. IRQ and BRK are skipped
      while the I mask reads set. BRK sets B and steps PC before pushing. */
  function ServiceInterrupt(st: CpuState): CpuState {
    if st.interrupt == InterruptNmi then Enter(st, 0xFFFA)
    else if st.interrupt == InterruptIrq then
      if !GetFlag(st.p, FlagI) then Enter(st, 0xFFFE) else st
    else if st.interrupt == InterruptBrk then
      if !GetFlag(st.p, FlagI) then EnterBrk(st) else st
    else st
  }

  /** The BRK entry: B is set and PC stepped before the pushes, so the pushed
      status has B set, and B stays set. */
  function EnterBrk(st: CpuState): CpuState {
    var st0 := st.(p := SetFlag(st.p, FlagB, true), pc := Wrap16(st.pc + 1));
    var st1 := Push(PushAddress(st0, st0.pc), st0.p);
    st1.(p := SetFlag(st1.p, FlagI, true), pc := LoadAddress(st1.mem, 0xFFFE))
  }

  /** The interrupt switch, then 7 cycles for any interrupt value other than
      none (even one that was skipped), then the interrupt is cleared. */
  function Service(st: CpuState): (r: CpuState)
    ensures r.interrupt == InterruptNone
    ensures r.waitCycles == st.waitCycles + if st.interrupt != InterruptNone then 7 else 0
  {
    var st1 := ServiceInterrupt(st);
    st1.(waitCycles := st1.waitCycles + (if st.interrupt != InterruptNone then 7 else 0),
         interrupt := InterruptNone)
  }

  datatype Fetched = Fetched(opcode: Byte, handler: Handler, mode: ModeCode, addr: Word, state: CpuState)

  lemma PcArith(pc: int, size: int)
    requires 0 <= pc < 0x1_0000 && 0 <= size <= 3
    ensures ((pc + 1) % 0x1_0000 + size - 1) % 0x1_0000 == (pc + size) % 0x1_0000
  {
    if pc == 0xFFFF {
      assert (pc + 1) % 0x1_0000 == 0;
    }
  }

  /** The decode of one opcode given its table entries: the operand read
      past the opcode, PC moved past the whole instruction, and the cycles
      added, plus the page-cross cycles when an indexed mode crossed a page. */
  function Decode(st: CpuState, op: Byte, mode: ModeCode, size: SizeCode, cycles: nat, pageCycles: nat): (f: Fetched)
    ensures f.opcode == op && f.mode == mode
    ensures f.addr == Operand(st.(pc := Wrap16(st.pc + 1)), mode).0
    ensures f.state.pc == (st.pc + size) % 0x1_0000
    ensures f.state.waitCycles == st.waitCycles + cycles +
      if Operand(st.(pc := Wrap16(st.pc + 1)), mode).1 then pageCycles else 0
    ensures f.state == st.(pc := f.state.pc, waitCycles := f.state.waitCycles)
  {
    var st1 := st.(pc := Wrap16(st.pc + 1));
    var (addr, crossed) := Operand(st1, mode);
    PcArith(st.pc, size);
    var st2 := st1.(pc := Wrap16(st1.pc + size - 1),
                    waitCycles := st1.waitCycles + cycles + (if crossed then pageCycles else 0));
    Fetched(op, Flag(NOP), mode, addr, st2)
  }

  /** Decode, given the operand the mode resolves to. */
  lemma DecodeResolved(st: CpuState, op: Byte, mode: ModeCode, size: SizeCode, cycles: nat, pageCycles: nat,
                       addr: Word, crossed: bool)
    requires (addr, crossed) == Operand(st.(pc := Wrap16(st.pc + 1)), mode)
    ensures Decode(st, op, mode, size, cycles, pageCycles) ==
      Fetched(op, Flag(NOP), mode, addr,
              st.(pc := Wrap16(Wrap16(st.pc + 1) + size - 1),
                  waitCycles := st.waitCycles + cycles + (if crossed then pageCycles else 0)))
  {
  }

  /** The fetch: the opcode at PC, decoded with its entries of the tables. */
  function Fetch(st: CpuState): (f: Fetched)
    ensures f.opcode == st.mem[st.pc] && f.handler == Instructions[f.opcode]
    ensures f == Decode(st, f.opcode, InstructionModes[f.opcode], InstructionSizes[f.opcode],
                        InstructionCycles[f.opcode], InstructionPageCycles[f.opcode]).(handler := f.handler)
  {
    var op := st.mem[st.pc];
    var f := Decode(st, op, InstructionModes[op], InstructionSizes[op],
                    InstructionCycles[op], InstructionPageCycles[op]);
    f.(handler := Instructions[op])
  }

  /** The outcome of a tick: the new state, or the panic of an illegal
      opcode's handler, with the state it left behind. */
  datatype TickResult = Ran(state: CpuState) | Panicked(opcode: Byte, state: CpuState)

  function Tick(st: CpuState): TickResult {
    if st.waitCycles > 0 then Ran(st.(waitCycles := st.waitCycles - 1))
    else
      var f := Fetch(Service(st));
      if f.handler.Illegal? then Panicked(f.opcode, f.state)
      else Ran(Exec(f.state, f.handler, f.addr, f.mode))
  }

  /** PowerOn: registers cleared, S = 0xFD, P = FlagZ | FlagR, PC from the
      reset vector, no pending cycles, and zero written to the frame
      counter, the APU status and the first pulse register. */
  function PowerOn(st: CpuState): CpuState {
    var st1 := st.(a := 0, x := 0, y := 0, s := 0xFD, p := Or8(FlagZ, FlagR),
                   pc := LoadAddress(st.mem, 0xFFFC), waitCycles := 0);
    st1.(mem := st1.mem[0x4017 := 0][0x4015 := 0][0x4000 := 0])
  }

  /** Reset: S drops by 3 modulo 256, P gets FlagI ORed in, PC from the
      reset vector, and zero written to the APU status. */
  function Reset(st: CpuState): CpuState {
    st.(s := Wrap8(st.s as int - 3), p := Or8(st.p, FlagI),
        pc := LoadAddress(st.mem, 0xFFFC), mem := st.mem[0x4015 := 0])
  }
}
