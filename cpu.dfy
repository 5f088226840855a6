/**
  The `cpu` object: its registers change field by field and its memory cell
  by cell, as the Go methods do. Each method is proved to leave the state
  that the matching function of CpuSpec computes, so the properties proved
  there (cpu_props.dfy) hold of the object too.
 */
module Cpu {
  import opened Bits
  import opened CpuTables
  import opened CpuAlu
  import opened CpuSpec
  import Mmc1

  class Cpu {
    var A: Byte
    var X: Byte
    var Y: Byte
    var S: Byte
    var P: Byte
    var PC: Word
    var waitCycles: nat
    var interrupt: int
    /** The memory the mapper presents at each 16-bit address. */
    const mem: array<Byte>

    ghost predicate Valid()
      reads this
    {
      mem.Length == 0x1_0000
    }

    /** The object's state as a value. */
    function State(): CpuState
      requires Valid()
      reads this, mem
    {
      CpuState(A, X, Y, S, P, PC, waitCycles, interrupt, Memory())
    }

    /** The memory as a value. */
    function Memory(): seq<Byte>
      reads mem
    {
      mem[..]
    }

    /** A cpu as Go allocates it: every field zero, so the pending interrupt
        is 0, which is not interruptNone. */
    constructor (m: array<Byte>)
      requires m.Length == 0x1_0000
      ensures Valid() && mem == m
      ensures State() == CpuState(0, 0, 0, 0, 0, 0, 0, 0, m[..])
    {
      A, X, Y, S, P, PC := 0, 0, 0, 0, 0, 0;
      waitCycles, interrupt := 0, 0;
      mem := m;
    }

    // -------------------------------------------------------------------------
    // Memory through the mapper
    // -------------------------------------------------------------------------

    /** MMC.GetAddress: the byte at a is the high one. */
    method GetAddress(a: Word) returns (w: Word)
      requires Valid()
      ensures w == LoadAddress(mem[..], a)
    {
      w := Mmc1.JoinAddress(mem[a], mem[Wrap16(a + 1)]);
    }

    /** MMC.Set: one byte written at a. */
    method Set(a: Word, v: Byte)
      requires Valid()
      modifies mem
      ensures Memory() == old(Memory())[a := v]
    {
      mem[a] := v;
    }

    /** MMC.SetAddress: the low nibble at a, the high byte at a + 1. */
    method SetAddress(a: Word, v: Word)
      requires Valid()
      modifies mem
      ensures mem[..] == StoreAddress(old(mem[..]), a, v)
    {
      mem[a] := Mmc1.StoredFirst(v);
      mem[Wrap16(a + 1)] := Mmc1.StoredSecond(v);
    }

    // -------------------------------------------------------------------------
    // The stack and the flags
    // -------------------------------------------------------------------------

    method Push(v: Byte)
      requires Valid()
      modifies this, mem
      ensures Valid() && State() == CpuSpec.Push(old(State()), v)
    {
      mem[StackStart + S] := v;
      S := Wrap8(S as int - 1);
    }

    method PushAddress(v: Word)
      requires Valid()
      modifies this, mem
      ensures Valid() && State() == CpuSpec.PushAddress(old(State()), v)
    {
      SetAddress(StackStart + S - 1, v);
      S := Wrap8(S as int - 2);
    }

    method Pop() returns (v: Byte)
      requires Valid()
      modifies this
      ensures Valid() && (v, State()) == CpuSpec.Pop(old(State()))
    {
      S := Wrap8(S as int + 1);
      v := mem[StackStart + S];
    }

    method PopAddress() returns (w: Word)
      requires Valid()
      modifies this
      ensures Valid() && (w, State()) == CpuSpec.PopAddress(old(State()))
    {
      S := Wrap8(S as int + 1);
      w := GetAddress(StackStart + S);
      S := Wrap8(S as int + 1);
    }

    method SetStatusFlag(flag: Byte, v: bool)
      requires Valid()
      modifies this
      ensures Valid() && State() == old(State()).(p := SetFlag(old(P), flag, v))
    {
      if v {
        P := Or8(P, flag);
      } else {
        P := AndNot8(P, flag);
      }
    }

    method SetZN(v: Byte)
      requires Valid()
      modifies this
      ensures Valid() && State() == old(State()).(p := CpuAlu.SetZN(old(P), v))
    {
      SetStatusFlag(FlagN, IsNegative(v));
      SetStatusFlag(FlagZ, v == 0);
    }

    /** add_branch_wait: PC steps once, and once more if that left addr's page. */
    method AddBranchWait(addr: Word)
      requires Valid()
      modifies this
      ensures Valid() && State() == old(State()).(pc := BranchTaken(addr))
    {
      PC := addr;
      PC := Wrap16(PC + 1);
      if PagesDiffer(PC, addr) {
        PC := Wrap16(PC + 1);
      }
    }

    // -------------------------------------------------------------------------
    // The handlers, family by family
    // -------------------------------------------------------------------------

    method ExecTransfer(op: TransferOp, addr: Word)
      requires Valid()
      modifies this, mem
      ensures Valid() && State() == CpuSpec.ExecTransfer(old(State()), op, addr)
    {
      match op
      case LDA => var v := mem[addr]; SetZN(v); A := v;
      case LDX => var v := mem[addr]; SetZN(v); X := v;
      case LDY => var v := mem[addr]; SetZN(v); Y := v;
      case STA => mem[addr] := A;
      case STX => mem[addr] := X;
      case STY => mem[addr] := Y;
      case TAX => X := A; SetZN(A);
      case TAY => Y := A; SetZN(A);
      case TSX => X := S; SetZN(S);
      case TXA => A := X; SetZN(X);
      case TXS => S := X; SetZN(X);
      case TYA => A := Y; SetZN(Y);
    }

    method ExecArithmetic(op: ArithmeticOp, addr: Word)
      requires Valid()
      modifies this, mem
      ensures Valid() && State() == CpuSpec.ExecArithmetic(old(State()), op, addr)
    {
      var m := mem[addr];
      match op
      case ADC => var r := AddWithCarry(A, m, P); A, P := r.value, r.p;
      case SBC => var r := SubtractWithBorrow(A, m, P); A, P := r.value, r.p;
      case AND => var v := And8(A, m); SetZN(v); A := v;
      case ORA => var v := Or8(A, m); SetZN(v); A := v;
      case EOR => var v := Xor8(A, m); SetZN(v); A := v;
      case BIT => P := BitTest(A, m, P);
      case CMP => P := Compare(A, m, P);
      case CPX => P := Compare(X, m, P);
      case CPY => P := Compare(Y, m, P);
      case INC => var r := Increment(m, P); P := r.p; mem[addr] := r.value;
      case DEC => var r := Decrement(m, P); P := r.p; mem[addr] := r.value;
      case INX => var r := Increment(X, P); P := r.p; X := r.value;
      case INY => var r := Increment(Y, P); P := r.p; Y := r.value;
      case DEX => var r := Decrement(X, P); P := r.p; X := r.value;
      case DEY => var r := Decrement(Y, P); P := r.p; Y := r.value;
    }

    method ExecShift(op: ShiftOp, addr: Word, mode: ModeCode)
      requires Valid()
      modifies this, mem
      ensures Valid() && State() == CpuSpec.ExecShift(old(State()), op, addr, mode)
    {
      var v := if mode == ModeAccumulator then A else mem[addr];
      match op
      case ASL => Store(mode, addr, ShiftLeft(v, P));
      case LSR => Store(mode, addr, CpuAlu.ShiftRight(v, P));
      case ROL => Store(mode, addr, RotateLeft(v, P));
      case ROR => Store(mode, addr, RotateRight(v, P));
    }

    /** Where asl, lsr, rol and ror put their result: A in accumulator mode,
        else the operand's cell; P takes the flags of the result. */
    method Store(mode: ModeCode, addr: Word, r: AluResult)
      requires Valid()
      modifies this, mem
      ensures Valid() && State() == ShiftStore(old(State()), mode, addr, r)
    {
      P := r.p;
      if mode == ModeAccumulator {
        A := r.value;
      } else {
        mem[addr] := r.value;
      }
    }

    method ExecJump(op: JumpOp, addr: Word)
      requires Valid()
      modifies this, mem
      ensures Valid() && State() == CpuSpec.ExecJump(old(State()), op, addr)
    {
      match op
      case BCC | BCS | BEQ | BMI | BNE | BPL | BVC | BVS =>
        if BranchCondition(op, P) {
          AddBranchWait(addr);
        }
      case JMP => PC := addr;
      case JSR => PushAddress(Wrap16(PC as int - 1)); PC := addr;
      case RTS => var w := PopAddress(); PC := Wrap16(w as int + 1);
      case RTI => P := Pop(); PC := PopAddress();
      case BRK => interrupt := InterruptBrk;
    }

    method ExecStack(op: StackOp)
      requires Valid()
      modifies this, mem
      ensures Valid() && State() == CpuSpec.ExecStack(old(State()), op)
    {
      match op
      case PHA => Push(A);
      case PHP => Push(P);
      case PLA => var v := Pop(); SetZN(v); A := v;
      case PLP => P := Pop();
    }

    method ExecFlag(op: FlagOp)
      requires Valid()
      modifies this
      ensures Valid() && State() == CpuSpec.ExecFlag(old(State()), op)
    {
      match op
      case CLC => SetStatusFlag(FlagC, false);
      case CLI => SetStatusFlag(FlagI, false);
      case CLV => SetStatusFlag(FlagV, false);
      case SEC => SetStatusFlag(FlagC, true);
      case SEI => SetStatusFlag(FlagI, true);
      case CLD | SED | NOP =>
    }

    /** `instructions[opcode](c, address, mode)` for a documented opcode. */
    method Exec(h: Handler, addr: Word, mode: ModeCode)
      requires Valid() && !h.Illegal?
      modifies this, mem
      ensures Valid() && State() == CpuSpec.Exec(old(State()), h, addr, mode)
    {
      match h
      case Transfer(op) => ExecTransfer(op, addr);
      case Arithmetic(op) => ExecArithmetic(op, addr);
      case Shift(op) => ExecShift(op, addr, mode);
      case Jump(op) => ExecJump(op, addr);
      case Stack(op) => ExecStack(op);
      case Flag(op) => ExecFlag(op);
    }

    // -------------------------------------------------------------------------
    // Interrupts, operand fetch and the tick
    // -------------------------------------------------------------------------

    /** The pushes, flag changes and vector load of an NMI or IRQ entry. */
    method Enter(vector: Word)
      requires Valid()
      modifies this, mem
      ensures Valid() && State() == CpuSpec.Enter(old(State()), vector)
    {
      PushAddress(PC);
      Push(P);
      SetStatusFlag(FlagI, true);
      SetStatusFlag(FlagB, false);
      PC := GetAddress(vector);
    }

    /** The BRK entry: B set and PC stepped before the pushes. */
    method EnterBrk()
      requires Valid()
      modifies this, mem
      ensures Valid() && State() == CpuSpec.EnterBrk(old(State()))
    {
      SetStatusFlag(FlagB, true);
      PC := Wrap16(PC + 1);
      PushAddress(PC);
      Push(P);
      SetStatusFlag(FlagI, true);
      PC := GetAddress(0xFFFE);
    }

    /** The interrupt switch at the top of Tick. */
    method Interrupt()
      requires Valid()
      modifies this, mem
      ensures Valid() && State() == CpuSpec.ServiceInterrupt(old(State()))
    {
      if interrupt == InterruptNmi {
        Enter(0xFFFA);
      } else if interrupt == InterruptIrq {
        if !GetFlag(P, FlagI) {
          Enter(0xFFFE);
        }
      } else if interrupt == InterruptBrk {
        if !GetFlag(P, FlagI) {
          EnterBrk();
        }
      }
    }

    /** The interrupt switch, the seven cycles, and the clearing of the
        pending interrupt. */
    method ServiceInterrupt()
      requires Valid()
      modifies this, mem
      ensures Valid() && State() == Service(old(State()))
    {
      var pending := interrupt;
      Interrupt();
      if pending != InterruptNone {
        waitCycles := waitCycles + 7;
      }
      interrupt := InterruptNone;
    }

    /** The operand address of the mode, read at PC, and whether an indexed
        mode crossed a page. */
    method OperandAddress(mode: ModeCode) returns (address: Word, pageCrossed: bool)
      requires Valid()
      ensures (address, pageCrossed) == Operand(State(), mode)
      ensures State() == old(State())
    {
      pageCrossed := false;
      if mode == ModeAbsolute {
        address := GetAddress(PC);
      } else if mode == ModeAbsoluteX {
        var base := GetAddress(PC);
        address, pageCrossed := IndexedAddress(base, X);
      } else if mode == ModeAbsoluteY {
        var base := GetAddress(PC);
        address, pageCrossed := IndexedAddress(base, Y);
      } else if mode == ModeAccumulator {
        address := 0;
      } else if mode == ModeImmediate {
        address := PC;
      } else if mode == ModeImplied {
        address := 0;
      } else if mode == ModeIndexedIndirect {
        address := GetAddress(Wrap8(mem[PC] + X));
      } else if mode == ModeIndirect {
        address := GetAddress(PC);
        address := GetAddress(address);
      } else if mode == ModeIndirectIndexed {
        var base := GetAddress(mem[PC]);
        address, pageCrossed := IndexedAddress(base, Y);
      } else if mode == ModeRelative {
        var offset := mem[PC];
        if offset < 0x80 {
          address := Wrap16(PC + 2 + offset);
        } else {
          address := Wrap16(PC + 2 + offset - 0x100);
        }
      } else if mode == ModeZeroPage {
        address := mem[PC];
      } else if mode == ModeZeroPageX {
        address := Wrap8(mem[PC] + X);
      } else {
        address := Wrap8(mem[PC] + Y);
      }
    }

    /** `base + uint16(index)`, and `pages_differ(address - index, address)`. */
    method IndexedAddress(base: Word, index: Byte) returns (address: Word, pageCrossed: bool)
      ensures (address, pageCrossed) == Indexed(base, index)
    {
      address := Wrap16(base + index);
      pageCrossed := PagesDiffer(Wrap16(address - index), address);
    }

    /** The opcode at PC, then the decode its table entries drive: PC moves
        past the opcode, the operand is resolved, PC moves past the rest of
        the instruction, and the cycles are owed. The handler is returned,
        not run. */
    method FetchInstruction() returns (opcode: Byte, h: Handler, mode: ModeCode, address: Word)
      requires Valid()
      modifies this
      ensures Valid()
      ensures var f := Fetch(old(State()));
        opcode == f.opcode && h == f.handler && mode == f.mode && address == f.addr &&
        State() == f.state
    {
      opcode := mem[PC];
      mode := InstructionModes[opcode];
      address := DecodeOperand(opcode, mode, InstructionSizes[opcode],
                               InstructionCycles[opcode], InstructionPageCycles[opcode]);
      h := Instructions[opcode];
    }

    method DecodeOperand(opcode: Byte, mode: ModeCode, size: SizeCode, cycles: nat, pageCycles: nat)
      returns (address: Word)
      requires Valid()
      modifies this
      ensures Valid()
      ensures var f := Decode(old(State()), opcode, mode, size, cycles, pageCycles);
        address == f.addr && State() == f.state
    {
      PC := Wrap16(PC + 1);
      var pageCrossed;
      address, pageCrossed := OperandAddress(mode);
      DecodeResolved(old(State()), opcode, mode, size, cycles, pageCycles, address, pageCrossed);
      Advance(size, cycles, if pageCrossed then pageCycles else 0);
    }

    /** PC moves past the operand bytes, and the cycles are owed. */
    method Advance(size: SizeCode, cycles: nat, extra: nat)
      requires Valid()
      modifies this
      ensures Valid()
      ensures State() == old(State()).(pc := Wrap16(old(PC) + size - 1),
                                       waitCycles := old(waitCycles) + cycles + extra)
    {
      PC := Wrap16(PC + size - 1);
      waitCycles := waitCycles + cycles + extra;
    }

    /** One CPU cycle. An illegal opcode's handler panics: the tick reports
        it and leaves the state its decode produced. */
    method Tick() returns (panicked: bool)
      requires Valid()
      modifies this, mem
      ensures Valid()
      ensures var t := CpuSpec.Tick(old(State()));
        panicked == t.Panicked? && State() == t.state
    {
      if waitCycles > 0 {
        waitCycles := waitCycles - 1;
        return false;
      }
      ServiceInterrupt();
      var opcode, h, mode, address := FetchInstruction();
      if h.Illegal? {
        return true;
      }
      Exec(h, address, mode);
      panicked := false;
    }

    method PowerOn()
      requires Valid()
      modifies this, mem
      ensures Valid() && State() == CpuSpec.PowerOn(old(State()))
    {
      A, X, Y := 0, 0, 0;
      S := 0xFD;
      P := Or8(FlagZ, FlagR);
      PC := GetAddress(0xFFFC);
      waitCycles := 0;
      Set(0x4017, 0);
      Set(0x4015, 0);
      Set(0x4000, 0);
    }

    method Reset()
      requires Valid()
      modifies this, mem
      ensures Valid() && State() == CpuSpec.Reset(old(State()))
    {
      S := Wrap8(S as int - 3);
      P := Or8(P, FlagI);
      PC := GetAddress(0xFFFC);
      Set(0x4015, 0);
    }
  }
}
