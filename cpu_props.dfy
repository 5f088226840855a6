/**
  What the CPU engine does over several steps: interrupt entry and return,
  subroutine call and return, the stack round trips of the handlers, the
  cycle countdown, and the state PowerOn and Reset leave.
 */
module CpuProps {
  import opened Bits
  import opened CpuTables
  import opened CpuAlu
  import opened CpuSpec
  import Mmc1

  /** A tick with cycles left only counts one down; nothing else changes. */
  lemma TickWhileWaiting(st: CpuState)
    requires st.waitCycles > 0
    ensures Tick(st) == Ran(st.(waitCycles := st.waitCycles - 1))
  {
  }

  // What Exec does on the handlers the lemmas below chain.

  lemma JsrStep(st: CpuState, addr: Word, mode: ModeCode)
    ensures Exec(st, Jump(JSR), addr, mode) == PushAddress(st, Wrap16(st.pc as int - 1)).(pc := addr)
  {
  }

  lemma RtsStep(st: CpuState, addr: Word, mode: ModeCode)
    ensures Exec(st, Jump(RTS), addr, mode) == PopAddress(st).1.(pc := Wrap16(PopAddress(st).0 + 1))
  {
  }

  lemma RtiStep(st: CpuState, addr: Word, mode: ModeCode)
    ensures Exec(st, Jump(RTI), addr, mode) ==
      var st1 := Pop(st).1.(p := Pop(st).0);
      PopAddress(st1).1.(pc := PopAddress(st1).0)
  {
  }

  lemma PushStep(st: CpuState, addr: Word, mode: ModeCode)
    ensures Exec(st, Stack(PHA), addr, mode) == Push(st, st.a)
    ensures Exec(st, Stack(PHP), addr, mode) == Push(st, st.p)
  {
  }

  lemma PlaStep(st: CpuState, addr: Word, mode: ModeCode)
    ensures Exec(st, Stack(PLA), addr, mode) == Pop(st).1.(a := Pop(st).0, p := SetZN(st.p, Pop(st).0))
  {
  }

  lemma PlpStep(st: CpuState, addr: Word, mode: ModeCode)
    ensures Exec(st, Stack(PLP), addr, mode) == Pop(st).1.(p := Pop(st).0)
  {
  }

  lemma IncStep(st: CpuState, addr: Word, mode: ModeCode)
    ensures Exec(st, Arithmetic(INC), addr, mode).mem == st.mem[addr := Increment(st.mem[addr], st.p).value]
  {
  }

  lemma DecStep(st: CpuState, addr: Word, mode: ModeCode)
    ensures Exec(st, Arithmetic(DEC), addr, mode).mem == st.mem[addr := Decrement(st.mem[addr], st.p).value]
  {
  }

  lemma RolStep(st: CpuState, addr: Word)
    ensures Exec(st, Shift(ROL), addr, ModeAccumulator).a == RotateLeft(st.a, st.p).value
  {
  }

  lemma RorStep(st: CpuState, addr: Word)
    ensures Exec(st, Shift(ROR), addr, ModeAccumulator).a == RotateRight(st.a, st.p).value
  {
  }

  lemma BranchStep(st: CpuState, addr: Word, mode: ModeCode)
    ensures Exec(st, Jump(BEQ), addr, mode) ==
      if BranchCondition(BEQ, st.p) then st.(pc := BranchTaken(addr)) else st
  {
  }

  /** A tick that executes: the interrupt is none afterwards unless the
      instruction was BRK, PC has moved past the instruction unless the
      handler set it, and the cycles of the instruction are owed. */
  lemma TickExecutes(st: CpuState)
    requires st.waitCycles == 0
    ensures var st1 := Service(st);
      var op := st1.mem[st1.pc];
      var h := Instructions[op];
      var (_, crossed) := Operand(st1.(pc := Wrap16(st1.pc + 1)), InstructionModes[op]);
      (h.Illegal? <==> Tick(st).Panicked?) &&
      (Tick(st).Ran? ==>
        Tick(st).state.interrupt == (if h == Jump(BRK) then InterruptBrk else InterruptNone) &&
        Tick(st).state.waitCycles == st1.waitCycles + InstructionCycles[op] +
          (if crossed then InstructionPageCycles[op] else 0) &&
        (!h.Jump? ==> Tick(st).state.pc == (st1.pc + InstructionSizes[op]) % 0x1_0000))
  {
    var f := Fetch(Service(st));
  }

  /** Fetching NOP (0xEA): implied mode, one byte, two cycles. */
  lemma NopFetch(st: CpuState)
    requires st.mem[st.pc] == 0xEA
    ensures Fetch(st).handler == Flag(NOP)
    ensures Fetch(st).state == st.(pc := (st.pc + 1) % 0x1_0000, waitCycles := st.waitCycles + 2)
  {
    assert Instructions[0xEA] == Flag(NOP) && InstructionModes[0xEA] == ModeImplied;
    assert InstructionSizes[0xEA] == 1 && InstructionCycles[0xEA] == 2;
  }

  /** NOP with no interrupt pending: one tick moves PC one byte and owes two
      cycles. */
  lemma NopFirstTick(st: CpuState)
    requires st.waitCycles == 0 && st.interrupt == InterruptNone && st.mem[st.pc] == 0xEA
    ensures Tick(st) == Ran(st.(pc := (st.pc + 1) % 0x1_0000, waitCycles := 2))
  {
    assert Service(st) == st;
    NopFetch(st);
  }

  /** So a NOP takes three ticks: the next two only count down. */
  lemma NopTakesThreeTicks(st: CpuState)
    requires st.waitCycles == 0 && st.interrupt == InterruptNone && st.mem[st.pc] == 0xEA
    ensures var t1 := Tick(st);
      t1.Ran? && var t2 := Tick(t1.state);
      t2.Ran? && var t3 := Tick(t2.state);
      t3.Ran? && t3.state == st.(pc := (st.pc + 1) % 0x1_0000)
  {
    NopFirstTick(st);
    var s1 := st.(pc := (st.pc + 1) % 0x1_0000, waitCycles := 2);
    TickWhileWaiting(s1);
    TickWhileWaiting(s1.(waitCycles := 1));
  }

  // ---------------------------------------------------------------------------
  // Interrupt entry and return
  // ---------------------------------------------------------------------------

  lemma StackSlots(s: int)
    requires 1 <= s < 0x100
    ensures (s - 2) % 0x100 != s - 1 && (s - 2) % 0x100 != s
    ensures ((s - 3) % 0x100 + 1) % 0x100 == (s - 2) % 0x100
    ensures ((s - 2) % 0x100 + 1) % 0x100 == s - 1
  {
    if s == 1 {
      assert (s - 2) % 0x100 == 0xFF;
      assert (s - 3) % 0x100 == 0xFE;
    } else if s == 2 {
      assert (s - 2) % 0x100 == 0;
      assert (s - 3) % 0x100 == 0xFF;
    } else {
      assert (s - 2) % 0x100 == s - 2;
      assert (s - 3) % 0x100 == s - 3;
    }
  }

  /** NMI entry: three bytes go on the stack (PC at 0x100+S-1 as SetAddress
      writes it, then P), I reads set afterwards, PC comes from 0xFFFA, and
      seven cycles are owed. */
  lemma NmiEntry(st: CpuState)
    requires st.interrupt == InterruptNmi
    ensures var r := Service(st);
      r.s == (st.s - 3) % 0x100 &&
      r.mem[StackStart + (st.s - 2) % 0x100] == st.p &&
      GetFlag(r.p, FlagI) && r.pc == LoadAddress(st.mem, 0xFFFA) &&
      r.waitCycles == st.waitCycles + 7 && r.interrupt == InterruptNone
  {
    var st1 := Push(PushAddress(st, st.pc), st.p);
    var r := Enter(st, 0xFFFA);
    assert Service(st) == r.(waitCycles := st.waitCycles + 7, interrupt := InterruptNone);
    assert st1.s == (st.s - 3) % 0x100 by {
      StackArith(st.s, 3);
    }
    assert st1.mem[0xFFFA] == st.mem[0xFFFA] && st1.mem[0xFFFB] == st.mem[0xFFFB];
    FlagReads(r.p);
  }

  /** Unmasked IRQ entry: PC and P go on the stack as for NMI, PC comes from
      0xFFFE. Clearing B (5) after setting I (3) clears bits 0 and 2, so I
      still reads set through bit 1 while B and C read clear. */
  lemma IrqEntry(st: CpuState)
    requires st.interrupt == InterruptIrq && !GetFlag(st.p, FlagI)
    ensures var r := Service(st);
      r.s == (st.s - 3) % 0x100 &&
      r.mem == StoreAddress(st.mem, StackStart + st.s - 1, st.pc)[StackStart + (st.s - 2) % 0x100 := st.p] &&
      GetFlag(r.p, FlagI) && !GetFlag(r.p, FlagB) && !GetFlag(r.p, FlagC) &&
      r.pc == LoadAddress(st.mem, 0xFFFE) &&
      r.waitCycles == st.waitCycles + 7 && r.interrupt == InterruptNone
  {
    var st1 := Push(PushAddress(st, st.pc), st.p);
    var r := Enter(st, 0xFFFE);
    assert Service(st) == r.(waitCycles := st.waitCycles + 7, interrupt := InterruptNone);
    assert st1.s == (st.s - 3) % 0x100 by {
      StackArith(st.s, 3);
    }
    assert st1.mem[0xFFFE] == st.mem[0xFFFE] && st1.mem[0xFFFF] == st.mem[0xFFFF];
    FlagMasks();
    FlagReads(r.p);
  }

  /** Unmasked BRK entry: B is set and PC stepped first, so the address
      pushed is PC + 1 and the status pushed has B set; then I is set, B
      stays set, and PC comes from 0xFFFE. */
  lemma BrkEntry(st: CpuState)
    requires st.interrupt == InterruptBrk && !GetFlag(st.p, FlagI)
    ensures var r := Service(st);
      r.s == (st.s - 3) % 0x100 &&
      r.mem == StoreAddress(st.mem, StackStart + st.s - 1, Wrap16(st.pc + 1))
                 [StackStart + (st.s - 2) % 0x100 := SetFlag(st.p, FlagB, true)] &&
      GetFlag(r.p, FlagI) && GetFlag(r.p, FlagB) &&
      r.pc == LoadAddress(st.mem, 0xFFFE) &&
      r.waitCycles == st.waitCycles + 7 && r.interrupt == InterruptNone
  {
    var st0 := st.(p := SetFlag(st.p, FlagB, true), pc := Wrap16(st.pc + 1));
    var st1 := Push(PushAddress(st0, st0.pc), st0.p);
    var r := EnterBrk(st);
    assert Service(st) == r.(waitCycles := st.waitCycles + 7, interrupt := InterruptNone);
    assert st1.s == (st.s - 3) % 0x100 by {
      StackArith(st.s, 3);
    }
    assert st1.mem[0xFFFE] == st.mem[0xFFFE] && st1.mem[0xFFFF] == st.mem[0xFFFF];
    FlagMasks();
    FlagReads(r.p);
  }

  /** IRQ and BRK while the I mask reads set: no entry, only the seven cycles
      and the clearing of the interrupt. */
  lemma MaskedInterruptSkipped(st: CpuState)
    requires st.interrupt == InterruptIrq || st.interrupt == InterruptBrk
    requires GetFlag(st.p, FlagI)
    ensures Service(st) == st.(waitCycles := st.waitCycles + 7, interrupt := InterruptNone)
  {
  }

  lemma NoWrap(x: int, m: int)
    requires 0 <= x < m
    ensures x % m == x
  {
  }

  /** GetAddress at a does not see a write to another cell than a and a + 1. */
  lemma LoadAddressFrame(m: Memory, i: Word, v: Byte, a: Word)
    requires i != a && i != Wrap16(a + 1)
    ensures LoadAddress(m[i := v], a) == LoadAddress(m, a)
  {
  }

  /** The first pop after an interrupt entry takes back the pushed P and
      leaves S where pushAddress put it. */
  lemma EntryPopsStatus(st: CpuState, vector: Word)
    ensures var st0 := PushAddress(st, st.pc);
      var (p, e1) := Pop(Enter(st, vector));
      p == st.p && e1.s == st0.s && e1.mem == st0.mem[StackStart + st0.s := st.p]
  {
    var st0 := PushAddress(st, st.pc);
    StackArith(st0.s, 1);
    PushThenPop(st0, st.p);
  }

  /** popAddress after pushAddress and one byte pushed and popped above it
      gives the swizzled address and restores S. */
  lemma EntryPopsAddress(st: CpuState, x: CpuState)
    requires st.s != 0
    requires var st0 := PushAddress(st, st.pc);
      x.s == st0.s && x.mem == st0.mem[StackStart + st0.s := st.p]
    ensures PopAddress(x).0 == Mmc1.Swizzled(st.pc) && PopAddress(x).1.s == st.s
  {
    var st0 := PushAddress(st, st.pc);
    StackSlots(st.s);
    var at := StackStart + st.s - 1;
    assert Wrap16(at + 1) == StackStart + st.s by {
      NoWrap(at + 1, 0x1_0000);
    }
    assert PopAddress(x).0 == LoadAddress(x.mem, at);
    LoadAddressFrame(st0.mem, StackStart + st0.s, st.p, at);
    StoreThenLoadAddress(st.mem, at, st.pc);
  }

  /** RTI right after an interrupt entry restores P and S; PC comes back
      swizzled by the SetAddress/GetAddress pair. Needs S != 0, where the
      pushed address would straddle the stack page. */
  lemma InterruptReturn(st: CpuState, vector: Word, addr: Word, mode: ModeCode)
    requires st.s != 0
    ensures var r := Exec(Enter(st, vector), Jump(RTI), addr, mode);
      r.p == st.p && r.s == st.s && r.pc == Mmc1.Swizzled(st.pc)
  {
    RtiStep(Enter(st, vector), addr, mode);
    EntryPopsStatus(st, vector);
    var (p, e1) := Pop(Enter(st, vector));
    EntryPopsAddress(st, e1.(p := p));
  }

  /** The stack half of JSR then RTS: pushing the return address, moving PC
      elsewhere and popping gives back S and the swizzled address. */
  lemma CallReturnStack(st: CpuState, v: Word, target: Word)
    requires st.s != 0
    ensures var (w, st2) := PopAddress(PushAddress(st, v).(pc := target));
      st2.s == st.s && w == Mmc1.Swizzled(v)
  {
    PushAddressThenPopAddress(st, v);
    PopAddressIgnoresPc(PushAddress(st, v), target);
  }

  /** JSR then RTS returns S to where it was and PC to the swizzled return
      address plus one; for most call sites that is not the next instruction. */
  lemma CallReturn(st: CpuState, target: Word, addr: Word, mode: ModeCode)
    requires st.s != 0
    ensures var r := Exec(Exec(st, Jump(JSR), target, mode), Jump(RTS), addr, mode);
      r.s == st.s && r.pc == Wrap16(Mmc1.Swizzled(Wrap16(st.pc as int - 1)) + 1)
  {
    var v := Wrap16(st.pc as int - 1);
    JsrStep(st, target, mode);
    RtsStep(PushAddress(st, v).(pc := target), addr, mode);
    CallReturnStack(st, v, target);
  }

  /** popAddress reads the stack and S only. */
  lemma PopAddressIgnoresPc(x: CpuState, t: Word)
    ensures PopAddress(x.(pc := t)).0 == PopAddress(x).0
    ensures PopAddress(x.(pc := t)).1.s == PopAddress(x).1.s
  {
  }

  // ---------------------------------------------------------------------------
  // Round trips through the handlers
  // ---------------------------------------------------------------------------

  /** PHA then PLA gives back A and S. */
  lemma PushPullAccumulator(st: CpuState, addr: Word, mode: ModeCode)
    ensures var r := Exec(Exec(st, Stack(PHA), addr, mode), Stack(PLA), addr, mode);
      r.a == st.a && r.s == st.s && r.p == SetZN(st.p, st.a)
  {
    PushStep(st, addr, mode);
    PlaStep(Exec(st, Stack(PHA), addr, mode), addr, mode);
    PushThenPop(st, st.a);
  }

  /** PHP then PLP gives back P and S. */
  lemma PushPullStatus(st: CpuState, addr: Word, mode: ModeCode)
    ensures var r := Exec(Exec(st, Stack(PHP), addr, mode), Stack(PLP), addr, mode);
      r.p == st.p && r.s == st.s
  {
    PushStep(st, addr, mode);
    PlpStep(Exec(st, Stack(PHP), addr, mode), addr, mode);
    PushThenPop(st, st.p);
  }

  /** DEC undoes INC on a memory cell. */
  lemma IncrementThenDecrement(st: CpuState, addr: Word, mode: ModeCode)
    ensures Exec(Exec(st, Arithmetic(INC), addr, mode), Arithmetic(DEC), addr, mode).mem == st.mem
  {
    var v := st.mem[addr];
    var st1 := Exec(st, Arithmetic(INC), addr, mode);
    IncStep(st, addr, mode);
    var u := Increment(v, st.p).value;
    DecStep(st1, addr, mode);
    var w := Decrement(u, st1.p).value;
    IncrementArith(v, u, Decrement(v, st.p).value);
    assert w == v;
    assert st.mem[addr := u][addr := w] == st.mem;
  }

  /** ROR undoes ROL on A, whatever the flags. */
  lemma RotateAccumulatorBack(st: CpuState, addr: Word)
    ensures Exec(Exec(st, Shift(ROL), addr, ModeAccumulator), Shift(ROR), addr, ModeAccumulator).a == st.a
  {
    RolStep(st, addr);
    RorStep(Exec(st, Shift(ROL), addr, ModeAccumulator), addr);
    RotateInverse(st.a, st.p, Exec(st, Shift(ROL), addr, ModeAccumulator).p);
  }

  /** A taken BEQ: Z reads bit 1 of P; PC lands one past the target, or two
      past it when the target ends a page. Everything else is kept. */
  lemma BranchOnEqual(st: CpuState, addr: Word, mode: ModeCode)
    ensures var r := Exec(st, Jump(BEQ), addr, mode);
      r == st.(pc := r.pc) &&
      r.pc == if !Bit(st.p, 1) then st.pc
              else if addr % 0x100 == 0xFF then (addr + 2) % 0x1_0000
              else (addr + 1) % 0x1_0000
  {
    BranchStep(st, addr, mode);
    BranchConditionBits(st.p);
  }

  // ---------------------------------------------------------------------------
  // PowerOn and Reset
  // ---------------------------------------------------------------------------

  /** PowerOn leaves P = 6: Z and I read set, C reads clear. */
  lemma PowerOnState(st: CpuState)
    ensures var r := PowerOn(st);
      r.a == 0 && r.x == 0 && r.y == 0 && r.s == 0xFD && r.waitCycles == 0 &&
      r.p == 6 && GetFlag(r.p, FlagZ) && GetFlag(r.p, FlagI) && !GetFlag(r.p, FlagC) &&
      r.pc == LoadAddress(st.mem, 0xFFFC)
  {
    FlagMasks();
    var p := Or8(FlagZ, FlagR);
    assert forall k :: 0 <= k < 8 ==> Bit(p, k) == Bit(6, k);
    Pow2Widths();
    BitsDetermine(p, 6, 8);
    FlagReads(6);
  }

  /** After Reset the I mask reads set, so a pending IRQ is skipped. */
  lemma ResetMasksInterrupts(st: CpuState)
    ensures var r := Reset(st);
      r.s == (st.s - 3) % 0x100 && GetFlag(r.p, FlagI) &&
      Service(r.(interrupt := InterruptIrq)) == r.(waitCycles := r.waitCycles + 7, interrupt := InterruptNone)
  {
    FlagMasks();
    var r := Reset(st);
    assert Bit(r.p, 0);
    FlagReads(r.p);
  }
}
