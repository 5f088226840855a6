/**
  The status register and the arithmetic of the 6502 handlers, as the core
  computes them. The flag constants are the iota values 1..8 and are used
  directly as byte masks, so most of them stand for more than one bit:

    FlagC = 1 = bit 0        FlagB = 5 = bits 0, 2
    FlagZ = 2 = bit 1        FlagR = 6 = bits 1, 2
    FlagI = 3 = bits 0, 1    FlagV = 7 = bits 0, 1, 2
    FlagD = 4 = bit 2        FlagN = 8 = bit 3

  Every function below keeps that behaviour; the lemmas spell out what it
  means for the individual bits of P.
 */
module CpuAlu {
  import opened Bits

  const FlagC: Byte := 1
  const FlagZ: Byte := 2
  const FlagI: Byte := 3
  const FlagD: Byte := 4
  const FlagB: Byte := 5
  const FlagR: Byte := 6
  const FlagV: Byte := 7
  const FlagN: Byte := 8

  /** The bits of each flag mask. */
  lemma FlagMasks()
    ensures forall k :: 0 <= k < 8 ==> (Bit(FlagC, k) <==> k == 0)
    ensures forall k :: 0 <= k < 8 ==> (Bit(FlagZ, k) <==> k == 1)
    ensures forall k :: 0 <= k < 8 ==> (Bit(FlagI, k) <==> k == 0 || k == 1)
    ensures forall k :: 0 <= k < 8 ==> (Bit(FlagD, k) <==> k == 2)
    ensures forall k :: 0 <= k < 8 ==> (Bit(FlagB, k) <==> k == 0 || k == 2)
    ensures forall k :: 0 <= k < 8 ==> (Bit(FlagR, k) <==> k == 1 || k == 2)
    ensures forall k :: 0 <= k < 8 ==> (Bit(FlagV, k) <==> k == 0 || k == 1 || k == 2)
    ensures forall k :: 0 <= k < 8 ==> (Bit(FlagN, k) <==> k == 3)
  {
    forall k | 0 <= k < 8
      ensures Bit(1, k) == (k == 0) && Bit(2, k) == (k == 1) && Bit(3, k) == (k < 2)
      ensures Bit(4, k) == (k == 2) && Bit(5, k) == (k == 0 || k == 2)
      ensures Bit(6, k) == (k == 1 || k == 2) && Bit(7, k) == (k < 3) && Bit(8, k) == (k == 3)
    {
      if k == 0 {
      } else if k == 1 {
      } else if k == 2 {
      } else if k == 3 {
      } else {
        BitBeyondWidth(1, 4, k);
        BitBeyondWidth(2, 4, k);
        BitBeyondWidth(3, 4, k);
        BitBeyondWidth(4, 4, k);
        BitBeyondWidth(5, 4, k);
        BitBeyondWidth(6, 4, k);
        BitBeyondWidth(7, 4, k);
        BitBeyondWidth(8, 4, k);
      }
    }
  }

  /** setStatusFlag: with v it ORs the mask into P, without it clears the
      mask's bits; every other bit of P is kept. */
  function SetFlag(p: Byte, flag: Byte, v: bool): (r: Byte)
    ensures forall k :: 0 <= k < 8 ==> Bit(r, k) == if Bit(flag, k) then v else Bit(p, k)
  {
    if v then Or8(p, flag) else AndNot8(p, flag)
  }

  /** getStatusFlagBool: `P & flag != 0`. */
  predicate GetFlag(p: Byte, flag: Byte) {
    And8(p, flag) != 0
  }

  /** A flag reads as set exactly when P has one of the mask's bits. */
  lemma GetFlagBits(p: Byte, flag: Byte)
    ensures GetFlag(p, flag) <==> exists k :: 0 <= k < 8 && Bit(p, k) && Bit(flag, k)
  {
    AndNonzeroIffCommonBit(p, flag);
  }

  /** What each flag reads in terms of the bits of P. */
  lemma FlagReads(p: Byte)
    ensures GetFlag(p, FlagC) == Bit(p, 0)
    ensures GetFlag(p, FlagZ) == Bit(p, 1)
    ensures GetFlag(p, FlagI) == (Bit(p, 0) || Bit(p, 1))
    ensures GetFlag(p, FlagD) == Bit(p, 2)
    ensures GetFlag(p, FlagB) == (Bit(p, 0) || Bit(p, 2))
    ensures GetFlag(p, FlagR) == (Bit(p, 1) || Bit(p, 2))
    ensures GetFlag(p, FlagV) == (Bit(p, 0) || Bit(p, 1) || Bit(p, 2))
    ensures GetFlag(p, FlagN) == Bit(p, 3)
  {
    FlagMasks();
    GetFlagBits(p, FlagC);
    GetFlagBits(p, FlagZ);
    GetFlagBits(p, FlagI);
    GetFlagBits(p, FlagD);
    GetFlagBits(p, FlagB);
    GetFlagBits(p, FlagR);
    GetFlagBits(p, FlagV);
    GetFlagBits(p, FlagN);
  }

  /** Because FlagI is 3, setting I also sets what C and Z read, and clearing
      I clears both; clearing V (7) clears C, Z and D as well. */
  lemma FlagAliasing(p: Byte)
    ensures GetFlag(SetFlag(p, FlagI, true), FlagC) && GetFlag(SetFlag(p, FlagI, true), FlagZ)
    ensures !GetFlag(SetFlag(p, FlagI, false), FlagC) && !GetFlag(SetFlag(p, FlagI, false), FlagZ)
    ensures var q := SetFlag(p, FlagV, false);
      !GetFlag(q, FlagC) && !GetFlag(q, FlagZ) && !GetFlag(q, FlagD)
  {
    FlagMasks();
    FlagReads(SetFlag(p, FlagI, true));
    FlagReads(SetFlag(p, FlagI, false));
    FlagReads(SetFlag(p, FlagV, false));
  }

  /** getStatusFlagByte: 1 when the flag reads set, else 0. */
  function FlagValue(p: Byte, flag: Byte): (r: Byte)
    ensures r <= 1
  {
    if GetFlag(p, flag) then 1 else 0
  }

  /** is_negative: bit 7 of the byte. */
  function IsNegative(v: Byte): (r: bool)
    ensures r <==> v >= 0x80
  {
    AndTopBit(v);
    And8(v, 0x80) != 0
  }

  /** setZN: N from bit 7 of the value, then Z from the value being zero. */
  function SetZN(p: Byte, v: Byte): (r: Byte)
    ensures Bit(r, 3) == (v >= 0x80)
    ensures Bit(r, 1) == (v == 0)
    ensures forall k :: 0 <= k < 8 && k != 1 && k != 3 ==> Bit(r, k) == Bit(p, k)
  {
    FlagMasks();
    SetFlag(SetFlag(p, FlagN, IsNegative(v)), FlagZ, v == 0)
  }

  /** A byte read as a two's complement number. */
  function Signed(v: Byte): int {
    if v >= 0x80 then v - 0x100 else v
  }

  /** The result of an ALU handler: the new value and the new status register. */
  datatype AluResult = AluResult(value: Byte, p: Byte)

  /** The overflow test the source uses for both ADC and SBC:
      `!is_negative(a ^ m) && is_negative(a ^ result)`. */
  predicate OverflowTest(a: Byte, m: Byte, result: Byte) {
    !IsNegative(Xor8(a, m)) && IsNegative(Xor8(a, result))
  }

  /** The test compares the sign bits: a and m agree, the result differs from a. */
  lemma OverflowTestSigns(a: Byte, m: Byte, result: Byte)
    ensures OverflowTest(a, m, result) <==> (a >= 0x80) == (m >= 0x80) && (a >= 0x80) != (result >= 0x80)
  {
    TopBit(a);
    TopBit(m);
    TopBit(result);
    TopBit(Xor8(a, m));
    TopBit(Xor8(a, result));
  }

  /** adc: A + M + C modulo 256; ZN from the sum, then V, then C. Since V (7)
      covers bits 0..2 and C (1) is bit 0, the final P has the carry in bit 0,
      the overflow in bits 1 and 2 (Z is lost) and N in bit 3. */
  function AddWithCarry(a: Byte, m: Byte, p: Byte): (r: AluResult)
    ensures r.value == (a + m + FlagValue(p, FlagC)) % 0x100
    ensures Bit(r.p, 0) <==> a + m + FlagValue(p, FlagC) > 0xFF
    ensures Bit(r.p, 1) == Bit(r.p, 2) == !(-0x80 <= Signed(a) + Signed(m) + FlagValue(p, FlagC) < 0x80)
    ensures Bit(r.p, 3) <==> r.value >= 0x80
    ensures forall k :: 4 <= k < 8 ==> Bit(r.p, k) == Bit(p, k)
  {
    var c := FlagValue(p, FlagC);
    var v := Wrap8(a + m + c);
    var overflow := OverflowTest(a, m, v);
    OverflowTestSigns(a, m, v);
    SignedOverflowArith(a, m, c, v);
    FlagMasks();
    var p1 := SetZN(p, v);
    var p2 := SetFlag(p1, FlagV, overflow);
    AluResult(v, SetFlag(p2, FlagC, a + m + c > 0xFF))
  }

  /** For a sum, the sign test detects exactly the results outside -128..127. */
  lemma SignedOverflowArith(a: Byte, m: Byte, c: int, v: Byte)
    requires 0 <= c <= 1 && v == (a + m + c) % 0x100
    ensures (a >= 0x80) == (m >= 0x80) && (a >= 0x80) != (v >= 0x80)
        <==> !(-0x80 <= Signed(a) + Signed(m) + c < 0x80)
  {
    if a + m + c >= 0x100 {
      assert v == a + m + c - 0x100;
    } else {
      assert v == a + m + c;
    }
  }

  /** sbc: A - M - (1 - C) modulo 256, flags set in the same order as adc.
      The carry is set when the difference is negative (a borrow), and V uses
      the adc overflow test unchanged. */
  function SubtractWithBorrow(a: Byte, m: Byte, p: Byte): (r: AluResult)
    ensures r.value == (a - m - (1 - FlagValue(p, FlagC))) % 0x100
    ensures Bit(r.p, 0) <==> a - m - (1 - FlagValue(p, FlagC)) < 0
    ensures Bit(r.p, 1) == Bit(r.p, 2) == ((a >= 0x80) == (m >= 0x80) && (a >= 0x80) != (r.value >= 0x80))
    ensures Bit(r.p, 3) <==> r.value >= 0x80
    ensures forall k :: 4 <= k < 8 ==> Bit(r.p, k) == Bit(p, k)
  {
    var borrow := 1 - FlagValue(p, FlagC);
    var v := Wrap8(a - m - borrow);
    var overflow := OverflowTest(a, m, v);
    OverflowTestSigns(a, m, v);
    FlagMasks();
    var p1 := SetZN(p, v);
    var p2 := SetFlag(p1, FlagV, overflow);
    AluResult(v, SetFlag(p2, FlagC, a - m - borrow < 0))
  }

  /** cmp, cpx, cpy: ZN from `reg - m` modulo 256, then C from that difference
      not being negative. */
  function Compare(reg: Byte, m: Byte, p: Byte): (r: Byte)
    ensures Bit(r, 1) <==> reg == m
    ensures Bit(r, 0) <==> Wrap8(reg - m) < 0x80
    ensures Bit(r, 3) <==> Wrap8(reg - m) >= 0x80
    ensures Bit(r, 2) == Bit(p, 2)
    ensures forall k :: 4 <= k < 8 ==> Bit(r, k) == Bit(p, k)
  {
    var d := Wrap8(reg - m);
    FlagMasks();
    SetFlag(SetZN(p, d), FlagC, !IsNegative(d))
  }

  /** asl: C from bit 7, then the value doubled modulo 256, then ZN. */
  function ShiftLeft(v: Byte, p: Byte): (r: AluResult)
    ensures r.value == (2 * v) % 0x100
    ensures Bit(r.p, 0) <==> v >= 0x80
    ensures Bit(r.p, 1) <==> r.value == 0
    ensures Bit(r.p, 3) <==> r.value >= 0x80
    ensures Bit(r.p, 2) == Bit(p, 2)
    ensures forall k :: 4 <= k < 8 ==> Bit(r.p, k) == Bit(p, k)
  {
    FlagMasks();
    var p1 := SetFlag(p, FlagC, IsNegative(v));
    var w := Wrap8(2 * v);
    AluResult(w, SetZN(p1, w))
  }

  /** lsr: C from `v & 1 == 1`, then the value halved, then ZN. */
  function ShiftRight(v: Byte, p: Byte): (r: AluResult)
    ensures r.value == v / 2
    ensures Bit(r.p, 0) <==> v % 2 == 1
    ensures Bit(r.p, 1) <==> r.value == 0
    ensures !Bit(r.p, 3)
    ensures Bit(r.p, 2) == Bit(p, 2)
    ensures forall k :: 4 <= k < 8 ==> Bit(r.p, k) == Bit(p, k)
  {
    FlagMasks();
    var p1 := SetFlag(p, FlagC, LowCarry(v) == 1);
    var w := v / 2;
    AluResult(w, SetZN(p1, w))
  }

  /** `v & 0x80 >> 7`: the bit rol shifts out. */
  function TopCarry(v: Byte): (c: Byte)
    ensures c == v / 0x80
  {
    AndTopBit(v);
    And8(v, 0x80) / 0x80
  }

  /** `v & 1`: the bit lsr and ror shift out. */
  function LowCarry(v: Byte): (c: Byte)
    ensures c == v % 2
  {
    AndLowBit(v);
    And8(v, 1)
  }

  /** `v << 1 | carry` with the carry taken from bit 7: a left rotation of the byte. */
  function RolByte(v: Byte): (r: Byte)
    ensures r == (2 * v) % 0x100 + v / 0x80
  {
    RotateLeftDisjoint(v);
    Or8(Wrap8(2 * v), TopCarry(v))
  }

  /** The doubled byte is even and the carry is 0 or 1: they share no bit. */
  lemma RotateLeftDisjoint(v: Byte)
    ensures Or8(Wrap8(2 * v), v / 0x80) == Wrap8(2 * v) + v / 0x80
  {
    var shifted := Wrap8(2 * v);
    if v / 0x80 == 0 {
      AndZero(shifted, 8);
    } else {
      AndLowBit(shifted);
    }
    Or8OfDisjoint(shifted, v / 0x80);
  }

  /** `v >> 1 | carry << 7` with the carry taken from bit 0: a right rotation of the byte. */
  function RorByte(v: Byte): (r: Byte)
    ensures r == v / 2 + 0x80 * (v % 2)
  {
    RotateRightDisjoint(v);
    Or8(v / 2, Wrap8(LowCarry(v) * 0x80))
  }

  /** The halved byte is below 0x80 and the carry moved to bit 7 is 0 or
      0x80: they share no bit. */
  lemma RotateRightDisjoint(v: Byte)
    ensures Or8(v / 2, Wrap8(v % 2 * 0x80)) == v / 2 + 0x80 * (v % 2)
  {
    var top := Wrap8(v % 2 * 0x80);
    if v % 2 == 0 {
      assert top == 0;
      AndZero(v / 2, 8);
    } else {
      assert top == 0x80;
      AndTopBit(v / 2);
    }
    Or8OfDisjoint(v / 2, top);
  }

  /** The two byte rotations undo each other. */
  lemma RotateBytesInverse(v: Byte)
    ensures RorByte(RolByte(v)) == v && RolByte(RorByte(v)) == v
  {
    RotateArith(v, RolByte(v), RorByte(RolByte(v)));
    RotateArithBack(v, RorByte(v), RolByte(RorByte(v)));
  }

  lemma RotateArith(v: int, w: int, u: int)
    requires 0 <= v < 0x100
    requires w == (2 * v) % 0x100 + v / 0x80 && u == w / 2 + 0x80 * (w % 2)
    ensures u == v
  {
    if v < 0x80 {
      assert w == 2 * v;
    } else {
      assert w == 2 * v - 0xFF;
    }
  }

  lemma RotateArithBack(v: int, w: int, u: int)
    requires 0 <= v < 0x100
    requires w == v / 2 + 0x80 * (v % 2) && u == (2 * w) % 0x100 + w / 0x80
    ensures u == v
  {
    if v % 2 == 0 {
      assert w == v / 2 && 2 * w == v;
    } else {
      assert w == v / 2 + 0x80 && 2 * w == v + 0xFF;
    }
  }

  /** rol: C from the bit shifted out of bit 7, then ZN of the rotated byte.
      The byte rotates within itself: the old carry flag is not shifted in. */
  function RotateLeft(v: Byte, p: Byte): (r: AluResult)
    ensures r.value == (2 * v) % 0x100 + v / 0x80
    ensures Bit(r.p, 0) <==> v >= 0x80
    ensures Bit(r.p, 1) <==> r.value == 0
    ensures Bit(r.p, 3) <==> r.value >= 0x80
    ensures Bit(r.p, 2) == Bit(p, 2)
    ensures forall k :: 4 <= k < 8 ==> Bit(r.p, k) == Bit(p, k)
  {
    FlagMasks();
    var w := RolByte(v);
    AluResult(w, SetZN(SetFlag(p, FlagC, TopCarry(v) == 1), w))
  }

  /** ror: C from the bit shifted out of bit 0, then ZN of the rotated byte.
      As with rol, the old carry flag is not shifted in. */
  function RotateRight(v: Byte, p: Byte): (r: AluResult)
    ensures r.value == v / 2 + 0x80 * (v % 2)
    ensures Bit(r.p, 0) <==> v % 2 == 1
    ensures Bit(r.p, 1) <==> r.value == 0
    ensures Bit(r.p, 3) <==> r.value >= 0x80
    ensures Bit(r.p, 2) == Bit(p, 2)
    ensures forall k :: 4 <= k < 8 ==> Bit(r.p, k) == Bit(p, k)
  {
    FlagMasks();
    var w := RorByte(v);
    AluResult(w, SetZN(SetFlag(p, FlagC, LowCarry(v) == 1), w))
  }

  /** bit: V from bit 6 of M, N from bit 7 of M, then Z from `M & A == 0`.
      V (7) writes bits 0..2 and Z (2) then rewrites bit 1. */
  function BitTest(a: Byte, m: Byte, p: Byte): (r: Byte)
    ensures Bit(r, 0) == Bit(m, 6) && Bit(r, 2) == Bit(m, 6)
    ensures Bit(r, 1) <==> !exists k :: 0 <= k < 8 && Bit(m, k) && Bit(a, k)
    ensures Bit(r, 3) <==> m >= 0x80
    ensures forall k :: 4 <= k < 8 ==> Bit(r, k) == Bit(p, k)
  {
    FlagMasks();
    AndLowBit(m / 0x40);
    BitIsDigit(m, 6);
    var z := And8(m, a);
    AndNonzeroIffCommonBit(m, a);
    var p1 := SetFlag(p, FlagV, And8(m / 0x40, 1) == 1);
    var p2 := SetFlag(p1, FlagN, IsNegative(m));
    SetFlag(p2, FlagZ, z == 0)
  }

  /** inc, inx, iny: the value plus one modulo 256, then ZN. */
  function Increment(v: Byte, p: Byte): (r: AluResult)
    ensures r.value == (v + 1) % 0x100
    ensures r.p == SetZN(p, r.value)
  {
    var w := Wrap8(v + 1);
    AluResult(w, SetZN(p, w))
  }

  /** dec, dex, dey: the value minus one modulo 256, then ZN. */
  function Decrement(v: Byte, p: Byte): (r: AluResult)
    ensures r.value == (v - 1) % 0x100
    ensures r.p == SetZN(p, r.value)
  {
    var w := Wrap8(v - 1);
    AluResult(w, SetZN(p, w))
  }

  // ---------------------------------------------------------------------------
  // Relations between the operations

  /** Decrementing undoes incrementing and the other way round. */
  lemma IncrementDecrementInverse(v: Byte, p: Byte)
    ensures Decrement(Increment(v, p).value, p).value == v
    ensures Increment(Decrement(v, p).value, p).value == v
  {
    IncrementArith(v, Increment(v, p).value, Decrement(v, p).value);
    IncrementArith(Decrement(v, p).value, v, Decrement(Decrement(v, p).value, p).value);
    IncrementArith(Increment(v, p).value, Increment(Increment(v, p).value, p).value, v);
  }

  lemma IncrementArith(v: int, up: int, down: int)
    requires 0 <= v < 0x100 && up == (v + 1) % 0x100 && down == (v - 1) % 0x100
    ensures (up - 1) % 0x100 == v && (down + 1) % 0x100 == v
  {
    if v == 0xFF {
      assert up == 0;
    } else if v == 0 {
      assert down == 0xFF;
    } else {
      assert up == v + 1 && down == v - 1;
    }
  }

  /** ror undoes rol and rol undoes ror, whatever the flags. */
  lemma RotateInverse(v: Byte, p: Byte, q: Byte)
    ensures RotateRight(RotateLeft(v, p).value, q).value == v
    ensures RotateLeft(RotateRight(v, p).value, q).value == v
  {
    RotateBytesInverse(v);
  }

  /** lsr after asl clears bit 7, and the carry of each is the bit shifted out. */
  lemma ShiftLeftThenRight(v: Byte, p: Byte, q: Byte)
    ensures ShiftRight(ShiftLeft(v, p).value, q).value == v % 0x80
    ensures !Bit(ShiftRight(ShiftLeft(v, p).value, q).p, 0)
  {
    ShiftArith(v, ShiftLeft(v, p).value);
  }

  lemma ShiftArith(v: int, w: int)
    requires 0 <= v < 0x100 && w == (2 * v) % 0x100
    ensures w / 2 == v % 0x80 && w % 2 == 0
  {
    if v < 0x80 {
      assert w == 2 * v;
    } else {
      assert w == 2 * v - 0x100;
    }
  }

  /** The value sbc computes is the value adc computes on the complemented
      operand, but the carry it leaves is the opposite one. */
  lemma SubtractIsAddOfComplement(a: Byte, m: Byte, p: Byte)
    ensures SubtractWithBorrow(a, m, p).value == AddWithCarry(a, 0xFF - m, p).value
    ensures Bit(SubtractWithBorrow(a, m, p).p, 0) == !Bit(AddWithCarry(a, 0xFF - m, p).p, 0)
  {
    ComplementArith(a, m, FlagValue(p, FlagC));
  }

  lemma ComplementArith(a: int, m: int, c: int)
    ensures (a - m - (1 - c)) % 0x100 == (a + (0xFF - m) + c) % 0x100
    ensures a - m - (1 - c) < 0 <==> !(a + (0xFF - m) + c > 0xFF)
  {
    assert a + (0xFF - m) + c == (a - m - (1 - c)) + 0x100;
  }

  /** The adc overflow test is exact for adc: it matches a signed result
      outside -128..127. For sbc it is not: 0x50 - 0xB0 overflows (80 - (-80)
      is 160) yet leaves V clear. */
  lemma SubtractOverflowMissed()
    ensures var r := SubtractWithBorrow(0x50, 0xB0, FlagC);
      Signed(0x50) - Signed(0xB0) == 160 && !Bit(r.p, 1) && !Bit(r.p, 2)
  {
  }

  /** The compare carry is the sign of the wrapped difference, so it agrees
      with `reg >= m` only when the two are less than 128 apart. */
  lemma CompareCarry(reg: Byte, m: Byte, p: Byte)
    ensures -0x80 < reg - m < 0x80 ==> (Bit(Compare(reg, m, p), 0) <==> reg >= m)
    ensures !Bit(Compare(0x90, 0x00, p), 0)
  {
  }
}
