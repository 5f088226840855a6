/**
  Go's `byte` and `uint16` as bounded integers, with the wrap-around of their
  arithmetic written out, and the bitwise operators `&`, `|`, `^`, `&^`, `>>`
  defined bit by bit so that their results can be reasoned about.
 */
module Bits {

  type Byte = x: int | 0 <= x < 0x100
  type Word = x: int | 0 <= x < 0x1_0000

  /** Go's uint8 arithmetic and int -> byte conversion keep the value modulo 2^8
      (two's complement for negative values; Dafny's % is Euclidean). */
  function Wrap8(x: int): Byte { x % 0x100 }

  /** Go's uint16 arithmetic and int -> uint16 conversion keep the value modulo 2^16. */
  function Wrap16(x: int): Word { x % 0x1_0000 }

  function Pow2(n: nat): (r: nat)
    ensures r >= 1
  {
    if n == 0 then 1 else 2 * Pow2(n - 1)
  }

  /** Bit k of x, bit 0 being the least significant. */
  predicate Bit(x: nat, k: nat) {
    if k == 0 then x % 2 == 1 else Bit(x / 2, k - 1)
  }

  /** `x >> k` on an unsigned value. */
  function ShiftRight(x: nat, k: nat): nat {
    if k == 0 then x else ShiftRight(x / 2, k - 1)
  }

  /** Shifting right by k divides by 2^k. */
  lemma {:induction false} ShiftRightIsDiv(x: nat, k: nat)
    ensures ShiftRight(x, k) == x / Pow2(k)
  {
    if k > 0 {
      ShiftRightIsDiv(x / 2, k - 1);
      DivMod2(x, Pow2(k - 1));
    }
  }

  datatype BitOp = AndOp | OrOp | XorOp | AndNotOp

  predicate Apply(op: BitOp, p: bool, q: bool) {
    match op
    case AndOp => p && q
    case OrOp => p || q
    case XorOp => p != q
    case AndNotOp => p && !q
  }

  /** The low n bits of `a op b`, computed bit by bit. */
  function Combine(op: BitOp, a: nat, b: nat, n: nat): (r: nat)
    ensures r < Pow2(n)
  {
    if n == 0 then 0
    else (if Apply(op, a % 2 == 1, b % 2 == 1) then 1 else 0) + 2 * Combine(op, a / 2, b / 2, n - 1)
  }

  lemma {:induction false} CombineBit(op: BitOp, a: nat, b: nat, n: nat, k: nat)
    requires k < n
    ensures Bit(Combine(op, a, b, n), k) == Apply(op, Bit(a, k), Bit(b, k))
  {
    var d := if Apply(op, a % 2 == 1, b % 2 == 1) then 1 else 0;
    var rest := Combine(op, a / 2, b / 2, n - 1);
    assert (d + 2 * rest) % 2 == d && (d + 2 * rest) / 2 == rest;
    if k > 0 {
      CombineBit(op, a / 2, b / 2, n - 1, k - 1);
    }
  }

  /** `a & b` on bytes. */
  function And8(a: Byte, b: Byte): (r: Byte)
    ensures forall k :: 0 <= k < 8 ==> Bit(r, k) == (Bit(a, k) && Bit(b, k))
  {
    var r := Combine(AndOp, a, b, 8);
    forall k | 0 <= k < 8 ensures Bit(r, k) == (Bit(a, k) && Bit(b, k)) {
      CombineBit(AndOp, a, b, 8, k);
    }
    r
  }

  /** `a | b` on bytes. */
  function Or8(a: Byte, b: Byte): (r: Byte)
    ensures forall k :: 0 <= k < 8 ==> Bit(r, k) == (Bit(a, k) || Bit(b, k))
  {
    var r := Combine(OrOp, a, b, 8);
    forall k | 0 <= k < 8 ensures Bit(r, k) == (Bit(a, k) || Bit(b, k)) {
      CombineBit(OrOp, a, b, 8, k);
    }
    r
  }

  /** `a ^ b` on bytes. */
  function Xor8(a: Byte, b: Byte): (r: Byte)
    ensures forall k :: 0 <= k < 8 ==> Bit(r, k) == (Bit(a, k) != Bit(b, k))
  {
    var r := Combine(XorOp, a, b, 8);
    forall k | 0 <= k < 8 ensures Bit(r, k) == (Bit(a, k) != Bit(b, k)) {
      CombineBit(XorOp, a, b, 8, k);
    }
    r
  }

  /** `a &^ b` (equivalently `a & ^b`) on bytes. */
  function AndNot8(a: Byte, b: Byte): (r: Byte)
    ensures forall k :: 0 <= k < 8 ==> Bit(r, k) == (Bit(a, k) && !Bit(b, k))
  {
    var r := Combine(AndNotOp, a, b, 8);
    forall k | 0 <= k < 8 ensures Bit(r, k) == (Bit(a, k) && !Bit(b, k)) {
      CombineBit(AndNotOp, a, b, 8, k);
    }
    r
  }

  lemma Pow2Widths()
    ensures Pow2(4) == 0x10 && Pow2(8) == 0x100 && Pow2(16) == 0x1_0000
  {
    assert Pow2(8) == 0x100;
    assert Pow2(12) == 0x1000;
  }

  /** `a & b` on uint16 values. */
  function And16(a: Word, b: Word): Word {
    Pow2Widths();
    Combine(AndOp, a, b, 16)
  }

  // ---------------------------------------------------------------------------
  // Arithmetic facts used below

  lemma MulMonotone(d: nat, x: nat, y: nat)
    requires x <= y
    ensures d * x <= d * y
  {
    assert d * y == d * x + d * (y - x);
  }

  lemma ModUnique(a: nat, d: nat, q: nat, r: nat)
    requires d > 0 && a == d * q + r && r < d
    ensures a % d == r && a / d == q
  {
    var q', r' := a / d, a % d;
    assert a == d * q' + r';
    if q > q' {
      MulMonotone(d, q' + 1, q);
      assert false;
    } else if q < q' {
      MulMonotone(d, q + 1, q');
      assert false;
    }
  }

  lemma DivMod2(a: nat, p: nat)
    requires p > 0
    ensures a / 2 / p == a / (2 * p)
    ensures a % (2 * p) == a % 2 + 2 * ((a / 2) % p)
  {
    var q := a / 2 / p;
    var r := a / 2 % p;
    assert a / 2 == p * q + r;
    assert a == 2 * p * q + (2 * r + a % 2);
    ModUnique(a, 2 * p, q, 2 * r + a % 2);
  }

  // ---------------------------------------------------------------------------
  // Bits of values

  /** A value below 2^n has no bit at position n or above. */
  lemma {:induction false} BitBeyondWidth(x: nat, n: nat, k: nat)
    requires x < Pow2(n) && n <= k
    ensures !Bit(x, k)
  {
    if k > 0 && n > 0 {
      BitBeyondWidth(x / 2, n - 1, k - 1);
    } else if k > 0 {
      assert x == 0;
      BitBeyondWidth(0, 0, k - 1);
    }
  }

  /** Two values below 2^n that agree on their low n bits are equal. */
  lemma {:induction false} BitsDetermine(a: nat, b: nat, n: nat)
    requires a < Pow2(n) && b < Pow2(n)
    requires forall k :: 0 <= k < n ==> Bit(a, k) == Bit(b, k)
    ensures a == b
  {
    if n > 0 {
      assert Bit(a, 0) == Bit(b, 0);
      forall k | 0 <= k < n - 1 ensures Bit(a / 2, k) == Bit(b / 2, k) {
        assert Bit(a, k + 1) == Bit(b, k + 1);
      }
      BitsDetermine(a / 2, b / 2, n - 1);
    }
  }

  /** Bit k of x is the k-th binary digit, `(x >> k) % 2`. */
  lemma {:induction false} BitIsDigit(x: nat, k: nat)
    ensures Bit(x, k) == ((x / Pow2(k)) % 2 == 1)
  {
    if k > 0 {
      BitIsDigit(x / 2, k - 1);
      DivMod2(x, Pow2(k - 1));
    }
  }

  /** Bit 7 of a byte is its sign bit in two's complement. */
  lemma TopBit(x: Byte)
    ensures Bit(x, 7) <==> x >= 0x80
  {
    BitIsDigit(x, 7);
    assert Pow2(7) == 0x80;
  }

  /** `x & (2^w - 1)` keeps the low w bits: it is `x % 2^w`. */
  lemma {:induction false} AndLowMask(a: nat, w: nat, n: nat)
    requires w <= n
    ensures Combine(AndOp, a, Pow2(w) - 1, n) == a % Pow2(w)
  {
    if n == 0 {
    } else if w == 0 {
      AndZero(a, n);
      assert Pow2(0) == 1;
    } else {
      AndLowMask(a / 2, w - 1, n - 1);
      AndLowMaskStep(a, w, n);
    }
  }

  /** One bit of AndLowMask: the mask is odd, so bit 0 is kept and the rest
      is masked with one bit fewer. */
  lemma AndLowMaskStep(a: nat, w: nat, n: nat)
    requires 0 < w <= n
    requires Combine(AndOp, a / 2, Pow2(w - 1) - 1, n - 1) == (a / 2) % Pow2(w - 1)
    ensures Combine(AndOp, a, Pow2(w) - 1, n) == a % Pow2(w)
  {
    var p := Pow2(w - 1);
    assert Pow2(w) - 1 == 2 * (p - 1) + 1;
    OddCombine(a, p - 1, n);
    DivMod2(a, p);
  }

  /** `x & mask` where the mask holds bits lo .. lo+w-1 is the field
      `(x >> lo) % 2^w`, left in place. */
  lemma {:induction false} AndFieldMask(a: nat, lo: nat, w: nat, n: nat)
    requires lo + w <= n
    ensures Combine(AndOp, a, (Pow2(w) - 1) * Pow2(lo), n) == (a / Pow2(lo)) % Pow2(w) * Pow2(lo)
  {
    if lo == 0 {
      AndLowMask(a, w, n);
    } else {
      var p := Pow2(lo - 1);
      FieldStep(a, p, Pow2(w));
      EvenCombine(a, (Pow2(w) - 1) * p, n);
      AndFieldMask(a / 2, lo - 1, w, n - 1);
    }
  }

  lemma FieldStep(a: nat, p: nat, r: nat)
    requires p > 0 && r > 0
    ensures (r - 1) * (2 * p) == 2 * ((r - 1) * p)
    ensures (a / (2 * p)) % r * (2 * p) == 2 * ((a / 2 / p) % r * p)
  {
    DivMod2(a, p);
  }

  /** Masking with an odd mask keeps bit 0 and masks the rest with half the mask. */
  lemma OddCombine(a: nat, m: nat, n: nat)
    requires n > 0
    ensures Combine(AndOp, a, 2 * m + 1, n) == a % 2 + 2 * Combine(AndOp, a / 2, m, n - 1)
  {
    assert (2 * m + 1) % 2 == 1 && (2 * m + 1) / 2 == m;
  }

  /** Masking with an even mask clears bit 0 and masks the rest with half the mask. */
  lemma EvenCombine(a: nat, m: nat, n: nat)
    requires n > 0
    ensures Combine(AndOp, a, 2 * m, n) == 2 * Combine(AndOp, a / 2, m, n - 1)
  {
    assert (2 * m) % 2 == 0 && (2 * m) / 2 == m;
  }

  /** A byte with none of its eight bits set is zero. */
  lemma ZeroByBits(x: Byte)
    requires forall k :: 0 <= k < 8 ==> !Bit(x, k)
    ensures x == 0
  {
    forall k | 0 <= k < 8 ensures Bit(x, k) == Bit(0, k) {
      BitBeyondWidth(0, 0, k);
    }
    Pow2Widths();
    BitsDetermine(x, 0, 8);
  }

  /** A nonzero byte has a set bit among its eight. */
  lemma NonzeroHasBit(x: Byte)
    requires x != 0
    ensures exists k :: 0 <= k < 8 && Bit(x, k)
  {
    if !exists k :: 0 <= k < 8 && Bit(x, k) {
      ZeroByBits(x);
    }
  }

  /** `a & 0` is zero. */
  lemma {:induction false} AndZero(a: nat, n: nat)
    ensures Combine(AndOp, a, 0, n) == 0
  {
    if n > 0 {
      AndZero(a / 2, n - 1);
    }
  }

  /** On operands with no common bit, `a | b` is `a + b`. */
  lemma {:induction false} OrOfDisjoint(a: nat, b: nat, n: nat)
    requires a < Pow2(n) && b < Pow2(n)
    requires Combine(AndOp, a, b, n) == 0
    ensures Combine(OrOp, a, b, n) == a + b
  {
    if n > 0 {
      OrOfDisjoint(a / 2, b / 2, n - 1);
    }
  }

  /** `v & 0x80` keeps bit 7 in place. */
  lemma AndTopBit(v: Byte)
    ensures And8(v, 0x80) == v / 0x80 * 0x80
  {
    assert Pow2(7) == 0x80 && Pow2(1) == 2;
    AndFieldMask(v, 7, 1, 8);
  }

  /** `v & 1` is bit 0. */
  lemma AndLowBit(v: Byte)
    ensures And8(v, 1) == v % 2
  {
    assert Pow2(1) == 2;
    AndLowMask(v, 1, 8);
  }

  /** On bytes with no common set bit, `a | b` is `a + b`. */
  lemma Or8OfDisjoint(a: Byte, b: Byte)
    requires And8(a, b) == 0
    ensures Or8(a, b) == a + b
  {
    Pow2Widths();
    OrOfDisjoint(a, b, 8);
  }

  /** `a & b` is nonzero exactly when the bytes have a set bit in common. */
  lemma AndNonzeroIffCommonBit(a: Byte, b: Byte)
    ensures And8(a, b) != 0 <==> exists k :: 0 <= k < 8 && Bit(a, k) && Bit(b, k)
  {
    var r := And8(a, b);
    if r != 0 {
      NonzeroHasBit(r);
      var k :| 0 <= k < 8 && Bit(r, k);
      assert Bit(a, k) && Bit(b, k);
      assert exists k :: 0 <= k < 8 && Bit(a, k) && Bit(b, k);
    } else {
      forall k | 0 <= k < 8 ensures !Bit(r, k) {
        BitBeyondWidth(0, 0, k);
      }
    }
  }
}
