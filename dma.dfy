// OAM DMA: a byte-by-byte copy from the CPU bus into a target buffer,
// driven by a 16-bit counter.

module Dma {
  import opened Bits

  /** The bytes a copy of `n` bytes from `addr` produces: byte `k` is read
      from `addr + k`, wrapped to 16 bits. */
  function Copied(read: Word -> Byte, addr: Word, n: nat): (r: seq<Byte>)
    ensures |r| == n
    ensures forall k :: 0 <= k < n ==> r[k] == read(Wrap16(addr + k))
  {
    if n == 0 then [] else Copied(read, addr, n - 1) + [read(Wrap16(addr + n - 1))]
  }

  /** The bus addresses a copy of `n` bytes from `addr` reads, in order. */
  function ReadOrder(addr: Word, n: nat): (r: seq<Word>)
    ensures |r| == n
    ensures forall k :: 0 <= k < n ==> r[k] == Wrap16(addr + k)
  {
    if n == 0 then [] else ReadOrder(addr, n - 1) + [Wrap16(addr + n - 1)]
  }

  /** A copy splits at any point into a copy of the first `m` bytes and a copy
      of the rest, the second starting at the wrapped address `addr + m`. */
  lemma CopiedSplits(read: Word -> Byte, addr: Word, m: nat, n: nat)
    ensures Copied(read, addr, m + n) == Copied(read, addr, m) + Copied(read, Wrap16(addr + m), n)
  {
    var whole := Copied(read, addr, m + n);
    var parts := Copied(read, addr, m) + Copied(read, Wrap16(addr + m), n);
    forall k | m <= k < m + n
      ensures whole[k] == parts[k]
    {
      WrapShift(addr + m, k - m);
    }
  }

  /** Wrapping a partial sum first does not change the wrapped total. */
  lemma WrapShift(a: int, b: int)
    ensures Wrap16(Wrap16(a) + b) == Wrap16(a + b)
  {
  }

  /** Within one 64 KB sweep the copy reads every address at most once. */
  lemma ReadOnce(addr: Word, n: nat, j: nat, k: nat)
    requires n <= 0x1_0000
    requires j < k < n
    ensures ReadOrder(addr, n)[j] != ReadOrder(addr, n)[k]
  {
    var d := k - j;
    assert 0 < d < 0x1_0000;
    if Wrap16(addr + j) == Wrap16(addr + k) {
      WrapDiff(addr + j, d);
      assert false;
    }
  }

  /** Adding a positive amount below 0x10000 always moves the wrapped value. */
  lemma WrapDiff(a: nat, d: int)
    requires 0 < d < 0x1_0000
    ensures Wrap16(a + d) != Wrap16(a)
  {
    var q := a / 0x1_0000;
    var r := a % 0x1_0000;
    assert a == q * 0x1_0000 + r;
    if r + d < 0x1_0000 {
      assert a + d == q * 0x1_0000 + (r + d);
    } else {
      assert a + d == (q + 1) * 0x1_0000 + (r + d - 0x1_0000);
    }
  }

  /** A copy of a whole page starting at the page's first byte never wraps. */
  lemma PageCopy(read: Word -> Byte, page: Byte, k: nat)
    requires k < 0x100
    ensures Copied(read, page * 0x100, 0x100)[k] == read(page * 0x100 + k)
  {
    assert page * 0x100 + k < 0x1_0000;
  }

  /** With a buffer of 0x10000 bytes or more, the 16-bit counter is below the
      length at every value it can take, so the loop guard never fails. */
  lemma CounterNeverExits(length: nat, i: Word)
    requires length > 0xFFFF
    ensures i < length && Wrap16(i + 1) < length
  {
  }

  class Dma {
    /** The CPU bus the copy reads through, without side effects. */
    const bus: Word -> Byte

    constructor (bus: Word -> Byte)
      ensures this.bus == bus
    {
      this.bus := bus;
    }

    /** Copies `target.Length` bytes from `addr` on into `target`; `order` is
        the sequence of bus addresses read. */
    method Transfer(addr: Word, target: array<Byte>) returns (ghost order: seq<Word>)
      requires target.Length <= 0xFFFF
      modifies target
      ensures target[..] == Copied(bus, addr, target.Length)
      ensures order == ReadOrder(addr, target.Length)
    {
      var i: Word := 0;
      order := [];
      while i < target.Length
        invariant i <= target.Length
        invariant target[..i] == Copied(bus, addr, i)
        invariant order == ReadOrder(addr, i)
        decreases target.Length - i
      {
        target[i] := bus(Wrap16(addr + i));
        order := order + [Wrap16(addr + i)];
        i := Wrap16(i + 1);
      }
    }
  }
}
