/**
  The cartridge image: the iNES / NES 2.0 header decoding done by `Load`,
  stated as a parser over the file's bytes, and the bounds-checked PRG and
  CHR accessors. Reads past the end of the file yield zero bytes, as
  `bytes.Reader` does when its errors are dropped.
 */
module Rom {
  import opened Bits

  datatype Result<T> = Ok(value: T) | Err(msg: string)

  /** The byte at position i of the file, or 0 past its end. */
  function ByteAt(data: seq<Byte>, i: nat): Byte {
    if i < |data| then data[i] else 0
  }

  // ---------------------------------------------------------------------------
  // Reading the file
  // ---------------------------------------------------------------------------

  /** A `bytes.Reader`: the data and the read position. Seeking past the end
      is allowed; reading there yields nothing. */
  datatype Reader = Reader(data: seq<Byte>, pos: nat)

  /** `ReadByte` with its error dropped: the next byte, or 0 at the end of
      the data, where the position stays. */
  function ReadByte(r: Reader): (res: (Byte, Reader))
    ensures res.0 == ByteAt(r.data, r.pos)
    ensures res.1.data == r.data
    ensures res.1.pos == if r.pos < |r.data| then r.pos + 1 else r.pos
  {
    if r.pos < |r.data| then (r.data[r.pos], r.(pos := r.pos + 1)) else (0, r)
  }

  /** n successive `ReadByte` calls. */
  function ReadBytes(r: Reader, n: nat): (res: (seq<Byte>, Reader))
    ensures |res.0| == n
    ensures forall i :: 0 <= i < n ==> res.0[i] == ByteAt(r.data, r.pos + i)
    ensures res.1.data == r.data
    ensures r.pos + n <= |r.data| ==> res.1.pos == r.pos + n
    decreases n
  {
    if n == 0 then ([], r)
    else
      var (b, r1) := ReadByte(r);
      var (rest, r2) := ReadBytes(r1, n - 1);
      assert forall i :: 0 <= i < n - 1 ==> rest[i] == ByteAt(r.data, r.pos + 1 + i) by {
        if r.pos >= |r.data| {
          assert forall i :: 0 <= i < n - 1 ==> rest[i] == 0;
        }
      }
      ([b] + rest, r2)
  }

  /** `io.ReadFull(r, buf)`: copies the bytes that remain, at most |buf| of
      them, over the front of buf; the rest of buf keeps its contents. */
  function ReadFull(r: Reader, buf: seq<Byte>): (res: (seq<Byte>, Reader))
    ensures |res.0| == |buf|
    ensures forall i :: 0 <= i < |buf| ==>
      res.0[i] == if r.pos + i < |r.data| then r.data[r.pos + i] else buf[i]
    ensures res.1.data == r.data
    ensures r.pos + |buf| <= |r.data| ==> res.1.pos == r.pos + |buf|
    ensures r.pos + |buf| > |r.data| ==> res.1.pos == if r.pos < |r.data| then |r.data| else r.pos
  {
    if r.pos >= |r.data| then (buf, r)
    else
      var n := if |buf| < |r.data| - r.pos then |buf| else |r.data| - r.pos;
      (r.data[r.pos..r.pos + n] + buf[n..], r.(pos := r.pos + n))
  }

  /** A reader standing at file offset `start`, or at or past the end of the
      data when `start` itself is. Reading from either yields the same bytes. */
  ghost predicate At(r: Reader, data: seq<Byte>, start: nat) {
    r.data == data && (r.pos == start || (start >= |data| && r.pos >= |data|))
  }

  /** Reading |buf| bytes from a reader at `start` reads the file's bytes from
      `start` on and leaves the reader at `start + |buf|`. */
  lemma ReadFullAt(r: Reader, data: seq<Byte>, start: nat, buf: seq<Byte>)
    requires At(r, data, start)
    ensures var (out, r') := ReadFull(r, buf);
      At(r', data, start + |buf|) &&
      forall i :: 0 <= i < |buf| ==> out[i] == if start + i < |data| then data[start + i] else buf[i]
  {
  }

  // ---------------------------------------------------------------------------
  // Header fields
  // ---------------------------------------------------------------------------

  const Magic: seq<Byte> := [0x4E, 0x45, 0x53, 0x1A]

  lemma NibbleArith(f1: nat, f2: nat, m1: nat, m2: nat)
    requires f1 < 0x100 && f2 < 0x100
    requires m1 == (f1 / 16) % 16 * 16 && m2 == (f2 / 16) % 16 * 16
    ensures m1 / 16 + m2 == f1 / 16 + f2 / 16 * 16 < 0x100
  {
  }

  /** `flag1 & 0xF0 >> 4 + flag2 & 0xF0`: the high nibble of flag1 below the
      high nibble of flag2. */
  function MapperNumber(flag1: Byte, flag2: Byte): (r: Byte)
    ensures r == flag1 / 16 + flag2 / 16 * 16
  {
    var m1 := And8(flag1, 0xF0);
    var m2 := And8(flag2, 0xF0);
    assert m1 == (flag1 / 16) % 16 * 16 && m2 == (flag2 / 16) % 16 * 16 by {
      Pow2Widths();
      AndFieldMask(flag1, 4, 4, 8);
      AndFieldMask(flag2, 4, 4, 8);
    }
    assert ShiftRight(m1, 4) == m1 / 16 by { ShiftRightIsDiv(m1, 4); Pow2Widths(); }
    NibbleArith(flag1, flag2, m1, m2);
    ShiftRight(m1, 4) + m2
  }

  /** `flag1 & 0x04 >> 2 == 1`. */
  predicate TrainerFlag(flag1: Byte)
  {
    ShiftRight(And8(flag1, 0x04), 2) == 1
  }

  lemma TrainerArith(f: nat, m: nat)
    requires m == (f / 4) % 2 * 4
    ensures m / 4 == 1 <==> (f / 4) % 2 == 1
  {
  }

  /** The trainer flag is bit 2 of flag1. */
  lemma TrainerFlagIsBit2(flag1: Byte)
    ensures TrainerFlag(flag1) <==> Bit(flag1, 2)
  {
    var m := And8(flag1, 0x04);
    assert Pow2(2) == 4 && Pow2(1) == 2;
    assert m == (flag1 / 4) % 2 * 4 by { AndFieldMask(flag1, 2, 1, 8); }
    ShiftRightIsDiv(m, 2);
    BitIsDigit(flag1, 2);
    TrainerArith(flag1, m);
  }

  // ---------------------------------------------------------------------------
  // The parser
  // ---------------------------------------------------------------------------

  datatype Image = Image(mapperNum: Byte, trainer: seq<Byte>, prg: seq<Byte>, chr: seq<Byte>)

  /** The seek to offset 16, then the trainer read when flag1 asks for one,
      over the previous 512-byte trainer buffer: a short file overwrites it
      only in part. */
  function ReadTrainer(data: seq<Byte>, flag1: Byte, trainer: seq<Byte>): (res: (seq<Byte>, Reader))
    requires |trainer| == 512
    ensures At(res.1, data, if TrainerFlag(flag1) then 16 + 512 else 16)
    ensures |res.0| == 512
    ensures TrainerFlag(flag1) ==>
      forall i :: 0 <= i < 512 ==> res.0[i] == if 16 + i < |data| then data[16 + i] else trainer[i]
    ensures !TrainerFlag(flag1) ==> res.0 == trainer
  {
    var r := Reader(data, 16);
    if TrainerFlag(flag1) then
      ReadFullAt(r, data, 16, trainer);
      ReadFull(r, trainer)
    else
      (trainer, r)
  }

  /** The reads after the seek: the trainer, then `prgSize` 16 KB banks and
      `chrSize` 8 KB banks into zeroed buffers. */
  function ReadPayload(data: seq<Byte>, flag1: Byte, prgSize: Byte, chrSize: Byte, trainer: seq<Byte>)
    : (res: (seq<Byte>, seq<Byte>, seq<Byte>))
    requires |trainer| == 512
  {
    var (t, r1) := ReadTrainer(data, flag1, trainer);
    var (prg, r2) := ReadFull(r1, seq(prgSize * 0x4000, _ => 0));
    var (chr, _) := ReadFull(r2, seq(chrSize * 0x2000, _ => 0));
    (t, prg, chr)
  }

  /** The payload layout: PRG holds `prgSize` 16 KB banks read from offset 16,
      or from 16 + 512 after a trainer; CHR holds `chrSize` 8 KB banks read
      right after PRG; bytes past the end of the file read as zero. */
  lemma PayloadLayout(data: seq<Byte>, flag1: Byte, prgSize: Byte, chrSize: Byte, trainer: seq<Byte>)
    requires |trainer| == 512
    ensures var start := if TrainerFlag(flag1) then 16 + 512 else 16;
      var (t, prg, chr) := ReadPayload(data, flag1, prgSize, chrSize, trainer);
      |prg| == prgSize * 0x4000 && |chr| == chrSize * 0x2000 &&
      (forall i :: 0 <= i < |prg| ==> prg[i] == ByteAt(data, start + i)) &&
      (forall i :: 0 <= i < |chr| ==> chr[i] == ByteAt(data, start + |prg| + i))
  {
    var start := if TrainerFlag(flag1) then 16 + 512 else 16;
    var (t, r1) := ReadTrainer(data, flag1, trainer);
    var prgBuf := seq(prgSize * 0x4000, _ => 0);
    var (prg, r2) := ReadFull(r1, prgBuf);
    ReadFullAt(r1, data, start, prgBuf);
    var chrBuf := seq(chrSize * 0x2000, _ => 0);
    ReadFullAt(r2, data, start + |prgBuf|, chrBuf);
  }

  /** `Load` without the file access and the logging: magic, PRG bank count,
      CHR bank count, flag1, flag2, then the payload. The reads of the
      PRG-RAM size, of flag3 and flag4, and of the PC10 areas leave no
      trace, and the seek to offset 16 discards the position they moved. */
  function Parse(data: seq<Byte>, trainer: seq<Byte>): (res: Result<Image>)
    requires |trainer| == 512
  {
    var (magic, r4) := ReadBytes(Reader(data, 0), 4);
    if magic != Magic then
      Err("unknown format")
    else
      var (fields, _) := ReadBytes(r4, 4);
      var (t, prg, chr) := ReadPayload(data, fields[2], fields[0], fields[1], trainer);
      Ok(Image(MapperNumber(fields[2], fields[3]), t, prg, chr))
  }

  /** The first four bytes decide between the error and a parsed image. */
  lemma ParseChecksMagic(data: seq<Byte>, trainer: seq<Byte>)
    requires |trainer| == 512
    ensures Parse(data, trainer).Err? <==> !(|data| >= 4 && data[..4] == Magic)
  {
    var (magic, _) := ReadBytes(Reader(data, 0), 4);
    if |data| >= 4 {
      assert magic == data[..4];
    } else {
      assert magic[|data|] == 0;
    }
  }

  /** The header fields and the payload layout of a parsed image: the mapper
      number from bytes 6 and 7, and the payload read after the seek to
      offset 16 with bank counts from bytes 4 and 5. */
  lemma ParseFields(data: seq<Byte>, trainer: seq<Byte>)
    requires |trainer| == 512
    requires Parse(data, trainer).Ok?
    ensures |data| >= 4 && data[..4] == Magic
    ensures var img := Parse(data, trainer).value;
      img.mapperNum == MapperNumber(ByteAt(data, 6), ByteAt(data, 7)) &&
      (img.trainer, img.prg, img.chr) ==
        ReadPayload(data, ByteAt(data, 6), ByteAt(data, 4), ByteAt(data, 5), trainer)
  {
    var (magic, r4) := ReadBytes(Reader(data, 0), 4);
    assert magic == Magic;
    assert magic[3] == ByteAt(data, 3);
    assert data[..4] == Magic by { assert magic == data[..4]; }
    var (fields, _) := ReadBytes(r4, 4);
    assert fields[0] == ByteAt(data, 4) && fields[1] == ByteAt(data, 5);
    assert fields[2] == ByteAt(data, 6) && fields[3] == ByteAt(data, 7);
  }

  /** The file a header with the given fields and payload would be stored as:
      magic, the two bank counts, the two flag bytes, eight reserved bytes,
      the trainer when flag1 asks for one, PRG, CHR. */
  function Encode(flag1: Byte, flag2: Byte, trainer: seq<Byte>, prg: seq<Byte>, chr: seq<Byte>): (data: seq<Byte>)
    requires |prg| % 0x4000 == 0 && |prg| / 0x4000 < 0x100
    requires |chr| % 0x2000 == 0 && |chr| / 0x2000 < 0x100
  {
    Magic + [|prg| / 0x4000, |chr| / 0x2000, flag1, flag2] + seq(8, _ => 0) +
    (if TrainerFlag(flag1) then trainer else []) + prg + chr
  }

  /** Parsing an encoded image gives back its mapper number, trainer and
      payload; without a trainer flag the old trainer buffer is kept. */
  lemma ParseEncode(flag1: Byte, flag2: Byte, trainer: seq<Byte>, prg: seq<Byte>, chr: seq<Byte>, oldTrainer: seq<Byte>)
    requires |prg| % 0x4000 == 0 && |prg| / 0x4000 < 0x100
    requires |chr| % 0x2000 == 0 && |chr| / 0x2000 < 0x100
    requires |trainer| == 512 && |oldTrainer| == 512
    ensures Parse(Encode(flag1, flag2, trainer, prg, chr), oldTrainer) ==
      Ok(Image(MapperNumber(flag1, flag2), if TrainerFlag(flag1) then trainer else oldTrainer, prg, chr))
  {
    var data := Encode(flag1, flag2, trainer, prg, chr);
    EncodeBytes(flag1, flag2, trainer, prg, chr);
    ParseChecksMagic(data, oldTrainer);
    ParseFields(data, oldTrainer);
    EncodedPayload(flag1, flag2, trainer, prg, chr, oldTrainer);
  }

  /** The payload reads of an encoded image give back its trainer, PRG and CHR. */
  lemma EncodedPayload(flag1: Byte, flag2: Byte, trainer: seq<Byte>, prg: seq<Byte>, chr: seq<Byte>, oldTrainer: seq<Byte>)
    requires |prg| % 0x4000 == 0 && |prg| / 0x4000 < 0x100
    requires |chr| % 0x2000 == 0 && |chr| / 0x2000 < 0x100
    requires |trainer| == 512 && |oldTrainer| == 512
    ensures ReadPayload(Encode(flag1, flag2, trainer, prg, chr), flag1, |prg| / 0x4000, |chr| / 0x2000, oldTrainer) ==
      (if TrainerFlag(flag1) then trainer else oldTrainer, prg, chr)
  {
    var data := Encode(flag1, flag2, trainer, prg, chr);
    EncodeBytes(flag1, flag2, trainer, prg, chr);
    PayloadLayout(data, flag1, |prg| / 0x4000, |chr| / 0x2000, oldTrainer);
    var (t, prg1, chr1) := ReadPayload(data, flag1, |prg| / 0x4000, |chr| / 0x2000, oldTrainer);
    assert prg1 == prg;
    assert chr1 == chr;
    if TrainerFlag(flag1) {
      assert t == trainer;
    }
  }

  /** Where Encode puts each field. */
  lemma EncodeBytes(flag1: Byte, flag2: Byte, trainer: seq<Byte>, prg: seq<Byte>, chr: seq<Byte>)
    requires |prg| % 0x4000 == 0 && |prg| / 0x4000 < 0x100
    requires |chr| % 0x2000 == 0 && |chr| / 0x2000 < 0x100
    requires |trainer| == 512
    ensures var data := Encode(flag1, flag2, trainer, prg, chr);
      var start := if TrainerFlag(flag1) then 16 + 512 else 16;
      |data| == start + |prg| + |chr| &&
      data[..4] == Magic &&
      ByteAt(data, 4) == |prg| / 0x4000 && ByteAt(data, 5) == |chr| / 0x2000 &&
      ByteAt(data, 6) == flag1 && ByteAt(data, 7) == flag2 &&
      (TrainerFlag(flag1) ==> forall i :: 0 <= i < 512 ==> data[16 + i] == trainer[i]) &&
      (forall i :: 0 <= i < |prg| ==> data[start + i] == prg[i]) &&
      (forall i :: 0 <= i < |chr| ==> data[start + |prg| + i] == chr[i])
  {
    var data := Encode(flag1, flag2, trainer, prg, chr);
    var head := Magic + [|prg| / 0x4000, |chr| / 0x2000, flag1, flag2] + seq(8, _ => 0);
    var t := if TrainerFlag(flag1) then trainer else [];
    assert data == head + t + prg + chr;
    assert data[..4] == Magic;
  }

  // ---------------------------------------------------------------------------
  // Bounds-checked bank access
  // ---------------------------------------------------------------------------

  /** `GetPRG`/`GetCHR` on values: 0 when `addr >= uint16(len(s))`. The bound
      is the length truncated to 16 bits. */
  function ReadBounded(s: seq<Byte>, addr: Word): (r: Byte)
    ensures |s| < 0x1_0000 ==> r == if addr < |s| then s[addr] else 0
    ensures |s| == 0x1_0000 ==> r == 0
  {
    if addr >= Wrap16(|s|) then 0 else s[addr]
  }

  /** `SetPRG`/`SetCHR` on values: a no-op when `addr >= uint16(len(s))`. */
  function WriteBounded(s: seq<Byte>, addr: Word, v: Byte): (r: seq<Byte>)
    ensures |r| == |s|
    ensures addr < Wrap16(|s|) ==> r[addr] == v
    ensures forall i :: 0 <= i < |s| && (i != addr || addr >= Wrap16(|s|)) ==> r[i] == s[i]
  {
    if addr >= Wrap16(|s|) then s else s[addr := v]
  }

  /** A write then a read: the written value where the bound admits the
      address, the old value elsewhere. */
  lemma WriteThenRead(s: seq<Byte>, addr: Word, v: Byte, other: Word)
    ensures ReadBounded(WriteBounded(s, addr, v), other) ==
      if other == addr && addr < Wrap16(|s|) then v else ReadBounded(s, other)
  {
  }

  class Rom {
    var MapperNum: int
    const Trainer: array<Byte>
    var PRG: array<Byte>
    var CHR: array<Byte>

    constructor ()
      ensures Trainer.Length == 512 && fresh(Trainer)
      ensures MapperNum == 0 && PRG.Length == 0 && CHR.Length == 0
    {
      MapperNum := 0;
      Trainer := new Byte[512](_ => 0);
      PRG := new Byte[0];
      CHR := new Byte[0];
    }

    /** `Load` over the file's contents: on a bad magic it fails and changes
        nothing; otherwise it stores the parsed mapper number, trainer and
        fresh PRG and CHR arrays. */
    method Load(data: seq<Byte>) returns (ok: bool)
      requires Trainer.Length == 512
      modifies this, Trainer
      ensures ok <==> Parse(data, old(Trainer[..])).Ok?
      ensures !ok ==> unchanged(this) && unchanged(Trainer)
      ensures ok ==> fresh(PRG) && fresh(CHR)
      ensures ok ==> var img := Parse(data, old(Trainer[..])).value;
        MapperNum == img.mapperNum && Trainer[..] == img.trainer &&
        PRG[..] == img.prg && CHR[..] == img.chr
    {
      var res := Parse(data, Trainer[..]);
      if res.Err? {
        return false;
      }
      var img := res.value;
      assert |img.trainer| == 512 by { ParseShapes(data, Trainer[..]); }
      MapperNum := img.mapperNum;
      forall i | 0 <= i < 512 {
        Trainer[i] := img.trainer[i];
      }
      PRG := new Byte[|img.prg|](i requires 0 <= i < |img.prg| => img.prg[i]);
      CHR := new Byte[|img.chr|](i requires 0 <= i < |img.chr| => img.chr[i]);
      ok := true;
    }

    function GetPRG(addr: Word): (r: Byte)
      reads this, PRG
      ensures r == ReadBounded(PRG[..], addr)
    {
      if addr >= Wrap16(PRG.Length) then 0 else PRG[addr]
    }

    method SetPRG(addr: Word, v: Byte)
      modifies PRG
      ensures PRG[..] == WriteBounded(old(PRG[..]), addr, v)
    {
      if addr >= Wrap16(PRG.Length) {
        return;
      }
      PRG[addr] := v;
    }

    function GetCHR(addr: Word): (r: Byte)
      reads this, CHR
      ensures r == ReadBounded(CHR[..], addr)
    {
      if addr >= Wrap16(CHR.Length) then 0 else CHR[addr]
    }

    method SetCHR(addr: Word, v: Byte)
      modifies CHR
      ensures CHR[..] == WriteBounded(old(CHR[..]), addr, v)
    {
      if addr >= Wrap16(CHR.Length) {
        return;
      }
      CHR[addr] := v;
    }
  }

  /** A parsed trainer keeps the buffer's 512 bytes. */
  lemma ParseShapes(data: seq<Byte>, trainer: seq<Byte>)
    requires |trainer| == 512
    requires Parse(data, trainer).Ok?
    ensures |Parse(data, trainer).value.trainer| == 512
  {
  }
}
