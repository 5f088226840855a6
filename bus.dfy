/**
  The two buses. The PPU bus sends pattern-table addresses to the mapper and
  folds the rest onto video memory: the name tables repeat every 0xF00 bytes
  and every address from 0x3F00 up is one of the 32 palette bytes. The CPU
  bus mirrors 2 KB of work RAM over 0x0000-0x17FF, routes the PPU and APU
  register addresses, and hands every other address to the mapper.

  The mapper is modelled as a plain 64 KB memory. The PPU methods the CPU
  bus calls but the PPU does not define (GetStatus, GetData, SetScroll,
  SetAddr, SetData, SetDMA) are returned as a PpuCall instead of being run.
 */
module Bus {
  import opened Bits
  import Ppu
  import Apu

  datatype Option<T> = None | Some(value: T)

  // ===========================================================================
  // The PPU bus
  // ===========================================================================

  const PpuAddressVram: Word := 0x2000
  const PpuAddressPaletteBg: Word := 0x3F00

  /** Video memory must reach past the palette, at 0x1F00 + 0x1F. */
  const PpuVramMinSize := 0x1F20

  /** The video-memory cell of an address from 0x2000 up: a name-table
      address modulo 0xF00, or a palette address modulo 0x20 past 0x1F00. */
  function VramIndex(a: Word): (i: nat)
    requires a >= PpuAddressVram
    ensures a < PpuAddressPaletteBg ==> i < 0xF00 && i % 0xF00 == (a - 0x2000) % 0xF00
    ensures a >= PpuAddressPaletteBg ==> 0x1F00 <= i < PpuVramMinSize && i - 0x1F00 == (a - 0x3F00) % 0x20
  {
    if a < PpuAddressPaletteBg then (a - PpuAddressVram) % 0xF00
    else (PpuAddressPaletteBg - PpuAddressVram) + (a - PpuAddressPaletteBg) % 0x20
  }

  /** `ppuBus.Get` on values: below 0x2000 the mapper, else video memory. The
      source's two later cases (0x4000 and up to the mapper, and a default)
      follow the palette case, which already takes every address from 0x3F00
      up, so they are never reached and are not modelled. */
  function PpuRead(vram: seq<Byte>, mapper: seq<Byte>, a: Word): Byte
    requires |vram| >= PpuVramMinSize && |mapper| == 0x1_0000
  {
    if a < PpuAddressVram then mapper[a] else vram[VramIndex(a)]
  }

  /** `ppuBus.Set` on values: the new video memory and mapper memory. */
  function PpuWrite(vram: seq<Byte>, mapper: seq<Byte>, a: Word, v: Byte): (r: (seq<Byte>, seq<Byte>))
    requires |vram| >= PpuVramMinSize && |mapper| == 0x1_0000
    ensures |r.0| == |vram| && |r.1| == |mapper|
  {
    if a < PpuAddressVram then (vram, mapper[a := v]) else (vram[VramIndex(a) := v], mapper)
  }

  /** Addresses below 0x2000 reach the mapper at the same address, for reads
      and writes, and video memory is left alone. */
  lemma PatternTablesForwarded(vram: seq<Byte>, mapper: seq<Byte>, a: Word, v: Byte)
    requires |vram| >= PpuVramMinSize && |mapper| == 0x1_0000 && a < 0x2000
    ensures PpuRead(vram, mapper, a) == mapper[a]
    ensures PpuWrite(vram, mapper, a, v) == (vram, mapper[a := v])
  {
  }

  lemma ShiftMod(x: nat, n: nat)
    requires n > 0
    ensures (x + n) % n == x % n
  {
    ModUnique(x + n, n, x / n + 1, x % n);
  }

  /** The name tables repeat every 0xF00 bytes: an address and the one 0xF00
      above it read the same cell, `vram[(a - 0x2000) % 0xF00]`. */
  lemma {:induction false} NameTableMirror(vram: seq<Byte>, mapper: seq<Byte>, a: Word)
    requires |vram| >= PpuVramMinSize && |mapper| == 0x1_0000
    requires 0x2000 <= a && a + 0xF00 < 0x3F00
    ensures PpuRead(vram, mapper, a) == vram[(a - 0x2000) % 0xF00]
    ensures PpuRead(vram, mapper, a + 0xF00) == PpuRead(vram, mapper, a)
  {
    ShiftMod(a - 0x2000, 0xF00);
  }

  /** Every address from 0x3F00 up, including 0x4000 and above, reads one of
      the 32 palette bytes, the same as its image in 0x3F00-0x3F1F. */
  lemma {:induction false} PaletteFold(vram: seq<Byte>, mapper: seq<Byte>, a: Word)
    requires |vram| >= PpuVramMinSize && |mapper| == 0x1_0000 && a >= 0x3F00
    ensures PpuRead(vram, mapper, a) == vram[0x1F00 + (a - 0x3F00) % 0x20]
    ensures PpuRead(vram, mapper, a) == PpuRead(vram, mapper, 0x3F00 + (a - 0x3F00) % 0x20)
  {
    var k := (a - 0x3F00) % 0x20;
    assert k % 0x20 == k;
  }

  /** A write from 0x2000 up changes exactly one video-memory cell and no
      mapper cell, and a read at the same address returns the value. */
  lemma VramWriteRead(vram: seq<Byte>, mapper: seq<Byte>, a: Word, v: Byte)
    requires |vram| >= PpuVramMinSize && |mapper| == 0x1_0000 && a >= 0x2000
    ensures var (vram1, mapper1) := PpuWrite(vram, mapper, a, v);
      mapper1 == mapper && vram1 == vram[VramIndex(a) := v] &&
      PpuRead(vram1, mapper1, a) == v
  {
  }

  /** A name-table write is seen at the mirror 0xF00 above. */
  lemma {:induction false} NameTableWriteMirrored(vram: seq<Byte>, mapper: seq<Byte>, a: Word, v: Byte)
    requires |vram| >= PpuVramMinSize && |mapper| == 0x1_0000
    requires 0x2000 <= a && a + 0xF00 < 0x3F00
    ensures var (vram1, mapper1) := PpuWrite(vram, mapper, a, v);
      PpuRead(vram1, mapper1, a + 0xF00) == v
  {
    var (vram1, mapper1) := PpuWrite(vram, mapper, a, v);
    NameTableMirror(vram1, mapper1, a);
  }

  class PpuBus {
    const vram: array<Byte>
    const mapper: array<Byte>

    ghost predicate Valid()
      reads this
    {
      vram.Length >= PpuVramMinSize && mapper.Length == 0x1_0000 && vram != mapper
    }

    constructor (vram: array<Byte>, mapper: array<Byte>)
      requires vram.Length >= PpuVramMinSize && mapper.Length == 0x1_0000 && vram != mapper
      ensures Valid() && this.vram == vram && this.mapper == mapper
    {
      this.vram, this.mapper := vram, mapper;
    }

    function Get(a: Word): (r: Byte)
      requires Valid()
      reads this, vram, mapper
      ensures r == PpuRead(vram[..], mapper[..], a)
    {
      if a < PpuAddressVram then mapper[a]
      else if a < PpuAddressPaletteBg then vram[(a - PpuAddressVram) % 0xF00]
      else vram[(PpuAddressPaletteBg - PpuAddressVram) + (a - PpuAddressPaletteBg) % 0x20]
    }

    method Set(a: Word, v: Byte)
      requires Valid()
      modifies vram, mapper
      ensures (vram[..], mapper[..]) == PpuWrite(old(vram[..]), old(mapper[..]), a, v)
    {
      if a < PpuAddressVram {
        mapper[a] := v;
      } else if a < PpuAddressPaletteBg {
        vram[(a - PpuAddressVram) % 0xF00] := v;
      } else {
        vram[(PpuAddressPaletteBg - PpuAddressVram) + (a - PpuAddressPaletteBg) % 0x20] := v;
      }
    }
  }

  // ===========================================================================
  // The CPU bus
  // ===========================================================================

  const AddressMirror1: Word := 0x0800
  const AddressMirror2: Word := 0x1000
  const AddressMirror3: Word := 0x1800
  const AddressPpuCtrl: Word := 0x2000
  const AddressPpuMask: Word := 0x2001
  const AddressPpuStatus: Word := 0x2002
  const AddressOamAddr: Word := 0x2003
  const AddressOamData: Word := 0x2004
  const AddressPpuScroll: Word := 0x2005
  const AddressPpuAddr: Word := 0x2006
  const AddressPpuData: Word := 0x2007
  const AddressOamDma: Word := 0x4014
  const AddressApuStatus: Word := 0x4015
  const AddressJoy1: Word := 0x4016
  const AddressApuFrameCounter: Word := 0x4017

  const WorkRamSize := 0x800

  /** Where a CPU address goes. */
  datatype CpuTarget =
    | WorkRam(index: nat)
    | PpuCtrl | PpuMask | PpuStatus | OamAddr | OamData | PpuScroll | PpuAddr | PpuData
    | OamDma | ApuStatus | Joy1 | ApuFrameCounter
    | Mapper(address: Word)

  /** The switch of `cpuBus.Get` and `cpuBus.Set`. Work RAM is mirrored three
      times only: 0x1800-0x1FFF reaches the mapper, as does every address
      from 0x2008 up that is not one of the four listed at 0x4014-0x4017. */
  function CpuDecode(a: Word): (t: CpuTarget)
    ensures t.WorkRam? <==> a < 0x1800
    ensures t.WorkRam? ==> t.index == a % WorkRamSize
    ensures t.Mapper? <==> 0x1800 <= a < 0x2000 || (0x2008 <= a && !(0x4014 <= a <= 0x4017))
    ensures t.Mapper? ==> t.address == a
  {
    if a < AddressMirror1 then WorkRam(a)
    else if a < AddressMirror2 then WorkRam(a - AddressMirror1)
    else if a < AddressMirror3 then WorkRam(a - AddressMirror2)
    else if a == AddressPpuCtrl then PpuCtrl
    else if a == AddressPpuMask then PpuMask
    else if a == AddressPpuStatus then PpuStatus
    else if a == AddressOamAddr then OamAddr
    else if a == AddressOamData then OamData
    else if a == AddressPpuScroll then PpuScroll
    else if a == AddressPpuAddr then PpuAddr
    else if a == AddressPpuData then PpuData
    else if a == AddressOamDma then OamDma
    else if a == AddressApuStatus then ApuStatus
    else if a == AddressJoy1 then Joy1
    else if a == AddressApuFrameCounter then ApuFrameCounter
    else Mapper(a)
  }

  /** A PPU method the bus calls that the PPU does not define. */
  datatype PpuCall =
    | GetStatus | GetData
    | SetScroll(value: Byte) | SetAddr(value: Byte) | SetData(value: Byte) | SetDma(value: Byte)

  /** What a read yields: a byte, or a call to an undefined PPU method. */
  datatype Access = Value(value: Byte) | Opaque(call: PpuCall)

  /** What a write does: a new state, or a call to an undefined PPU method
      that leaves the modelled state alone. */
  datatype Effect = Stored(state: CpuBusState) | Forwarded(call: PpuCall)

  /** Everything the CPU bus reaches: work RAM, the PPU registers and video
      memory (for the OAM port), the two APU registers and the mapper. */
  datatype CpuBusState = CpuBusState(
    wram: seq<Byte>, ppu: Ppu.Registers, vram: seq<Byte>,
    apuStatus: Byte, frameCounter: Byte, mapper: seq<Byte>)

  ghost predicate WellFormed(st: CpuBusState) {
    |st.wram| == WorkRamSize && |st.vram| == 0x2000 && |st.mapper| == 0x1_0000
  }

  /** `cpuBus.Get` on values. */
  function CpuRead(st: CpuBusState, a: Word): Access
    requires WellFormed(st)
  {
    match CpuDecode(a)
    case WorkRam(i) => Value(st.wram[i])
    case PpuCtrl => Value(st.ppu.ctrl)
    case PpuMask => Value(st.ppu.mask)
    case PpuStatus => Opaque(GetStatus)
    case OamAddr => Value(0)
    case OamData => Value(st.vram[st.ppu.oamAddr + Ppu.SpriteTableBase(st.ppu.ctrl)])
    case PpuScroll => Value(0)
    case PpuAddr => Value(0)
    case PpuData => Opaque(GetData)
    case OamDma => Value(0)
    case ApuStatus => Value(st.apuStatus)
    case Joy1 => Value(0)
    case ApuFrameCounter => Value(st.frameCounter)
    case Mapper(m) => Value(st.mapper[m])
  }

  /** `cpuBus.Set` on values. */
  function CpuWrite(st: CpuBusState, a: Word, v: Byte): (r: Effect)
    requires WellFormed(st)
    ensures r.Stored? ==> WellFormed(r.state)
  {
    match CpuDecode(a)
    case WorkRam(i) => Stored(st.(wram := st.wram[i := v]))
    case PpuCtrl => Stored(st.(ppu := st.ppu.(ctrl := v)))
    case PpuMask => Stored(st.(ppu := st.ppu.(mask := v)))
    case PpuStatus => Stored(st)
    case OamAddr => Stored(st)
    case OamData => Stored(st.(vram := Ppu.OamWrite(st.ppu, st.vram, v)))
    case PpuScroll => Forwarded(SetScroll(v))
    case PpuAddr => Forwarded(SetAddr(v))
    case PpuData => Forwarded(SetData(v))
    case OamDma => Forwarded(SetDma(v))
    case ApuStatus => Stored(st.(apuStatus := v))
    case Joy1 => Stored(st)
    case ApuFrameCounter => Stored(st.(frameCounter := v))
    case Mapper(m) => Stored(st.(mapper := st.mapper[m := v]))
  }

  /** The first 0x1800 addresses read and write work RAM at `a % 0x800`, so
      an address and its mirrors 0x800 and 0x1000 above share a cell. */
  lemma WorkRamMirror(st: CpuBusState, a: Word, v: Byte)
    requires WellFormed(st) && a < 0x1800
    ensures CpuRead(st, a) == Value(st.wram[a % 0x800])
    ensures CpuWrite(st, a, v) == Stored(st.(wram := st.wram[a % 0x800 := v]))
    ensures a < 0x800 ==> CpuRead(st, a + 0x800) == CpuRead(st, a) == CpuRead(st, a + 0x1000)
  {
  }

  /** 0x1800-0x1FFF, 0x2008-0x4013 and 0x4018 up fall through to the mapper,
      at the same address. */
  lemma MapperFallThrough(st: CpuBusState, a: Word, v: Byte)
    requires WellFormed(st)
    requires 0x1800 <= a < 0x2000 || 0x2008 <= a < 0x4014 || 0x4018 <= a
    ensures CpuRead(st, a) == Value(st.mapper[a])
    ensures CpuWrite(st, a, v) == Stored(st.(mapper := st.mapper[a := v]))
  {
  }

  /** OAM_addr, Scroll, Addr, OAM_DMA and the joypad read 0; writes to Status,
      OAM_addr and the joypad change nothing. */
  lemma SilentRegisters(st: CpuBusState, a: Word, v: Byte)
    requires WellFormed(st)
    ensures a in {AddressOamAddr, AddressPpuScroll, AddressPpuAddr, AddressOamDma, AddressJoy1} ==>
      CpuRead(st, a) == Value(0)
    ensures a in {AddressPpuStatus, AddressOamAddr, AddressJoy1} ==> CpuWrite(st, a, v) == Stored(st)
  {
  }

  /** Ctrl, Mask, the APU status and the frame counter read back what was
      written, and so does the OAM data port, whose write leaves the
      registers alone. */
  lemma {:induction false} CpuRegisterRoundTrip(st: CpuBusState, a: Word, v: Byte)
    requires WellFormed(st)
    requires a in {AddressPpuCtrl, AddressPpuMask, AddressApuStatus, AddressApuFrameCounter, AddressOamData}
    ensures CpuWrite(st, a, v).Stored?
    ensures CpuRead(CpuWrite(st, a, v).state, a) == Value(v)
  {
    if a == AddressOamData {
      var r := CpuWrite(st, a, v).state;
      assert r.vram == Ppu.OamWrite(st.ppu, st.vram, v);
      assert r.ppu == st.ppu;
    }
  }

  /** The status and data ports read through PPU methods, and Scroll, Addr,
      the data port and OAM DMA write through them; the bus itself keeps no
      state for them. */
  lemma PpuCallsForwarded(st: CpuBusState, v: Byte)
    requires WellFormed(st)
    ensures CpuRead(st, AddressPpuStatus) == Opaque(GetStatus)
    ensures CpuRead(st, AddressPpuData) == Opaque(GetData)
    ensures CpuWrite(st, AddressPpuScroll, v) == Forwarded(SetScroll(v))
    ensures CpuWrite(st, AddressPpuAddr, v) == Forwarded(SetAddr(v))
    ensures CpuWrite(st, AddressPpuData, v) == Forwarded(SetData(v))
    ensures CpuWrite(st, AddressOamDma, v) == Forwarded(SetDma(v))
  {
  }

  class CpuBus {
    const ppu: Ppu.Ppu
    const apu: Apu.Apu
    const mapper: array<Byte>
    const wram: array<Byte>

    ghost predicate Valid()
      reads this, ppu
    {
      ppu.Valid() && wram.Length == WorkRamSize && mapper.Length == 0x1_0000 &&
      wram != mapper && ppu.vram != wram && ppu.vram != mapper
    }

    constructor (wram: array<Byte>, ppu: Ppu.Ppu, apu: Apu.Apu, mapper: array<Byte>)
      requires ppu.Valid() && wram.Length == WorkRamSize && mapper.Length == 0x1_0000
      requires wram != mapper && ppu.vram != wram && ppu.vram != mapper
      ensures Valid()
      ensures this.wram == wram && this.ppu == ppu && this.apu == apu && this.mapper == mapper
    {
      this.wram, this.ppu, this.apu, this.mapper := wram, ppu, apu, mapper;
    }

    /** The state the bus reaches, as a value. */
    function Snapshot(): (st: CpuBusState)
      requires Valid()
      reads this, wram, ppu, ppu.vram, apu, mapper
      ensures WellFormed(st)
    {
      CpuBusState(wram[..], ppu.Regs(), ppu.vram[..], apu.Status, apu.FrameCounter, mapper[..])
    }

    function Get(a: Word): (r: Access)
      requires Valid()
      reads this, wram, ppu, ppu.vram, apu, mapper
      ensures r == CpuRead(Snapshot(), a)
    {
      if a < AddressMirror1 then Value(wram[a])
      else if a < AddressMirror2 then Value(wram[a - AddressMirror1])
      else if a < AddressMirror3 then Value(wram[a - AddressMirror2])
      else if a == AddressPpuCtrl then Value(ppu.Ctrl)
      else if a == AddressPpuMask then Value(ppu.Mask)
      else if a == AddressPpuStatus then Opaque(GetStatus)
      else if a == AddressOamAddr then Value(0)
      else if a == AddressOamData then Value(ppu.GetOAM())
      else if a == AddressPpuScroll then Value(0)
      else if a == AddressPpuAddr then Value(0)
      else if a == AddressPpuData then Opaque(GetData)
      else if a == AddressOamDma then Value(0)
      else if a == AddressApuStatus then Value(apu.Status)
      else if a == AddressJoy1 then Value(0)
      else if a == AddressApuFrameCounter then Value(apu.FrameCounter)
      else Value(mapper[a])
    }

    /** The write; a write handed to an undefined PPU method is returned as
        `call` and changes nothing here. */
    method Set(a: Word, v: Byte) returns (call: Option<PpuCall>)
      requires Valid()
      modifies wram, ppu, ppu.vram, apu, mapper
      ensures Valid()
      ensures var e := CpuWrite(old(Snapshot()), a, v);
        if e.Stored? then call == None && Snapshot() == e.state
        else call == Some(e.call) && Snapshot() == old(Snapshot())
    {
      call := None;
      if a < AddressMirror1 {
        wram[a] := v;
      } else if a < AddressMirror2 {
        wram[a - AddressMirror1] := v;
      } else if a < AddressMirror3 {
        wram[a - AddressMirror2] := v;
      } else if a == AddressPpuCtrl {
        ppu.Ctrl := v;
      } else if a == AddressPpuMask {
        ppu.Mask := v;
      } else if a == AddressPpuStatus {
      } else if a == AddressOamAddr {
      } else if a == AddressOamData {
        ppu.SetOAM(v);
      } else if a == AddressPpuScroll {
        call := Some(SetScroll(v));
      } else if a == AddressPpuAddr {
        call := Some(SetAddr(v));
      } else if a == AddressPpuData {
        call := Some(SetData(v));
      } else if a == AddressOamDma {
        call := Some(SetDma(v));
      } else if a == AddressApuStatus {
        apu.Status := v;
      } else if a == AddressJoy1 {
      } else if a == AddressApuFrameCounter {
        apu.FrameCounter := v;
      } else {
        mapper[a] := v;
      }
    }
  }
}
