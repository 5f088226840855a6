/**
  The MMC1 memory map as the CPU sees it: a range cascade from a 16-bit
  address to work RAM, the PPU and APU registers, the extended RAM, the
  battery-backed RAM and the cartridge PRG. The 16-bit accessors read the
  high byte first and store the low nibble where the low byte belongs.
 */
module Mmc1 {
  import opened Bits
  import Ppu
  import Apu
  import Mm
  import Rom

  const AddressReserved: Word := 0x07FF
  const AddressPpuCtrl: Word := 0x2000
  const AddressPpuMask: Word := 0x2001
  const AddressPpuStatus: Word := 0x2002
  const AddressOamAddr: Word := 0x2003
  const AddressOamData: Word := 0x2004
  const AddressPpuScroll: Word := 0x2005
  const AddressPpuAddr: Word := 0x2006
  const AddressPpuVram: Word := 0x2007
  const AddressOamDma: Word := 0x4014
  const AddressApuStatus: Word := 0x4015
  const AddressJoy1: Word := 0x4016
  const AddressApuFrameCounter: Word := 0x4017
  const AddressRamExtend: Word := 0x4020
  const AddressBackup: Word := 0x7FFF
  const AddressRom: Word := 0x8000

  // ---------------------------------------------------------------------------
  // 16-bit composition
  // ---------------------------------------------------------------------------

  /** `uint16(hi)<<8 + uint16(lo)`: the first byte read is the high one. The
      sum never exceeds 16 bits, so the conversion loses nothing. */
  function JoinAddress(hi: Byte, lo: Byte): Word
  {
    hi * 0x100 + lo
  }

  /** The two bytes can be read back out of the joined address. */
  lemma JoinAddressSplits(hi: Byte, lo: Byte)
    ensures JoinAddress(hi, lo) / 0x100 == hi && JoinAddress(hi, lo) % 0x100 == lo
  {
    ModUnique(JoinAddress(hi, lo), 0x100, hi, lo);
  }

  /** The byte `SetAddress` writes first, `uint8(v & 0x0F)`: the low nibble,
      written as a remainder (StoredFirstIsMask ties it to the mask). */
  function StoredFirst(v: Word): Byte
  {
    v % 0x10
  }

  lemma StoredFirstIsMask(v: Word)
    ensures StoredFirst(v) == And16(v, 0x0F)
  {
    Pow2Widths();
    AndLowMask(v, 4, 16);
  }

  /** The byte `SetAddress` writes second, `uint8(v >> 8)`: the high byte. */
  function StoredSecond(v: Word): (r: Byte)
    ensures r == v / 0x100
  {
    v / 0x100
  }

  /** What GetAddress reads back after SetAddress stored v in two cells that
      round-trip: the low nibble moves to the high byte and the high byte to
      the low one, so only values of the form 0x0N0N come back unchanged
      (0x1234 comes back as 0x0412, 0x0505 as itself). */
  function Swizzled(v: Word): Word
  {
    JoinAddress(StoredFirst(v), StoredSecond(v))
  }

  /** The swizzled value in closed form, and its fixed points. */
  lemma SwizzledValue(v: Word)
    ensures Swizzled(v) == (v % 0x10) * 0x100 + v / 0x100
    ensures Swizzled(v) == v <==> v / 0x100 < 0x10 && v / 0x100 == v % 0x100
  {
    JoinAddressSplits(StoredFirst(v), StoredSecond(v));
    SwizzleArith(v, v % 0x10, v / 0x100, v % 0x100, Swizzled(v));
  }

  lemma SwizzleArith(v: nat, lo: nat, hi: nat, low: nat, r: nat)
    requires v < 0x1_0000 && lo == v % 0x10 && hi == v / 0x100 && low == v % 0x100
    requires r / 0x100 == lo && r % 0x100 == hi
    ensures r == lo * 0x100 + hi
    ensures r == v <==> hi < 0x10 && hi == low
  {
    assert v == hi * 0x100 + low;
    assert r == lo * 0x100 + hi;
    assert low % 0x10 == lo by {
      assert v == (hi * 0x10) * 0x10 + low;
      ModUnique(v, 0x10, hi * 0x10 + low / 0x10, low % 0x10);
    }
    if r == v {
      ModUnique(v, 0x100, lo, hi);
    }
  }

  // ---------------------------------------------------------------------------
  // Address decoding
  // ---------------------------------------------------------------------------

  datatype Target =
    | Ram(index: nat)
    | Register(address: Word)
    | RamExtend(index: nat)
    | Backup(index: nat)
    | Cartridge(offset: Word)

  /** The range cascade of `Get` and `Set`. */
  function Decode(a: Word): (t: Target)
    ensures t.Ram? <==> a < 0x07FF
    ensures t.Register? <==> 0x07FF <= a < 0x4020
    ensures t.RamExtend? <==> 0x4020 <= a < 0x7FFF
    ensures t.Backup? <==> a == 0x7FFF
    ensures t.Cartridge? <==> a >= 0x8000
    ensures t.Ram? ==> t.index == a
    ensures t.Register? ==> t.address == a
    ensures t.RamExtend? ==> t.index == a - 0x4020
    ensures t.Backup? ==> t.index == 0
    ensures t.Cartridge? ==> t.offset == a - 0x8000
  {
    if a < AddressReserved then Ram(a)
    else if a < AddressRamExtend then Register(a)
    else if a < AddressBackup then RamExtend(a - AddressRamExtend)
    else if a < AddressRom then Backup(a - AddressBackup)
    else Cartridge(a - AddressRom)
  }

  /** The extended RAM holds 0x1FDF bytes, so the part of its window from
      0x5FFF to 0x7FFE indexes past its end; the model keeps those addresses
      out of Get and Set. */
  predicate InRange(a: Word) {
    a < 0x5FFF || a >= 0x7FFF
  }

  /** The register addresses the switch lists. */
  predicate Mapped(a: Word) {
    a in {AddressPpuCtrl, AddressPpuMask, AddressPpuStatus, AddressOamAddr, AddressOamData,
          AddressPpuScroll, AddressPpuAddr, AddressPpuVram, AddressOamDma, AddressApuStatus,
          AddressJoy1, AddressApuFrameCounter}
  }

  // ---------------------------------------------------------------------------
  // The map on values
  // ---------------------------------------------------------------------------

  /** Everything Get and Set reach: the three work arrays, the PPU registers
      and video memory, the two APU registers, and the PRG bank. */
  datatype State = State(
    ram: seq<Byte>, ramExtend: seq<Byte>, backup: seq<Byte>,
    ppu: Ppu.Registers, vram: seq<Byte>,
    apuStatus: Byte, frameCounter: Byte,
    prg: seq<Byte>)

  ghost predicate WellFormed(st: State) {
    |st.ram| == Mm.RamSize && |st.ramExtend| == Mm.RamExtendSize &&
    |st.backup| == Mm.BackupSize && |st.vram| == 0x2000
  }

  function ReadRegister(st: State, a: Word): Byte
    requires WellFormed(st)
  {
    if a == AddressPpuCtrl then st.ppu.ctrl
    else if a == AddressPpuMask then st.ppu.mask
    else if a == AddressPpuStatus then st.ppu.status
    else if a == AddressOamAddr then st.ppu.oamAddr
    else if a == AddressOamData then st.vram[st.ppu.oamAddr + Ppu.SpriteTableBase(st.ppu.ctrl)]
    else if a == AddressPpuScroll then st.ppu.scroll
    else if a == AddressPpuAddr then st.ppu.addr
    else if a == AddressPpuVram then st.vram[st.ppu.addr]
    else if a == AddressOamDma then st.ppu.oamDma
    else if a == AddressApuStatus then st.apuStatus
    else if a == AddressJoy1 then 0
    else if a == AddressApuFrameCounter then st.frameCounter
    else 0
  }

  /** `Get` on values. */
  function Read(st: State, a: Word): Byte
    requires WellFormed(st) && InRange(a)
  {
    match Decode(a)
    case Ram(i) => st.ram[i]
    case Register(r) => ReadRegister(st, r)
    case RamExtend(i) => st.ramExtend[i]
    case Backup(i) => st.backup[i]
    case Cartridge(o) => Rom.ReadBounded(st.prg, o)
  }

  function WriteRegister(st: State, a: Word, v: Byte): State
    requires WellFormed(st)
  {
    if a == AddressPpuCtrl then st.(ppu := st.ppu.(ctrl := v))
    else if a == AddressPpuMask then st.(ppu := st.ppu.(mask := v))
    else if a == AddressPpuStatus then st.(ppu := st.ppu.(status := v))
    else if a == AddressOamAddr then st.(ppu := st.ppu.(oamAddr := v))
    else if a == AddressOamData then st.(vram := Ppu.OamWrite(st.ppu, st.vram, v))
    else if a == AddressPpuScroll then st.(ppu := st.ppu.(scroll := v))
    else if a == AddressPpuAddr then st.(ppu := st.ppu.(addr := v))
    else if a == AddressPpuVram then
      var (regs, vram) := Ppu.PortWrite(st.ppu, st.vram, v);
      st.(ppu := regs, vram := vram)
    else if a == AddressOamDma then st.(ppu := st.ppu.(oamDma := v))
    else if a == AddressApuStatus then st.(apuStatus := v)
    else if a == AddressApuFrameCounter then st.(frameCounter := v)
    else st
  }

  /** `Set` on values. */
  function Write(st: State, a: Word, v: Byte): (r: State)
    requires WellFormed(st) && InRange(a)
    ensures WellFormed(r)
    ensures |r.prg| == |st.prg|
  {
    match Decode(a)
    case Ram(i) => st.(ram := st.ram[i := v])
    case Register(r) => WriteRegister(st, r, v)
    case RamExtend(i) => st.(ramExtend := st.ramExtend[i := v])
    case Backup(i) => st.(backup := st.backup[i := v])
    case Cartridge(o) => st.(prg := Rom.WriteBounded(st.prg, o, v))
  }

  /** `GetAddress` on values. */
  function ReadAddress(st: State, a: Word): Word
    requires WellFormed(st) && InRange(a) && InRange(Wrap16(a + 1))
  {
    JoinAddress(Read(st, a), Read(st, Wrap16(a + 1)))
  }

  /** `SetAddress` on values. */
  function WriteAddress(st: State, a: Word, v: Word): (r: State)
    requires WellFormed(st) && InRange(a) && InRange(Wrap16(a + 1))
    ensures WellFormed(r)
  {
    Write(Write(st, a, StoredFirst(v)), Wrap16(a + 1), StoredSecond(v))
  }

  // ---------------------------------------------------------------------------
  // Properties of the map
  // ---------------------------------------------------------------------------

  /** Work RAM: the first 0x7FF addresses read and write `ram[a]` and nothing
      else. */
  lemma RamWindow(st: State, a: Word, v: Byte)
    requires WellFormed(st) && a < 0x07FF
    ensures Read(st, a) == st.ram[a]
    ensures Write(st, a, v) == st.(ram := st.ram[a := v])
  {
  }

  /** 0x7FF, the last byte of the RAM window, falls into the register range:
      it reads 0 and ignores writes. */
  lemma ReservedByte(st: State, v: Byte)
    requires WellFormed(st)
    ensures Read(st, 0x07FF) == 0
    ensures Write(st, 0x07FF, v) == st
  {
  }

  /** In the register range only the listed addresses are mapped: the others
      read 0 and ignore writes. */
  lemma UnmappedRegisters(st: State, a: Word, v: Byte)
    requires WellFormed(st) && 0x07FF <= a < 0x4020 && !Mapped(a)
    ensures Read(st, a) == 0
    ensures Write(st, a, v) == st
  {
  }

  /** Writing a plain register and reading it back gives the value written:
      the PPU's Ctrl, Mask, Status, OAM_addr, Scroll, Addr and OAM_DMA, the
      APU's Status and FrameCounter, and the OAM data port, whose write
      leaves OAM_addr where it was. */
  lemma {:induction false} RegisterRoundTrip(st: State, a: Word, v: Byte)
    requires WellFormed(st)
    requires a in {AddressPpuCtrl, AddressPpuMask, AddressPpuStatus, AddressOamAddr, AddressOamData,
                   AddressPpuScroll, AddressPpuAddr, AddressOamDma, AddressApuStatus,
                   AddressApuFrameCounter}
    ensures Read(Write(st, a, v), a) == v
  {
    if a == AddressOamData {
      var r := Write(st, a, v);
      assert r.vram == Ppu.OamWrite(st.ppu, st.vram, v);
      assert r.ppu == st.ppu;
    }
  }

  /** The joypad address and the data port do not read back: 0x4016 always
      reads 0, and a write through 0x2007 lands at the old Addr while a read
      uses the advanced one. */
  lemma NoRoundTrip(st: State, v: Byte)
    requires WellFormed(st)
    ensures Read(Write(st, AddressJoy1, v), AddressJoy1) == 0
    ensures Write(st, AddressPpuVram, v).vram[st.ppu.addr] == v
    ensures Write(st, AddressPpuVram, v).ppu.addr == (st.ppu.addr + Ppu.VramIncrement(st.ppu.ctrl)) % 0x100
  {
  }

  /** The extended RAM window starts at 0x4020 and the backup RAM window is
      the single address 0x7FFF, at `backup[0]`. */
  lemma RamExtendAndBackup(st: State, a: Word, v: Byte)
    requires WellFormed(st) && InRange(a) && 0x4020 <= a < 0x8000
    ensures a < 0x7FFF ==> Read(Write(st, a, v), a) == v && Write(st, a, v).ramExtend == st.ramExtend[a - 0x4020 := v]
    ensures a == 0x7FFF ==> Write(st, a, v).backup == st.backup[0 := v]
  {
  }

  /** Addresses from 0x8000 on reach the PRG bank at `a - 0x8000`, bounds
      checked against its 16-bit length. */
  lemma CartridgeWindow(st: State, a: Word, v: Byte)
    requires WellFormed(st) && a >= 0x8000
    ensures Read(st, a) == Rom.ReadBounded(st.prg, a - 0x8000)
    ensures Write(st, a, v) == st.(prg := Rom.WriteBounded(st.prg, a - 0x8000, v))
  {
  }

  /** SetAddress then GetAddress on two RAM cells gives the swizzled value,
      not the one stored. */
  lemma {:induction false} AddressRoundTripOnRam(st: State, a: Word, v: Word)
    requires WellFormed(st) && a + 1 < 0x07FF
    ensures ReadAddress(WriteAddress(st, a, v), a) == Swizzled(v)
  {
    var st1 := Write(st, a, StoredFirst(v));
    RamWindow(st, a, StoredFirst(v));
    RamWindow(st1, a + 1, StoredSecond(v));
    var st2 := Write(st1, a + 1, StoredSecond(v));
    RamWindow(st2, a, 0);
    RamWindow(st2, a + 1, 0);
  }

  // ---------------------------------------------------------------------------
  // The mapper object
  // ---------------------------------------------------------------------------

  class Mmc1 {
    const mm: Mm.Mm
    const ppu: Ppu.Ppu
    const apu: Apu.Apu
    const rom: Rom.Rom

    ghost predicate Valid()
      reads this, mm, ppu, rom
    {
      mm.Valid() && ppu.Valid() &&
      ppu.vram != mm.ram && ppu.vram != mm.ramExtend && ppu.vram != mm.backup &&
      rom.PRG != mm.ram && rom.PRG != mm.ramExtend && rom.PRG != mm.backup &&
      rom.PRG != ppu.vram
    }

    constructor (mm: Mm.Mm, ppu: Ppu.Ppu, apu: Apu.Apu, rom: Rom.Rom)
      requires mm.Valid() && ppu.Valid()
      requires ppu.vram != mm.ram && ppu.vram != mm.ramExtend && ppu.vram != mm.backup
      requires rom.PRG != mm.ram && rom.PRG != mm.ramExtend && rom.PRG != mm.backup && rom.PRG != ppu.vram
      ensures Valid()
      ensures this.mm == mm && this.ppu == ppu && this.apu == apu && this.rom == rom
    {
      this.mm, this.ppu, this.apu, this.rom := mm, ppu, apu, rom;
    }

    /** The state the accessors read, as a value. */
    function Snapshot(): (st: State)
      requires Valid()
      reads this, mm, mm.ram, mm.ramExtend, mm.backup, ppu, ppu.vram, apu, rom, rom.PRG
      ensures WellFormed(st)
    {
      State(mm.ram[..], mm.ramExtend[..], mm.backup[..], ppu.Regs(), ppu.vram[..],
            apu.Status, apu.FrameCounter, rom.PRG[..])
    }

    function Get(a: Word): (r: Byte)
      requires Valid() && InRange(a)
      reads this, mm, mm.ram, mm.ramExtend, mm.backup, ppu, ppu.vram, apu, rom, rom.PRG
      ensures r == Read(Snapshot(), a)
    {
      if a < AddressReserved then mm.ram[a]
      else if a < AddressRamExtend then
        if a == AddressPpuCtrl then ppu.Ctrl
        else if a == AddressPpuMask then ppu.Mask
        else if a == AddressPpuStatus then ppu.Status
        else if a == AddressOamAddr then ppu.OamAddr
        else if a == AddressOamData then ppu.GetOAM()
        else if a == AddressPpuScroll then ppu.Scroll
        else if a == AddressPpuAddr then ppu.Addr
        else if a == AddressPpuVram then ppu.Get()
        else if a == AddressOamDma then ppu.OamDma
        else if a == AddressApuStatus then apu.Status
        else if a == AddressJoy1 then 0
        else if a == AddressApuFrameCounter then apu.FrameCounter
        else 0
      else if a < AddressBackup then mm.ramExtend[a - AddressRamExtend]
      else if a < AddressRom then mm.backup[a - AddressBackup]
      else rom.GetPRG(a - AddressRom)
    }

    method Set(a: Word, v: Byte)
      requires Valid() && InRange(a)
      modifies mm.ram, mm.ramExtend, mm.backup, ppu, ppu.vram, apu, rom.PRG
      ensures Valid()
      ensures Snapshot() == Write(old(Snapshot()), a, v)
    {
      if a < AddressReserved {
        mm.ram[a] := v;
      } else if a < AddressRamExtend {
        if a == AddressPpuCtrl {
          ppu.Ctrl := v;
        } else if a == AddressPpuMask {
          ppu.Mask := v;
        } else if a == AddressPpuStatus {
          ppu.Status := v;
        } else if a == AddressOamAddr {
          ppu.OamAddr := v;
        } else if a == AddressOamData {
          ppu.SetOAM(v);
        } else if a == AddressPpuScroll {
          ppu.Scroll := v;
        } else if a == AddressPpuAddr {
          ppu.Addr := v;
        } else if a == AddressPpuVram {
          ppu.Set(v);
        } else if a == AddressOamDma {
          ppu.OamDma := v;
        } else if a == AddressApuStatus {
          apu.Status := v;
        } else if a == AddressApuFrameCounter {
          apu.FrameCounter := v;
        }
      } else if a < AddressBackup {
        mm.ramExtend[a - AddressRamExtend] := v;
      } else if a < AddressRom {
        mm.backup[a - AddressBackup] := v;
      } else {
        rom.SetPRG(a - AddressRom, v);
      }
    }

    function GetAddress(a: Word): (r: Word)
      requires Valid() && InRange(a) && InRange(Wrap16(a + 1))
      reads this, mm, mm.ram, mm.ramExtend, mm.backup, ppu, ppu.vram, apu, rom, rom.PRG
      ensures r == ReadAddress(Snapshot(), a)
    {
      JoinAddress(Get(a), Get(Wrap16(a + 1)))
    }

    method SetAddress(a: Word, v: Word)
      requires Valid() && InRange(a) && InRange(Wrap16(a + 1))
      modifies mm.ram, mm.ramExtend, mm.backup, ppu, ppu.vram, apu, rom.PRG
      ensures Valid()
      ensures Snapshot() == WriteAddress(old(Snapshot()), a, v)
    {
      Set(a, StoredFirst(v));
      Set(Wrap16(a + 1), StoredSecond(v));
    }
  }
}
