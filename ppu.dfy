/**
  The PPU register file: seven byte registers and the 8 KB video memory
  behind the data port. The control-register tests compare a masked value
  with 1, as the source writes them.
 */
module Ppu {
  import opened Bits

  /** `ctrlVRAMIncr` and `ctrlSpriteTableBase`, the iota values 3 and 4. */
  const CtrlVramIncr: Byte := 3
  const CtrlSpriteTableBase: Byte := 4

  /** The step the data port adds to Addr after a write: 32 when
      `Ctrl & ctrlVRAMIncr == 1`, that is when the low two bits of Ctrl are 01. */
  function VramIncrement(ctrl: Byte): (r: int)
    ensures r == 32 <==> ctrl % 4 == 1
    ensures r == 1 || r == 32
  {
    AndLowMask(ctrl, 2, 8);
    if And8(ctrl, CtrlVramIncr) == 1 then 32 else 1
  }

  /** The OAM base offset: 0x1000 when `Ctrl & ctrlSpriteTableBase == 1`. The
      mask keeps bit 2 only, so the masked value is 0 or 4 and the base is
      always 0. */
  function SpriteTableBase(ctrl: Byte): (r: int)
    ensures r == 0
  {
    AndFieldMask(ctrl, 2, 1, 8);
    if And8(ctrl, CtrlSpriteTableBase) == 1 then 0x1000 else 0
  }

  /** The byte registers of the PPU. */
  datatype Registers = Registers(
    ctrl: Byte, mask: Byte, status: Byte, oamAddr: Byte,
    scroll: Byte, addr: Byte, oamDma: Byte)

  /** The data-port write on values: `vram[Addr] = v`, then Addr advances by
      the increment Ctrl selects, modulo 256. */
  function PortWrite(regs: Registers, vram: seq<Byte>, v: Byte): (r: (Registers, seq<Byte>))
    requires |vram| == 0x2000
    ensures |r.1| == 0x2000
    ensures r.1[regs.addr] == v
    ensures forall i :: 0 <= i < 0x2000 && i != regs.addr ==> r.1[i] == vram[i]
    ensures r.0 == regs.(addr := (regs.addr + VramIncrement(regs.ctrl)) % 0x100)
  {
    (regs.(addr := Wrap8(regs.addr + VramIncrement(regs.ctrl))), vram[regs.addr := v])
  }

  /** The OAM write on values: `vram[OAM_addr + base] = v`. */
  function OamWrite(regs: Registers, vram: seq<Byte>, v: Byte): (r: seq<Byte>)
    requires |vram| == 0x2000
    ensures |r| == 0x2000
    ensures r[regs.oamAddr] == v
    ensures forall i :: 0 <= i < 0x2000 && i != regs.oamAddr ==> r[i] == vram[i]
  {
    vram[regs.oamAddr + SpriteTableBase(regs.ctrl) := v]
  }

  /** Writes through the data port land in consecutive cells of the first
      256 bytes, 1 or 32 apart, wrapping at 256. */
  lemma PortWritesStayInFirstPage(regs: Registers, vram: seq<Byte>, v: Byte, w: Byte)
    requires |vram| == 0x2000
    ensures var (regs1, vram1) := PortWrite(regs, vram, v);
      var (regs2, vram2) := PortWrite(regs1, vram1, w);
      regs2.addr == (regs.addr + 2 * VramIncrement(regs.ctrl)) % 0x100 &&
      vram2[regs1.addr] == w &&
      (regs1.addr != regs.addr ==> vram2[regs.addr] == v) &&
      forall i :: 0x100 <= i < 0x2000 ==> vram2[i] == vram[i]
  {
    var (regs1, vram1) := PortWrite(regs, vram, v);
    var inc := VramIncrement(regs.ctrl);
    assert regs1.addr == (regs.addr + inc) % 0x100;
    assert (((regs.addr + inc) % 0x100) + inc) % 0x100 == (regs.addr + 2 * inc) % 0x100;
  }

  class Ppu {
    var Ctrl: Byte
    var Mask: Byte
    var Status: Byte
    var OamAddr: Byte
    var Scroll: Byte
    var Addr: Byte
    var OamDma: Byte
    const vram: array<Byte>

    ghost predicate Valid()
      reads this
    {
      vram.Length == 0x2000
    }

    function Regs(): Registers
      reads this
    {
      Registers(Ctrl, Mask, Status, OamAddr, Scroll, Addr, OamDma)
    }

    constructor ()
      ensures Valid() && fresh(vram)
      ensures Regs() == Registers(0, 0, 0, 0, 0, 0, 0)
      ensures vram[..] == seq(0x2000, _ => 0)
    {
      Ctrl, Mask, Status, OamAddr := 0, 0, 0, 0;
      Scroll, Addr, OamDma := 0, 0, 0;
      vram := new Byte[0x2000](_ => 0);
    }

    /** PowerOn, Reset and Tick have empty bodies: they change nothing. */
    method PowerOn()
      ensures unchanged(this) && unchanged(vram)
    {
    }

    method Reset()
      ensures unchanged(this) && unchanged(vram)
    {
    }

    method Tick()
      ensures unchanged(this) && unchanged(vram)
    {
    }

    /** The data-port read, `vram[Addr]`; Addr is a byte, so only the first
        256 cells can be read this way. */
    function Get(): (r: Byte)
      requires Valid()
      reads this, vram
      ensures r == vram[Addr]
      ensures exists i :: 0 <= i < 0x100 && r == vram[i]
    {
      vram[Addr]
    }

    /** The data-port write: `vram[Addr] = v`, then the increment. */
    method Set(v: Byte)
      requires Valid()
      modifies this, vram
      ensures Valid()
      ensures (Regs(), vram[..]) == PortWrite(old(Regs()), old(vram[..]), v)
    {
      vram[Addr] := v;
      if And8(Ctrl, CtrlVramIncr) == 1 {
        Addr := Wrap8(Addr + 32);
      } else {
        Addr := Wrap8(Addr + 1);
      }
    }

    /** `vram[OAM_addr + base]`, the base being always 0. */
    function GetOAM(): (r: Byte)
      requires Valid()
      reads this, vram
      ensures r == vram[OamAddr]
    {
      vram[OamAddr + SpriteTableBase(Ctrl)]
    }

    /** Writes `vram[OAM_addr + base]`; the registers are left alone, so a
        following GetOAM reads the value back. */
    method SetOAM(v: Byte)
      requires Valid()
      modifies vram
      ensures vram[..] == OamWrite(Regs(), old(vram[..]), v)
      ensures GetOAM() == v
    {
      vram[OamAddr + SpriteTableBase(Ctrl)] := v;
    }
  }
}
