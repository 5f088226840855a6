/**
  The NROM mapper: two 16 KB windows at 0x8000 and 0xC000 onto the PRG
  bank, the first at offset 0 and the second at the bank's last 16 KB.
  Writes go to the ROM at the raw CPU address.
 */
module Mmc0 {
  import opened Bits
  import Rom

  const AddressBatteryRam: Word := 0x6000
  const AddressFirstPrg: Word := 0x8000
  const AddressSecondPrg: Word := 0xC000
  const BankSize := 0x4000

  /** `uint16(len(PRG) - MMC0BankSize)`: a PRG bank shorter than 16 KB wraps
      to a large offset instead of failing. */
  function SecondBankOffset(prgLength: nat): (r: Word)
    ensures prgLength >= BankSize && prgLength - BankSize < 0x1_0000 ==> r == prgLength - BankSize
  {
    Wrap16(prgLength - BankSize)
  }

  /** `Get` on values, for the bank offsets `bank1` and `bank2`. */
  function Read(prg: seq<Byte>, bank1: Word, bank2: Word, a: Word): (r: Byte)
    ensures a < 0x8000 ==> r == 0
  {
    if a < AddressBatteryRam then 0
    else if a < AddressFirstPrg then 0
    else if a < AddressSecondPrg then Rom.ReadBounded(prg, Wrap16(a - AddressFirstPrg + bank1))
    else Rom.ReadBounded(prg, Wrap16(a - AddressSecondPrg + bank2))
  }

  /** With a single 16 KB bank both windows show the same bytes. */
  lemma Mirror16K(prg: seq<Byte>, a: Word)
    requires |prg| == 0x4000 && 0x8000 <= a < 0xC000
    ensures Read(prg, 0, SecondBankOffset(|prg|), a) == prg[a - 0x8000]
    ensures Read(prg, 0, SecondBankOffset(|prg|), a + 0x4000) == prg[a - 0x8000]
  {
  }

  /** With two 16 KB banks the windows map the 32 KB straight through. */
  lemma Direct32K(prg: seq<Byte>, a: Word)
    requires |prg| == 0x8000 && 0x8000 <= a
    ensures Read(prg, 0, SecondBankOffset(|prg|), a) == prg[a - 0x8000]
  {
  }

  /** A write at a CPU address in the windows reaches no ROM cell when the
      bank is at most 32 KB, since the address is not translated; a write at
      a low address lands where a read sees it 0x8000 higher. */
  lemma RawAddressWrites(prg: seq<Byte>, a: Word, v: Byte)
    requires |prg| <= 0x8000
    ensures a >= 0x8000 ==> Rom.WriteBounded(prg, a, v) == prg
    ensures a < 0x4000 && a < |prg| ==>
      Read(Rom.WriteBounded(prg, a, v), 0, SecondBankOffset(|prg|), a + 0x8000) == v
  {
  }

  class Mmc0 {
    const rom: Rom.Rom
    const bankAddr1: Word
    const bankAddr2: Word

    /** `NewMMC0`: the offsets are fixed here, from the PRG length at
        construction, and never change afterwards. */
    constructor (rom: Rom.Rom)
      ensures this.rom == rom
      ensures bankAddr1 == 0 && bankAddr2 == SecondBankOffset(rom.PRG.Length)
    {
      this.rom := rom;
      bankAddr1 := 0;
      bankAddr2 := Wrap16(rom.PRG.Length - BankSize);
    }

    function Get(a: Word): (r: Byte)
      reads this, rom, rom.PRG
      ensures r == Read(rom.PRG[..], bankAddr1, bankAddr2, a)
    {
      if a < AddressBatteryRam then 0
      else if a < AddressFirstPrg then 0
      else if a < AddressSecondPrg then rom.GetPRG(Wrap16(a - AddressFirstPrg + bankAddr1))
      else rom.GetPRG(Wrap16(a - AddressSecondPrg + bankAddr2))
    }

    method Set(a: Word, v: Byte)
      modifies rom.PRG
      ensures rom.PRG[..] == Rom.WriteBounded(old(rom.PRG[..]), a, v)
    {
      rom.SetPRG(a, v);
    }
  }
}
