/** The mapper factory: the header's mapper number picks the mapper. */
module Mmc {
  import opened Bits
  import Rom

  datatype MapperKind = Nrom | Mmc1

  /** `NewMMC`: 1 selects MMC1, every other number falls back to NROM. */
  function NewMmc(mapperNum: int): (k: MapperKind)
    ensures k == Mmc1 <==> mapperNum == 1
    ensures k == Nrom <==> mapperNum != 1
  {
    match mapperNum
    case 1 => Mmc1
    case _ => Nrom
  }

  /** A parsed cartridge gets MMC1 exactly when flag1's high nibble is 1 and
      flag2's high nibble is 0. */
  lemma MapperFromHeader(flag1: Byte, flag2: Byte)
    ensures NewMmc(Rom.MapperNumber(flag1, flag2)) == Mmc1 <==> flag1 / 16 == 1 && flag2 / 16 == 0
  {
  }
}
