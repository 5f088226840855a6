/** The work memory the MMC1 mapper indexes. The array lengths are the Go
    declarations' `hi - lo`, one byte short of each window: 0x7FF, 0x1FDF
    and 0x1FFF. */
module Mm {
  import opened Bits

  const RamSize := 0x07FF - 0x0000
  const RamExtendSize := 0x5FFF - 0x4020
  const BackupSize := 0x7FFF - 0x6000

  class Mm {
    const ram: array<Byte>
    const ramExtend: array<Byte>
    const backup: array<Byte>

    ghost predicate Valid()
      reads this
    {
      ram.Length == RamSize && ramExtend.Length == RamExtendSize && backup.Length == BackupSize &&
      ram != ramExtend && ram != backup && ramExtend != backup
    }

    constructor ()
      ensures Valid() && fresh(ram) && fresh(ramExtend) && fresh(backup)
    {
      ram := new Byte[RamSize](_ => 0);
      ramExtend := new Byte[RamExtendSize](_ => 0);
      backup := new Byte[BackupSize](_ => 0);
    }
  }
}
