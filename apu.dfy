/** The two APU registers the buses route to. The channel register blocks
    (Pulse, Triangle, Noise, DMC) are never read or written by the core. */
module Apu {
  import opened Bits

  class Apu {
    var Status: Byte
    var FrameCounter: Byte

    constructor ()
      ensures Status == 0 && FrameCounter == 0
    {
      Status, FrameCounter := 0, 0;
    }
  }
}
