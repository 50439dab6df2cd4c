/** Types shared by every part of the model. */
module Prelude {

  datatype Option<+T> = None | Some(value: T)

  type Bytes = seq<bv8>

  // Widths of the unsigned counters and timers of the firmware.
  const TWO_32: nat := 0x1_0000_0000
  const MAX_U64: nat := 0xFFFF_FFFF_FFFF_FFFF

  /** Unsigned 32-bit subtraction of two timer values, wrap-around included. */
  function Elapsed32(now: int, since: int): (ms: nat)
    ensures ms < TWO_32
    ensures 0 <= now - since < TWO_32 ==> ms == now - since
  {
    (now - since) % TWO_32
  }
}
