/** Byte-level helpers shared by the register model and the gesture decoder. */
module Bytes {

  /** An unsigned byte, the `">B"` format of every register access of the
      driver. On values in 0..255, Python's `&` is the bit-vector `&`. */
  type Byte = bv8
}
