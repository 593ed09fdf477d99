/**
 * The conversion between a byte and its unsigned value, kept in a module
 * of its own so that the solver sees nothing else while proving it.
 */
module Bytes {

  /**
   * A byte value survives the round trip through `bv8`. The proof splits
   * the range into runs of eight values: over a short run the solver
   * settles the bit-vector conversion at once, where over the whole range
   * its effort varies widely from run to run.
   */
  lemma ByteValue(v: int)
    requires 0 <= v < 256
    ensures (v as bv8) as int == v
  {
    if v < 8 {
    } else if v < 16 {
    } else if v < 24 {
    } else if v < 32 {
    } else if v < 40 {
    } else if v < 48 {
    } else if v < 56 {
    } else if v < 64 {
    } else if v < 72 {
    } else if v < 80 {
    } else if v < 88 {
    } else if v < 96 {
    } else if v < 104 {
    } else if v < 112 {
    } else if v < 120 {
    } else if v < 128 {
    } else if v < 136 {
    } else if v < 144 {
    } else if v < 152 {
    } else if v < 160 {
    } else if v < 168 {
    } else if v < 176 {
    } else if v < 184 {
    } else if v < 192 {
    } else if v < 200 {
    } else if v < 208 {
    } else if v < 216 {
    } else if v < 224 {
    } else if v < 232 {
    } else if v < 240 {
    } else if v < 248 {
    } else {
    }
  }
}
