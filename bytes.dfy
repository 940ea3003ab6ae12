/** Conversions between integers and bytes. */
module Bytes {
  /** A byte-sized integer survives the conversion to a byte and back. */
  lemma ByteRoundTrip(x: int)
    requires 0 <= x < 256
    ensures (x as bv8) as int == x
  {
  }
}
