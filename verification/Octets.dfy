/** Bytes as the wire and the process streams carry them. */
module Octets {

  newtype Byte = x: int | 0 <= x < 256

  type Bytes = seq<Byte>
}
