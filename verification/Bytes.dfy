/** Text as the builder sees it: bytes. */
module Bytes {

  type Byte = b: int | 0 <= b < 256

  type Bytes = seq<Byte>
}
