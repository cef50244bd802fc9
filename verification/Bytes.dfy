/** Bytes as bounded integers. */
module Bytes {
  type Byte = b: int | 0 <= b < 256
  type Bytes = seq<Byte>

  /** A byte below 128, which is also the code point it stands for. */
  type Ascii = b: int | 0 <= b < 128
}
