/** Bytes and strings of bytes. */
module ByteStrings {
  type Byte = x: int | 0 <= x < 256
  type Bytes = seq<Byte>
}
