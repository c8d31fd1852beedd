/** Bytes, 32-bit words and characters, as every component counts them. */
module ByteStrings {
  type Byte = b: int | 0 <= b < 256
  type Bytes = seq<Byte>

  const WORD: nat := 0x1_0000_0000

  predicate IsDigit(c: char) { '0' <= c <= '9' }

  /** Bytes the JSON serializer writes for one character of a string. */
  function EscapeCost(c: int): nat {
    if c in {0x22, 0x5C, 8, 9, 10, 12, 13} then 2 else if c == 0 then 6 else 1
  }
}
