/** Bytes, and the range of a 32-bit word. */
module Machine {
  type Byte = bv8

  const TWO32: nat := 0x1_0000_0000
}
