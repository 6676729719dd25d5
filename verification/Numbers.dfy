/** Numbers that several modules need. */
module Numbers {
  const U32_LIMIT: nat := 0x1_0000_0000

  function Min(a: int, b: int): int {
    if a <= b then a else b
  }
}
