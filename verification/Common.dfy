/** What several components share. */
module Common {
  /** The most fragments of a packet. */
  const MAX_FRAGMENTS: nat := 48

  /** The number of values of a 64-bit word. */
  const WORD: nat := 0x1_0000_0000_0000_0000

  /** `i64::MAX` as a deadline, and `i64::MIN`, which is always past. */
  const NEVER: int := 0x7FFF_FFFF_FFFF_FFFF
  const LONG_AGO: int := -0x8000_0000_0000_0000

  /** The automaton of a session. */
  datatype Phase = Null | A1 | A3 | S1 | S2 | R1 | R2

  function Min(a: int, b: int): int { if a <= b then a else b }
}
