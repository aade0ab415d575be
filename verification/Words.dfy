/** Fixed-width numbers and the protocol's limits (messages.h). */
module Words {
  const U32_SIZE: nat := 0x1_0000_0000
  const U64_SIZE: nat := 0x1_0000_0000_0000_0000

  const NSEC_PER_SEC: nat := 1_000_000_000
  const INITIATIONS_PER_SECOND: nat := 50

  const MAX_QUEUED_PACKETS: nat := 1024

  const BITS_PER_LONG: nat := 64
  const COUNTER_BITS_TOTAL: nat := 8192
  const COUNTER_WINDOW_SIZE: nat := COUNTER_BITS_TOTAL - BITS_PER_LONG
  const REJECT_AFTER_MESSAGES: nat := U64_SIZE - 1 - COUNTER_WINDOW_SIZE - 1

  type Byte = b: nat | b < 256

  function Pow256(n: nat): (p: nat)
    ensures p > 0
  {
    if n == 0 then 1 else 256 * Pow256(n - 1)
  }

  lemma Pow256Is()
    ensures Pow256(4) == U32_SIZE && Pow256(8) == U64_SIZE
  {
  }
}
