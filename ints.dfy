/** Fixed-width machine integers of the component. */
module Ints {
  /** One more than the largest C# `uint`. */
  const UInt32Limit: int := 0x1_0000_0000

  /** The values of a C# `uint`. */
  type uint32 = n: int | 0 <= n < 0x1_0000_0000
}
