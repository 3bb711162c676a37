/** What several components share: tasks, bytes and the constants of the configuration. */
module Common {
  type Task = nat

  type Byte = x: int | 0 <= x < 256 witness 0

  function Min(a: int, b: int): int {
    if a < b then a else b
  }

  datatype Option<T> = None | Some(value: T)

  /** TickType_t is 32 bits wide, configMAX_PRIORITIES is 10. */
  const TICK_MODULUS: nat := 0x1_0000_0000
  const MAX_DELAY: nat := TICK_MODULUS - 1
  const MAX_PRIORITIES: nat := 10
}
