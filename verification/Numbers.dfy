/** Arithmetic that several parts of the model share. */
module Numbers {

  /** A second, in nanoseconds. */
  const SECOND: nat := 1_000_000_000

  function Pow2(k: nat): nat {
    if k == 0 then 1 else 2 * Pow2(k - 1)
  }

  function Min(a: int, b: int): int {
    if a <= b then a else b
  }
}
