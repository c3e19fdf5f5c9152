/** Types shared by every component model. */
module Common {

  datatype Option<+T> = None | Some(value: T)

  datatype Result<+T, +E> = Ok(value: T) | Err(error: E)

  /** Rust `u64`: one past the largest value. */
  const U64_LIMIT := 0x1_0000_0000_0000_0000

  type u64 = n: nat | n < U64_LIMIT

  function Min(a: int, b: int): int {
    if a <= b then a else b
  }

  function Max(a: int, b: int): int {
    if a >= b then a else b
  }

  /** The order Rust derives for `Option<u64>`: `None` is below every `Some`. */
  function MaxOption(a: Option<u64>, b: Option<u64>): Option<u64> {
    if a.None? || (b.Some? && b.value > a.value) then b else a
  }
}
