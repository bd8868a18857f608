// Outcomes and fixed-width values shared by every component.
module Base {
  datatype Option<+T> = None | Some(value: T)

  // A failure-compatible result, for `:-`.
  datatype Result<+T, +E> = Ok(value: T) | Err(error: E) {
    predicate IsFailure() { Err? }

    function PropagateFailure<U>(): Result<U, E>
      requires Err?
    {
      Err(error)
    }

    function Extract(): T
      requires Ok?
    {
      value
    }
  }

  type Byte = b: int | 0 <= b < 0x100

  const U64_LIMIT: nat := 0x1_0000_0000_0000_0000

  type U64 = n: nat | n < U64_LIMIT

  const U256_LIMIT: nat :=
    0x1_0000000000000000_0000000000000000_0000000000000000_0000000000000000

  type U256 = n: nat | n < U256_LIMIT

  type B256 = s: seq<Byte> | |s| == 32 witness seq(32, _ => 0)

  type Address = s: seq<Byte> | |s| == 20 witness seq(20, _ => 0)

  function Zeros(n: nat): (s: seq<Byte>)
    ensures |s| == n
  {
    if n == 0 then [] else [0] + Zeros(n - 1)
  }
}
