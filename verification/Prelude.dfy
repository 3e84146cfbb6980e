/** Small shared vocabulary of the model. */
module Prelude {
  datatype Option<+T> = None | Some(value: T)

  datatype Result<+T, +E> = Ok(value: T) | Err(error: E)

  /** An octet, as a number. */
  type byte = x: int | 0 <= x < 256

  /** First value of an unsigned 64-bit word that no longer fits. */
  const U64: nat := 0x1_0000_0000_0000_0000

  /** `u64::saturating_add`. */
  function SatAdd(a: nat, b: nat): nat {
    if a + b < U64 then a + b else U64 - 1
  }

  /** `u64::saturating_sub`. */
  function SatSub(a: nat, b: nat): nat {
    if a >= b then a - b else 0
  }

  function Max(a: nat, b: nat): nat {
    if a >= b then a else b
  }

  /** How many numbers so many octets can hold. */
  function Pow256(n: nat): (p: nat)
    ensures p > 0
  {
    if n == 0 then 1 else 256 * Pow256(n - 1)
  }

  lemma {:induction false} SmallerSet<T>(small: set<T>, big: set<T>)
    requires small <= big
    ensures |small| <= |big|
  {
    if small != {} {
      var x :| x in small;
      SmallerSet(small - {x}, big - {x});
    }
  }
}
