/** Types and small sequence facts shared by every module. */
module Prelude {

  datatype Option<+T> = None | Some(value: T) {
    predicate IsFailure() { None? }

    function PropagateFailure<U>(): Option<U>
      requires None?
    {
      None
    }

    function Extract(): T
      requires Some?
    {
      value
    }

    function GetOr(default: T): T {
      if Some? then value else default
    }
  }

  type byte = b: nat | b < 0x100
  type u16 = n: nat | n < 0x1_0000
  type u32 = n: nat | n < 0x1_0000_0000
  type u64 = n: nat | n < 0x1_0000_0000_0000_0000

  const MAX_U64: u64 := 0xffff_ffff_ffff_ffff

  function Min(a: int, b: int): int {
    if a <= b then a else b
  }

  function Max(a: int, b: int): int {
    if a >= b then a else b
  }

  /** Unsigned `saturating_sub`. */
  function SatSub(a: nat, b: nat): nat {
    if a >= b then a - b else 0
  }

  /** u64 `saturating_add`. */
  function SatAdd(a: u64, b: u64): u64 {
    if a + b > MAX_U64 then MAX_U64 else a + b
  }
}
