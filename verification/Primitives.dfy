/** Identifiers shared by every component. Addresses and hashes are opaque numbers;
    only equality, the zero address and the address order are ever used. */
module Primitives {
  type Address = int
  type Hash = int

  const ZERO: Address := 0

  function Max(a: nat, b: nat): nat {
    if a >= b then a else b
  }

  function SatSub(a: nat, b: nat): nat {
    if a >= b then a - b else 0
  }

  predicate Distinct(addresses: seq<Address>) {
    forall i, j | 0 <= i < j < |addresses| :: addresses[i] != addresses[j]
  }

  datatype Option<+T> = None | Some(value: T)
}
