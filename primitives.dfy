/** Value types shared by the listener and the backfill: optional values,
    bytes, 64-bit unsigned numbers and 20-byte account addresses. */
module Primitives {

  datatype Option<+T> = None | Some(value: T)

  /** One byte of an address. */
  type Byte = b: int | 0 <= b < 256

  /** Ids, token ids and prices after `as_u64`: the source requires them to fit in 64 bits. */
  type U64 = n: int | 0 <= n < 0x1_0000_0000_0000_0000

  /** An `H160` account or contract address: exactly 20 bytes. */
  type Address = s: seq<Byte> | |s| == 20 witness seq(20, _ => 0)

  /** No element occurs twice. */
  predicate NoDuplicates<T(==)>(s: seq<T>)
  {
    forall i, j :: 0 <= i < j < |s| ==> s[i] != s[j]
  }
}
