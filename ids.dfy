/** Identifiers, money and the optional amount shared by every part of the engine. */
module Ids {
  /** A client identifier is an unsigned 16-bit integer. */
  newtype ClientId = x: int | 0 <= x < 0x1_0000

  /** A transaction identifier is an unsigned 32-bit integer. */
  newtype TxId = x: int | 0 <= x < 0x1_0000_0000

  /** Money, as an exact integer count of the smallest unit (1/10000 in the traces).
      The engine only adds, subtracts and compares amounts, so no rounding arises. */
  type Amount = int

  datatype Option<T> = None | Some(value: T)
}
