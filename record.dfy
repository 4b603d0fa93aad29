/**
 * The record exchanged through shared memory: `TradingData` of
 * C++/src/include/trading_system.h, four fields in a fixed order.
 *
 * The price is an IEEE 754 binary64 value; the model never computes with
 * it and carries it as its 64-bit pattern.
 */
module Record {

  const TwoTo31: int := 0x8000_0000
  const TwoTo32: int := 0x1_0000_0000
  const TwoTo64: int := 0x1_0000_0000_0000_0000

  /** The values of a `uint64_t` (also the values of a 64-bit pattern). */
  predicate InU64(x: int) { 0 <= x < TwoTo64 }

  /** The values of an `int32_t`. */
  predicate InI32(x: int) { -TwoTo31 <= x < TwoTo31 }

  type U64 = x: int | InU64(x)
  type I32 = x: int | InI32(x)

  /** One byte of a shared segment. */
  type Byte = x: int | 0 <= x < 256

  /** `TradingData`: price, timestamp, volume and valid, in this order. */
  datatype TradingData = TradingData(priceBits: U64, timestamp: U64, volume: I32, valid: bool)

  /** The bit pattern of +0.0 in binary64: every bit clear. */
  const PositiveZeroBits: U64 := 0

  /** The record as its default member initialisers leave it: 0.0, 0, 0, false. */
  const DefaultTradingData: TradingData := TradingData(PositiveZeroBits, 0, 0, false)
}
