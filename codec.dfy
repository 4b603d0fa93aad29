/**
 * The byte layout of the shared record, as Python's `struct` module packs
 * and unpacks it with the format 'dQi?3x' (Python/data_bridge.py, in
 * `TradingDataBridge.read_data` and `write_data`):
 *
 *   bytes  0..7   price       'd'  binary64 bit pattern
 *   bytes  8..15  timestamp   'Q'  unsigned 64-bit
 *   bytes 16..19  volume      'i'  signed 32-bit, two's complement
 *   byte  20      valid       '?'  written as 0 or 1
 *   bytes 21..23  padding     '3x' written as zero, ignored on read
 *
 * The format uses native byte order; the model fixes it to little-endian,
 * the order of the x86-64 and AArch64 hosts the system runs on.
 */
module Codec {
  import opened Common
  import opened Record

  /** `struct.calcsize('dQi?3x')`, also the length that is mapped. */
  const RecordSize: nat := 24

  const PriceOffset: nat := 0
  const TimestampOffset: nat := 8
  const VolumeOffset: nat := 16
  const ValidOffset: nat := 20
  const PaddingOffset: nat := 21

  /** 256 to the power n: the number of values that fit in n bytes. */
  function Pow256(n: nat): (r: nat)
    ensures r > 0
  {
    if n == 0 then 1 else 256 * Pow256(n - 1)
  }

  lemma Pow256Widths()
    ensures Pow256(4) == TwoTo32
    ensures Pow256(8) == TwoTo64
  {
  }

  /** The unsigned number whose little-endian bytes are s. */
  function DecodeLE(s: seq<Byte>): (r: nat)
    ensures r < Pow256(|s|)
  {
    if |s| == 0 then 0 else s[0] + 256 * DecodeLE(s[1..])
  }

  /** The n little-endian bytes of x; decoding them gives x back. */
  function EncodeLE(x: nat, n: nat): (r: seq<Byte>)
    requires x < Pow256(n)
    ensures |r| == n
    ensures DecodeLE(r) == x
  {
    if n == 0 then [] else [x % 256] + EncodeLE(x / 256, n - 1)
  }

  /** Every byte string is the encoding of the number it decodes to. */
  lemma {:induction false} EncodeDecodeLE(s: seq<Byte>)
    ensures EncodeLE(DecodeLE(s), |s|) == s
  {
    if |s| > 0 {
      EncodeDecodeLE(s[1..]);
      var x := DecodeLE(s);
      assert x % 256 == s[0] && x / 256 == DecodeLE(s[1..]);
    }
  }

  /** n zero bytes. */
  function Zeros(n: nat): (r: seq<Byte>)
    ensures |r| == n
    ensures forall i :: 0 <= i < n ==> r[i] == 0
  {
    if n == 0 then [] else [0] + Zeros(n - 1)
  }

  lemma {:induction false} DecodeZeros(n: nat)
    ensures DecodeLE(Zeros(n)) == 0
  {
    if n > 0 {
      DecodeZeros(n - 1);
      assert Zeros(n)[1..] == Zeros(n - 1);
    }
  }

  /** An `int32_t` as the unsigned 32-bit number with the same bits. */
  function ToU32(v: I32): (u: nat)
    ensures u < TwoTo32
    ensures (u < TwoTo31) <==> (v >= 0)
  {
    assert InI32(v);
    if v < 0 then v + TwoTo32 else v
  }

  /** The `int32_t` whose two's-complement bits read as u; undoes ToU32. */
  function FromU32(u: nat): (v: I32)
    requires u < TwoTo32
    ensures ToU32(v) == u
  {
    if u >= TwoTo31 then u - TwoTo32 else u
  }

  lemma FromToU32(v: I32)
    ensures FromU32(ToU32(v)) == v
  {
  }

  /** '?' packs True as byte 1 and False as byte 0. */
  function BoolByte(b: bool): (r: Byte)
    ensures (r != 0) == b
    ensures r <= 1
  {
    if b then 1 else 0
  }

  /** `struct.pack('dQi?3x', ...)` of a record whose fields are in range. */
  function Encode(d: TradingData): (r: seq<Byte>)
  {
    Pow256Widths();
    EncodeLE(d.priceBits, 8) + EncodeLE(d.timestamp, 8) + EncodeLE(ToU32(d.volume), 4)
      + [BoolByte(d.valid)] + Zeros(3)
  }

  /**
   * `struct.unpack('dQi?3x', s)`: fails unless s has exactly 24 bytes; the
   * padding is not looked at and any nonzero valid byte reads as True.
   */
  function Decode(s: seq<Byte>): (r: Option<TradingData>)
    ensures r.Some? <==> |s| == RecordSize
  {
    if |s| != RecordSize then None
    else
      Pow256Widths();
      var volume := DecodeLE(s[VolumeOffset..ValidOffset]);
      Some(TradingData(DecodeLE(s[PriceOffset..TimestampOffset]),
                       DecodeLE(s[TimestampOffset..VolumeOffset]),
                       FromU32(volume),
                       s[ValidOffset] != 0))
  }

  /** Why `struct.pack` refuses a value: the first argument out of range. */
  datatype PackError = TimestampOutOfRange | VolumeOutOfRange

  /**
   * `struct.pack('dQi?3x', price, timestamp, volume, valid)` with Python
   * integers: 'Q' rejects a timestamp outside [0, 2^64) and 'i' a volume
   * outside [-2^31, 2^31), arguments being converted left to right.
   */
  function Pack(priceBits: U64, timestamp: int, volume: int, valid: bool): (r: Result<seq<Byte>, PackError>)
    ensures r.Success? <==> InU64(timestamp) && InI32(volume)
    ensures !InU64(timestamp) ==> r == Failure(TimestampOutOfRange)
    ensures r.Success? ==>
              && |r.value| == RecordSize
              && Decode(r.value) == Some(TradingData(priceBits, timestamp, volume, valid))
  {
    if !InU64(timestamp) then Failure(TimestampOutOfRange)
    else if !InI32(volume) then Failure(VolumeOutOfRange)
    else
      var d := TradingData(priceBits, timestamp, volume, valid);
      DecodeEncode(d);
      Success(Encode(d))
  }

  /**
   * Where each field lands: 24 bytes, price in 0..7, timestamp in 8..15,
   * volume in 16..19 as two's complement, valid as 0 or 1 in byte 20 and
   * zero padding in 21..23.
   */
  lemma EncodeLayout(d: TradingData)
    ensures |Encode(d)| == RecordSize
    ensures DecodeLE(Encode(d)[PriceOffset..TimestampOffset]) == d.priceBits
    ensures DecodeLE(Encode(d)[TimestampOffset..VolumeOffset]) == d.timestamp
    ensures FromU32(DecodeLE(Encode(d)[VolumeOffset..ValidOffset])) == d.volume
    ensures Encode(d)[ValidOffset] == if d.valid then 1 else 0
    ensures Encode(d)[PaddingOffset..RecordSize] == [0, 0, 0]
  {
    Pow256Widths();
    var p, t, v := EncodeLE(d.priceBits, 8), EncodeLE(d.timestamp, 8), EncodeLE(ToU32(d.volume), 4);
    var r := Encode(d);
    assert r == p + t + v + [BoolByte(d.valid)] + Zeros(3);
    assert r[PriceOffset..TimestampOffset] == p;
    assert r[TimestampOffset..VolumeOffset] == t;
    assert r[VolumeOffset..ValidOffset] == v;
    assert r[PaddingOffset..RecordSize] == Zeros(3);
    FromToU32(d.volume);
  }

  /** Unpacking a packed record gives back the same four fields. */
  lemma DecodeEncode(d: TradingData)
    ensures Decode(Encode(d)) == Some(d)
  {
    EncodeLayout(d);
  }

  /** The byte strings that `struct.pack` can produce. */
  predicate Canonical(s: seq<Byte>)
  {
    |s| == RecordSize && s[ValidOffset] <= 1 && s[PaddingOffset..RecordSize] == [0, 0, 0]
  }

  /** Every packed record is canonical. */
  lemma EncodeCanonical(d: TradingData)
    ensures Canonical(Encode(d))
  {
    EncodeLayout(d);
  }

  /** A canonical segment is exactly the packing of what it unpacks to. */
  lemma EncodeDecode(s: seq<Byte>)
    requires Canonical(s)
    ensures Decode(s).Some? && Encode(Decode(s).value) == s
  {
    Pow256Widths();
    var d := Decode(s).value;
    var p, t, v := s[PriceOffset..TimestampOffset], s[TimestampOffset..VolumeOffset], s[VolumeOffset..ValidOffset];
    EncodeDecodeLE(p);
    EncodeDecodeLE(t);
    EncodeDecodeLE(v);
    assert ToU32(d.volume) == DecodeLE(v);
    assert BoolByte(d.valid) == s[ValidOffset];
    assert EncodeLE(d.priceBits, 8) == p && EncodeLE(d.timestamp, 8) == t && EncodeLE(ToU32(d.volume), 4) == v;
    assert s[PaddingOffset..] == s[PaddingOffset..RecordSize] == [0, 0, 0];
    assert Zeros(3) == [0, 0, 0];
    calc {
      Encode(d);
      EncodeLE(d.priceBits, 8) + EncodeLE(d.timestamp, 8) + EncodeLE(ToU32(d.volume), 4)
        + [BoolByte(d.valid)] + Zeros(3);
      p + t + v + [s[ValidOffset]] + s[PaddingOffset..];
      { SplitFields(s); }
      s;
    }
  }

  /** A 24-byte string is the concatenation of its five fields. */
  lemma SplitFields(s: seq<Byte>)
    requires |s| == RecordSize
    ensures s == s[PriceOffset..TimestampOffset] + s[TimestampOffset..VolumeOffset]
                 + s[VolumeOffset..ValidOffset] + [s[ValidOffset]] + s[PaddingOffset..]
  {
    assert s[..PaddingOffset] == s[..ValidOffset] + [s[ValidOffset]];
    assert s[..ValidOffset] == s[..VolumeOffset] + s[VolumeOffset..ValidOffset];
    assert s[..VolumeOffset] == s[PriceOffset..TimestampOffset] + s[TimestampOffset..VolumeOffset];
    assert s == s[..PaddingOffset] + s[PaddingOffset..];
  }

  /** On read, byte 20 decides valid: True exactly when it is nonzero. */
  lemma DecodeValidByte(s: seq<Byte>)
    requires |s| == RecordSize
    ensures Decode(s).value.valid <==> s[ValidOffset] != 0
  {
  }

  /** A zero-filled segment unpacks to the default record. */
  lemma DecodeZeroFilled()
    ensures Decode(Zeros(RecordSize)) == Some(DefaultTradingData)
  {
    var z := Zeros(RecordSize);
    assert z[PriceOffset..TimestampOffset] == Zeros(8);
    assert z[TimestampOffset..VolumeOffset] == Zeros(8);
    assert z[VolumeOffset..ValidOffset] == Zeros(4);
    DecodeZeros(8);
    DecodeZeros(4);
  }

  /** The default record packs to 24 zero bytes. */
  lemma EncodeDefaultIsZeroFilled()
    ensures Encode(DefaultTradingData) == Zeros(RecordSize)
  {
    DecodeZeroFilled();
    assert Canonical(Zeros(RecordSize));
    EncodeDecode(Zeros(RecordSize));
  }
}
