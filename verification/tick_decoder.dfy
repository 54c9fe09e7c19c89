/**
 * The binary quote frame of the market feed: the frame filter and the
 * little-endian integer fields that `on_message` unpacks (main.py).
 *
 * A frame is an 8-byte header whose first byte is the packet type, followed by
 * a payload read at fixed offsets: a binary32 price at 0, a signed 16-bit last
 * traded quantity at 4, a signed 32-bit timestamp at 6 and a signed 32-bit
 * cumulative volume at 14. Bytes 10 to 13 of the payload are not read.
 */
module TickDecoder {
  import opened Wrappers

  type byte = x: int | 0 <= x < 256

  /** What the socket hands over: a text frame or a binary frame. */
  datatype Message = TextMessage(text: string) | BinaryMessage(bytes: seq<byte>)

  const HeaderLength: int := 8
  /** The feed's quote-packet type code. */
  const QuotePacketType: int := 4
  const LastQtyOffset: int := 4
  const TimestampOffset: int := 6
  const TotalVolumeOffset: int := 14
  /** The payload bytes the four reads need: the last read ends at offset 14 + 4. */
  const PayloadLength: int := 18

  /** Why a frame is dropped. */
  datatype DecodeError = NotBinary | ShortHeader | UnexpectedType | ShortPayload

  datatype TickFields = TickFields(lastQty: int, timestamp: int, totalVolume: int)

  predicate IsInt16(x: int) { -0x8000 <= x < 0x8000 }
  predicate IsInt32(x: int) { -0x8000_0000 <= x < 0x8000_0000 }

  /** `struct.unpack_from("<h", b, i)`. */
  function Int16At(b: seq<byte>, i: nat): (r: int)
    requires i + 2 <= |b|
    ensures IsInt16(r)
  {
    var u: int := b[i] as int + 0x100 * b[i + 1] as int;
    if u >= 0x8000 then u - 0x1_0000 else u
  }

  /** `struct.unpack_from("<i", b, i)`. */
  function Int32At(b: seq<byte>, i: nat): (r: int)
    requires i + 4 <= |b|
    ensures IsInt32(r)
  {
    var u: int := b[i] as int + 0x100 * (b[i + 1] as int + 0x100 * (b[i + 2] as int + 0x100 * b[i + 3] as int));
    if u >= 0x8000_0000 then u - 0x1_0000_0000 else u
  }

  /** `struct.pack("<h", x)`. */
  function EncodeInt16(x: int): (r: seq<byte>)
    requires IsInt16(x)
    ensures |r| == 2
  {
    var u := if x < 0 then x + 0x1_0000 else x;
    [u % 0x100, u / 0x100]
  }

  /** `struct.pack("<i", x)`. */
  function EncodeInt32(x: int): (r: seq<byte>)
    requires IsInt32(x)
    ensures |r| == 4
  {
    var u := if x < 0 then x + 0x1_0000_0000 else x;
    [u % 0x100, (u / 0x100) % 0x100, (u / 0x1_0000) % 0x100, u / 0x100_0000]
  }

  lemma Int16RoundTrip(x: int)
    requires IsInt16(x)
    ensures Int16At(EncodeInt16(x), 0) == x
  {
  }

  lemma Int16Reencodes(b: seq<byte>, i: nat)
    requires i + 2 <= |b|
    ensures EncodeInt16(Int16At(b, i)) == b[i..i + 2]
  {
  }

  lemma Int32RoundTrip(x: int)
    requires IsInt32(x)
    ensures Int32At(EncodeInt32(x), 0) == x
  {
  }

  lemma Int32Reencodes(b: seq<byte>, i: nat)
    requires i + 4 <= |b|
    ensures EncodeInt32(Int32At(b, i)) == b[i..i + 4]
  {
    var u: int := b[i] as int + 0x100 * (b[i + 1] as int + 0x100 * (b[i + 2] as int + 0x100 * b[i + 3] as int));
    var x := Int32At(b, i);
    assert (if x < 0 then x + 0x1_0000_0000 else x) == u;
    var k1: int := b[i + 1] as int + 0x100 * (b[i + 2] as int + 0x100 * b[i + 3] as int);
    var k2: int := b[i + 2] as int + 0x100 * b[i + 3] as int;
    assert u % 0x100 == b[i] && u / 0x100 == k1;
    assert k1 % 0x100 == b[i + 1] && k1 / 0x100 == k2;
    assert u / 0x1_0000 == k2;
    assert k2 % 0x100 == b[i + 2] && k2 / 0x100 == b[i + 3];
    assert u / 0x100_0000 == b[i + 3];
  }

  /**
   * The frame filter and field decoder of `on_message`: a text frame, a frame
   * shorter than the header, a frame of another type, or a payload too short
   * for the reads is dropped; otherwise the three integer fields are read.
   */
  function DecodeFrame(m: Message): (r: Result<TickFields, DecodeError>)
    ensures r.Ok? <==>
      m.BinaryMessage? && |m.bytes| >= HeaderLength + PayloadLength && m.bytes[0] == QuotePacketType
    ensures r.Ok? ==> IsInt16(r.value.lastQty) && IsInt32(r.value.timestamp) && IsInt32(r.value.totalVolume)
  {
    if !m.BinaryMessage? then Err(NotBinary)
    else if |m.bytes| < HeaderLength then Err(ShortHeader)
    else if m.bytes[0] != QuotePacketType then Err(UnexpectedType)
    else
      var payload := m.bytes[HeaderLength..];
      if |payload| < PayloadLength then Err(ShortPayload)
      else Ok(TickFields(
        Int16At(payload, LastQtyOffset), Int32At(payload, TimestampOffset), Int32At(payload, TotalVolumeOffset)))
  }

  predicate Encodable(f: TickFields)
  {
    IsInt16(f.lastQty) && IsInt32(f.timestamp) && IsInt32(f.totalVolume)
  }

  /**
   * A quote frame carrying `f`: the type byte, seven more header bytes, the
   * four price bytes, the fields, the four unread payload bytes, then any tail.
   */
  function EncodeFrame(header: seq<byte>, price: seq<byte>, f: TickFields, unread: seq<byte>, tail: seq<byte>): (r: seq<byte>)
    requires |header| == 7 && |price| == 4 && |unread| == 4 && Encodable(f)
    ensures |r| == HeaderLength + PayloadLength + |tail| && r[0] == QuotePacketType
  {
    [QuotePacketType] + header + price + EncodeInt16(f.lastQty) + EncodeInt32(f.timestamp)
    + unread + EncodeInt32(f.totalVolume) + tail
  }

  /** Decoding an encoded frame gives back the encoded fields. */
  lemma {:induction false} DecodeEncodedFrame(header: seq<byte>, price: seq<byte>, f: TickFields, unread: seq<byte>, tail: seq<byte>)
    requires |header| == 7 && |price| == 4 && |unread| == 4 && Encodable(f)
    ensures DecodeFrame(BinaryMessage(EncodeFrame(header, price, f, unread, tail))) == Ok(f)
  {
    var b := EncodeFrame(header, price, f, unread, tail);
    var payload := b[HeaderLength..];
    assert payload == price + EncodeInt16(f.lastQty) + EncodeInt32(f.timestamp) + unread + EncodeInt32(f.totalVolume) + tail;
    assert payload[4..6] == EncodeInt16(f.lastQty);
    assert payload[6..10] == EncodeInt32(f.timestamp);
    assert payload[14..18] == EncodeInt32(f.totalVolume);
    Int16RoundTrip(f.lastQty);
    Int32RoundTrip(f.timestamp);
    Int32RoundTrip(f.totalVolume);
    assert Int16At(payload, 4) == Int16At(payload[4..6], 0);
    assert Int32At(payload, 6) == Int32At(payload[6..10], 0);
    assert Int32At(payload, 14) == Int32At(payload[14..18], 0);
  }

  /** Every frame that decodes is the encoding of its own fields around its other bytes. */
  lemma {:induction false} DecodedFrameReencodes(m: Message)
    requires DecodeFrame(m).Ok?
    ensures var b := m.bytes;
      b == EncodeFrame(b[1..8], b[8..12], DecodeFrame(m).value, b[18..22], b[26..])
  {
    var b := m.bytes;
    var payload := b[HeaderLength..];
    Int16Reencodes(payload, 4);
    Int32Reencodes(payload, 6);
    Int32Reencodes(payload, 14);
    assert payload[4..6] == b[12..14];
    assert payload[6..10] == b[14..18];
    assert payload[14..18] == b[22..26];
    assert b == [b[0]] + b[1..8] + b[8..12] + b[12..14] + b[14..18] + b[18..22] + b[22..26] + b[26..];
  }
}
