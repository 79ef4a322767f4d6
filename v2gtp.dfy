/** The 8-byte V2G transfer protocol header that prefixes every discovery
    message (ISO 15118-2 section 7.8.3, reused by ISO 15118-20): version,
    inverted version, 16-bit payload type and 32-bit payload length, all
    big-endian. The routines that write and check it live in a codec library
    that is not part of this model; their behaviour here is the layout of
    that section. */
module V2gtp {
  import opened Types

  const V2GTP_HEADER_LENGTH: nat := 8
  const V2GTP_VERSION: uint8 := 0x01
  const V2GTP_VERSION_INV: uint8 := 0xFE

  /** Payload types of the SECC Discovery Protocol (ISO 15118-2 Table 10). */
  const SDP_REQUEST_PAYLOAD_ID: uint16 := 0x9000
  const SDP_RESPONSE_PAYLOAD_ID: uint16 := 0x9001

  datatype HeaderError = VersionMismatch | InverseVersionMismatch | PayloadIdMismatch

  function Uint16Bytes(v: uint16): (r: seq<uint8>)
    ensures |r| == 2
  {
    [v / 0x100, v % 0x100]
  }

  function Uint32Bytes(v: uint32): (r: seq<uint8>)
    ensures |r| == 4
  {
    [v / 0x100_0000, (v / 0x1_0000) % 0x100, (v / 0x100) % 0x100, v % 0x100]
  }

  function ReadUint16(b: seq<uint8>): (v: uint16)
    requires |b| >= 2
  {
    (b[0] as int) * 0x100 + b[1]
  }

  function ReadUint32(b: seq<uint8>): (v: uint32)
    requires |b| >= 4
  {
    (((b[0] as int) * 0x100 + b[1]) * 0x100 + b[2]) * 0x100 + b[3]
  }

  /** Big-endian encoding and decoding of 16-bit values are inverse. */
  lemma Uint16RoundTrip(v: uint16, b: seq<uint8>)
    ensures ReadUint16(Uint16Bytes(v)) == v
    ensures |b| == 2 ==> Uint16Bytes(ReadUint16(b)) == b
  {
    if |b| == 2 {
      var w := (b[0] as int) * 0x100 + b[1];
      assert w / 0x100 == b[0] && w % 0x100 == b[1];
    }
  }

  /** Big-endian encoding and decoding of 32-bit values are inverse. */
  lemma Uint32RoundTrip(v: uint32, b: seq<uint8>)
    ensures ReadUint32(Uint32Bytes(v)) == v
    ensures |b| == 4 ==> Uint32Bytes(ReadUint32(b)) == b
  {
    var hi: int, lo: int := v / 0x1_0000, v % 0x1_0000;
    assert v == hi * 0x1_0000 + lo;
    assert hi / 0x100 == v / 0x100_0000;
    assert (v / 0x100) % 0x100 == lo / 0x100;
    assert v % 0x100 == lo % 0x100;
    if |b| == 4 {
      var h := (b[0] as int) * 0x100 + b[1];
      var l := (b[2] as int) * 0x100 + b[3];
      var w: int := ReadUint32(b);
      assert w == h * 0x1_0000 + l;
      assert w / 0x1_0000 == h && w % 0x1_0000 == l;
      assert w / 0x100_0000 == h / 0x100 == b[0];
      assert (w / 0x1_0000) % 0x100 == h % 0x100 == b[1];
      assert (w / 0x100) % 0x100 == l / 0x100 == b[2];
      assert w % 0x100 == l % 0x100 == b[3];
    }
  }

  /** The header V2GTP20_WriteHeader puts in front of a payload. */
  function WriteHeader(payloadLength: uint32, payloadId: uint16): (h: seq<uint8>)
    ensures |h| == V2GTP_HEADER_LENGTH
  {
    [V2GTP_VERSION, V2GTP_VERSION_INV] + Uint16Bytes(payloadId) + Uint32Bytes(payloadLength)
  }

  /** The check V2GTP20_ReadHeader applies to the first 8 bytes of a buffer:
      the version octets, then the payload type against the expected one; on
      success it yields the declared payload length. */
  function ReadHeader(buffer: seq<uint8>, expectedId: uint16): (r: Result<uint32, HeaderError>)
    requires |buffer| >= V2GTP_HEADER_LENGTH
    ensures r.Success? <==>
              buffer[..2] == [V2GTP_VERSION, V2GTP_VERSION_INV] && buffer[2..4] == Uint16Bytes(expectedId)
    ensures r.Success? ==> buffer[4..8] == Uint32Bytes(r.value)
    ensures r.Failure? && buffer[0] == V2GTP_VERSION && buffer[1] == V2GTP_VERSION_INV ==> r.error == PayloadIdMismatch
  {
    Uint16RoundTrip(expectedId, buffer[2..4]);
    Uint32RoundTrip(0, buffer[4..8]);
    if buffer[0] != V2GTP_VERSION then Failure(VersionMismatch)
    else if buffer[1] != V2GTP_VERSION_INV then Failure(InverseVersionMismatch)
    else if ReadUint16(buffer[2..4]) != expectedId then Failure(PayloadIdMismatch)
    else Success(ReadUint32(buffer[4..8]))
  }

  /** A written header is accepted for its own payload type, whatever
      follows it, and yields the length it declares; any other expected
      type is refused. */
  lemma ReadWriteHeader(payloadLength: uint32, payloadId: uint16, expectedId: uint16, body: seq<uint8>)
    ensures ReadHeader(WriteHeader(payloadLength, payloadId) + body, expectedId)
         == if expectedId == payloadId then Success(payloadLength) else Failure(PayloadIdMismatch)
  {
    var buffer := WriteHeader(payloadLength, payloadId) + body;
    assert buffer[2..4] == Uint16Bytes(payloadId);
    assert buffer[4..8] == Uint32Bytes(payloadLength);
    Uint16RoundTrip(payloadId, []);
    Uint32RoundTrip(payloadLength, []);
  }

  /** Conversely, a header that is accepted is exactly the header written for
      the expected payload type and the length read from it. */
  lemma ReadHeaderAccepts(buffer: seq<uint8>, expectedId: uint16)
    requires |buffer| >= V2GTP_HEADER_LENGTH
    ensures ReadHeader(buffer, expectedId).Success? ==>
              buffer[..V2GTP_HEADER_LENGTH] == WriteHeader(ReadHeader(buffer, expectedId).value, expectedId)
  {
    if ReadHeader(buffer, expectedId).Success? {
      Uint16RoundTrip(0, buffer[2..4]);
      Uint32RoundTrip(0, buffer[4..8]);
      assert buffer[..8] == buffer[..2] + buffer[2..4] + buffer[4..8];
    }
  }
}
