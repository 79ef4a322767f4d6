/** The vehicle-side SECC Discovery Protocol client: binds a datagram socket
    to an ephemeral source port, multicasts the 10-byte discovery request and
    turns a received datagram into a discovery response. Socket calls are
    replaced by their results, passed in as parameters. */
module Sdp {
  import opened Types
  import opened Net
  import opened V2gtp

  /** Size of the receive buffer. */
  const UDP_BUFFER_SIZE: nat := 2048

  /** The well-known discovery port of the SECC. */
  const SDP_SERVER_PORT: uint16 := 15118

  /** Source ports are tried from FIRST_SOURCE_PORT up to, but excluding,
      SOURCE_PORT_BOUND. */
  const FIRST_SOURCE_PORT: int := 49152
  const SOURCE_PORT_BOUND: int := 65535

  /** Security and transport octets of the discovery exchange. */
  const NO_TRANSPORT_SECURITY: uint8 := 0x10
  const TRANSPORT_TCP: uint8 := 0x00

  /** Length of a discovery response payload: address, port, security,
      transport. */
  const SDP_RESPONSE_PAYLOAD_LENGTH: nat := 20

  /** A discovery response. The source keeps a constant validity flag next
      to fields that are only set when it is true; here the fields exist only
      in the valid case, so an invalid response has nothing to read. */
  datatype SdpResponse =
    | Invalid
    | Valid(address: SockAddrIn6, security: uint8, transportProtocol: uint8)

  /** The exceptions the client throws. */
  datatype SdpError =
    | SocketFailed
    | CouldNotBind
    | ReuseAddrFailed
    | MulticastInterfaceFailed
    | ReadFailed
    | UnexpectedAddressLength

  /** What recvfrom reports: an error, or a datagram with the length the
      kernel wrote into the peer address. */
  datatype Received =
    | RecvFailed
    | Datagram(data: seq<uint8>, peerAddrLen: nat)

  /** A datagram as sendto puts it on the wire. */
  datatype Sent = Sent(fd: int, payload: seq<uint8>, destination: SockAddrIn6)

  ghost predicate InScanRange(port: int)
  {
    FIRST_SOURCE_PORT <= port < SOURCE_PORT_BOUND
  }

  /** Some port of the scanned range can be bound. */
  ghost predicate AnyBindable(canBind: int -> bool)
  {
    exists port :: InScanRange(port) && canBind(port)
  }

  /** `port` is the lowest port of the scanned range that can be bound. */
  ghost predicate IsFirstBindable(canBind: int -> bool, port: int)
  {
    InScanRange(port) && canBind(port) &&
    forall lower :: FIRST_SOURCE_PORT <= lower < port ==> !canBind(lower)
  }

  /** The source-port scan of init: ascending from 49152, stopping at the
      first port whose bind succeeds (`canBind` gives the outcome of bind for
      each port). Port 65535 is never tried. */
  method ScanSourcePorts(canBind: int -> bool) returns (port: Option<uint16>)
    ensures port.Some? ==> IsFirstBindable(canBind, port.value)
    ensures port.None? <==> !AnyBindable(canBind)
  {
    var sourcePort := FIRST_SOURCE_PORT;
    while sourcePort < SOURCE_PORT_BOUND
      invariant FIRST_SOURCE_PORT <= sourcePort <= SOURCE_PORT_BOUND
      invariant forall lower :: FIRST_SOURCE_PORT <= lower < sourcePort ==> !canBind(lower)
    {
      if canBind(sourcePort) {
        return Some(sourcePort);
      }
      sourcePort := sourcePort + 1;
    }
    return None;
  }

  /** The request body: requested security, then the transport protocol. */
  function RequestBody(): (body: seq<uint8>)
  {
    [NO_TRANSPORT_SECURITY, TRANSPORT_TCP]
  }

  /** The discovery request datagram: a header a reader accepts as a
      discovery request declaring two payload bytes, then no security and
      TCP. */
  function RequestPacket(): (packet: seq<uint8>)
    ensures |packet| == V2GTP_HEADER_LENGTH + 2
    ensures ReadHeader(packet, SDP_REQUEST_PAYLOAD_ID) == Success(2)
    ensures ReadHeader(packet, SDP_RESPONSE_PAYLOAD_ID).Failure?
    ensures packet[V2GTP_HEADER_LENGTH..] == [NO_TRANSPORT_SECURITY, TRANSPORT_TCP]
  {
    ReadWriteHeader(2, SDP_REQUEST_PAYLOAD_ID, SDP_REQUEST_PAYLOAD_ID, RequestBody());
    ReadWriteHeader(2, SDP_REQUEST_PAYLOAD_ID, SDP_RESPONSE_PAYLOAD_ID, RequestBody());
    WriteHeader(|RequestBody()|, SDP_REQUEST_PAYLOAD_ID) + RequestBody()
  }

  /** The address the request is sent to: ff02::1, port 15118. */
  function RequestDestination(): (destination: SockAddrIn6)
    ensures destination.family == AF_INET6 && destination.port == SDP_SERVER_PORT
    ensures destination.flowInfo == 0 && destination.scopeId == 0
    ensures |destination.address| == 16
    ensures destination.address[0] == 0xff && destination.address[1] == 0x02
    ensures destination.address[15] == 0x01 && forall i :: 2 <= i < 15 ==> destination.address[i] == 0
  {
    SockAddrIn6(AF_INET6, SDP_SERVER_PORT, 0, LINK_LOCAL_MULTICAST, 0)
  }

  /** The discovery response payload an SECC sends, behind its header. */
  function ResponsePacket(address: seq<uint8>, port: uint16, security: uint8, transport: uint8): (packet: seq<uint8>)
    requires |address| == 16
    ensures |packet| == V2GTP_HEADER_LENGTH + SDP_RESPONSE_PAYLOAD_LENGTH
  {
    WriteHeader(SDP_RESPONSE_PAYLOAD_LENGTH, SDP_RESPONSE_PAYLOAD_ID) + address + Uint16Bytes(port) + [security, transport]
  }

  /** The fields of a response, read from the 20 payload bytes at fixed
      offsets: address, big-endian port, security, transport. The address is
      AF_INET6 with zero flow info and zero scope id. */
  function DecodePayload(payload: seq<uint8>): (r: SdpResponse)
    requires |payload| >= SDP_RESPONSE_PAYLOAD_LENGTH
    ensures r.Valid?
    ensures r.address.address + Uint16Bytes(r.address.port) + [r.security, r.transportProtocol]
         == payload[..SDP_RESPONSE_PAYLOAD_LENGTH]
    ensures r.address.family == AF_INET6 && r.address.flowInfo == 0 && r.address.scopeId == 0
  {
    Uint16RoundTrip(0, payload[16..18]);
    assert payload[..SDP_RESPONSE_PAYLOAD_LENGTH] == payload[..16] + payload[16..18] + [payload[18], payload[19]];
    Valid(SockAddrIn6(AF_INET6, ReadUint16(payload[16..18]), 0, payload[..16], 0), payload[18], payload[19])
  }

  /** What the receive buffer holds after recvfrom wrote `data` into it:
      the datagram, cut to the buffer size, over the bytes of the previous
      contents. */
  function Landed(buffer: seq<uint8>, data: seq<uint8>): (r: seq<uint8>)
    requires |buffer| == UDP_BUFFER_SIZE
    ensures |r| == UDP_BUFFER_SIZE
    ensures forall i :: 0 <= i < UDP_BUFFER_SIZE ==> r[i] == if i < |data| then data[i] else buffer[i]
  {
    var n := ReceivedLength(data);
    data[..n] + buffer[n..]
  }

  /** The count recvfrom returns: the datagram length, cut to the buffer. */
  function ReceivedLength(data: seq<uint8>): (n: nat)
    ensures n <= UDP_BUFFER_SIZE && n <= |data|
    ensures n == |data| || n == UDP_BUFFER_SIZE
  {
    if |data| < UDP_BUFFER_SIZE then |data| else UDP_BUFFER_SIZE
  }

  /** The decoding get_sdp_response performs on its receive buffer once
      `received` bytes have landed in it. The header and the payload are read
      at fixed offsets of the buffer whatever `received` is, so bytes past
      the end of a short datagram come from earlier contents. */
  function ParseBuffer(buffer: seq<uint8>, received: nat): (r: SdpResponse)
    requires |buffer| == UDP_BUFFER_SIZE
    ensures r.Valid? <==> received != UDP_BUFFER_SIZE && ReadHeader(buffer, SDP_RESPONSE_PAYLOAD_ID).Success?
    ensures r.Valid? ==>
              && r.address.address + Uint16Bytes(r.address.port) + [r.security, r.transportProtocol] == buffer[8..28]
              && r.address.family == AF_INET6 && r.address.flowInfo == 0 && r.address.scopeId == 0
  {
    if received == UDP_BUFFER_SIZE then Invalid
    else if ReadHeader(buffer, SDP_RESPONSE_PAYLOAD_ID).Failure? then Invalid
    else DecodePayload(buffer[V2GTP_HEADER_LENGTH..])
  }

  /** The decoding with the length check the source leaves out: a datagram
      shorter than a header and a full payload is refused, so every field
      of a valid response comes from the datagram itself. */
  function ParseDatagram(datagram: seq<uint8>): (r: SdpResponse)
    requires |datagram| <= UDP_BUFFER_SIZE
    ensures r.Valid? <==>
              && V2GTP_HEADER_LENGTH + SDP_RESPONSE_PAYLOAD_LENGTH <= |datagram| < UDP_BUFFER_SIZE
              && ReadHeader(datagram, SDP_RESPONSE_PAYLOAD_ID).Success?
    ensures r.Valid? ==>
              && r.address.address + Uint16Bytes(r.address.port) + [r.security, r.transportProtocol] == datagram[8..28]
              && r.address.family == AF_INET6 && r.address.flowInfo == 0 && r.address.scopeId == 0
  {
    if |datagram| == UDP_BUFFER_SIZE then Invalid
    else if |datagram| < V2GTP_HEADER_LENGTH + SDP_RESPONSE_PAYLOAD_LENGTH then Invalid
    else if ReadHeader(datagram, SDP_RESPONSE_PAYLOAD_ID).Failure? then Invalid
    else DecodePayload(datagram[V2GTP_HEADER_LENGTH..])
  }

  /** A response an SECC builds from an address, port, security and transport
      is parsed back into exactly those values. */
  lemma ParseDatagramRoundTrip(address: seq<uint8>, port: uint16, security: uint8, transport: uint8)
    requires |address| == 16
    ensures ParseDatagram(ResponsePacket(address, port, security, transport))
         == Valid(SockAddrIn6(AF_INET6, port, 0, address, 0), security, transport)
  {
    var body := address + Uint16Bytes(port) + [security, transport];
    var packet := ResponsePacket(address, port, security, transport);
    assert packet == WriteHeader(SDP_RESPONSE_PAYLOAD_LENGTH, SDP_RESPONSE_PAYLOAD_ID) + body;
    ReadWriteHeader(SDP_RESPONSE_PAYLOAD_LENGTH, SDP_RESPONSE_PAYLOAD_ID, SDP_RESPONSE_PAYLOAD_ID, body);
    var payload := packet[V2GTP_HEADER_LENGTH..];
    assert payload == body;
    assert payload[16..18] == Uint16Bytes(port);
    Uint16RoundTrip(port, []);
  }

  /** A datagram whose header carries another payload type is invalid,
      whatever its payload. */
  lemma ParseDatagramRejectsOtherPayloadType(payloadLength: uint32, payloadId: uint16, body: seq<uint8>)
    requires payloadId != SDP_RESPONSE_PAYLOAD_ID
    requires V2GTP_HEADER_LENGTH + |body| <= UDP_BUFFER_SIZE
    ensures ParseDatagram(WriteHeader(payloadLength, payloadId) + body) == Invalid
  {
    ReadWriteHeader(payloadLength, payloadId, SDP_RESPONSE_PAYLOAD_ID, body);
  }

  /** On every datagram that holds a header and a full payload, the decoding
      the source performs agrees with the checked one, whatever the buffer
      held before. */
  lemma ParseBufferAgreesOnCompleteDatagrams(buffer: seq<uint8>, data: seq<uint8>)
    requires |buffer| == UDP_BUFFER_SIZE
    requires |data| >= V2GTP_HEADER_LENGTH + SDP_RESPONSE_PAYLOAD_LENGTH
    ensures ParseBuffer(Landed(buffer, data), ReceivedLength(data)) == ParseDatagram(data[..ReceivedLength(data)])
  {
    var n := ReceivedLength(data);
    var landed := Landed(buffer, data);
    var d := data[..n];
    assert landed[..V2GTP_HEADER_LENGTH] == d[..V2GTP_HEADER_LENGTH];
    assert ReadHeader(landed, SDP_RESPONSE_PAYLOAD_ID) == ReadHeader(d, SDP_RESPONSE_PAYLOAD_ID) by {
      assert landed[2..4] == d[2..4];
      assert landed[4..8] == d[4..8];
    }
    var p1, p2 := landed[V2GTP_HEADER_LENGTH..], d[V2GTP_HEADER_LENGTH..];
    assert p1[..SDP_RESPONSE_PAYLOAD_LENGTH] == p2[..SDP_RESPONSE_PAYLOAD_LENGTH];
    assert p1[..16] == p2[..16] && p1[16..18] == p2[16..18] && p1[18] == p2[18] && p1[19] == p2[19];
  }

  /** The discrepancy: after a complete response sits in the buffer, a
      one-byte datagram [0x01] passes the header check on the stale bytes
      behind it and is reported as the previous response again, where the
      checked decoding refuses it. */
  lemma StaleBufferYieldsValidResponse(address: seq<uint8>, port: uint16, security: uint8, transport: uint8)
    requires |address| == 16
    ensures var previous := ResponsePacket(address, port, security, transport);
            var buffer := Landed(previous + seq(UDP_BUFFER_SIZE - |previous|, _ => 0), [V2GTP_VERSION]);
            && ParseBuffer(buffer, ReceivedLength([V2GTP_VERSION]))
                 == Valid(SockAddrIn6(AF_INET6, port, 0, address, 0), security, transport)
            && ParseDatagram([V2GTP_VERSION]) == Invalid
  {
    var previous := ResponsePacket(address, port, security, transport);
    var before := previous + seq(UDP_BUFFER_SIZE - |previous|, _ => 0);
    var buffer := Landed(before, [V2GTP_VERSION]);
    assert buffer == before by {
      assert buffer[0] == V2GTP_VERSION == before[0];
      assert buffer[1..] == before[1..];
    }
    ParseDatagramRoundTrip(address, port, security, transport);
    assert before[..28] == previous;
    ParseBufferAgreesOnCompleteDatagrams(before, previous);
    assert Landed(before, previous) == before;
  }

  /** What get_sdp_response returns when `received` arrives while the
      receive buffer holds `buffer`: a failed or empty receive, then an
      oversized peer address, throw; otherwise the landed buffer is decoded
      as written, which agrees with the checked decoding on every datagram
      holding a header and a full payload. */
  function ResponseTo(buffer: seq<uint8>, received: Received): (r: Result<SdpResponse, SdpError>)
    requires |buffer| == UDP_BUFFER_SIZE
    ensures r.Failure? <==>
              received.RecvFailed? || received.data == [] || received.peerAddrLen > SOCKADDR_IN6_SIZE
    ensures r.Failure? && received.Datagram? && received.data != [] ==> r.error == UnexpectedAddressLength
    ensures r.Failure? && (received.RecvFailed? || received.data == []) ==> r.error == ReadFailed
    ensures r.Success? && |received.data| >= V2GTP_HEADER_LENGTH + SDP_RESPONSE_PAYLOAD_LENGTH ==>
              r.value == ParseDatagram(received.data[..ReceivedLength(received.data)])
  {
    if received.RecvFailed? || received.data == [] then Failure(ReadFailed)
    else if received.peerAddrLen > SOCKADDR_IN6_SIZE then Failure(UnexpectedAddressLength)
    else if |received.data| >= V2GTP_HEADER_LENGTH + SDP_RESPONSE_PAYLOAD_LENGTH then
      ParseBufferAgreesOnCompleteDatagrams(buffer, received.data);
      Success(ParseBuffer(Landed(buffer, received.data), ReceivedLength(received.data)))
    else Success(ParseBuffer(Landed(buffer, received.data), ReceivedLength(received.data)))
  }

  /** The discovery client. `udpBuffer` is the fixed receive buffer, kept
      from one receive to the next. */
  class SdpClient {
    var fd: int
    const interfaceName: string
    const udpBuffer: array<uint8>

    ghost predicate Valid()
      reads this
    {
      udpBuffer.Length == UDP_BUFFER_SIZE
    }

    /** A client is only made for a named interface and starts without a
        socket. */
    constructor (interfaceName: string)
      ensures Valid() && fresh(udpBuffer)
      ensures fd == -1 && this.interfaceName == interfaceName
    {
      fd := -1;
      this.interfaceName := interfaceName;
      udpBuffer := new uint8[UDP_BUFFER_SIZE];
    }

    /** Opens the socket (`socketFd` is what socket returned), binds the
        first free source port, enables address reuse and selects the
        multicast interface; each failure throws. On success the bound port
        is returned. */
    method Init(socketFd: int, canBind: int -> bool, reuseAddrResult: int, multicastInterfaceResult: int)
      returns (r: Result<uint16, SdpError>)
      modifies this`fd
      ensures fd == socketFd
      ensures socketFd == -1 ==> r == Failure(SocketFailed)
      ensures socketFd != -1 && !AnyBindable(canBind) ==> r == Failure(CouldNotBind)
      ensures socketFd != -1 && AnyBindable(canBind) && reuseAddrResult == -1 ==> r == Failure(ReuseAddrFailed)
      ensures socketFd != -1 && AnyBindable(canBind) && reuseAddrResult != -1 && multicastInterfaceResult < 0
              ==> r == Failure(MulticastInterfaceFailed)
      ensures r.Success? <==>
                socketFd != -1 && AnyBindable(canBind) && reuseAddrResult != -1 && multicastInterfaceResult >= 0
      ensures r.Success? ==> IsFirstBindable(canBind, r.value)
    {
      fd := socketFd;
      if fd == -1 {
        return Failure(SocketFailed);
      }
      var port := ScanSourcePorts(canBind);
      if port.None? {
        return Failure(CouldNotBind);
      }
      if reuseAddrResult == -1 {
        return Failure(ReuseAddrFailed);
      }
      if multicastInterfaceResult < 0 {
        return Failure(MulticastInterfaceFailed);
      }
      return Success(port.value);
    }

    /** Builds the request in a packet buffer (body first, then the header
        in front of it) and multicasts it. The result of sendto is not
        checked. */
    method SendRequest() returns (sent: Sent)
      ensures sent.fd == fd
      ensures sent.payload == RequestPacket()
      ensures sent.destination == RequestDestination()
    {
      var packet := new uint8[V2GTP_HEADER_LENGTH + 2];
      packet[V2GTP_HEADER_LENGTH] := NO_TRANSPORT_SECURITY;
      packet[V2GTP_HEADER_LENGTH + 1] := TRANSPORT_TCP;
      WriteHeaderInto(packet, |RequestBody()|, SDP_REQUEST_PAYLOAD_ID);
      assert packet[V2GTP_HEADER_LENGTH..] == RequestBody();
      assert packet[..] == packet[..V2GTP_HEADER_LENGTH] + packet[V2GTP_HEADER_LENGTH..];
      sent := Sent(fd, packet[..], RequestDestination());
    }

    /** Receives one datagram into the buffer and decodes it. A failed or
        empty receive and an oversized peer address throw; a datagram that
        fills the whole buffer, or whose header is not a discovery response,
        gives an invalid response. */
    method GetSdpResponse(received: Received) returns (r: Result<SdpResponse, SdpError>)
      requires Valid()
      modifies udpBuffer
      ensures received.RecvFailed? ==> r == Failure(ReadFailed) && udpBuffer[..] == old(udpBuffer[..])
      ensures received.Datagram? ==> udpBuffer[..] == Landed(old(udpBuffer[..]), received.data)
      ensures received.Datagram? && received.data == [] ==> r == Failure(ReadFailed)
      ensures received.Datagram? && received.data != [] && received.peerAddrLen > SOCKADDR_IN6_SIZE
              ==> r == Failure(UnexpectedAddressLength)
      ensures received.Datagram? && received.data != [] && received.peerAddrLen <= SOCKADDR_IN6_SIZE
              ==> r == Success(ParseBuffer(udpBuffer[..], ReceivedLength(received.data)))
      ensures received.Datagram? && |received.data| >= V2GTP_HEADER_LENGTH + SDP_RESPONSE_PAYLOAD_LENGTH
              && received.peerAddrLen <= SOCKADDR_IN6_SIZE
              ==> r == Success(ParseDatagram(received.data[..ReceivedLength(received.data)]))
      ensures r == ResponseTo(old(udpBuffer[..]), received)
    {
      if received.RecvFailed? {
        return Failure(ReadFailed);
      }
      ghost var before := udpBuffer[..];
      var data := received.data;
      var readResult := ReceivedLength(data);
      forall i | 0 <= i < readResult {
        udpBuffer[i] := data[i];
      }
      assert udpBuffer[..] == Landed(before, data);
      if readResult <= 0 {
        return Failure(ReadFailed);
      }
      if received.peerAddrLen > SOCKADDR_IN6_SIZE {
        return Failure(UnexpectedAddressLength);
      }
      r := Success(ParseBuffer(udpBuffer[..], readResult));
      if |data| >= V2GTP_HEADER_LENGTH + SDP_RESPONSE_PAYLOAD_LENGTH {
        ParseBufferAgreesOnCompleteDatagrams(before, data);
      }
    }
  }

  /** V2GTP20_WriteHeader writing into the first 8 bytes of a packet buffer. */
  method WriteHeaderInto(packet: array<uint8>, payloadLength: uint32, payloadId: uint16)
    requires packet.Length >= V2GTP_HEADER_LENGTH
    modifies packet
    ensures packet[..V2GTP_HEADER_LENGTH] == WriteHeader(payloadLength, payloadId)
    ensures packet[V2GTP_HEADER_LENGTH..] == old(packet[V2GTP_HEADER_LENGTH..])
  {
    var header := WriteHeader(payloadLength, payloadId);
    forall i | 0 <= i < V2GTP_HEADER_LENGTH {
      packet[i] := header[i];
    }
  }
}
