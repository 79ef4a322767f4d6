# libiso15118 EVCC core, modelled in Dafny

This project models the vehicle side (EVCC) of an ISO 15118-20 stack: the
SECC Discovery Protocol client that finds the charging station, the plain TCP
client connection, the session's service selection, the state that handles
the application-protocol negotiation response, and the controller that ties
them together. System calls (`socket`, `bind`, `setsockopt`, `recvfrom`,
`connect`, `read`, `write`, `close`) are replaced by their results, which the
model takes as parameters. The V2G transfer protocol header routines come
from a codec library that is not part of this model. Their behaviour is taken
from the header layout of ISO 15118-2 section 7.8.3: version 0x01, inverted
version 0xFE, then a 16-bit payload type and a 32-bit payload length, both
big-endian. This is an assumption of the model.

Modules, one per source component:

- `Types` (types.dfy): fixed-width integers, `Option` and `Result`. A thrown
  exception becomes a `Failure`.
- `Net` (net.dfy): `sockaddr_in6` and the `ff02::1` group.
- `V2gtp` (v2gtp.dfy): writing and checking the 8-byte header.
- `Sdp` (sdp_client.dfy): `SdpResponse` and the `SdpClient` class.
- `Io` (connection.dfy): `ConnectionPlainClient` and a poll manager that only
  records `(fd, handler)` registrations.
- `D20Session` (session.dfy): offered and selected services, and the `Session` class.
- `SapState` (supported_app_protocol.dfy): the `SupportedAppProtocol` state and its context.
- `Controller` (tbd_controller.dfy): `TbdController`.

Decisions the model makes:

- Parameter-set ids are unsigned 16-bit map keys. `find_parameter_set_id`
  takes a signed 16-bit id, and C++ converts it to the key type modulo 2^16
  (`Int16ToKey`). Passing an unsigned id through that parameter loses nothing
  (`KeyRoundTrip`, `FindThenSelect`).
- The default-constructed `SelectedServiceParameters` is not visible, so the
  model uses `None` for it. The value-added fields that were never set are
  `None` too.
- `SdpResponse` is a sum type. The fields exist only in the `Valid` case, so
  an invalid response has nothing to read. Converting it to bool (include/iso15118/io/sdp_client.hpp:25-27) is the
  `Valid?` test, which `Controller.TbdController.HandleSdpClientInput` uses.
- A callback is represented by the `Observer` it reaches. The events delivered
  are recorded, in order, in `ConnectionPlainClient.delivered`.

Behaviour of the code that a reader might not expect, which the model keeps:

- The comment at src/iso15118/io/sdp_client.cpp:52 announces a source port
  "between 49152-65535", but the loop condition `source_port < 65535` stops
  before 65535, so that port is never tried (`Sdp.ScanSourcePorts`).
- `read` flags a result as blocking whenever bytes were requested and not
  exactly that many arrived. A zero-byte result, which is how the system call
  reports an orderly close by the peer, therefore gives the same `(true, 0)`
  as a read that would block, and the caller cannot tell the two apart
  (`Io.PeerCloseLooksLikeWouldBlock`).
- Selection changes state only when the id is offered. For a value-added
  service it always changes when the id is offered. For an energy service,
  re-selecting the offer already chosen leaves an equal state
  (`D20Session.SelectChangesOnlyWhenOffered`,
  `D20Session.EnergyReselectionIsIdempotent`).
- A valid discovery response appends a session, but `send_sap` goes to the
  first session of the list. That is the new one only when the list was empty
  (`Controller.TbdController.HandleSdpClientInput`).
- An empty datagram makes `recvfrom` return 0, which the client treats as a
  failed read and throws.

## Model

| member | source | states |
|---|---|---|
| `D20Session.Session.constructor` | src/iso15118/d20/session.cpp:13-21 | the 16 id bytes are the generator's draws; there are no offers and no selection |
| `D20Session.Session.WithSelection` | src/iso15118/d20/session.cpp:23-31 | the given service parameters become the selection; the id is the draws |
| `D20Session.Session.WithOffers` | src/iso15118/d20/session.cpp:32-40 | the given offers are stored, with nothing selected; the id is the draws |
| `D20Session.FillId` | src/iso15118/d20/session.cpp:18-20 | the loop fills every one of the 16 id bytes, in order, from the draws |
| `D20Session.Session.FindParameterSetId` | src/iso15118/d20/session.cpp:44-80 | true iff the id, taken as an unsigned key, is in the map of DC, DC_BPT, Internet or ParkingStatus; false for every other category |
| `D20Session.KeyRoundTrip` | src/iso15118/d20/session.cpp:44 | the signed parameter and the unsigned keys convert into each other without loss |
| `D20Session.Select` | src/iso15118/d20/session.cpp:82-143 | an id that is not offered changes nothing; energy selection leaves the value-added record alone; value-added selection leaves the energy selection alone |
| `D20Session.FromDcOffer` | src/iso15118/d20/session.cpp:89-91 | a DC selection has category DC and no bidirectional fields |
| `D20Session.FromDcBptOffer` | src/iso15118/d20/session.cpp:105-107 | a DC_BPT selection carries the offer's BPT channel and generator mode |
| `D20Session.Session.SelectServiceParameters` | src/iso15118/d20/session.cpp:82-143 | the offers are unchanged, and the new selection is `Select` of the old one |
| `D20Session.SelectEnergyServiceCopiesOffer` | src/iso15118/d20/session.cpp:85-115 | selecting an offered DC or DC_BPT id sets that category and copies connector, control mode, mobility-needs mode and pricing (and, for DC_BPT, channel and generator mode) from the offer |
| `D20Session.SelectValueAddedAppends` | src/iso15118/d20/session.cpp:117-137 | selecting an offered Internet or ParkingStatus id appends exactly that category, copies port/protocol or intended service/status, and keeps the other category's fields |
| `D20Session.SelectChangesOnlyWhenOffered` | src/iso15118/d20/session.cpp:82-143 | any change implies the id was offered; for value-added services, a change happens iff the id is offered |
| `D20Session.EnergyReselectionIsIdempotent` | src/iso15118/d20/session.cpp:85-115 | selecting the same energy service twice equals selecting it once (overwrite, no merge) |
| `D20Session.ValueAddedReselectionDuplicates` | src/iso15118/d20/session.cpp:117-137 | selecting the same value-added service twice lists it twice (no deduplication) |
| `D20Session.DcSelectionScenario` | src/iso15118/d20/session.cpp:85-99 | with one DC offer at id 5: selecting 5 takes the offer, then selecting 99 changes nothing |
| `D20Session.FindThenSelect` | src/iso15118/d20/session.cpp:44-80 | a lookup through the signed parameter succeeds iff the unsigned id is offered, and the selection stays unchanged when it fails |
| `V2gtp.Uint16RoundTrip` | src/iso15118/io/sdp_client.cpp:140 | big-endian 16-bit encoding and decoding are inverse |
| `V2gtp.Uint32RoundTrip` | src/iso15118/io/sdp_client.cpp:124 | big-endian 32-bit encoding and decoding are inverse |
| `V2gtp.WriteHeader` | src/iso15118/io/sdp_client.cpp:89 | the header is 8 bytes |
| `V2gtp.ReadHeader` | src/iso15118/io/sdp_client.cpp:124 | (assumed ISO 15118-2 layout of the foreign `V2GTP20_ReadHeader`) accepts iff the first two bytes are 0x01 0xFE and bytes 2–3 are the expected payload type, big-endian; the length is bytes 4–7, big-endian; with a correct version a refusal is a payload-type mismatch |
| `V2gtp.ReadWriteHeader` | src/iso15118/io/sdp_client.cpp:124-130 | a written header is accepted for its own payload type and yields its declared length; for any other type it is refused |
| `V2gtp.ReadHeaderAccepts` | src/iso15118/io/sdp_client.cpp:124-130 | an accepted header is byte for byte the header written for the expected type and the length read |
| `Sdp.SdpClient.constructor` | include/iso15118/io/sdp_client.hpp:35-51 | a client needs an interface name, starts with fd -1, and has a 2048-byte receive buffer |
| `Sdp.ScanSourcePorts` | src/iso15118/io/sdp_client.cpp:52-66 | returns the lowest bindable port in [49152, 65535), and none iff no port there can be bound |
| `Sdp.SdpClient.Init` | src/iso15118/io/sdp_client.cpp:45-79 | fd is the socket result; socket, bind, reuse-address and multicast-interface failures throw in that order; on success the bound port is the first bindable one |
| `Sdp.RequestPacket` | src/iso15118/io/sdp_client.cpp:83-89 | the request is 10 bytes; its header is accepted as a discovery request declaring 2 payload bytes and refused as a response; the body is no-security, TCP |
| `Sdp.WriteHeaderInto` | src/iso15118/io/sdp_client.cpp:89 | the header lands in the first 8 bytes of the packet buffer and the body behind it is kept |
| `Sdp.RequestDestination` | src/iso15118/io/sdp_client.cpp:91-92 | the destination is AF_INET6, port 15118, zero flow info and scope id, and the link-local-scope multicast address ff02::1 |
| `Sdp.SdpClient.SendRequest` | src/iso15118/io/sdp_client.cpp:81-100 | sends header(length 2, SDP request) + `0x10 0x00` from the client's fd to ff02::1 port 15118 |
| `Sdp.ReceivedLength` | src/iso15118/io/sdp_client.cpp:106-107 | the receive count is the datagram length, cut to the 2048-byte buffer |
| `Sdp.Landed` | src/iso15118/io/sdp_client.cpp:106-107 | after a receive, the buffer keeps its size; the bytes below the datagram length are the datagram's, every later byte keeps its old value |
| `Sdp.DecodePayload` | src/iso15118/io/sdp_client.cpp:132-149 | the result is valid; re-encoding its address, big-endian port, security and transport gives back the first 20 payload bytes; family AF_INET6, flow info 0, scope id 0 |
| `Sdp.ParseBuffer` | src/iso15118/io/sdp_client.cpp:118-149 | valid iff the datagram did not fill the buffer and the buffer's header is an SDP response header; a valid result re-encodes to buffer bytes 8–27 (address, big-endian port, security, transport), with family AF_INET6, flow info 0 and scope id 0 |
| `Sdp.ParseDatagram` | src/iso15118/io/sdp_client.cpp:118-149 | valid iff the datagram holds a header and a 20-byte payload, does not fill the buffer, and its header is an SDP response header; a valid result re-encodes to datagram bytes 8–27, with family AF_INET6, flow info 0 and scope id 0 |
| `Sdp.ParseDatagramRoundTrip` | src/iso15118/io/sdp_client.cpp:132-149 | parsing a response built from address, port, security and transport returns exactly those, with family AF_INET6, flow info 0 and scope id 0 |
| `Sdp.ParseDatagramRejectsOtherPayloadType` | src/iso15118/io/sdp_client.cpp:123-130 | a header of another payload type gives an invalid response, not an error |
| `Sdp.ParseBufferAgreesOnCompleteDatagrams` | src/iso15118/io/sdp_client.cpp:118-149 | for datagrams of at least 28 bytes, the source's buffer decoding equals the checked decoding, whatever the buffer held before |
| `Sdp.StaleBufferYieldsValidResponse` | src/iso15118/io/sdp_client.cpp:123-146 | after a complete response, the one-byte datagram `[0x01]` is decoded as that previous response; the checked decoding refuses it |
| `Sdp.ResponseTo` | src/iso15118/io/sdp_client.cpp:102-150 | fails iff the receive failed or was empty (read error) or the peer address is oversized (address-length error); a success on a datagram of at least 28 bytes equals the checked decoding |
| `Sdp.SdpClient.GetSdpResponse` | src/iso15118/io/sdp_client.cpp:102-150 | a failed or empty receive, then an oversized peer address, throws; otherwise the response is the buffer decoding of the landed datagram, equal to the checked decoding when the datagram holds 28 bytes or more; in all cases the result is `ResponseTo` of the buffer before the call |
| `Io.Deliver` | src/iso15118/io/connection_plain_client.cpp:86 | an event reaches the stored callback once, and nothing when no callback is set |
| `Io.PollManager.RegisterFd` | src/iso15118/io/connection_plain_client.cpp:39 | registration appends exactly one `(fd, handler)` pair |
| `Io.ConnectionPlainClient.constructor` | include/iso15118/io/connection_plain_client.hpp:31-35 | a connection starts with fd -1, not open, with no callback and nothing delivered |
| `Io.ConnectionPlainClient.Connect` | src/iso15118/io/connection_plain_client.cpp:14-42 | socket failure throws; after a successful socket, the caller's scope id is overwritten with the interface index; connect failure throws; success leaves the connection open, connected to that scoped address, and its fd registered once |
| `Io.ConnectionPlainClient.SetEventCallback` | src/iso15118/io/connection_plain_client.cpp:44-46 | the single stored callback is replaced by the given one, which may be the empty callback |
| `Io.ObserverIsReplaced` | src/iso15118/io/connection_plain_client.cpp:44-46 | after two callback registrations, new data reaches only the second observer |
| `Io.ClearedCallbackHearsNothing` | src/iso15118/io/connection_plain_client.cpp:44-46 | after the empty callback replaces an observer, new data reaches nobody |
| `Io.ConnectionPlainClient.GetPublicEndpoint` | src/iso15118/io/connection_plain_client.cpp:48-50 | returns the value-initialised endpoint (port 0, all-zero address) |
| `Io.ConnectionPlainClient.Write` | src/iso15118/io/connection_plain_client.cpp:52-62 | needs an open connection; returns normally iff the full length was written; -1 and a short count throw different errors |
| `Io.ClassifyRead` | src/iso15118/io/connection_plain_client.cpp:64-81 | at most len bytes; blocked iff fewer than len bytes arrived; a non-negative result is the byte count, a failed read gives 0 |
| `Io.ConnectionPlainClient.Read` | src/iso15118/io/connection_plain_client.cpp:64-81 | needs an open connection; the result is `ClassifyRead` of the length and the system call's result |
| `Io.PeerCloseLooksLikeWouldBlock` | src/iso15118/io/connection_plain_client.cpp:67-80 | with len > 0, a 0-byte read and a failed read both give `(true, 0)` |
| `Io.ConnectionPlainClient.HandleData` | src/iso15118/io/connection_plain_client.cpp:83-87 | needs an open connection; NEW_DATA goes to the callback only if one is set |
| `Io.ConnectionPlainClient.Close` | src/iso15118/io/connection_plain_client.cpp:89-103 | a failed close throws and changes nothing; otherwise the connection is closed and then CLOSED is delivered |
| `SapState.React` | src/iso15118/d20/state/supported_app_protocol.cpp:38-65 | at most one request, which is the default session setup request `handle_response` (lines 16-19) returns; never both a stop and a request; a non-message event or another message kind has no effect |
| `SapState.NegotiationOutcome` | src/iso15118/d20/state/supported_app_protocol.cpp:45-60 | the session stops iff the code is Failed_NoNegotiation; otherwise exactly one SessionSetupRequest is sent; the schema id makes no difference |
| `SapState.SupportedAppProtocol.Enter` | src/iso15118/d20/state/supported_app_protocol.cpp:34-36 | records the state name in the session log and changes nothing else |
| `SapState.SupportedAppProtocol.HandleEvent` | src/iso15118/d20/state/supported_app_protocol.cpp:38-65 | always returns PASS_ON; the stop flag and the sent requests change as `React` says; the decoded message is untouched |
| `Controller.NextEventAfterPoll` | src/iso15118/tbd_controller.cpp:61-66 | the next wake time is at most now + 50 ms and at most every session's next event, and it is one of them |
| `Controller.EffectiveAuthorizationServices` | src/iso15118/tbd_controller.cpp:91-95 | never empty; the given services when there are any, otherwise EIM alone |
| `Controller.EffectiveAuthorizationIsIdempotent` | src/iso15118/tbd_controller.cpp:91-95 | applying the default rule again to the stored list changes nothing |
| `Controller.TbdController.constructor` | src/iso15118/tbd_controller.cpp:28-33 | the discovery socket is the only registration; no sessions; the default session configuration |
| `Controller.CreateController` | src/iso15118/tbd_controller.cpp:28-33 | construction succeeds iff the discovery client's init succeeds, and then registers its fd and keeps the given interface index |
| `Controller.TbdController.SendControlEvent` | src/iso15118/tbd_controller.cpp:72-81 | with exactly one session the event is pushed to it; with zero or several sessions no session changes |
| `Controller.TbdController.SetupSession` | src/iso15118/tbd_controller.cpp:88-98 | stores the effective authorization services and the certificate-installation flag unchanged |
| `Controller.TbdController.HandleSdpClientInput` | src/iso15118/tbd_controller.cpp:100-135 | the response is read through the discovery client (`ResponseTo` of its buffer) and its failures are thrown on; no existing session's control events change; an invalid response or a failure leaves the sessions, their negotiation counts and the registrations unchanged; a connection failure throws; otherwise one fresh session is appended, its connection is open, registered, and connected to the discovered address with its scope id set to the controller's interface index, and `send_sap` goes to the first session of the list |

## Left out

- Logging, `std::cout` output, `log_peer_hostname` and the commented-out TLS and SDP-server code: they have no effect on the modelled state.
- `handle_response` ignores the negotiation response and returns a default-constructed `SessionSetupRequest`, whose fields are declared in a header that is not part of this model. `SapState.React` sends that request directly, so it has no member of its own.
- The message codec (EXI) and its fixtures in test/exi/cb/app_hand/app_hand.cpp: the codec is a foreign library. The state receives an already decoded `Message`.
- Sdp.SdpClient.Init: the outcome of `bind` is a function of the port alone (`canBind`). Effects of earlier failed binds on the socket are not modelled.
- Sdp.SdpClient.SendRequest: `inet_pton` of the constant `ff02::1` cannot fail, so its throw path is not modelled. The result of `sendto` is ignored, as in the source.
- The peer address `recvfrom` reports is only logged by the source, so the model does not keep it.
- `~SdpClient` (closing the discovery socket) is not modelled, because the model has no object destruction. `~ConnectionPlainClient` is defaulted and does nothing.
- The poll manager's `poll` dispatch and an unregistration are not part of this model. Only `register_fd` is recorded.
- Io.ConnectionPlainClient.Read: the bytes copied into the caller's buffer are not modelled, only the count and the blocking flag. `errno` is only logged.
- Io.ConnectionPlainClient.Write: the bytes put on the wire by a short write are not modelled.
- The unbounded `while (session_active)` loop of `start_session` and the clock: only one iteration's next-event computation is modelled, with `now` and each session's `poll()` result as inputs.
- The controller's session objects, including `push_control_event`, `send_sap` and `poll`, are not part of this model. `IsoSession` only records the control events pushed and the negotiation requests it was told to send.
- The random generator is replaced by the 16 bytes it draws, passed to the session constructors.
- The enumerations of the message datatypes (service categories, DC connector, control mode, pricing, ports, FSM events, response codes) are not part of this model. Their values follow the ISO 15118-20 names.
- `d20::SessionConfig()` is not part of this model. The controller takes its default-constructed value as a parameter.

## Findings

| source | as written | input that shows it | evidently intended | confidence | as-written member | corrected member |
|---|---|---|---|---|---|---|
| src/iso15118/io/sdp_client.cpp:123-146 | the header and payload bytes 16–19 are read at fixed offsets of the 2048-byte receive buffer, whatever the length of the datagram received | a complete discovery response, followed by the one-byte datagram `[0x01]`: the stale bytes behind it pass the header check, and the old response is returned again as valid | refuse a datagram shorter than the 8-byte header plus the 20-byte payload | high; not executed | `Sdp.ParseBuffer`, `Sdp.StaleBufferYieldsValidResponse` | `Sdp.ParseDatagram`, `Sdp.ParseDatagramRoundTrip` |

`Sdp.SdpClient.GetSdpResponse` keeps the as-written buffer decoding, because
that is what the client does. Its contract also states that on every datagram
of at least 28 bytes the result equals `Sdp.ParseDatagram`
(`Sdp.ParseBufferAgreesOnCompleteDatagrams`). So the two decodings differ
only on the short datagrams the finding describes.
