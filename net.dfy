/** The IPv6 socket address as the source fills it (struct sockaddr_in6). */
module Net {
  import opened Types

  /** AF_INET6 on Linux. */
  const AF_INET6: int := 10

  /** sizeof(struct sockaddr_in6). */
  const SOCKADDR_IN6_SIZE: nat := 28

  /** The all-nodes link-local multicast group ff02::1. */
  const LINK_LOCAL_MULTICAST: seq<uint8> :=
    [0xff, 0x02, 0, 0, 0, 0, 0, 0, 0, 0, 0, 0, 0, 0, 0, 0x01]

  /** The port is kept as its numeric value; the source stores it in
      network byte order, which is a representation detail. */
  datatype SockAddrIn6 = SockAddrIn6(
    family: int,
    port: uint16,
    flowInfo: uint32,
    address: seq<uint8>,
    scopeId: uint32)
}
