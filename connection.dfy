/** The plain TCP client connection and the part of the poll manager it
    relies on. A callback is represented by the observer it reaches, and what
    a callback does is represented by a record of the events delivered to
    it. System calls are replaced by their results. */
module Io {
  import opened Types
  import opened Net

  /** The events a connection raises to its owner. */
  datatype ConnectionEvent = NewData | Closed

  /** Stands for a ConnectionEventCallback: the party it notifies. */
  datatype Observer = Observer(id: nat)

  /** One event handed to one observer. */
  datatype Delivery = Delivery(observer: Observer, event: ConnectionEvent)

  /** What call_if_available(callback, event) hands out: one delivery when
      a callback is set, none otherwise. */
  function Deliver(callback: Option<Observer>, event: ConnectionEvent): (ds: seq<Delivery>)
    ensures |ds| <= 1
    ensures callback.None? <==> ds == []
    ensures forall d :: d in ds ==> d.event == event && Some(d.observer) == callback
  {
    if callback.Some? then [Delivery(callback.value, event)] else []
  }

  /** The callbacks registered with the poll manager. */
  datatype Handler =
    | SdpClientInput
    | ConnectionData(connection: ConnectionPlainClient)

  datatype Registration = Registration(fd: int, handler: Handler)

  /** The poll manager, reduced to the record of its registrations. */
  class PollManager {
    var registrations: seq<Registration>

    constructor ()
      ensures registrations == []
    {
      registrations := [];
    }

    method RegisterFd(fd: int, handler: Handler)
      modifies this
      ensures registrations == old(registrations) + [Registration(fd, handler)]
    {
      registrations := registrations + [Registration(fd, handler)];
    }
  }

  datatype ConnectionError =
    | SocketFailed
    | ConnectFailed
    | WriteFailed
    | IncompleteWrite
    | CloseFailed

  /** The outcome of read: whether the call counts as blocked, and how many
      bytes it delivered. */
  datatype ReadResult = ReadResult(didBlock: bool, bytesRead: nat)

  /** The endpoint record a connection reports about itself. */
  datatype Ipv6EndPoint = Ipv6EndPoint(port: uint16, address: seq<uint16>)

  /** A value-initialised endpoint: port zero and the all-zero address. */
  const DEFAULT_ENDPOINT: Ipv6EndPoint := Ipv6EndPoint(0, [0, 0, 0, 0, 0, 0, 0, 0])

  /** How read turns the system call's result into a ReadResult: it blocked
      when something was asked for and not exactly that much arrived, and a
      failed call delivers nothing. */
  function ClassifyRead(len: nat, readResult: int): (r: ReadResult)
    requires -1 <= readResult <= len
    ensures r.bytesRead <= len
    ensures r.didBlock <==> r.bytesRead < len
    ensures readResult >= 0 ==> r.bytesRead == readResult
    ensures readResult < 0 ==> r.bytesRead == 0
  {
    ReadResult(len > 0 && readResult != len, if readResult >= 0 then readResult else 0)
  }

  /** An orderly close by the peer (read returns 0) and a read that would
      block (read returns -1) give the same result whenever bytes were asked
      for, so the caller cannot tell them apart. */
  lemma PeerCloseLooksLikeWouldBlock(len: nat)
    requires len > 0
    ensures ClassifyRead(len, 0) == ClassifyRead(len, -1) == ReadResult(true, 0)
  {
  }

  class ConnectionPlainClient {
    const pollManager: PollManager
    var fd: int
    var connectionOpen: bool
    var eventCallback: Option<Observer>
    /** Every event delivered to an observer, in order. */
    var delivered: seq<Delivery>
    /** The address the socket is connected to, once connect succeeded. */
    var peer: Option<SockAddrIn6>

    /** The member initialisers: no descriptor, not open, no callback. */
    constructor (pollManager: PollManager)
      ensures this.pollManager == pollManager
      ensures fd == -1 && !connectionOpen && eventCallback == None && delivered == []
      ensures peer == None
    {
      this.pollManager := pollManager;
      fd := -1;
      connectionOpen := false;
      eventCallback := None;
      delivered := [];
      peer := None;
    }

    /** The constructor body: open a stream socket (`socketFd` is what socket
        returned), overwrite the host address's scope id with the interface
        index, connect (`connectResult`), mark the connection open and
        register the descriptor with the poll manager. `host` is the caller's
        address after the call. */
    method Connect(hostAddress: SockAddrIn6, interfaceIndex: uint32, socketFd: int, connectResult: int)
      returns (r: Result<(), ConnectionError>, host: SockAddrIn6)
      modifies this, pollManager
      ensures fd == socketFd
      ensures eventCallback == old(eventCallback) && delivered == old(delivered)
      ensures socketFd == -1 ==> r == Failure(SocketFailed) && host == hostAddress
      ensures socketFd != -1 ==> host == hostAddress.(scopeId := interfaceIndex)
      ensures socketFd != -1 && connectResult == -1 ==> r == Failure(ConnectFailed)
      ensures r.Success? <==> socketFd != -1 && connectResult != -1
      ensures r.Success? ==> connectionOpen && peer == Some(host)
      ensures r.Success? ==>
                pollManager.registrations == old(pollManager.registrations) + [Registration(fd, ConnectionData(this))]
      ensures r.Failure? ==>
                && connectionOpen == old(connectionOpen) && peer == old(peer)
                && pollManager.registrations == old(pollManager.registrations)
    {
      host := hostAddress;
      fd := socketFd;
      if fd == -1 {
        return Failure(SocketFailed), host;
      }
      host := host.(scopeId := interfaceIndex);
      if connectResult == -1 {
        return Failure(ConnectFailed), host;
      }
      connectionOpen := true;
      peer := Some(host);
      pollManager.RegisterFd(fd, ConnectionData(this));
      r := Success(());
    }

    /** Replaces the one stored callback; `None` is the empty callback,
        after which events reach nobody. */
    method SetEventCallback(callback: Option<Observer>)
      modifies this`eventCallback
      ensures eventCallback == callback
    {
      eventCallback := callback;
    }

    /** The initiating side reports a default endpoint. */
    method GetPublicEndpoint() returns (endpoint: Ipv6EndPoint)
      ensures endpoint == DEFAULT_ENDPOINT
    {
      endpoint := DEFAULT_ENDPOINT;
    }

    /** One attempt to write `len` bytes; `writeResult` is what write
        returned. Anything but the full count throws. */
    method Write(len: nat, writeResult: int) returns (r: Result<(), ConnectionError>)
      requires connectionOpen
      requires -1 <= writeResult <= len
      ensures r.Success? <==> writeResult == len
      ensures writeResult == -1 ==> r == Failure(WriteFailed)
      ensures 0 <= writeResult < len ==> r == Failure(IncompleteWrite)
    {
      if writeResult == -1 {
        return Failure(WriteFailed);
      } else if writeResult != len {
        return Failure(IncompleteWrite);
      }
      return Success(());
    }

    /** One read of up to `len` bytes; `readResult` is what read returned. */
    method Read(len: nat, readResult: int) returns (r: ReadResult)
      requires connectionOpen
      requires -1 <= readResult <= len
      ensures r == ClassifyRead(len, readResult)
    {
      var didBlock := len > 0 && readResult != len;
      if readResult >= 0 {
        return ReadResult(didBlock, readResult);
      }
      return ReadResult(didBlock, 0);
    }

    /** Called by the poll manager when the socket is readable. */
    method HandleData()
      requires connectionOpen
      modifies this`delivered
      ensures delivered == old(delivered) + Deliver(eventCallback, NewData)
    {
      delivered := delivered + Deliver(eventCallback, NewData);
    }

    /** Closes the descriptor (`closeResult` is what close returned). On
        failure it throws before anything changes; otherwise the connection
        is marked closed and then CLOSED is delivered. The descriptor stays
        registered with the poll manager. */
    method Close(closeResult: int) returns (r: Result<(), ConnectionError>)
      modifies this`connectionOpen, this`delivered
      ensures r.Success? <==> closeResult != -1
      ensures r.Failure? ==>
                r.error == CloseFailed && connectionOpen == old(connectionOpen) && delivered == old(delivered)
      ensures r.Success? ==> !connectionOpen && delivered == old(delivered) + Deliver(eventCallback, Closed)
    {
      if closeResult == -1 {
        return Failure(CloseFailed);
      }
      connectionOpen := false;
      delivered := delivered + Deliver(eventCallback, Closed);
      r := Success(());
    }
  }

  /** A callback replaced before data arrives is never called: only the
      latest observer hears of the new data. */
  method ObserverIsReplaced(pollManager: PollManager, host: SockAddrIn6, first: Observer, second: Observer)
    returns (connection: ConnectionPlainClient)
    modifies pollManager
    ensures fresh(connection)
    ensures connection.connectionOpen
    ensures connection.delivered == [Delivery(second, NewData)]
  {
    connection := new ConnectionPlainClient(pollManager);
    var r, _ := connection.Connect(host, 2, 5, 0);
    connection.SetEventCallback(Some(first));
    connection.SetEventCallback(Some(second));
    connection.HandleData();
  }

  /** Storing the empty callback over an observer silences the connection:
      new data then reaches nobody. */
  method ClearedCallbackHearsNothing(pollManager: PollManager, host: SockAddrIn6, observer: Observer)
    returns (connection: ConnectionPlainClient)
    modifies pollManager
    ensures fresh(connection)
    ensures connection.connectionOpen
    ensures connection.delivered == []
  {
    connection := new ConnectionPlainClient(pollManager);
    var r, _ := connection.Connect(host, 2, 5, 0);
    connection.SetEventCallback(Some(observer));
    connection.SetEventCallback(None);
    connection.HandleData();
  }
}
