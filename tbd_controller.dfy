/** The vehicle-side controller: owns the poll manager and the discovery
    client, creates a connection and a session for a valid discovery
    response, routes control events to the single session and computes when
    the main loop wakes next. */
module Controller {
  import opened Types
  import opened Net
  import Sdp
  import Io

  /** The fixed tick of the main loop, in milliseconds. */
  const POLL_MANAGER_TIMEOUT_MS: int := 50

  datatype Authorization = EIM | PnC

  /** The configuration every new session is created with. */
  datatype SessionConfig = SessionConfig(authorizationServices: seq<Authorization>, certInstallService: bool)

  /** Why handle_sdp_client_input throws: reading the discovery response
      failed, or connecting to the announced address failed. */
  datatype HandlerError = DiscoveryFailed(discovery: Sdp.SdpError) | ConnectionFailed(connection: Io.ConnectionError)

  /** Control events injected from outside, carried to the session as they
      are. */
  datatype ControlEvent = ControlEvent(tag: nat)

  /** The authorization services setup_session stores: the given ones, or EIM
      alone when none are given. */
  function EffectiveAuthorizationServices(authServices: seq<Authorization>): (r: seq<Authorization>)
    ensures r != []
    ensures authServices != [] ==> r == authServices
    ensures authServices == [] ==> r == [EIM]
  {
    if authServices != [] then authServices else [EIM]
  }

  /** Storing the stored list again changes nothing. */
  lemma EffectiveAuthorizationIsIdempotent(authServices: seq<Authorization>)
    ensures EffectiveAuthorizationServices(EffectiveAuthorizationServices(authServices))
         == EffectiveAuthorizationServices(authServices)
  {
  }

  /** After one poll the next wake time is the earliest of now + 50 ms and
      every session's next event (`sessionEvents[i]` is what poll() of the
      i-th session returned). */
  method NextEventAfterPoll(now: int, sessionEvents: seq<int>) returns (next: int)
    ensures next <= now + POLL_MANAGER_TIMEOUT_MS
    ensures forall i :: 0 <= i < |sessionEvents| ==> next <= sessionEvents[i]
    ensures next == now + POLL_MANAGER_TIMEOUT_MS || next in sessionEvents
  {
    next := now + POLL_MANAGER_TIMEOUT_MS;
    for k := 0 to |sessionEvents|
      invariant next <= now + POLL_MANAGER_TIMEOUT_MS
      invariant forall i :: 0 <= i < k ==> next <= sessionEvents[i]
      invariant next == now + POLL_MANAGER_TIMEOUT_MS || next in sessionEvents[..k]
    {
      if sessionEvents[k] < next {
        next := sessionEvents[k];
      }
    }
  }

  /** The controller's view of a session: the connection it talks over, the
      configuration it was made with, the control events pushed to it and
      the negotiation requests it was told to send. */
  class IsoSession {
    const connection: Io.ConnectionPlainClient
    const config: SessionConfig
    var controlEvents: seq<ControlEvent>
    var sapRequestsSent: nat

    constructor (connection: Io.ConnectionPlainClient, config: SessionConfig)
      ensures this.connection == connection && this.config == config
      ensures controlEvents == [] && sapRequestsSent == 0
    {
      this.connection := connection;
      this.config := config;
      controlEvents := [];
      sapRequestsSent := 0;
    }

    method PushControlEvent(event: ControlEvent)
      modifies this`controlEvents
      ensures controlEvents == old(controlEvents) + [event]
    {
      controlEvents := controlEvents + [event];
    }

    method SendSap()
      modifies this`sapRequestsSent
      ensures sapRequestsSent == old(sapRequestsSent) + 1
    {
      sapRequestsSent := sapRequestsSent + 1;
    }
  }

  class TbdController {
    const pollManager: Io.PollManager
    const sdpClient: Sdp.SdpClient
    /** The index of the configured interface (if_nametoindex). */
    const interfaceIndex: uint32
    var sessionConfig: SessionConfig
    var sessions: seq<IsoSession>

    /** The discovery client keeps its full-size receive buffer, and the
        sessions of the list are distinct objects. */
    ghost predicate Valid()
      reads this, sdpClient
    {
      && sdpClient.Valid()
      && forall i, j :: 0 <= i < j < |sessions| ==> sessions[i] != sessions[j]
    }

    /** The constructor after sdp_client.init() succeeded: the discovery
        socket is registered with a fresh poll manager, there are no sessions
        and the session configuration is the default-constructed one, which
        is passed in as `defaultConfig`. */
    constructor (sdpClient: Sdp.SdpClient, interfaceIndex: uint32, defaultConfig: SessionConfig)
      requires sdpClient.Valid()
      ensures this.sdpClient == sdpClient && this.interfaceIndex == interfaceIndex
      ensures fresh(pollManager)
      ensures pollManager.registrations == [Io.Registration(sdpClient.fd, Io.SdpClientInput)]
      ensures sessions == [] && sessionConfig == defaultConfig
      ensures Valid()
    {
      var manager := new Io.PollManager();
      manager.RegisterFd(sdpClient.fd, Io.SdpClientInput);
      pollManager := manager;
      this.sdpClient := sdpClient;
      this.interfaceIndex := interfaceIndex;
      sessionConfig := defaultConfig;
      sessions := [];
    }

    /** Forwards a control event only when there is exactly one session;
        with none or several it is dropped. */
    method SendControlEvent(event: ControlEvent)
      requires Valid()
      modifies sessions
      ensures Valid()
      ensures |sessions| == 1 ==> sessions[0].controlEvents == old(sessions[0].controlEvents) + [event]
      ensures |sessions| != 1 ==> forall s :: s in sessions ==> s.controlEvents == old(s.controlEvents)
      ensures forall s :: s in sessions ==> s.sapRequestsSent == old(s.sapRequestsSent)
    {
      if |sessions| > 1 {
        return;
      } else if |sessions| == 0 {
        return;
      }
      sessions[0].PushControlEvent(event);
    }

    /** Stores the authorization services (EIM when none are given) and the
        certificate-installation flag for the next session. */
    method SetupSession(authServices: seq<Authorization>, certInstallService: bool)
      requires Valid()
      modifies this`sessionConfig
      ensures Valid()
      ensures sessionConfig == SessionConfig(EffectiveAuthorizationServices(authServices), certInstallService)
    {
      if authServices != [] {
        sessionConfig := sessionConfig.(authorizationServices := authServices);
      } else {
        sessionConfig := sessionConfig.(authorizationServices := [EIM]);
      }
      sessionConfig := sessionConfig.(certInstallService := certInstallService);
    }

    /** Reacts to the discovery client's socket becoming readable: reads and
        decodes the datagram (`received`, see Sdp.SdpClient.GetSdpResponse;
        its failures throw out of the handler). An invalid response is
        ignored. A valid one opens a connection to the announced address
        (`socketFd` and `connectResult` are what socket and connect return; a
        failure throws), appends a session bound to it, and tells the FIRST
        session in the list to start negotiating, which is the new one only
        when the list was empty. Existing sessions receive no control event. */
    method HandleSdpClientInput(received: Sdp.Received, socketFd: int, connectResult: int)
      returns (r: Result<(), HandlerError>)
      requires Valid()
      modifies this, pollManager, sessions, sdpClient.udpBuffer
      ensures Valid()
      ensures sdpClient.udpBuffer[..] ==
                if received.RecvFailed? then old(sdpClient.udpBuffer[..])
                else Sdp.Landed(old(sdpClient.udpBuffer[..]), received.data)
      ensures sessionConfig == old(sessionConfig)
      ensures forall s :: s in old(sessions) ==> s.controlEvents == old(s.controlEvents)
      ensures var response := Sdp.ResponseTo(old(sdpClient.udpBuffer[..]), received);
              && (response.Failure? ==> r == Failure(DiscoveryFailed(response.error)))
              && (response == Success(Sdp.Invalid) ==> r.Success?)
              && (response.Success? && response.value.Valid? && (socketFd == -1 || connectResult == -1) ==>
                    r.Failure? && r.error.ConnectionFailed?)
              && (response.Success? && response.value.Valid? && socketFd != -1 && connectResult != -1 ==> r.Success?)
      ensures (r.Failure? || Sdp.ResponseTo(old(sdpClient.udpBuffer[..]), received) == Success(Sdp.Invalid)) ==>
                && sessions == old(sessions)
                && pollManager.registrations == old(pollManager.registrations)
                && forall s :: s in old(sessions) ==> s.sapRequestsSent == old(s.sapRequestsSent)
      ensures r.Success? && Sdp.ResponseTo(old(sdpClient.udpBuffer[..]), received) != Success(Sdp.Invalid) ==>
                && |sessions| == |old(sessions)| + 1
                && sessions[..|old(sessions)|] == old(sessions)
                && var added := sessions[|sessions| - 1];
                   && fresh(added) && fresh(added.connection)
                   && added.config == sessionConfig
                   && added.connection.connectionOpen && added.connection.fd == socketFd
                   && added.connection.peer
                      == Some(Sdp.ResponseTo(old(sdpClient.udpBuffer[..]), received).value.address.(scopeId := interfaceIndex))
                   && pollManager.registrations
                      == old(pollManager.registrations) + [Io.Registration(socketFd, Io.ConnectionData(added.connection))]
                   && added.controlEvents == []
                   && (old(sessions) == [] ==> added.sapRequestsSent == 1)
                   && (old(sessions) != [] ==>
                         && added.sapRequestsSent == 0
                         && sessions[0].sapRequestsSent == old(sessions[0].sapRequestsSent) + 1
                         && forall i :: 1 <= i < |old(sessions)| ==>
                              sessions[i].sapRequestsSent == old(sessions[i].sapRequestsSent))
    {
      var response := sdpClient.GetSdpResponse(received);
      if response.Failure? {
        return Failure(DiscoveryFailed(response.error));
      }
      if response.value.Invalid? {
        return Success(());
      }
      var connection := new Io.ConnectionPlainClient(pollManager);
      var connected, _ := connection.Connect(response.value.address, interfaceIndex, socketFd, connectResult);
      if connected.Failure? {
        return Failure(ConnectionFailed(connected.error));
      }
      var session := new IsoSession(connection, sessionConfig);
      sessions := sessions + [session];
      sessions[0].SendSap();
      r := Success(());
    }
  }

  /** Builds the controller the way the source's constructor does: set up the
      discovery client (see Sdp.SdpClient.Init for the socket results), which
      throws on failure, then register its socket. */
  method CreateController(
    interfaceName: string, interfaceIndex: uint32, defaultConfig: SessionConfig,
    socketFd: int, canBind: int -> bool, reuseAddrResult: int, multicastInterfaceResult: int)
    returns (r: Result<TbdController, Sdp.SdpError>)
    ensures r.Success? <==>
              socketFd != -1 && Sdp.AnyBindable(canBind) && reuseAddrResult != -1 && multicastInterfaceResult >= 0
    ensures r.Success? ==>
              && fresh(r.value) && fresh(r.value.sdpClient)
              && r.value.sdpClient.fd == socketFd && r.value.sdpClient.interfaceName == interfaceName
              && r.value.interfaceIndex == interfaceIndex
              && r.value.sessions == [] && r.value.sessionConfig == defaultConfig && r.value.Valid()
              && r.value.pollManager.registrations == [Io.Registration(socketFd, Io.SdpClientInput)]
  {
    var client := new Sdp.SdpClient(interfaceName);
    var initialised := client.Init(socketFd, canBind, reuseAddrResult, multicastInterfaceResult);
    if initialised.Failure? {
      return Failure(initialised.error);
    }
    var controller := new TbdController(client, interfaceIndex, defaultConfig);
    r := Success(controller);
  }
}
