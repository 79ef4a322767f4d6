/** The state of the ISO 15118-20 session that waits for the answer to the
    application-protocol negotiation. It reads the decoded message from the
    session context and either requests session setup or stops the session. */
module SapState {
  import opened Types

  /** Events the state machine hands to a state. */
  datatype FsmEvent = Reset | V2gtpMessage | ControlMessage

  /** Response codes of the supportedAppProtocol response. */
  datatype ResponseCode =
    | OK_SuccessfulNegotiation
    | OK_SuccessfulNegotiationWithMinorDeviation
    | Failed_NoNegotiation

  /** The decoded message the context holds, as a closed sum over the kinds
      of message; only the negotiation response is detailed. */
  datatype Message =
    | SupportedAppProtocolRequest
    | SupportedAppProtocolResponse(responseCode: ResponseCode, schemaId: Option<uint8>)
    | SessionSetupResponse
    | OtherMessage

  /** Requests a state hands to the context. The follow-up to a negotiation
      response is a default-constructed session setup request, whatever the
      response holds, so the request carries no fields here. */
  datatype Request = SessionSetupRequest

  /** What handle_event returns to the state machine. */
  datatype HandleEventResult = PassOn | HandledInternally | NewState(name: string)

  /** The reaction of the state to one event while the context holds
      `message`: whether the session stops, and the requests handed on. */
  datatype Reaction = Reaction(stops: bool, requests: seq<Request>)

  function React(event: FsmEvent, message: Message): (r: Reaction)
    ensures |r.requests| <= 1
    ensures !(r.stops && r.requests != [])
    ensures event != V2gtpMessage || !message.SupportedAppProtocolResponse? ==> r == Reaction(false, [])
  {
    if event != V2gtpMessage then Reaction(false, [])
    else match message
      case SupportedAppProtocolResponse(code, _) =>
        if code != Failed_NoNegotiation then Reaction(false, [SessionSetupRequest])
        else Reaction(true, [])
      case _ => Reaction(false, [])
  }

  /** On a negotiation response the session stops exactly when the station
      failed to negotiate, and otherwise exactly one session setup request is
      sent; the optional schema id plays no part. */
  lemma NegotiationOutcome(code: ResponseCode, schemaId: Option<uint8>, otherSchemaId: Option<uint8>)
    ensures var r := React(V2gtpMessage, SupportedAppProtocolResponse(code, schemaId));
            && (r.stops <==> code == Failed_NoNegotiation)
            && (r.requests == [SessionSetupRequest] <==> code != Failed_NoNegotiation)
            && r == React(V2gtpMessage, SupportedAppProtocolResponse(code, otherSchemaId))
  {
  }

  /** The session context the state works on. */
  class Context {
    /** The message ctx.get_response() yields. */
    var currentMessage: Message
    var sessionStopped: bool
    /** The requests handed to ctx.request, in order. */
    var sentRequests: seq<Request>
    /** The states entered, as recorded in the session log. */
    var enteredStates: seq<string>

    constructor (message: Message)
      ensures currentMessage == message && !sessionStopped && sentRequests == [] && enteredStates == []
    {
      currentMessage := message;
      sessionStopped := false;
      sentRequests := [];
      enteredStates := [];
    }
  }

  class SupportedAppProtocol {
    const ctx: Context

    constructor (ctx: Context)
      ensures this.ctx == ctx
    {
      this.ctx := ctx;
    }

    /** Records the state name in the session log and does nothing else. */
    method Enter()
      modifies ctx
      ensures ctx.enteredStates == old(ctx.enteredStates) + ["SupportedAppProtocol"]
      ensures ctx.currentMessage == old(ctx.currentMessage)
      ensures ctx.sessionStopped == old(ctx.sessionStopped) && ctx.sentRequests == old(ctx.sentRequests)
    {
      ctx.enteredStates := ctx.enteredStates + ["SupportedAppProtocol"];
    }

    /** Handles one event: every path passes it on, and the context changes
        as React says. */
    method HandleEvent(event: FsmEvent) returns (result: HandleEventResult)
      modifies ctx
      ensures result == PassOn
      ensures var reaction := React(event, old(ctx.currentMessage));
              && ctx.sessionStopped == (old(ctx.sessionStopped) || reaction.stops)
              && ctx.sentRequests == old(ctx.sentRequests) + reaction.requests
      ensures ctx.currentMessage == old(ctx.currentMessage) && ctx.enteredStates == old(ctx.enteredStates)
    {
      if event != V2gtpMessage {
        return PassOn;
      }
      var message := ctx.currentMessage;
      if message.SupportedAppProtocolResponse? {
        if message.responseCode != Failed_NoNegotiation {
          ctx.sentRequests := ctx.sentRequests + [SessionSetupRequest];
        } else {
          ctx.sessionStopped := true;
        }
      }
      return PassOn;
    }
  }
}
