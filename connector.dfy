/** The test-runner connector (src/connector.js): capability validation, the
    call lifecycle (Build, Start, UserSays, Stop, Clean) and the filtering of
    inbound events. The carrier SDK is abstract: creating the client,
    creating a call and setting its status are function parameters whose
    results may be failures. The
    outbound handler is the proxy's in-memory session store, as wired by
    startProxy when the connector runs its own proxy. */
module Connector {
  import opened Wrappers
  import opened JsString
  import opened Shared
  import opened Proxy

  const TWILIO_IVR_ACCOUNT_SID: string := "TWILIO_IVR_ACCOUNT_SID"
  const TWILIO_IVR_AUTH_TOKEN: string := "TWILIO_IVR_AUTH_TOKEN"
  const TWILIO_IVR_FROM: string := "TWILIO_IVR_FROM"
  const TWILIO_IVR_TO: string := "TWILIO_IVR_TO"
  const TWILIO_LANGUAGE_CODE: string := "TWILIO_LANGUAGE_CODE"
  const TWILIO_IVR_REDISURL: string := "TWILIO_IVR_REDISURL"
  const TWILIO_IVR_INBOUNDPORT: string := "TWILIO_IVR_INBOUNDPORT"
  const TWILIO_IVR_INBOUNDENDPOINT: string := "TWILIO_IVR_INBOUNDENDPOINT"
  const TWILIO_IVR_PUBLICURL: string := "TWILIO_IVR_PUBLICURL"

  /** Every capability in declaration order except the optional
      REDISURL, INBOUNDPORT and INBOUNDENDPOINT. */
  const RequiredCapabilities: seq<string> :=
    [TWILIO_IVR_ACCOUNT_SID, TWILIO_IVR_AUTH_TOKEN, TWILIO_IVR_FROM, TWILIO_IVR_TO,
     TWILIO_LANGUAGE_CODE, TWILIO_IVR_PUBLICURL]

  /** The carrier's handle of a placed call. */
  datatype Call = Call(sid: string)

  /** The parameters of `client.calls.create`. */
  datatype CallRequest = CallRequest(url: string, to: Option<string>, from: Option<string>, record: bool,
                                     statusCallback: string, statusCallbackEvent: seq<string>)

  /** A message handed to the test runner's `queueBotSays`. */
  datatype BotMessage = BotMessage(sender: string, messageText: Option<string>, sourceData: WebhookRequest)

  /** What the test runner asks the connector to say. */
  datatype Message = Message(messageText: Option<string>, buttons: Option<seq<Button>>)

  /** A started proxy: its port and the paths of its webhooks. */
  datatype ProxyServer = ProxyServer(port: string, routes: Routes)

  datatype ConnectorError =
    | CapabilityRequired(cap: string)
    | CallNotInitialized
    | ClientCreationFailed(reason: string)
    | CallCreationFailed(reason: string)
    | StatusUpdateFailed(sid: string, reason: string)
    | OutboundRejected(reason: string)
    /** A JavaScript TypeError, with the message Node gives it. */
    | TypeError(message: string)

  /** The text of the Error the connector throws. */
  function ErrorMessage(e: ConnectorError): string {
    match e
    case CapabilityRequired(cap) => cap + " capability required"
    case CallNotInitialized => "Call not initialized"
    case ClientCreationFailed(reason) => reason
    case CallCreationFailed(reason) => reason
    case StatusUpdateFailed(sid, reason) => "Failed to set call status for " + sid + " to completed: " + reason
    case OutboundRejected(reason) => reason
    case TypeError(message) => message
  }

  /** Node's message for reading `property` of `undefined`. */
  function ReadOfUndefined(property: string): string {
    "Cannot read properties of undefined (reading '" + property + "')"
  }

  /** Node's message for calling the missing `this.processOutboundEvent`. */
  const NotAFunction := "this.processOutboundEvent is not a function"

  function Cap(caps: map<string, string>, name: string): Option<string> {
    if name in caps then Some(caps[name]) else None
  }

  /** The capability is set to a truthy value. */
  predicate HasCap(caps: map<string, string>, name: string) {
    Truthy(Cap(caps, name))
  }

  /** _createCall's parameters: the carrier is pointed at the proxy's `start`
      webhook and reports status to its `status` webhook, both under the
      public URL normalised to one trailing `'/'`. */
  function CallRequestFor(publicUrl: string, caps: map<string, string>): (r: CallRequest)
    ensures r.url == CallbackUrl(publicUrl, WEBHOOK_ENDPOINT_START, Absent)
    ensures r.statusCallback == CallbackUrl(publicUrl, WEBHOOK_STATUS_CALLBACK, Absent)
    ensures r.url != r.statusCallback
    ensures StartsWith(r.url, publicUrl) && StartsWith(r.statusCallback, publicUrl)
  {
    var base := WithTrailingSlash(publicUrl);
    assert |base + WEBHOOK_ENDPOINT_START| != |base + WEBHOOK_STATUS_CALLBACK|;
    CallRequest(base + WEBHOOK_ENDPOINT_START, Cap(caps, TWILIO_IVR_TO), Cap(caps, TWILIO_IVR_FROM), false,
                base + WEBHOOK_STATUS_CALLBACK, ["completed"])
  }

  /** The INIT_CALL event Start sends: no query parameters, no response time. */
  function InitCallFor(sid: string, publicUrl: string, caps: map<string, string>): OutboundEvent {
    InitCallEvent(sid, publicUrl, Absent, Cap(caps, TWILIO_LANGUAGE_CODE), None)
  }

  /** What _processInboundEvent queues for the test runner: only BOT_SAYS
      events of the active call, each as exactly one bot message. */
  function Accepted(call: Option<Call>, e: InboundEvent): (queued: seq<BotMessage>)
    ensures |queued| <= 1
    ensures queued != [] <==> call == Some(Call(e.sid)) && e.eventType == BotSays
    ensures queued != [] ==> queued[0] == BotMessage("bot", e.botSays, e.sourceData)
  {
    if call.None? || call.value.sid != e.sid then []
    else if e.eventType == BotSays then [BotMessage("bot", e.botSays, e.sourceData)]
    else []
  }

  class TwilioIvrConnector {
    const caps: map<string, string>
    var processingEvents: bool
    var call: Option<Call>
    /** Whether Build has created the carrier client. */
    var hasClient: bool
    var proxy: Option<ProxyServer>
    /** processOutboundEvent: the session store of the started proxy, or
        `null` when there is none. */
    var outbound: SessionStore?
    /** Everything handed to `queueBotSays`, in order. */
    var botMessages: seq<BotMessage>

    constructor (caps: map<string, string>)
      ensures this.caps == caps && !processingEvents && call.None? && !hasClient
      ensures proxy.None? && outbound == null && botMessages == []
    {
      this.caps := caps;
      processingEvents := false;
      call := None;
      hasClient := false;
      proxy := None;
      outbound := null;
      botMessages := [];
    }

    /** Fails on the first required capability, in declaration order, that
        is missing or empty. */
    method Validate() returns (r: Outcome<ConnectorError>)
      ensures r.Pass? <==> forall i :: 0 <= i < |RequiredCapabilities| ==> HasCap(caps, RequiredCapabilities[i])
      ensures r.Fail? ==> exists i :: 0 <= i < |RequiredCapabilities|
                                      && r.error == CapabilityRequired(RequiredCapabilities[i])
                                      && ErrorMessage(r.error) == RequiredCapabilities[i] + " capability required"
                                      && !HasCap(caps, RequiredCapabilities[i])
                                      && forall j :: 0 <= j < i ==> HasCap(caps, RequiredCapabilities[j])
    {
      var i := 0;
      while i < |RequiredCapabilities|
        invariant 0 <= i <= |RequiredCapabilities|
        invariant forall j :: 0 <= j < i ==> HasCap(caps, RequiredCapabilities[j])
      {
        if !HasCap(caps, RequiredCapabilities[i]) {
          return Fail(CapabilityRequired(RequiredCapabilities[i]));
        }
        i := i + 1;
      }
      return Pass;
    }

    /** Creates the carrier client from the account sid and auth token
        through `connect`, which yields the error it throws, if any. A
        failure leaves everything as it was. Otherwise, when an inbound port
        is configured, a proxy is started with a fresh in-memory store as
        the outbound handler. */
    method Build(connect: (Option<string>, Option<string>) -> Option<string>) returns (r: Outcome<ConnectorError>)
      modifies this
      ensures var failure := connect(Cap(caps, TWILIO_IVR_ACCOUNT_SID), Cap(caps, TWILIO_IVR_AUTH_TOKEN));
              && (failure.Some? ==>
                    && r == Fail(ClientCreationFailed(failure.value))
                    && hasClient == old(hasClient) && proxy == old(proxy) && outbound == old(outbound))
              && (failure.None? ==> r == Pass && hasClient)
      ensures r.Pass? && HasCap(caps, TWILIO_IVR_INBOUNDPORT) ==>
                && proxy == Some(ProxyServer(Cap(caps, TWILIO_IVR_INBOUNDPORT).value,
                                             WebhookRoutes(Cap(caps, TWILIO_IVR_INBOUNDENDPOINT))))
                && outbound != null && fresh(outbound) && outbound.sessions == map[]
      ensures r.Pass? && !HasCap(caps, TWILIO_IVR_INBOUNDPORT) ==> proxy == old(proxy) && outbound == old(outbound)
      ensures call == old(call) && processingEvents == old(processingEvents) && botMessages == old(botMessages)
    {
      var failure := connect(Cap(caps, TWILIO_IVR_ACCOUNT_SID), Cap(caps, TWILIO_IVR_AUTH_TOKEN));
      if failure.Some? {
        return Fail(ClientCreationFailed(failure.value));
      }
      hasClient := true;
      if HasCap(caps, TWILIO_IVR_INBOUNDPORT) {
        var store := new SessionStore();
        proxy := Some(ProxyServer(Cap(caps, TWILIO_IVR_INBOUNDPORT).value,
                                  WebhookRoutes(Cap(caps, TWILIO_IVR_INBOUNDENDPOINT))));
        outbound := store;
      }
      r := Pass;
    }

    /** Places the call through `create`, remembers it, opens the inbound
        gate and sends INIT_CALL for it. */
    method Start(create: CallRequest -> Result<string, string>) returns (r: Outcome<ConnectorError>)
      modifies this, outbound
      ensures outbound == old(outbound) && proxy == old(proxy) && hasClient == old(hasClient)
      ensures botMessages == old(botMessages)
      ensures Cap(caps, TWILIO_IVR_PUBLICURL).None? ==> r == Fail(TypeError(ReadOfUndefined("endsWith")))
      ensures Cap(caps, TWILIO_IVR_PUBLICURL).Some? && !hasClient ==> r == Fail(TypeError(ReadOfUndefined("calls")))
      ensures Cap(caps, TWILIO_IVR_PUBLICURL).None? || !hasClient ==>
                && call == old(call) && processingEvents == old(processingEvents)
                && (outbound != null ==> outbound.sessions == old(outbound.sessions))
      ensures Cap(caps, TWILIO_IVR_PUBLICURL).Some? && hasClient ==>
                var publicUrl := Cap(caps, TWILIO_IVR_PUBLICURL).value;
                var created := create(CallRequestFor(publicUrl, caps));
                && (created.Failure? ==>
                      && r == Fail(CallCreationFailed(created.error))
                      && call == old(call) && processingEvents == old(processingEvents)
                      && (outbound != null ==> outbound.sessions == old(outbound.sessions)))
                && (created.Success? ==>
                      && call == Some(Call(created.value)) && processingEvents
                      && (outbound == null ==> r == Fail(TypeError(NotAFunction)))
                      && (outbound != null ==>
                            && r == Pass
                            && outbound.sessions
                               == ApplyOutbound(old(outbound.sessions), InitCallFor(created.value, publicUrl, caps)).value))
    {
      var publicUrl := Cap(caps, TWILIO_IVR_PUBLICURL);
      if publicUrl.None? {
        return Fail(TypeError(ReadOfUndefined("endsWith")));
      }
      if !hasClient {
        return Fail(TypeError(ReadOfUndefined("calls")));
      }
      var created := create(CallRequestFor(publicUrl.value, caps));
      if created.Failure? {
        return Fail(CallCreationFailed(created.error));
      }
      call := Some(Call(created.value));
      processingEvents := true;
      if outbound == null {
        return Fail(TypeError(NotAFunction));
      }
      var sent := ProcessOutboundEvent(outbound, InitCallFor(created.value, publicUrl.value, caps));
      r := Pass;
    }

    /** Sends one USER_SAYS for the active call; refused before a call
        exists or once the outbound handler is gone. */
    method UserSays(msg: Message) returns (r: Outcome<ConnectorError>)
      modifies outbound
      ensures outbound == null || call.None? ==>
                r == Fail(CallNotInitialized) && (outbound != null ==> outbound.sessions == old(outbound.sessions))
      ensures outbound != null && call.Some? ==>
                var applied := ApplyOutbound(old(outbound.sessions),
                                             UserSaysEvent(call.value.sid, msg.messageText, msg.buttons));
                && (applied.Success? ==> r == Pass && outbound.sessions == applied.value)
                && (applied.Failure? ==>
                      r == Fail(OutboundRejected(applied.error)) && outbound.sessions == old(outbound.sessions))
    {
      if outbound == null || call.None? {
        return Fail(CallNotInitialized);
      }
      var sent := ProcessOutboundEvent(outbound, UserSaysEvent(call.value.sid, msg.messageText, msg.buttons));
      if sent.Fail? {
        return Fail(OutboundRejected(sent.error));
      }
      r := Pass;
    }

    /** Closes the inbound gate and sets the active call's status to
        completed through `complete`; the call is forgotten on every path,
        and a failed status update is rethrown with the call sid. */
    method Stop(complete: string -> Option<string>) returns (r: Outcome<ConnectorError>)
      modifies this`processingEvents, this`call
      ensures !processingEvents && call.None?
      ensures old(call).None? ==> r == Pass
      ensures old(call).Some? ==>
                var failure := complete(old(call).value.sid);
                && (failure.None? ==> r == Pass)
                && (failure.Some? ==> r == Fail(StatusUpdateFailed(old(call).value.sid, failure.value)))
    {
      processingEvents := false;
      r := Pass;
      if call.Some? {
        var failure := complete(call.value.sid);
        if failure.Some? {
          r := Fail(StatusUpdateFailed(call.value.sid, failure.value));
        }
        call := None;
      }
    }

    /** Stops the proxy and drops the outbound handler. */
    method Clean()
      modifies this`proxy, this`outbound
      ensures proxy.None? && outbound == null
    {
      if proxy.Some? {
        proxy := None;
      }
      outbound := null;
    }

    /** _processInboundEvent: stale or foreign sids are ignored, BOT_SAYS
        becomes one bot message, everything else is only logged. */
    method ProcessInboundEvent(e: InboundEvent)
      modifies this`botMessages
      ensures botMessages == old(botMessages) + Accepted(call, e)
    {
      if call.None? || call.value.sid != e.sid {
        return;
      }
      if e.eventType == BotSays {
        botMessages := botMessages + [BotMessage("bot", e.botSays, e.sourceData)];
      }
    }

    /** The inbound handler given to the proxy: events reach
        _processInboundEvent only while the gate is open. */
    method OnInboundEvent(e: InboundEvent)
      modifies this`botMessages
      ensures botMessages == old(botMessages) + (if processingEvents then Accepted(call, e) else [])
    {
      if processingEvents {
        ProcessInboundEvent(e);
      }
    }
  }

  /** Once Clean has run, UserSays is refused whatever the message. */
  method CleanThenUserSays(connector: TwilioIvrConnector, msg: Message) returns (r: Outcome<ConnectorError>)
    modifies connector
    ensures r == Fail(CallNotInitialized)
    ensures connector.proxy.None? && connector.outbound == null
  {
    connector.Clean();
    r := connector.UserSays(msg);
  }

  /** The direct transport end to end: the `next` webhook of the connector's
      own proxy hands its events to the connector's inbound handler, so
      recognised speech on the active call reaches the test runner as one bot
      message while the gate is open, and nothing else does. */
  method DirectTransportNext(connector: TwilioIvrConnector, req: WebhookRequest) returns (resp: Response)
    requires connector.outbound != null
    modifies connector`botMessages, connector.outbound
    ensures (resp, connector.outbound.sessions) == Respond(old(connector.outbound.sessions), req.callSid)
    ensures connector.botMessages
            == old(connector.botMessages)
               + (if old(connector.processingEvents) && old(connector.call) == Some(Call(req.callSid))
                     && Truthy(req.speechResult)
                  then [BotMessage("bot", req.speechResult, req)] else [])
  {
    var events;
    resp, events := NextWebhook(connector.outbound, req);
    if |events| > 0 {
      connector.OnInboundEvent(events[0]);
    }
  }
}
