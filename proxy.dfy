/** The webhook proxy (src/proxy.js): the per-call session store, the
    outbound-event handler that fills it, and the three carrier webhooks that
    drain it into TwiML and report call events back to the connector. */
module Proxy {
  import opened Wrappers
  import opened JsString
  import opened Twiml
  import opened Shared

  datatype Button = Button(payload: string)

  /** `buttons && buttons.length > 0`. */
  predicate HasButtons(buttons: Option<seq<Button>>) {
    buttons.Some? && |buttons.value| > 0
  }

  /** A queued utterance of the simulated caller. */
  datatype VoiceAction = VoiceAction(messageText: Option<string>, buttons: Option<seq<Button>>)

  /** What the store keeps per call sid. */
  datatype Session = Session(
    publicUrl: Option<string>,
    publicUrlParams: Params,
    languageCode: Option<string>,
    responseTime: Option<int>,
    voiceActions: seq<VoiceAction>)

  /** The session an outbound event starts from when none is stored yet. */
  const DefaultSession: Session := Session(None, Fields([], None), None, Some(5000), [])

  /** The fields of a carrier webhook request body the proxy reads. */
  datatype WebhookRequest = WebhookRequest(callSid: string, callStatus: string, speechResult: Option<string>)

  /** A proxy -> connector event; `sourceData` is the webhook request body. */
  datatype InboundEvent = InboundEvent(sid: string, eventType: EventType, botSays: Option<string>,
                                       sourceData: WebhookRequest)

  /** A connector -> proxy event. `OtherEvent` stands for any other `type`. */
  datatype OutboundEvent =
    | InitCallEvent(sid: string, publicUrl: string, publicUrlParams: Params,
                    languageCode: Option<string>, responseTime: Option<int>)
    | UserSaysEvent(sid: string, messageText: Option<string>, buttons: Option<seq<Button>>)
    | OtherEvent(sid: string, eventType: string)

  /** An HTTP answer to the carrier: its status and the TwiML body. */
  datatype Response = Response(status: int, twiml: seq<Instruction>)

  /** The in-memory session store: a dictionary from call sid to session,
      updated in place. */
  class SessionStore {
    var sessions: map<string, Session>

    constructor ()
      ensures sessions == map[]
    {
      sessions := map[];
    }

    method Get(sid: string) returns (s: Option<Session>)
      ensures s.Some? <==> sid in sessions
      ensures s.Some? ==> s.value == sessions[sid]
    {
      s := if sid in sessions then Some(sessions[sid]) else None;
    }

    /** A full overwrite, not a merge: a later `Get(sid)` yields `data` and
        every other sid is untouched. */
    method Set(sid: string, data: Session)
      modifies this
      ensures sessions == old(sessions)[sid := data]
      ensures sid in sessions && sessions[sid] == data
      ensures forall k :: k != sid ==> (k in sessions <==> k in old(sessions))
      ensures forall k :: k != sid && k in sessions ==> sessions[k] == old(sessions)[k]
    {
      sessions := sessions[sid := data];
    }

    /** Afterwards `sid` is absent and every other sid is untouched. */
    method Delete(sid: string)
      modifies this
      ensures sessions == old(sessions) - {sid}
      ensures sid !in sessions
      ensures forall k :: k != sid ==> (k in sessions <==> k in old(sessions))
    {
      sessions := sessions - {sid};
    }
  }

  // ---------------------------------------------------------------------
  // DTMF validation of button payloads

  /** Keys the carrier can play: digits, `*`, `#` and `w` (wait half a second). */
  predicate IsDtmfKey(c: char) {
    ('0' <= c <= '9') || c == '*' || c == '#' || c == 'w'
  }

  /** Position of the first character of `payload` that is not a DTMF key. */
  function FirstInvalidKey(payload: string): (r: Option<nat>)
    ensures r.None? <==> forall i :: 0 <= i < |payload| ==> IsDtmfKey(payload[i])
    ensures r.Some? ==> r.value < |payload| && !IsDtmfKey(payload[r.value])
                        && forall i :: 0 <= i < r.value ==> IsDtmfKey(payload[i])
  {
    if |payload| == 0 then None
    else if !IsDtmfKey(payload[0]) then Some(0)
    else match FirstInvalidKey(payload[1..])
      case None => None
      case Some(i) => Some(i + 1)
  }

  function DtmfError(key: char, payload: string): string {
    "Invalid character \"" + [key] + "\" in DTMF specification \"" + payload
    + "\". Accepted keys are \"0123456789 #* w\" (w is for wait 0.5s)"
  }

  /** The key-by-key check of a button payload: the error names the first
      character that is not a DTMF key. */
  method CheckDtmf(payload: string) returns (r: Outcome<string>)
    ensures r.Pass? <==> forall i :: 0 <= i < |payload| ==> IsDtmfKey(payload[i])
    ensures r.Fail? ==> FirstInvalidKey(payload).Some?
                        && r.error == DtmfError(payload[FirstInvalidKey(payload).value], payload)
  {
    var i := 0;
    while i < |payload|
      invariant 0 <= i <= |payload|
      invariant forall j :: 0 <= j < i ==> IsDtmfKey(payload[j])
    {
      if !IsDtmfKey(payload[i]) {
        return Fail(DtmfError(payload[i], payload));
      }
      i := i + 1;
    }
    return Pass;
  }

  // ---------------------------------------------------------------------
  // Outbound events (connector -> proxy)

  /** The stored session for `sid`, or the defaults when there is none. */
  function Base(sessions: map<string, Session>, sid: string): Session {
    if sid in sessions then sessions[sid] else DefaultSession
  }

  /** The store after an outbound event, or the error it is rejected with.
      INIT_CALL sets the carrier-facing parameters and keeps the queue;
      USER_SAYS appends one action to the queue; other types write nothing. */
  function ApplyOutbound(sessions: map<string, Session>, e: OutboundEvent): (r: Result<map<string, Session>, string>)
    ensures r.Failure? <==> e.UserSaysEvent? && HasButtons(e.buttons)
                            && FirstInvalidKey(e.buttons.value[0].payload).Some?
    ensures r.Failure? ==> var p := e.buttons.value[0].payload;
                           r.error == DtmfError(p[FirstInvalidKey(p).value], p)
    ensures e.OtherEvent? ==> r == Success(sessions)
    ensures r.Success? && !e.OtherEvent? ==>
              && r.value.Keys == sessions.Keys + {e.sid}
              && forall k :: k in sessions && k != e.sid ==> r.value[k] == sessions[k]
    ensures r.Success? && e.InitCallEvent? ==>
              var s := r.value[e.sid];
              && s.publicUrl == Some(WithTrailingSlash(e.publicUrl))
              && s.publicUrlParams == e.publicUrlParams
              && s.languageCode == e.languageCode
              && s.responseTime == e.responseTime
              && s.voiceActions == Base(sessions, e.sid).voiceActions
    ensures r.Success? && e.UserSaysEvent? ==>
              var old_ := Base(sessions, e.sid);
              r.value[e.sid] == old_.(voiceActions := old_.voiceActions + [VoiceAction(e.messageText, e.buttons)])
  {
    var base := Base(sessions, e.sid);
    match e
    case InitCallEvent(sid, url, params, lang, time) =>
      Success(sessions[sid := base.(publicUrl := Some(WithTrailingSlash(url)), publicUrlParams := params,
                                    languageCode := lang, responseTime := time)])
    case UserSaysEvent(sid, text, buttons) =>
      if HasButtons(buttons) && FirstInvalidKey(buttons.value[0].payload).Some? then
        var p := buttons.value[0].payload;
        Failure(DtmfError(p[FirstInvalidKey(p).value], p))
      else
        Success(sessions[sid := base.(voiceActions := base.voiceActions + [VoiceAction(text, buttons)])])
    case OtherEvent(_, _) => Success(sessions)
  }

  /** processOutboundEvent: read the session (or defaults), update it, write
      it back. A rejected USER_SAYS writes nothing. */
  method ProcessOutboundEvent(store: SessionStore, e: OutboundEvent) returns (r: Outcome<string>)
    modifies store
    ensures ApplyOutbound(old(store.sessions), e).Success? ==>
              r == Pass && store.sessions == ApplyOutbound(old(store.sessions), e).value
    ensures ApplyOutbound(old(store.sessions), e).Failure? ==>
              r == Fail(ApplyOutbound(old(store.sessions), e).error) && store.sessions == old(store.sessions)
  {
    var found := store.Get(e.sid);
    var session := if found.Some? then found.value else DefaultSession;
    match e {
      case InitCallEvent(sid, url, params, lang, time) =>
        session := session.(publicUrl := Some(url), publicUrlParams := params,
                            languageCode := lang, responseTime := time);
        if !EndsWith(url, "/") {
          session := session.(publicUrl := Some(url + "/"));
        }
        store.Set(sid, session);
      case UserSaysEvent(sid, text, buttons) =>
        if HasButtons(buttons) {
          var check := CheckDtmf(buttons.value[0].payload);
          if check.Fail? {
            return check;
          }
        }
        session := session.(voiceActions := session.voiceActions + [VoiceAction(text, buttons)]);
        store.Set(sid, session);
      case OtherEvent(_, _) =>
    }
    r := Pass;
  }

  // ---------------------------------------------------------------------
  // TwiML synthesis

  /** One queued action as markup: buttons are played as digits, otherwise a
      non-empty text is spoken in the session language, otherwise nothing. */
  function Render(va: VoiceAction, language: string): (r: seq<Instruction>)
    ensures |r| <= 1
    ensures HasButtons(va.buttons) ==> r == [Play(va.buttons.value[0].payload)]
    ensures !HasButtons(va.buttons) && Truthy(va.messageText) ==> r == [Say(language, va.messageText.value)]
    ensures !HasButtons(va.buttons) && !Truthy(va.messageText) ==> r == []
  {
    if HasButtons(va.buttons) then [Play(va.buttons.value[0].payload)]
    else if Truthy(va.messageText) then [Say(language, va.messageText.value)]
    else []
  }

  /** The queue rendered front to back. */
  function RenderAll(actions: seq<VoiceAction>, language: string): (r: seq<Instruction>)
    ensures |r| <= |actions|
    ensures forall i :: 0 <= i < |r| ==> r[i].Play? || r[i].Say?
    ensures forall i :: 0 <= i < |r| && r[i].Say? ==> r[i].language == language
  {
    if |actions| == 0 then []
    else RenderAll(actions[..|actions| - 1], language) + Render(actions[|actions| - 1], language)
  }

  /** Rendering is FIFO: a queue rendered in two halves gives the halves'
      markup in the same order. */
  lemma {:induction false} RenderAllAppend(a: seq<VoiceAction>, b: seq<VoiceAction>, language: string)
    ensures RenderAll(a + b, language) == RenderAll(a, language) + RenderAll(b, language)
    decreases |b|
  {
    if |b| > 0 {
      var last := b[|b| - 1];
      assert (a + b)[..|a + b| - 1] == a + b[..|b| - 1];
      RenderAllAppend(a, b[..|b| - 1], language);
    } else {
      assert a + b == a;
    }
  }

  /** A session the webhooks can answer for. */
  predicate Initialized(s: Session) {
    Truthy(s.publicUrl) && Truthy(s.languageCode)
  }

  /** The closing speech `<Gather>`: its action is the `next` webhook. */
  function NextGather(s: Session): Instruction
    requires Initialized(s)
  {
    Gather("speech", CallbackUrl(s.publicUrl.value, WEBHOOK_ENDPOINT_NEXT, s.publicUrlParams),
           s.languageCode.value, Some("auto"), Some(true), None)
  }

  /** _createWebhookResponse: the answer to a `start` or `next` webhook and
      the store afterwards. */
  function Respond(sessions: map<string, Session>, sid: string): (r: (Response, map<string, Session>))
    ensures r.0.status == 200 <==> sid in sessions && Initialized(sessions[sid])
    ensures r.0.status != 200 ==> r.0 == Response(500, []) && r.1 == sessions
    ensures r.0.status == 200 ==>
              var s := sessions[sid];
              && r.1 == sessions[sid := s.(voiceActions := [])]
              && |r.0.twiml| >= 1
              && r.0.twiml[|r.0.twiml| - 1] == NextGather(s)
              && r.0.twiml[..|r.0.twiml| - 1] == RenderAll(s.voiceActions, s.languageCode.value)
    ensures forall i :: 0 <= i < |r.0.twiml| - 1 ==> r.0.twiml[i].Play? || r.0.twiml[i].Say?
  {
    if sid in sessions && Initialized(sessions[sid]) then
      var s := sessions[sid];
      var twiml := RenderAll(s.voiceActions, s.languageCode.value) + [NextGather(s)];
      assert twiml[..|twiml| - 1] == RenderAll(s.voiceActions, s.languageCode.value);
      (Response(200, twiml), sessions[sid := s.(voiceActions := [])])
    else
      (Response(500, []), sessions)
  }

  /** Draining is idempotent: answering again before anything new is queued
      yields only the closing `<Gather>` and leaves the store as it was. */
  lemma DrainIsIdempotent(sessions: map<string, Session>, sid: string)
    requires Respond(sessions, sid).0.status == 200
    ensures var first := Respond(sessions, sid);
            var second := Respond(first.1, sid);
            && second.0.status == 200
            && second.0.twiml == [first.0.twiml[|first.0.twiml| - 1]]
            && second.1 == first.1
  {
    var first := Respond(sessions, sid);
    var s := sessions[sid];
    var drained := s.(voiceActions := []);
    assert first.1[sid] == drained;
    assert Initialized(drained);
    assert RenderAll(drained.voiceActions, drained.languageCode.value) == [];
    assert NextGather(drained) == NextGather(s);
    assert first.1[sid := drained.(voiceActions := [])] == first.1;
  }

  /** An utterance queued by USER_SAYS on an initialised session is played
      by the next answer after everything queued before it and before the
      closing `<Gather>`. */
  lemma QueuedUtteranceIsAnswered(sessions: map<string, Session>, sid: string,
                                  text: Option<string>, buttons: Option<seq<Button>>)
    requires sid in sessions && Initialized(sessions[sid])
    requires ApplyOutbound(sessions, UserSaysEvent(sid, text, buttons)).Success?
    ensures var s := sessions[sid];
            var after := ApplyOutbound(sessions, UserSaysEvent(sid, text, buttons)).value;
            Respond(after, sid).0.twiml
              == RenderAll(s.voiceActions, s.languageCode.value)
                 + Render(VoiceAction(text, buttons), s.languageCode.value)
                 + [NextGather(s)]
  {
    var s := sessions[sid];
    var lang := s.languageCode.value;
    var after := ApplyOutbound(sessions, UserSaysEvent(sid, text, buttons)).value;
    var t := after[sid];
    assert t == s.(voiceActions := s.voiceActions + [VoiceAction(text, buttons)]);
    RenderAllAppend(s.voiceActions, [VoiceAction(text, buttons)], lang);
    assert RenderAll([VoiceAction(text, buttons)], lang) == Render(VoiceAction(text, buttons), lang) by {
      assert [VoiceAction(text, buttons)][..0] == [];
    }
    assert NextGather(t) == NextGather(s);
  }

  /** INIT_CALL on an empty store with a URL already ending in `'/'`
      stores exactly the event's fields and an empty queue. */
  lemma InitCallOnEmptyStore(sid: string, url: string, lang: Option<string>)
    requires EndsWith(url, "/")
    ensures ApplyOutbound(map[], InitCallEvent(sid, url, Absent, lang, None))
            == Success(map[sid := Session(Some(url), Absent, lang, None, [])])
  {
    var r := ApplyOutbound(map[], InitCallEvent(sid, url, Absent, lang, None));
    assert r.value.Keys == {sid};
    assert r.value[sid] == Session(Some(url), Absent, lang, None, []);
  }

  /** The session of the example call `CA1` with the given queue. */
  function HelloSession(queue: seq<VoiceAction>): Session {
    Session(Some("https://h/"), Absent, Some("en-US"), None, queue)
  }

  /** USER_SAYS "hello" on the freshly initialised example call queues it. */
  lemma HelloQueued()
    ensures ApplyOutbound(map["CA1" := HelloSession([])], UserSaysEvent("CA1", Some("hello"), None))
            == Success(map["CA1" := HelloSession([VoiceAction(Some("hello"), None)])])
  {
    var hello := VoiceAction(Some("hello"), None);
    assert Base(map["CA1" := HelloSession([])], "CA1") == HelloSession([]);
    assert HelloSession([]).voiceActions + [hello] == [hello];
    assert map["CA1" := HelloSession([])]["CA1" := HelloSession([hello])] == map["CA1" := HelloSession([hello])];
  }

  /** The webhook answer for the example call with "hello" queued. */
  lemma HelloAnswered()
    ensures Respond(map["CA1" := HelloSession([VoiceAction(Some("hello"), None)])], "CA1")
            == (Response(200, [Say("en-US", "hello"),
                               Gather("speech", "https://h/twilio-ivr/next", "en-US", Some("auto"), Some(true), None)]),
                map["CA1" := HelloSession([])])
  {
    var hello := VoiceAction(Some("hello"), None);
    var s := HelloSession([hello]);
    var m := map["CA1" := s];
    var gather := Gather("speech", "https://h/twilio-ivr/next", "en-US", Some("auto"), Some(true), None);
    assert "CA1" in m && m["CA1"] == s && Initialized(s);
    assert RenderAll([hello], "en-US") == [Say("en-US", "hello")] by {
      assert [hello][..0] == [];
    }
    assert NextGather(s) == gather by {
      assert CallbackUrl("https://h/", WEBHOOK_ENDPOINT_NEXT, Absent) == "https://h/twilio-ivr/next";
    }
    var twiml := RenderAll(s.voiceActions, s.languageCode.value) + [NextGather(s)];
    assert twiml == [Say("en-US", "hello"), gather];
    assert Respond(m, "CA1") == (Response(200, twiml), m["CA1" := s.(voiceActions := [])]);
    assert s.(voiceActions := []) == HelloSession([]);
    assert m["CA1" := HelloSession([])] == map["CA1" := HelloSession([])];
  }

  /** INIT_CALL with `publicUrl = "https://h/"`, then USER_SAYS "hello", then
      the `start` webhook: one `<Say>` of "hello", then the `<Gather>`, and
      the queue is empty afterwards. */
  lemma HelloScenario()
    ensures var init := ApplyOutbound(map[], InitCallEvent("CA1", "https://h/", Absent, Some("en-US"), None));
            && init.Success?
            && var says := ApplyOutbound(init.value, UserSaysEvent("CA1", Some("hello"), None));
            && says.Success?
            && var answer := Respond(says.value, "CA1");
            && answer.0 == Response(200, [Say("en-US", "hello"),
                                         Gather("speech", "https://h/twilio-ivr/next", "en-US",
                                                Some("auto"), Some(true), None)])
            && answer.1["CA1"].voiceActions == []
  {
    assert EndsWith("https://h/", "/");
    InitCallOnEmptyStore("CA1", "https://h/", Some("en-US"));
    assert Session(Some("https://h/"), Absent, Some("en-US"), None, []) == HelloSession([]);
    HelloQueued();
    HelloAnswered();
  }

  /** The webhook answer: reads the session, then (after the response delay,
      which is not modelled) reads it again, renders and drains the queue and
      closes with a speech `<Gather>`. */
  method CreateWebhookResponse(store: SessionStore, sid: string) returns (resp: Response)
    modifies store
    ensures (resp, store.sessions) == Respond(old(store.sessions), sid)
  {
    var found := store.Get(sid);
    if found.None? {
      return Response(500, []);
    }
    found := store.Get(sid);
    if found.None? {
      return Response(500, []);
    }
    var s := found.value;
    if !Truthy(s.publicUrl) || !Truthy(s.languageCode) {
      return Response(500, []);
    }
    var lang := s.languageCode.value;
    var twiml: seq<Instruction> := [];
    var i := 0;
    while i < |s.voiceActions|
      invariant 0 <= i <= |s.voiceActions|
      invariant twiml == RenderAll(s.voiceActions[..i], lang)
    {
      var va := s.voiceActions[i];
      if HasButtons(va.buttons) {
        twiml := twiml + [Play(va.buttons.value[0].payload)];
      } else if Truthy(va.messageText) {
        twiml := twiml + [Say(lang, va.messageText.value)];
      }
      assert s.voiceActions[..i + 1][..i] == s.voiceActions[..i];
      i := i + 1;
    }
    assert s.voiceActions[..i] == s.voiceActions;
    store.Set(sid, s.(voiceActions := []));
    twiml := twiml + [NextGather(s)];
    resp := Response(200, twiml);
  }

  // ---------------------------------------------------------------------
  // The three webhooks

  /** setupEndpoints: a missing or empty base becomes `'/'`, any other gets
      one trailing `'/'` if it lacks one. */
  function NormalizeEndpointBase(endpointBase: Option<string>): (r: string)
    ensures EndsWith(r, "/")
    ensures !Truthy(endpointBase) ==> r == "/"
    ensures Truthy(endpointBase) && EndsWith(endpointBase.value, "/") ==> r == endpointBase.value
    ensures Truthy(endpointBase) && !EndsWith(endpointBase.value, "/") ==> r == endpointBase.value + "/"
  {
    if !Truthy(endpointBase) then "/" else WithTrailingSlash(endpointBase.value)
  }

  /** Normalising twice changes nothing, so startProxy's `endpointBase || '/'`
      followed by setupEndpoints' normalisation is the normalisation. */
  lemma NormalizeEndpointBaseIdempotent(endpointBase: Option<string>)
    ensures NormalizeEndpointBase(Some(NormalizeEndpointBase(endpointBase))) == NormalizeEndpointBase(endpointBase)
  {
  }

  datatype Routes = Routes(start: string, next: string, status: string)

  /** The paths the three webhooks are mounted on: distinct, and all under the
      normalised base. */
  function WebhookRoutes(endpointBase: Option<string>): (r: Routes)
    ensures r.start != r.next && r.next != r.status && r.start != r.status
    ensures var base := NormalizeEndpointBase(endpointBase);
            StartsWith(r.start, base) && StartsWith(r.next, base) && StartsWith(r.status, base)
  {
    var base := NormalizeEndpointBase(endpointBase);
    Routes(base + WEBHOOK_ENDPOINT_START, base + WEBHOOK_ENDPOINT_NEXT, base + WEBHOOK_STATUS_CALLBACK)
  }

  /** The `start` webhook: answer from the session, emit nothing. */
  method StartWebhook(store: SessionStore, req: WebhookRequest) returns (resp: Response, events: seq<InboundEvent>)
    modifies store
    ensures events == []
    ensures (resp, store.sessions) == Respond(old(store.sessions), req.callSid)
  {
    resp := CreateWebhookResponse(store, req.callSid);
    events := [];
  }

  /** The `next` webhook: recognised speech is reported as one BOT_SAYS
      event, emitted before the answer is built; no speech, no event. */
  method NextWebhook(store: SessionStore, req: WebhookRequest) returns (resp: Response, events: seq<InboundEvent>)
    modifies store
    ensures Truthy(req.speechResult) ==> events == [InboundEvent(req.callSid, BotSays, req.speechResult, req)]
    ensures !Truthy(req.speechResult) ==> events == []
    ensures (resp, store.sessions) == Respond(old(store.sessions), req.callSid)
  {
    if Truthy(req.speechResult) {
      events := [InboundEvent(req.callSid, BotSays, req.speechResult, req)];
      resp := CreateWebhookResponse(store, req.callSid);
    } else {
      events := [];
      resp := CreateWebhookResponse(store, req.callSid);
    }
  }

  /** The event a carrier call status maps to. */
  function StatusEventType(status: string): (t: Option<EventType>)
    ensures t == Some(CallCompleted) <==> status == "completed"
    ensures t == Some(CallFailed) <==> status == "busy" || status == "failed" || status == "no-answer"
    ensures t == Some(CallStarted) <==> status == "in-progress"
    ensures t.Some? ==> t.value == CallCompleted || t.value == CallFailed || t.value == CallStarted
  {
    if status == "completed" then Some(CallCompleted)
    else if status == "busy" then Some(CallFailed)
    else if status == "failed" then Some(CallFailed)
    else if status == "no-answer" then Some(CallFailed)
    else if status == "in-progress" then Some(CallStarted)
    else None
  }

  /** Statuses after which the call is over and its session is deleted. */
  predicate EndsSession(status: string) {
    status in {"completed", "busy", "failed", "no-answer"}
  }

  /** A session is deleted exactly when the status is reported as a
      completed or failed call; `in-progress` keeps it. */
  lemma SessionEndsIffTerminalEvent(status: string)
    ensures EndsSession(status) <==> StatusEventType(status) in {Some(CallCompleted), Some(CallFailed)}
  {
  }

  /** The `status` webhook: always 200; a known status becomes one event,
      a terminal one also deletes the session. */
  method StatusWebhook(store: SessionStore, req: WebhookRequest) returns (status: int, events: seq<InboundEvent>)
    modifies store
    ensures status == 200
    ensures StatusEventType(req.callStatus).None? ==> events == []
    ensures StatusEventType(req.callStatus).Some? ==>
              events == [InboundEvent(req.callSid, StatusEventType(req.callStatus).value, None, req)]
    ensures store.sessions == if EndsSession(req.callStatus) then old(store.sessions) - {req.callSid}
                              else old(store.sessions)
  {
    var eventType: Option<EventType> := None;
    if req.callStatus == "completed" {
      eventType := Some(CallCompleted);
      store.Delete(req.callSid);
    } else if req.callStatus == "busy" {
      eventType := Some(CallFailed);
      store.Delete(req.callSid);
    } else if req.callStatus == "failed" {
      eventType := Some(CallFailed);
      store.Delete(req.callSid);
    } else if req.callStatus == "no-answer" {
      eventType := Some(CallFailed);
      store.Delete(req.callSid);
    } else if req.callStatus == "in-progress" {
      eventType := Some(CallStarted);
    }
    events := if eventType.Some? then [InboundEvent(req.callSid, eventType.value, None, req)] else [];
    status := 200;
  }
}
