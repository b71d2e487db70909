/** Constants and URL/topic builders shared by the connector and the webhook
    proxy (src/shared.js). */
module Shared {
  import opened Wrappers
  import opened JsString

  const WEBHOOK_ENDPOINT_START: string := "twilio-ivr/start"
  const WEBHOOK_ENDPOINT_NEXT: string := "twilio-ivr/next"
  const WEBHOOK_STATUS_CALLBACK: string := "twilio-ivr/status"

  const DEFAULT_TOPIC_BASE: string := "BOTIUM_TWILIO_IVR"

  /** The closed set of event types. The first four travel proxy -> connector
      (inbound), the last two connector -> proxy (outbound). */
  datatype EventType =
    | CallStarted | CallFailed | CallCompleted | BotSays
    | InitCall | UserSays

  /** The wire name of an event type. */
  function EventName(t: EventType): (name: string)
    ensures StartsWith(name, "EVENT_")
  {
    match t
    case CallStarted => "EVENT_CALL_STARTED"
    case CallFailed => "EVENT_CALL_FAILED"
    case CallCompleted => "EVENT_CALL_COMPLETED"
    case BotSays => "EVENT_BOT_SAYS"
    case InitCall => "EVENT_INIT_CALL"
    case UserSays => "EVENT_USER_SAYS"
  }

  /** Distinct event types have distinct wire names. */
  lemma EventNamesDistinct(t: EventType, u: EventType)
    requires t != u
    ensures EventName(t) != EventName(u)
  {
  }

  /** `base` with exactly one `'/'` appended when it does not already end
      with one. */
  function WithTrailingSlash(base: string): (r: string)
    ensures EndsWith(r, "/")
    ensures StartsWith(r, base)
    ensures r == base <==> EndsWith(base, "/")
    ensures r != base ==> r == base + "/"
  {
    if EndsWith(base, "/") then base else base + "/"
  }

  /** `topicBase || 'BOTIUM_TWILIO_IVR'`. */
  function TopicBase(topicBase: Option<string>): (r: string)
    ensures r != ""
    ensures Truthy(topicBase) ==> r == topicBase.value
    ensures !Truthy(topicBase) ==> r == DEFAULT_TOPIC_BASE
  {
    if Truthy(topicBase) then topicBase.value else DEFAULT_TOPIC_BASE
  }

  /** The relay channel carrying proxy -> connector events. */
  function TopicInbound(topicBase: Option<string>): (r: string)
    ensures StartsWith(r, TopicBase(topicBase)) && EndsWith(r, "_INBOUND")
    ensures |r| == |TopicBase(topicBase)| + 8
  {
    TopicBase(topicBase) + "_INBOUND"
  }

  /** The relay channel carrying connector -> proxy events. */
  function TopicOutbound(topicBase: Option<string>): (r: string)
    ensures StartsWith(r, TopicBase(topicBase)) && EndsWith(r, "_OUTBOUND")
    ensures |r| == |TopicBase(topicBase)| + 9
  {
    TopicBase(topicBase) + "_OUTBOUND"
  }

  /** No inbound channel, whatever its base, coincides with any outbound
      channel, whatever its base: the two directions never share a channel. */
  lemma TopicsNeverCollide(base1: Option<string>, base2: Option<string>)
    ensures TopicInbound(base1) != TopicOutbound(base2)
  {
    var i, o := TopicInbound(base1), TopicOutbound(base2);
    assert i[|i| - 6] == 'N' by { assert i[|i| - 8..] == "_INBOUND"; }
    assert o[|o| - 6] == 'T' by { assert o[|o| - 9..] == "_OUTBOUND"; }
  }

  /** Query parameters appended to callback URLs: `undefined`/`null`, a
      string, or any other object, given by its enumerable entries in key
      order and the value of its `length` property (an array's length, or
      `None` for a plain mapping without one). */
  datatype Params =
    | Absent
    | Text(text: string)
    | Fields(entries: seq<(string, string)>, length: Option<int>)

  /** `${k}=${v}` for every entry, in order. */
  function Pairs(entries: seq<(string, string)>): (r: seq<string>)
    ensures |r| == |entries|
    ensures forall i :: 0 <= i < |r| ==> r[i] == entries[i].0 + "=" + entries[i].1
  {
    if |entries| == 0 then []
    else [entries[0].0 + "=" + entries[0].1] + Pairs(entries[1..])
  }

  /** What getCallbackUrl appends after the endpoint: nothing, or `'?'`
      followed by the parameters. */
  function QueryString(params: Params): (q: string)
    ensures q == "" || q[0] == '?'
  {
    match params
    case Absent => ""
    case Text(t) => if t == "" then "" else "?" + t
    case Fields(entries, length) =>
      if length.Some? && length.value > 0 then "?" + Join(Pairs(entries), '&') else ""
  }

  /** getCallbackUrl: the base normalised to one trailing `'/'`, then the
      endpoint, then the query string. */
  function CallbackUrl(endpointBase: string, endpoint: string, params: Params): (r: string)
    ensures StartsWith(r, endpointBase)
    ensures StartsWith(r, WithTrailingSlash(endpointBase) + endpoint)
  {
    WithTrailingSlash(endpointBase) + endpoint + QueryString(params)
  }

  /** Parameters that are absent, an empty string, or an object without a
      positive `length` add nothing: no `'?'` is appended. */
  lemma CallbackUrlWithoutQuery(endpointBase: string, endpoint: string, params: Params)
    requires params.Absent? || params == Text("")
             || (params.Fields? && !(params.length.Some? && params.length.value > 0))
    ensures CallbackUrl(endpointBase, endpoint, params) == WithTrailingSlash(endpointBase) + endpoint
  {
  }

  /** A non-empty string is appended verbatim after a single `'?'`. */
  lemma CallbackUrlWithText(endpointBase: string, endpoint: string, text: string)
    requires text != ""
    ensures CallbackUrl(endpointBase, endpoint, Text(text))
            == WithTrailingSlash(endpointBase) + endpoint + "?" + text
  {
  }

  /** For an object with a positive `length`, the text after the `'?'` that
      follows the endpoint splits on `'&'` back into exactly the `k=v` pairs
      of its entries, in key order, provided no key or value contains `'&'`. */
  lemma {:induction false} CallbackUrlFieldsRoundTrip(endpointBase: string, endpoint: string,
                                                      entries: seq<(string, string)>, length: int)
    requires length > 0 && |entries| > 0
    requires forall i :: 0 <= i < |entries| ==> '&' !in entries[i].0 && '&' !in entries[i].1
    ensures var prefix := WithTrailingSlash(endpointBase) + endpoint;
            var r := CallbackUrl(endpointBase, endpoint, Fields(entries, Some(length)));
            |r| > |prefix| && r[|prefix|] == '?'
            && Split(r[|prefix| + 1..], '&') == Pairs(entries)
  {
    var prefix := WithTrailingSlash(endpointBase) + endpoint;
    var query := Join(Pairs(entries), '&');
    var r := CallbackUrl(endpointBase, endpoint, Fields(entries, Some(length)));
    assert r == prefix + "?" + query;
    assert r[|prefix| + 1..] == query;
    var pairs := Pairs(entries);
    forall i | 0 <= i < |pairs|
      ensures '&' !in pairs[i]
    {
      assert pairs[i] == entries[i].0 + "=" + entries[i].1;
    }
    SplitJoin(pairs, '&');
  }
}
