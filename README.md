# Twilio IVR connector: a Dafny model

This project models the core of botium-connector-twilio-ivr. The connector
lets a test runner talk to an IVR (a phone voice menu) over a real phone
call placed through Twilio. It has these parts:

- **The webhook proxy** (`Proxy`, src/proxy.js). It keeps one session per
  call sid in a session store. Outbound events from the connector fill the
  session:
  - INIT_CALL carries the public URL, query parameters and language.
  - USER_SAYS queues an utterance: spoken text, or DTMF keypad digits.

  The carrier's `start` and `next` webhooks drain that queue into TwiML and
  end it with a speech `<Gather>`. The `next` webhook reports recognised
  speech back as a BOT_SAYS event. The `status` webhook maps call statuses
  to CALL_STARTED / CALL_FAILED / CALL_COMPLETED and deletes the sessions of
  finished calls.
- **The connector** (`Connector`, src/connector.js). This is the class the
  test runner drives: Validate, Build, Start, UserSays, Stop, Clean. It also
  has a gate that decides which inbound events reach the runner. The
  connector is wired to its own proxy's in-memory store. That is the direct
  transport, set up when an inbound port is configured.
- **Shared helpers** (`Shared`, src/shared.js): the webhook paths, the event
  names, the relay topic names and the callback-URL builder.
- **The language list** (`Languages`, index.js): CSV text parsed into
  `{name, key}` entries.
- **The tech-demo IVR** (`TechDemo`, samples/techdemo/chatbot/index.js): a
  fixed answer table, an echo fallback, and the TwiML it answers with.

Support modules:

- `JsString` gives the ECMAScript string operations the code relies on:
  `indexOf`, `substring`, `split`, `join`, `trim` and truthiness.
- `Twiml` is the instruction sequence a TwiML `VoiceResponse` builds.
- `Wrappers` holds the `Option`, `Result` and `Outcome` datatypes.

How state is modelled:

- State that the source mutates in place is a class:
  - the session store, `Proxy.SessionStore`, with a `sessions` map;
  - the connector, `Connector.TwilioIvrConnector`.
- The webhook handlers and connector operations are methods. The webhook
  handlers, the outbound-event handler, `Start`, `UserSays` and the inbound
  handlers tie their result and the new state to a pure specification
  function: `Proxy.ApplyOutbound`, `Proxy.Respond`,
  `Proxy.StatusEventType` or `Connector.Accepted`. The properties are
  proved about those functions. `Validate`, `Build`, `Stop` and `Clean`
  state their outcome and new state directly.
- Twilio's SDK calls are parameters:
  - `twilio(sid, token)` is a function that returns an optional error.
  - `calls.create` is a function that returns a call sid or an error.
  - `call.update` is a function that returns an optional error.

## Model

| member | source | states |
|---|---|---|
| JsString.IndexOfFrom | index.js:9 | `indexOf(c, from)` is the first position at or after `from` holding `c`, or -1 exactly when there is none |
| JsString.Split | index.js:6 | `split` on one character yields at least one part, and no part contains the separator |
| JsString.SplitJoin | src/shared.js:28 | splitting a join of separator-free parts gives the parts back |
| JsString.JoinSplit | src/shared.js:28 | joining the parts of a split restores the string |
| JsString.Trim | index.js:6 | `trim` removes exactly the leading and trailing whitespace: the result occurs in the input with only whitespace before and after it, and neither starts nor ends with whitespace; it is empty exactly when the input is all whitespace |
| Shared.EventName | src/shared.js:7-15 | every event's wire name is `EVENT_`-prefixed |
| Shared.EventNamesDistinct | src/shared.js:7-15 | distinct event types have distinct wire names |
| Shared.WithTrailingSlash | src/shared.js:21-22 | the result ends with `/` and extends the base; it equals the base exactly when the base already ends with `/`, else it is base + `/` |
| Shared.TopicBase | src/shared.js:17-18 | a truthy topic base is used as given; otherwise the default; never empty |
| Shared.TopicInbound | src/shared.js:17 | the inbound channel is the topic base followed by `_INBOUND` |
| Shared.TopicOutbound | src/shared.js:18 | the outbound channel is the topic base followed by `_OUTBOUND` |
| Shared.TopicsNeverCollide | src/shared.js:17-18 | no inbound channel equals any outbound channel, whatever the two bases |
| Shared.Pairs | src/shared.js:28 | one `k=v` string per entry, in key order |
| Shared.QueryString | src/shared.js:24-30 | the appended query string is empty or starts with `?` |
| Shared.CallbackUrl | src/shared.js:20-32 | a callback URL starts with the base, then (after the normalised slash) the endpoint |
| Shared.CallbackUrlWithoutQuery | src/shared.js:24-30 | absent parameters, an empty string, or an object without a positive `length` append nothing |
| Shared.CallbackUrlWithText | src/shared.js:25-26 | a non-empty parameter string is appended verbatim after one `?` |
| Shared.CallbackUrlFieldsRoundTrip | src/shared.js:27-28 | for an object with positive `length`, the text after `?` splits on `&` back into exactly its `k=v` pairs in order (when no key or value contains `&`) |
| Proxy.SessionStore.constructor | src/proxy.js:175 | a new in-memory store is empty |
| Proxy.SessionStore.Get | src/proxy.js:177 | a lookup finds a session exactly when the sid is stored, and returns that session |
| Proxy.SessionStore.Set | src/proxy.js:178 | a write overwrites one sid's session and leaves every other sid alone |
| Proxy.SessionStore.Delete | src/proxy.js:179 | a delete removes one sid and leaves every other sid alone |
| Proxy.FirstInvalidKey | src/proxy.js:159-160 | the first character of a button payload outside `0-9 * # w`, or none exactly when every character is a DTMF key |
| Proxy.CheckDtmf | src/proxy.js:158-164 | the key-by-key loop passes exactly when the payload is all DTMF keys; otherwise it fails with the message naming the first bad key and the payload |
| Proxy.ApplyOutbound | src/proxy.js:132-172 | the store after an outbound event. USER_SAYS is rejected exactly when its first button payload has a bad key. INIT_CALL sets URL (normalised), parameters, language and response time and keeps the queue. USER_SAYS appends exactly one action. Other types change nothing. Only the event's sid is written, and a missing session starts from the defaults |
| Proxy.ProcessOutboundEvent | src/proxy.js:132-172 | the handler leaves the store as `ApplyOutbound` says; a rejected event writes nothing and returns the error |
| Proxy.Render | src/proxy.js:46-57 | buttons play their first payload as digits; otherwise truthy text is spoken in the session language; otherwise nothing |
| Proxy.RenderAll | src/proxy.js:45-58 | the rendered queue holds only `<Play>`/`<Say>`, at most one per action, every `<Say>` in the session language |
| Proxy.RenderAllAppend | src/proxy.js:45-58 | rendering is FIFO: rendering a concatenated queue is the concatenation of the renderings |
| Proxy.Respond | src/proxy.js:22-76 | 200 exactly when the session exists with truthy URL and language; otherwise 500 with no body and no store change. On 200 the body is the rendered queue followed by the speech `<Gather>` posting to the `next` webhook, and the queue is drained |
| Proxy.DrainIsIdempotent | src/proxy.js:59-60 | answering twice in a row yields only the `<Gather>` the second time, and the store does not change again |
| Proxy.QueuedUtteranceIsAnswered | src/proxy.js:155-170 | an accepted USER_SAYS on an initialised session is rendered by the next answer after everything queued before it and before the `<Gather>` |
| Proxy.HelloScenario | src/proxy.js:146-170 | INIT_CALL at `https://h/`, then USER_SAYS "hello", then a webhook answers `<Say>hello` followed by `<Gather action="https://h/twilio-ivr/next">` and empties the queue |
| Proxy.CreateWebhookResponse | src/proxy.js:22-76 | the webhook answer and the new store are exactly `Respond` of the old store |
| Proxy.NormalizeEndpointBase | src/proxy.js:79-80 | a missing or empty base becomes `/`; any other gains one trailing `/` when it lacks one |
| Proxy.NormalizeEndpointBaseIdempotent | src/proxy.js:79-80 | normalising twice is normalising once, so `endpointBase \|\| '/'` before it changes nothing |
| Proxy.WebhookRoutes | src/proxy.js:82-102 | the three webhook paths are distinct and all lie under the normalised base |
| Proxy.StartWebhook | src/proxy.js:82-85 | the `start` webhook answers by `Respond` and emits no event |
| Proxy.NextWebhook | src/proxy.js:87-100 | the `next` webhook emits one BOT_SAYS carrying the speech exactly when the speech is truthy, and answers by `Respond` |
| Proxy.StatusEventType | src/proxy.js:109-123 | `completed` gives CALL_COMPLETED; `busy`/`failed`/`no-answer` give CALL_FAILED; `in-progress` gives CALL_STARTED; each in both directions, and any other status gives no event |
| Proxy.SessionEndsIffTerminalEvent | src/proxy.js:109-123 | a session is deleted exactly when the status yields a completed or failed event |
| Proxy.StatusWebhook | src/proxy.js:102-129 | the `status` webhook always answers 200, emits the mapped event if there is one, and deletes the session exactly for terminal statuses |
| Connector.CallRequestFor | src/connector.js:96-110 | the call is pointed at the `start` webhook and reports status to the `status` webhook, both under the normalised public URL, and the two differ |
| Connector.Accepted | src/connector.js:112-121 | an inbound event yields one bot message exactly when it is BOT_SAYS for the active call's sid, carrying its text and source data; otherwise nothing |
| Connector.TwilioIvrConnector.constructor | src/connector.js:31-35 | a new connector has its gate closed, no call, no proxy and no outbound handler |
| Connector.TwilioIvrConnector.Validate | src/connector.js:37-42 | passes exactly when every required capability is truthy; otherwise it fails naming the first missing one, in declaration order, with the message `<name> capability required` |
| Connector.TwilioIvrConnector.Build | src/connector.js:44-48 | creates the client from the account sid and auth token; if that throws, the error is returned and nothing changes. Otherwise, with an inbound port, it starts a proxy on the configured routes with a fresh, empty store as the outbound handler; without one, proxy and handler are unchanged |
| Connector.TwilioIvrConnector.Start | src/connector.js:50-63 | places the call with `CallRequestFor`. A creation failure is returned with nothing changed. On success it records the call, opens the gate and applies INIT_CALL for the new sid to the store; with no outbound handler the call is still recorded and a TypeError follows. Without a public URL or a client it fails with Node's TypeError text for reading `endsWith` or `calls` of `undefined`, and nothing changes |
| Connector.TwilioIvrConnector.UserSays | src/connector.js:65-76 | refused with "Call not initialized" when there is no handler or no call; otherwise the store changes as `ApplyOutbound` of USER_SAYS says, and a DTMF rejection is returned |
| Connector.TwilioIvrConnector.Stop | src/connector.js:78-89 | closes the gate and forgets the call on every path; fails with the call sid exactly when the status update of an existing call fails |
| Connector.TwilioIvrConnector.Clean | src/connector.js:151-158 | the proxy is gone and the outbound handler is dropped |
| Connector.TwilioIvrConnector.ProcessInboundEvent | src/connector.js:112-121 | the runner's queue grows by exactly `Accepted(call, e)` |
| Connector.TwilioIvrConnector.OnInboundEvent | src/connector.js:128-134 | events reach the runner only while the gate is open |
| Connector.CleanThenUserSays | src/connector.js:65-69 | after Clean, UserSays is refused whatever the message |
| Connector.DirectTransportNext | src/connector.js:124-138 | through the connector's own proxy, recognised speech on the call active before the webhook reaches the runner as exactly one bot message if the gate was open, and nothing else does; the webhook answer is `Respond`; only the runner's queue and the store change |
| Languages.NonEmpty | index.js:6 | keeps exactly the non-empty lines |
| Languages.NonEmptyAppend | index.js:6 | the filter keeps the order of the lines |
| Languages.SurvivingLines | index.js:6 | at most the lines after the header survive |
| Languages.KeyAsWritten | index.js:10 | the key is the text after the first comma of the whole trimmed line, up to the next comma or the end, even for a quoted name; there is none exactly when the line has no comma |
| Languages.ParseEntryAsWritten | index.js:7-17 | a quoted name is the text up to the next quote and holds no quote, or the lone opening quote when there is no closing one; an unquoted name is the text before the first comma; the key is always `KeyAsWritten` of the line |
| Languages.ParseAll | index.js:6-18 | one entry per surviving line, in order, each the parse of the trimmed line |
| Languages.ParseLanguages | index.js:6-18 | one entry per non-empty line after the header, in order; each is the source's parse of the trimmed line, with the key the line's second comma-separated field |
| Languages.HeaderIsIgnored | index.js:6 | the result does not depend on the first line |
| Languages.BlankLineBecomesEmptyEntry | index.js:6 | a line of blanks passes the filter (it is tested before trimming) and becomes an entry with empty name and no key |
| Languages.QuotedCommaShiftsKey | index.js:10 | as written, a quoted name `a,b` makes the key `b"` |
| Languages.ParseEntryCorrected | index.js:7-17 | the corrected entry parser (see Findings): names as the source has them, and every line that is not properly quoted parses exactly as the source does |
| Languages.ParseLanguagesCorrected | index.js:6-18 | the corrected list (see Findings): the same entries in the same order with the same names as `ParseLanguages`; only keys of quoted lines can differ |
| Languages.ParseQuotedRow | index.js:7-11 | the corrected parser reads a quoted row back into its name and key |
| Languages.QuotedRowRoundTrip | index.js:6-11 | trimming, then the corrected parse of a quoted row, gives back its name and key, whatever commas the name holds |
| TechDemo.FindAnswer | samples/techdemo/chatbot/index.js:56 | the first answer whose inputs contain the speech verbatim; none exactly when no answer does or there is no speech |
| TechDemo.NextVoiceOutput | samples/techdemo/chatbot/index.js:55-62 | the matching answer's output, or an echo `You said: ...` (`undefined` when there is no speech); it never hangs up |
| TechDemo.CreateResponseVoice | samples/techdemo/chatbot/index.js:67-97 | a truthy `disconnect` gives exactly a hangup. Otherwise it gives an optional `<Say>` (present exactly when the text is truthy) and then the gather posting to `/next-voice` with a 20 s timeout |
| TechDemo.NextVoice | samples/techdemo/chatbot/index.js:53-65 | the `/next-voice` answer never hangs up and always ends with the gather |
| TechDemo.VoiceWelcomes | samples/techdemo/chatbot/index.js:48-51 | `/voice` says "Welcome!" and then gathers |
| TechDemo.DisconnectOnlyGathers | samples/techdemo/chatbot/index.js:14-18 | "disconnect" produces only the gather: no speech and no hangup |
| TechDemo.UnknownSpeechIsEchoed | samples/techdemo/chatbot/index.js:60-62 | speech matching no answer is echoed, then gathered |
| TechDemo.PictureRequestIsRefused | samples/techdemo/chatbot/index.js:8-13 | "show me a picture" gets "Are you kidding?" |

## Left out

- Response delay: the `next` webhook's `setTimeout` of the session's
  response time is not modelled. The two session reads around it happen
  back to back, so no concurrent write falls between them.
- Redis transport: `buildRedisHandlers` (publish/subscribe, JSON encoding,
  the Redis-backed store) is not modelled. Only its channel names are, as
  `Shared.TopicInbound` and `Shared.TopicOutbound`. A JSON round trip of a
  session is not modelled either.
- HTTP plumbing: express apps, middleware, `app.listen` and response
  headers are not modelled. The handlers take the request fields and return
  a status and the TwiML instructions.
- TwiML serialisation to XML is not modelled.
- Twilio SDK: client construction, `calls.create` and `call.update` are
  function parameters. Credentials, recording and network behaviour are not
  modelled.
- Proxy shutdown: `proxy.close()` is represented by dropping the proxy
  record.
- Proxy.ApplyOutbound: an INIT_CALL without a public URL is not modelled.
  The event's URL is a string. In the source, `publicUrl.endsWith`
  then throws after the in-memory session object has already been changed
  in place. That aliasing is not captured.
- Proxy.Button: a payload is always a string. In the source, a first button
  without a string payload makes the `for...of` over it throw a TypeError
  before anything is written; that rejection is not modelled, so
  `ApplyOutbound` rejects USER_SAYS only for a bad DTMF key.
- Connector.ErrorMessage: TypeError texts are the ones Node's V8 engine
  gives; other JavaScript engines word them differently.
- Proxy.VoiceAction: the `type` field of a queued action is left out.
  Only USER_SAYS ever queues one, so the source's `type` test always
  holds.
- Capability values are strings. Numeric or boolean capability values are
  not modelled.
- Connector.TwilioIvrConnector.Start: only the direct transport is
  modelled, so the outbound handler is always the connector's own proxy
  store or absent.
- The inbound event handler is invoked synchronously after the `next`
  webhook's event is built. Asynchronous interleaving is not modelled.
- Logging (`debug`, `console.log`) has no effect in the model.
- Reading `language-tags.csv` (the file itself is not part of this model)
  and the sample's environment checks and process exits are left out.
  `Languages.ParseLanguages` takes the CSV text, and the tech demo takes
  its URL as a parameter.
- The plugin descriptor in index.js (capability labels and types) is static
  data and is not modelled. It names the language capability
  `TWILIO_IVR_LANGUAGE_CODE`, while the connector reads
  `TWILIO_LANGUAGE_CODE`. The model follows the connector.
- Behaviour this code does not have, and the model therefore does not
  have either:
  - Start places the call once and does not wait for CALL_STARTED.
  - Stop does not wait for CALL_COMPLETED.
  - Inbound CALL_FAILED / CALL_COMPLETED events do not clear the active
    call.
  - Only buttons are played as keypad digits; any text is spoken.
- The SMS asserter, the command-line proxy launcher and the tests are
  outside the modelled core.

## Findings

| source | as written | input that shows it | evidently intended | confidence | as-written member | corrected member |
|---|---|---|---|---|---|---|
| index.js:10 | the key of a quoted row is `split(',')[1]` of the whole line | the row `"a,b",key` gives the key `b"` | the key is the field after the closing quote (`key`), since names are quoted so that they may hold commas | not executed; medium, because the language file is not part of this model and so it is not known whether any of its quoted names holds a comma | Languages.QuotedCommaShiftsKey | Languages.QuotedRowRoundTrip |

`Languages.ParseLanguages` and `Languages.ParseEntryAsWritten` are the
parser as written. `Languages.ParseEntryCorrected` and
`Languages.ParseLanguagesCorrected` read the key of a quoted row from the
text after its closing quote and agree with the source on every other line.
