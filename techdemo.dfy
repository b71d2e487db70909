/** The tech-demo IVR the connector is tested against
    (samples/techdemo/chatbot/index.js): a fixed answer table looked up by
    exact speech match, an echo fallback, and the TwiML each webhook sends
    back. The HTTP server is not modelled; `url` is the demo's public base
    URL, taken from its environment. */
module TechDemo {
  import opened Wrappers
  import opened JsString
  import opened Twiml

  /** The `{botSays, disconnect}` object handed to the response builder;
      an absent property is `None`. */
  datatype Output = Output(botSays: Option<string>, disconnect: Option<bool>)

  datatype Answer = Answer(input: seq<string>, output: Output)

  const Answers: seq<Answer> := [
    Answer(["dtmf", "ask for dtmf"], Output(Some("Not implemented yet...."), None)),
    Answer(["picture", "show me a picture", "give me a picture"], Output(Some("Are you kidding?"), None)),
    Answer(["disconnect"], Output(None, Some(false)))
  ]

  const Welcome: Output := Output(Some("Welcome!"), None)

  /** `answers.find(a => a.input.indexOf(userSays) >= 0)`, as the position
      of the first answer listing the speech verbatim. A missing speech
      result matches nothing. */
  function FindAnswer(answers: seq<Answer>, userSays: Option<string>): (r: Option<nat>)
    ensures r.Some? ==> r.value < |answers| && userSays.Some?
                        && userSays.value in answers[r.value].input
                        && forall j :: 0 <= j < r.value ==> userSays.value !in answers[j].input
    ensures r.None? <==> userSays.None? || forall j :: 0 <= j < |answers| ==> userSays.value !in answers[j].input
  {
    if |answers| == 0 || userSays.None? then None
    else if userSays.value in answers[0].input then Some(0)
    else match FindAnswer(answers[1..], userSays)
      case None => None
      case Some(i) => Some(i + 1)
  }

  /** How a speech result is written into a template literal: `undefined`
      when there is none. */
  function Interpolate(userSays: Option<string>): string {
    if userSays.Some? then userSays.value else "undefined"
  }

  /** The output the `/next-voice` handler chooses: the first matching
      answer's, or an echo of what was heard. */
  function NextVoiceOutput(userSays: Option<string>): (o: Output)
    ensures FindAnswer(Answers, userSays).Some? ==> o == Answers[FindAnswer(Answers, userSays).value].output
    ensures FindAnswer(Answers, userSays).None? ==> o == Output(Some("You said: " + Interpolate(userSays)), None)
    ensures o.disconnect != Some(true)
  {
    match FindAnswer(Answers, userSays)
    case Some(i) => Answers[i].output
    case None => Output(Some("You said: " + Interpolate(userSays)), None)
  }

  /** The gather every non-hangup response ends with. */
  function NextVoiceGather(url: string): Instruction {
    Gather("speech", url + "/next-voice", "en-US", None, None, Some(20))
  }

  /** `_createResponseVoice`: a truthy `disconnect` hangs up and does
      nothing else; otherwise the bot's text, when it has any, is spoken in
      US English and the caller's next utterance is gathered. */
  function CreateResponseVoice(url: string, output: Output): (r: seq<Instruction>)
    ensures output.disconnect == Some(true) <==> Hangup in r
    ensures output.disconnect == Some(true) ==> r == [Hangup]
    ensures output.disconnect != Some(true) ==>
              && |r| >= 1 && r[|r| - 1] == NextVoiceGather(url)
              && (|r| == 2 <==> Truthy(output.botSays))
              && (Truthy(output.botSays) ==> r[0] == Say("en-US", output.botSays.value))
              && |r| <= 2
  {
    if output.disconnect == Some(true) then [Hangup]
    else
      (if Truthy(output.botSays) then [Say("en-US", output.botSays.value)] else [])
      + [NextVoiceGather(url)]
  }

  /** The `/voice` webhook. */
  function Voice(url: string): seq<Instruction> {
    CreateResponseVoice(url, Welcome)
  }

  /** The `/next-voice` webhook, given the posted `SpeechResult`. */
  function NextVoice(url: string, userSays: Option<string>): (r: seq<Instruction>)
    ensures Hangup !in r
    ensures |r| >= 1 && r[|r| - 1] == NextVoiceGather(url)
  {
    CreateResponseVoice(url, NextVoiceOutput(userSays))
  }

  /** Every call is greeted, then listened to. */
  lemma VoiceWelcomes(url: string)
    ensures Voice(url) == [Say("en-US", "Welcome!"), NextVoiceGather(url)]
  {
  }

  /** `disconnect` does not hang up: its answer sets `disconnect: false` and
      has no text, so the response is the bare gather. */
  lemma DisconnectOnlyGathers(url: string)
    ensures NextVoice(url, Some("disconnect")) == [NextVoiceGather(url)]
  {
    assert "disconnect" !in Answers[0].input;
    assert "disconnect" !in Answers[1].input;
    assert "disconnect" in Answers[2].input;
    assert FindAnswer(Answers, Some("disconnect")) == Some(2);
  }

  /** Speech matching no answer is echoed back, then listened to again. */
  lemma UnknownSpeechIsEchoed(url: string, speech: string)
    requires forall j :: 0 <= j < |Answers| ==> speech !in Answers[j].input
    ensures NextVoice(url, Some(speech)) == [Say("en-US", "You said: " + speech), NextVoiceGather(url)]
  {
  }

  /** A known phrase gets its canned reply. */
  lemma PictureRequestIsRefused(url: string)
    ensures NextVoice(url, Some("show me a picture")) == [Say("en-US", "Are you kidding?"), NextVoiceGather(url)]
  {
    assert "show me a picture" !in Answers[0].input;
    assert "show me a picture" in Answers[1].input;
    assert FindAnswer(Answers, Some("show me a picture")) == Some(1);
  }
}
