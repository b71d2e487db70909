/** TwiML, the carrier's call-control markup, as the instruction sequence a
    `VoiceResponse` builder accumulates. Serialising it to XML is not modelled. */
module Twiml {
  import opened Wrappers

  datatype Instruction =
    /** `<Play digits="...">`: keypad (DTMF) playback. */
    | Play(digits: string)
    /** `<Say language="...">text</Say>`: text to speech. */
    | Say(language: string, text: string)
    /** `<Gather>`: listen for the caller's input and post it to `action`.
        Attributes the source leaves unset are `None`. */
    | Gather(input: string, action: string, language: string,
             speechTimeout: Option<string>, actionOnEmptyResult: Option<bool>,
             timeout: Option<nat>)
    /** `<Hangup/>`. */
    | Hangup
}
