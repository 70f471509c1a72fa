/** The messages that arrive on the realtime session's data channel, as far as the
    telemetry core looks at them. Each known tag has its own constructor; every
    other tag is kept opaque. */
module Events {
  import opened Wrappers

  /** `cached_tokens_details`: the part of the input served from the cache. */
  datatype CachedDetails = CachedDetails(audioTokens: int, textTokens: int)

  /** `input_token_details`. Both `cached_tokens` and `cached_tokens_details`
      may be missing from a report. */
  datatype InputDetails = InputDetails(
    audioTokens: int,
    textTokens: int,
    cachedTokens: Option<int>,
    cachedDetails: Option<CachedDetails>)

  /** `output_token_details`. */
  datatype OutputDetails = OutputDetails(audioTokens: int, textTokens: int)

  /** The `usage` object of a `response.done` message. */
  datatype Usage = Usage(input: InputDetails, output: OutputDetails)

  /** The wire tags the dashboard interprets. */
  const KnownTags: set<string> := {
    "input_audio_buffer.speech_started",
    "input_audio_buffer.speech_stopped",
    "response.audio.delta",
    "response.audio.done",
    "response.done"
  }

  /** A tag the dashboard does not interpret. */
  type UnknownTag = t: string | t !in KnownTags witness ""

  datatype Event =
    | SpeechStarted                   // input_audio_buffer.speech_started
    | SpeechStopped                   // input_audio_buffer.speech_stopped
    | AudioDelta                      // response.audio.delta
    | AudioDone                       // response.audio.done
    | ResponseDone(usage: Option<Usage>)  // response.done, with or without usage
    | Other(tag: UnknownTag)          // any other tag: logged, never interpreted

  /** The wire tag of an event. */
  function Tag(e: Event): string
  {
    match e
    case SpeechStarted => "input_audio_buffer.speech_started"
    case SpeechStopped => "input_audio_buffer.speech_stopped"
    case AudioDelta => "response.audio.delta"
    case AudioDone => "response.audio.done"
    case ResponseDone(_) => "response.done"
    case Other(t) => t
  }

  /** Reads a raw message, given its tag and its `response.usage` if any, the
      way the handler's tag comparisons do: known tags get their own case and
      only `response.done` keeps the usage. */
  function Classify(tag: string, usage: Option<Usage>): (e: Event)
    ensures Tag(e) == tag
    ensures e.ResponseDone? <==> tag == "response.done"
    ensures e.ResponseDone? ==> e.usage == usage
    ensures e.Other? <==> tag !in KnownTags
  {
    if tag == "input_audio_buffer.speech_started" then SpeechStarted
    else if tag == "input_audio_buffer.speech_stopped" then SpeechStopped
    else if tag == "response.audio.delta" then AudioDelta
    else if tag == "response.audio.done" then AudioDone
    else if tag == "response.done" then ResponseDone(usage)
    else Other(tag)
  }

  /** Reading back the tag of an event gives the event again. */
  lemma ClassifyTag(e: Event)
    ensures Classify(Tag(e), if e.ResponseDone? then e.usage else None) == e
  {
  }
}
