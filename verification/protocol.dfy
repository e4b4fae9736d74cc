/**
 * The session state, the inbound control-channel events the reducer
 * handles, and the outbound control messages it sends. Inbound events are
 * a closed variant: the handled `type` strings, an `Unknown` one for every
 * other type, and `Malformed` for text that does not parse as JSON.
 */
module Protocol {
  import opened Wrappers

  datatype RtState =
    | Idle
    | Connecting
    | Listening
    | Thinking
    | Responding
    | Reconnecting
    | Disconnected
    | Error

  /** The string literal of the state, as the union type spells it. */
  function StateName(s: RtState): string {
    match s
    case Idle => "idle"
    case Connecting => "connecting"
    case Listening => "listening"
    case Thinking => "thinking"
    case Responding => "responding"
    case Reconnecting => "reconnecting"
    case Disconnected => "disconnected"
    case Error => "error"
  }

  /** Different states have different names. */
  lemma StateNameInjective(a: RtState, b: RtState)
    ensures StateName(a) == StateName(b) ==> a == b
  {
  }

  const SpeechStartedType := "input_audio_buffer.speech_started"
  const UserDeltaType := "conversation.item.input_audio_transcription.delta"
  const UserCompletedType := "conversation.item.input_audio_transcription.completed"
  const TextDeltaType := "response.text.delta"
  const TextDoneType := "response.text.done"
  const ErrorType := "error"

  predicate IsHandledType(t: string) {
    t == SpeechStartedType || t == UserDeltaType || t == UserCompletedType ||
    t == TextDeltaType || t == TextDoneType || t == ErrorType
  }

  /**
   * A decoded inbound event. `RemoteError.message` is `evt.error?.message`;
   * `serialized` stands for `JSON.stringify(evt.error || evt)`, which the
   * handler shows when there is no message.
   */
  datatype ServerEvent =
    | SpeechStarted
    | UserTranscriptDelta(delta: Option<string>)
    | UserTranscriptCompleted(transcript: Option<string>)
    | TextDelta(delta: Option<string>)
    | TextDone
    | RemoteError(message: Option<string>, serialized: string)
    | Unknown(kind: Option<string>)
    | Malformed

  /** The fields of a parsed event object that the handler reads. */
  datatype EventFields = EventFields(
    delta: Option<string>,
    transcript: Option<string>,
    errorMessage: Option<string>,
    serialized: string)

  /** The dispatch on `evt.type` of a parsed object. */
  function Classify(kind: Option<string>, f: EventFields): (e: ServerEvent)
    ensures !e.Malformed?
  {
    if kind == Some(SpeechStartedType) then SpeechStarted
    else if kind == Some(UserDeltaType) then UserTranscriptDelta(f.delta)
    else if kind == Some(UserCompletedType) then UserTranscriptCompleted(f.transcript)
    else if kind == Some(TextDeltaType) then TextDelta(f.delta)
    else if kind == Some(TextDoneType) then TextDone
    else if kind == Some(ErrorType) then RemoteError(f.errorMessage, f.serialized)
    else Unknown(kind)
  }

  /** The `type` an event carries on the wire (`Malformed` has none). */
  function WireType(e: ServerEvent): Option<string> {
    match e
    case SpeechStarted => Some(SpeechStartedType)
    case UserTranscriptDelta(_) => Some(UserDeltaType)
    case UserTranscriptCompleted(_) => Some(UserCompletedType)
    case TextDelta(_) => Some(TextDeltaType)
    case TextDone => Some(TextDoneType)
    case RemoteError(_, _) => Some(ErrorType)
    case Unknown(k) => k
    case Malformed => None
  }

  /** An event as the wire would deliver it: an unknown one has an unhandled type. */
  predicate WellFormed(e: ServerEvent) {
    e.Unknown? ==> !(e.kind.Some? && IsHandledType(e.kind.value))
  }

  /** The fields an event carries, for re-classification. */
  function FieldsOf(e: ServerEvent): EventFields {
    match e
    case UserTranscriptDelta(d) => EventFields(d, None, None, "")
    case UserTranscriptCompleted(t) => EventFields(None, t, None, "")
    case TextDelta(d) => EventFields(d, None, None, "")
    case RemoteError(m, s) => EventFields(None, None, m, s)
    case _ => EventFields(None, None, None, "")
  }

  /** Classification keeps the type it dispatched on, and its results are well formed. */
  lemma ClassifyKeepsType(kind: Option<string>, f: EventFields)
    ensures WireType(Classify(kind, f)) == kind
    ensures WellFormed(Classify(kind, f))
  {
  }

  /** Every well-formed parsed event is what classifying its own type and fields gives. */
  lemma ClassifyRoundTrip(e: ServerEvent)
    requires WellFormed(e) && !e.Malformed?
    ensures Classify(WireType(e), FieldsOf(e)) == e
  {
  }

  /** The control messages the service sends: `session.update`, `response.create`, `response.cancel`. */
  datatype OutMsg = SessionUpdate | ResponseCreate | ResponseCancel
}
