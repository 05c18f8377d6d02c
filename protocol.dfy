/**
 * The realtime socket's frames as the session manager sees them: the
 * fields of an inbound JSON event it reads, the frame kinds it dispatches
 * on, and the outbound frames it sends, before JSON serialization.
 */
module Protocol {
  import opened Wrappers
  import ToolCalls
  import Catalog

  /**
   * The fields of one parsed inbound event that the dispatcher reads.
   * A field that is absent, null or not a string is None; `kind` is the
   * `type` field, empty when it is missing; `responseId` is `response_id`,
   * empty when it is missing.
   */
  datatype Inbound = Inbound(
    kind: string,
    sessionId: Option<string>,     // `sessionId`
    altSessionId: Option<string>,  // `session_id`
    transcript: Option<string>,
    responseId: string,
    delta: Option<string>,
    callId: Option<string>,
    name: Option<string>,
    arguments: Option<string>,
    errorMessage: Option<string>)  // `error.message`

  /** The frames the session sends on the realtime socket. */
  datatype Outbound =
    | SessionUpdate(instructions: string, voice: string)    // `session.update` with the fixed tool list
    | UserText(text: string)                                 // `conversation.item.create`, an `input_text` message
    | AudioAppend(audio: string)                             // `input_audio_buffer.append`
    | FunctionCallOutput(callId: string, output: ToolCalls.CallOutput)
    | ResponseCreate                                         // `response.create`

  /** The frame kinds the dispatcher has a case for, and everything else. */
  datatype EventKind =
    | SessionCreated | SessionUpdated | SessionIdAssigned
    | SpeechStarted | SpeechStopped | TranscriptionCompleted
    | TranscriptDelta | TranscriptDone | AudioDelta | ResponseCompleted | AudioDone
    | ArgumentsDelta | ArgumentsDone | ErrorEvent | ResponseError
    | Unrecognized

  /**
   * The case labels of `switch (data.type)` in the order they appear, each
   * with the kind of its case; `error` and `response.error` share one case
   * body, which the dispatcher runs for both kinds.
   */
  const Cases: seq<(string, EventKind)> := [
    ("session.created", SessionCreated),
    ("session.updated", SessionUpdated),
    ("session.session_id", SessionIdAssigned),
    ("input_audio_buffer.speech_started", SpeechStarted),
    ("input_audio_buffer.speech_stopped", SpeechStopped),
    ("conversation.item.input_audio_transcription.completed", TranscriptionCompleted),
    ("response.audio_transcript.delta", TranscriptDelta),
    ("response.audio_transcript.done", TranscriptDone),
    ("response.audio.delta", AudioDelta),
    ("response.completed", ResponseCompleted),
    ("response.audio.done", AudioDone),
    ("response.function_call_arguments.delta", ArgumentsDelta),
    ("response.function_call_arguments.done", ArgumentsDone),
    ("error", ErrorEvent),
    ("response.error", ResponseError)
  ]

  /**
   * The switch itself: the labels are compared with the type by strict
   * equality, in order, and the first that matches selects its case.
   */
  function KindOf(t: string): EventKind
  {
    match Catalog.FindFirst(Cases, (c: (string, EventKind)) => c.0, t)
    case Some(c) => c.1
    case None => Unrecognized
  }

  /**
   * A type is recognised exactly when it equals one of the labels, and
   * then it selects the case of the first label it equals; any other text
   * (another spelling, a prefixed name, the empty text) falls to the
   * default and is ignored.
   */
  lemma KindOfSpec(t: string)
    ensures KindOf(t) == Unrecognized <==> forall i :: 0 <= i < |Cases| ==> Cases[i].0 != t
    ensures KindOf(t) != Unrecognized ==>
      exists i :: 0 <= i < |Cases| && Cases[i] == (t, KindOf(t)) && forall j :: 0 <= j < i ==> Cases[j].0 != t
  {
  }

  /** The error text used when an error event carries no `error.message`. */
  const ServiceError: string := "NavTalk realtime service reported an error."
}
