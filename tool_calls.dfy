/**
 * The function-call handshake of the realtime protocol, as values: the
 * per-call argument buffers, how the arguments of a finished call are
 * chosen, the reason an `end_conversation` call records, and the reply a
 * finished call earns. The session performs these steps in place.
 */
module ToolCalls {
  import opened Wrappers
  import Text
  import Transcript

  /** The one tool the session offers the model. */
  const EndConversation: string := "end_conversation"
  /** The hangup reason used when the call gives none. */
  const DefaultHangupReason: string := "Learner requested to end the conversation."
  /** The reply to a finished call that carries no function name. */
  const NameMissing: string := "Function name missing."

  /** The reply to a call naming any other function. */
  function Unhandled(name: string): string
  {
    "Unhandled function: " + name
  }

  /** The `output` object of a `function_call_output` item, before serialization. */
  datatype CallOutput =
    | Ignored(reason: string)       // { status: 'ignored', reason }
    | Acknowledged(reason: string)  // { action: 'end_conversation', status: 'acknowledged', reason }

  /**
   * The buffer key of an event: a present, non-empty `call_id` (an empty
   * one is falsy and treated as missing).
   */
  function CallKey(callId: Option<string>): (k: Option<string>)
    ensures k.Some? <==> callId.Some? && callId.value != ""
    ensures k.Some? ==> k == callId && k.value != ""
  {
    if callId.Some? && callId.value != "" then callId else None
  }

  /**
   * `handleFunctionCallDelta`: a string delta with a call id is appended to
   * that call's buffer; any other event leaves every buffer as it was.
   */
  function WithFragment(buffers: map<string, string>, callId: Option<string>, delta: Option<string>): (r: map<string, string>)
    ensures CallKey(callId).None? || delta.None? ==> r == buffers
    ensures CallKey(callId).Some? && delta.Some? ==>
      && callId.value in r
      && r[callId.value] == Transcript.Segment(buffers, callId.value) + delta.value
      && forall k :: k != callId.value ==> (k in r <==> k in buffers) && (k in buffers ==> r[k] == buffers[k])
  {
    match (CallKey(callId), delta)
    case (Some(k), Some(d)) => buffers[k := Transcript.Segment(buffers, k) + d]
    case _ => buffers
  }

  /** The buffers after one delta event per fragment of `ds`, all for the same call. */
  function WithFragments(buffers: map<string, string>, callId: string, ds: seq<string>): map<string, string>
  {
    if ds == [] then buffers
    else WithFragment(WithFragments(buffers, callId, ds[..|ds| - 1]), Some(callId), Some(ds[|ds| - 1]))
  }

  /**
   * Fragments d1..dk for a call accumulate in order: its buffer ends as
   * what it held before followed by d1 + ... + dk, and no other call's
   * buffer changes.
   */
  lemma {:induction false} FragmentsAccumulate(buffers: map<string, string>, callId: string, ds: seq<string>)
    requires callId != ""
    ensures var r := WithFragments(buffers, callId, ds);
      && Transcript.Segment(r, callId) == Transcript.Segment(buffers, callId) + Transcript.ConcatDeltas(ds)
      && forall k :: k != callId ==> (k in r <==> k in buffers) && (k in buffers ==> r[k] == buffers[k])
  {
    if ds != [] {
      FragmentsAccumulate(buffers, callId, ds[..|ds| - 1]);
    }
  }

  /**
   * The raw arguments of a finished call: inline `arguments` that are not
   * blank win; otherwise the call's buffer, when it has one; otherwise none.
   */
  function ResolveArguments(arguments: Option<string>, key: Option<string>, buffers: map<string, string>): Option<string>
  {
    if arguments.Some? && Text.Trim(arguments.value) != "" then arguments
    else if key.Some? && key.value in buffers then Some(buffers[key.value])
    else None
  }

  /**
   * The `reason` a finished call carries: read from the parsed arguments
   * when there are non-empty raw arguments; `reasonOf` yields None when the
   * text does not parse, is not an object, or has no string `reason`, which
   * is where the `{}` fallback leaves it too.
   */
  function ReasonField(raw: Option<string>, reasonOf: string -> Option<string>): Option<string>
  {
    if raw.Some? && raw.value != "" then reasonOf(raw.value) else None
  }

  /**
   * The reason a finished call carries: inline arguments that are not all
   * whitespace are read and the call's buffer is ignored; otherwise the
   * buffer is read when it holds any text; otherwise there is none.
   */
  lemma CallReasonSpec(arguments: Option<string>, key: Option<string>, buffers: map<string, string>,
                       reasonOf: string -> Option<string>)
    ensures var r := ReasonField(ResolveArguments(arguments, key, buffers), reasonOf);
      && (arguments.Some? && !Text.AllWhitespace(arguments.value) ==> r == reasonOf(arguments.value))
      && (arguments.None? || Text.AllWhitespace(arguments.value) ==>
            r == if key.Some? && key.value in buffers && buffers[key.value] != "" then reasonOf(buffers[key.value]) else None)
  {
    if arguments.Some? {
      Text.TrimSpec(arguments.value);
    }
  }

  /** The hangup reason `scheduleAutoHangup` records: the trimmed reason, or the default for a blank one. */
  function HangupReason(reason: Option<string>): (r: string)
    ensures r != ""
  {
    if reason.Some? && Text.Trim(reason.value) != "" then Text.Trim(reason.value) else DefaultHangupReason
  }

  /**
   * The recorded reason is the given one, trimmed, unless that is missing
   * or all whitespace, in which case it is the default; either way it
   * carries no surrounding whitespace.
   */
  lemma HangupReasonSpec(reason: Option<string>)
    ensures reason.Some? && !Text.AllWhitespace(reason.value) ==> HangupReason(reason) == Text.Trim(reason.value)
    ensures reason.None? || Text.AllWhitespace(reason.value) ==> HangupReason(reason) == DefaultHangupReason
    ensures Text.Trim(HangupReason(reason)) == HangupReason(reason)
  {
    if reason.Some? {
      Text.TrimSpec(reason.value);
      Text.TrimIdempotent(reason.value);
    }
    Text.TrimmedUnchanged(DefaultHangupReason);
  }

  /**
   * The reply `handleFunctionCallDone` / `handleFunctionCallRequest` send
   * for a finished call, when the call has an id to reply to.
   */
  function Reply(name: string, key: Option<string>, reason: Option<string>): Option<CallOutput>
  {
    if key.None? then None
    else if name == "" then Some(Ignored(NameMissing))
    else if name == EndConversation then Some(Acknowledged(HangupReason(reason)))
    else Some(Ignored(Unhandled(name)))
  }

  /**
   * A finished call is answered exactly when it has an id; it is
   * acknowledged exactly when it names `end_conversation`, and every other
   * call (including one with no name) is answered as ignored, with a reason
   * that names the function when there is one.
   */
  lemma ReplySpec(name: string, key: Option<string>, reason: Option<string>)
    ensures Reply(name, key, reason).Some? <==> key.Some?
    ensures key.Some? ==> (Reply(name, key, reason).value.Acknowledged? <==> name == EndConversation)
    ensures key.Some? && name == "" ==> Reply(name, key, reason) == Some(Ignored(NameMissing))
    ensures key.Some? && name != "" && name != EndConversation ==>
      Reply(name, key, reason) == Some(Ignored(Unhandled(name)))
    ensures key.Some? && name == EndConversation ==>
      Reply(name, key, reason) == Some(Acknowledged(HangupReason(reason)))
  {
  }
}
