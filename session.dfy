/**
 * The session manager `useNavTalkRealtime` as an object. Its closure
 * variables are fields, grouped by the side of the session they belong
 * to (configuration, transcript, connection, microphone, tool calls)
 * into the records SessionState defines; one method per operation it
 * exposes and per event handler it installs (socket, microphone,
 * signalling, timer and history watcher callbacks are methods the
 * environment calls). Each method is proved against the function of
 * SessionState that describes it, through `Snap()`, the value of the
 * fields; the properties of those functions are proved there. The
 * playback queue is the shared module-level Player.
 */
module Session {
  import opened Wrappers
  import opened Bytes
  import opened Transcript
  import Text
  import ToolCalls
  import opened Protocol
  import opened SessionState
  import Playback
  import Pcm
  import Chunking
  import Wav

  class RealtimeSession {
    /** `config`, less the license, the model and the base URL. */
    var config: Config
    /** `chatMessages`, the stored history, `manualMessage`, `pendingUserMessageId`, `assistantSegments`, `assistantThinking`, `userSpeaking`. */
    var chat: Chat
    /** `sessionStatus`, `errorMessage`, the sockets, the peer connection, the signalling ids, the video state. */
    var link: Link
    /** `recordingToken`, the capture graph, whether the tracks are enabled, `isMicMuted`. */
    var mic: Mic
    /** `functionCallBuffers`, `pendingHangupReason`, `hangupTimer`, and the id the last `setTimeout` returned. */
    var calls: Calls
    /** Every frame delivered on the realtime socket, in order. */
    var sent: seq<Outbound>
    /** `config.license`, never changed after setup. */
    const license: string

    /** The module-level playback state. */
    const playback: Playback.Player
    /** `base64Encode`. */
    const base64Encode: seq<byte> -> string
    /** `base64ToArrayBuffer`: None when the text does not decode or no decoder exists. */
    const base64Decode: string -> Option<seq<byte>>
    /** The string `reason` of the parsed function-call arguments, if any. */
    const reasonOf: string -> Option<string>

    /** The microphone requests not yet answered, by attempt token. */
    ghost var pendingGrants: set<nat>

    /** The fields as one SessionState value. */
    ghost function Snap(): State
      reads this
    {
      State(config, chat, link, mic, calls, sent)
    }

    /** Every request that is still unanswered was issued under a token already handed out. */
    ghost predicate TokensIssued()
      reads this
    {
      forall t :: t in pendingGrants ==> t <= mic.recordingToken
    }

    /** `stopPlayback` has run: nothing queued, nothing playing, no source and no context. */
    ghost predicate PlaybackStopped()
      reads playback
    {
      playback.queue == [] && !playback.active && !playback.hasSource && !playback.hasContext
    }

    /** The PCM a delta carries, queued as one 24 kHz WAV buffer and the driver run. */
    twostate predicate AudioQueued(pcm: seq<byte>)
      reads playback
    {
      playback.Pushed(Wav.WavHeader(|pcm|, Wav.DefaultSampleRate) + pcm)
    }

    /**
     * The session invariant holds of the fields, the playback queue is
     * FIFO, and a request made under the current token was made by a
     * connected session without a stream (so a grant for it is honoured
     * only on a connected session).
     */
    ghost predicate Valid()
      reads this, playback
    {
      && playback.Valid()
      && Invariant(Snap())
      && TokensIssued()
      && (mic.recordingToken in pendingGrants ==> link.status == Connected && !mic.audioStream)
    }

    /**
     * The composable being set up: each configuration value is the
     * environment's when it defines one (even an empty one) and the default
     * otherwise; the log is the stored history.
     */
    constructor (envLicense: Option<string>, envCharacter: Option<string>, envVoice: Option<string>,
                 envPrompt: Option<string>, stored: Option<string>, parse: string -> Parsed,
                 videoElement: bool, playback: Playback.Player,
                 base64Encode: seq<byte> -> string, base64Decode: string -> Option<seq<byte>>,
                 reasonOf: string -> Option<string>)
      requires playback.Valid()
      ensures Valid()
      ensures license == envLicense.GetOr("")
      ensures Snap() == Initial(Config(envPrompt.GetOr(DefaultPrompt), envVoice.GetOr(DefaultVoice),
                                       envCharacter.GetOr(DefaultCharacter)),
                                LoadHistory(stored, parse), videoElement)
      ensures this.playback == playback && this.base64Encode == base64Encode
      ensures this.base64Decode == base64Decode && this.reasonOf == reasonOf
    {
      license := envLicense.GetOr("");
      config := Config(envPrompt.GetOr(DefaultPrompt), envVoice.GetOr(DefaultVoice), envCharacter.GetOr(DefaultCharacter));
      var history := LoadHistory(stored, parse);
      chat := Chat(history, history, "", None, map[], false, false);
      link := Link(Idle, "", false, false, false, false, None, None, false, videoElement, false);
      mic := Mic(0, false, false, false, false, false, false);
      calls := Calls(map[], None, None, 0);
      sent := [];
      this.playback := playback;
      this.base64Encode, this.base64Decode, this.reasonOf := base64Encode, base64Decode, reasonOf;
      pendingGrants := {};
    }

    // -------------------------------------------------------------------
    // Transcript helpers

    /** `appendMessage` with a fresh id. */
    method AppendMessage(role: Role, text: string, streaming: bool, unique: string, now: int) returns (id: string)
      modifies this
      ensures id == CreateId(if role == User then "user" else "assistant", unique)
      ensures config == old(config) && link == old(link) && mic == old(mic) && calls == old(calls) && sent == old(sent)
      ensures chat == old(chat).(messages := old(chat.messages) + [ChatMessage(id, role, text, streaming, now)])
      ensures pendingGrants == old(pendingGrants)
    {
      id := CreateId(if role == User then "user" else "assistant", unique);
      chat := chat.(messages := chat.messages + [ChatMessage(id, role, text, streaming, now)]);
    }

    /** `updateMessage`. */
    method UpdateMessage(id: string, text: string, streaming: Option<bool>)
      modifies this
      ensures config == old(config) && link == old(link) && mic == old(mic) && calls == old(calls) && sent == old(sent)
      ensures chat == old(chat).(messages := Updated(old(chat.messages), id, text, streaming))
      ensures pendingGrants == old(pendingGrants)
    {
      var index := FindIndex(chat.messages, id);
      if index == -1 {
        return;
      }
      var msgs := chat.messages;
      msgs := msgs[index := msgs[index].(text := text)];
      if streaming.Some? {
        msgs := msgs[index := msgs[index].(streaming := streaming.value)];
      }
      chat := chat.(messages := msgs);
    }

    /** `removeMessage`. */
    method RemoveMessage(id: string)
      modifies this
      ensures config == old(config) && link == old(link) && mic == old(mic) && calls == old(calls) && sent == old(sent)
      ensures chat == old(chat).(messages := Removed(old(chat.messages), id))
      ensures pendingGrants == old(pendingGrants)
    {
      var index := FindIndex(chat.messages, id);
      if index == -1 {
        return;
      }
      chat := chat.(messages := chat.messages[..index] + chat.messages[index + 1..]);
    }

    /** `handleUserPlaceholder`. */
    method HandleUserPlaceholder(unique: string, now: int)
      modifies this
      ensures config == old(config) && link == old(link) && mic == old(mic) && calls == old(calls) && sent == old(sent)
      ensures chat == PlaceholderOpened(old(chat), unique, now)
      ensures pendingGrants == old(pendingGrants)
    {
      if chat.pendingUserMessageId.Some? {
        return;
      }
      var id := AppendMessage(User, ListeningText, true, unique, now);
      chat := chat.(pendingUserMessageId := Some(id));
    }

    /** `resolveUserPlaceholder`. */
    method ResolveUserPlaceholder(transcript: string)
      modifies this
      ensures config == old(config) && link == old(link) && mic == old(mic) && calls == old(calls) && sent == old(sent)
      ensures chat == PlaceholderResolved(old(chat), transcript)
      ensures pendingGrants == old(pendingGrants)
    {
      if chat.pendingUserMessageId.None? {
        return;
      }
      var trimmed := Text.Trim(transcript);
      if trimmed == "" {
        RemoveMessage(chat.pendingUserMessageId.value);
      } else {
        UpdateMessage(chat.pendingUserMessageId.value, trimmed, Some(false));
      }
      chat := chat.(pendingUserMessageId := None);
    }

    /** `handleAssistantDelta`. */
    method HandleAssistantDelta(responseId: string, delta: string, now: int)
      modifies this
      ensures config == old(config) && link == old(link) && mic == old(mic) && calls == old(calls) && sent == old(sent)
      ensures chat == AssistantDelta(old(chat), responseId, delta, now)
      ensures pendingGrants == old(pendingGrants)
    {
      chat := chat.(assistantThinking := true);
      var next := Segment(chat.segments, responseId) + delta;
      chat := chat.(segments := chat.segments[responseId := next]);
      var existingIndex := FindIndex(chat.messages, responseId);
      if existingIndex == -1 {
        chat := chat.(messages := chat.messages + [ChatMessage(responseId, Assistant, next, true, now)]);
      } else {
        chat := chat.(messages := chat.messages[existingIndex := chat.messages[existingIndex].(text := next, streaming := true)]);
      }
    }

    /** `finalizeAssistantResponse`. */
    method FinalizeAssistantResponse(responseId: string)
      modifies this
      ensures config == old(config) && link == old(link) && mic == old(mic) && calls == old(calls) && sent == old(sent)
      ensures chat == AssistantFinalized(old(chat), responseId)
      ensures pendingGrants == old(pendingGrants)
    {
      var index := FindIndex(chat.messages, responseId);
      if index != -1 {
        chat := chat.(messages := chat.messages[index := chat.messages[index].(streaming := false)]);
      }
      chat := chat.(assistantThinking := false);
    }

    // -------------------------------------------------------------------
    // Microphone

    /**
     * `stopRecording`: a new token, so that a request in flight is
     * ignored when it is answered, and the capture graph and stream gone.
     */
    method StopRecording()
      modifies this
      ensures config == old(config) && chat == old(chat) && link == old(link) && calls == old(calls) && sent == old(sent)
      ensures mic == RecordingStopped(old(mic))
      ensures pendingGrants == old(pendingGrants)
    {
      mic := mic.(recordingToken := mic.recordingToken + 1, micMuted := false);
      // the processor, the source node and the context are disconnected and closed
      mic := mic.(audioProcessor := false, audioSourceNode := false, audioContext := false);
      // every track is disabled and stopped, and the stream dropped
      mic := mic.(micEnabled := false, audioStream := false);
    }

    /**
     * The synchronous part of `startRecording`: with no stream yet, a
     * microphone request goes out under a new token, returned as `attempt`.
     */
    method StartRecording() returns (attempt: Option<nat>)
      requires Valid() && link.status == Connected
      modifies this
      ensures Valid()
      ensures config == old(config) && chat == old(chat) && link == old(link) && calls == old(calls) && sent == old(sent)
      ensures mic == RecordingRequested(old(mic))
      ensures attempt.Some? <==> !old(mic.audioStream)
      ensures attempt.Some? ==> attempt.value == mic.recordingToken && pendingGrants == old(pendingGrants) + {attempt.value}
      ensures attempt.None? ==> pendingGrants == old(pendingGrants)
    {
      if mic.audioStream {
        return None;
      }
      mic := mic.(recordingToken := mic.recordingToken + 1);
      pendingGrants := pendingGrants + {mic.recordingToken};
      attempt := Some(mic.recordingToken);
    }

    /**
     * The microphone request made under `token` was granted: when a later
     * request or a stop has happened since, the stream is discarded;
     * otherwise it becomes the live, unmuted stream feeding the capture
     * processor.
     */
    method OnMicrophoneGranted(token: nat)
      requires Valid() && token in pendingGrants
      modifies this
      ensures Valid()
      ensures config == old(config) && chat == old(chat) && link == old(link) && calls == old(calls) && sent == old(sent)
      ensures mic == SessionState.MicrophoneGranted(old(mic), token)
      ensures pendingGrants == old(pendingGrants) - {token}
    {
      pendingGrants := pendingGrants - {token};
      if token != mic.recordingToken {
        return;
      }
      mic := mic.(audioStream := true, micMuted := false, micEnabled := true);
      mic := mic.(audioContext := true, audioSourceNode := true, audioProcessor := true);
    }

    /**
     * The microphone request made under `token` was refused: the session
     * ends in 'error', whatever it is doing by now.
     */
    method OnMicrophoneDenied(token: nat)
      requires Valid() && token in pendingGrants
      modifies this, playback
      ensures Valid()
      ensures Snap() == TornDown(old(Snap()), Error, MicrophoneDenied)
      ensures pendingGrants == old(pendingGrants) - {token}
      ensures PlaybackStopped()
    {
      pendingGrants := pendingGrants - {token};
      HandleError(MicrophoneDenied);
    }

    /** `muteMicrophone`. */
    method MuteMicrophone()
      requires Valid()
      modifies this
      ensures Valid()
      ensures config == old(config) && chat == old(chat) && link == old(link) && calls == old(calls) && sent == old(sent)
      ensures mic == Muted(old(mic))
      ensures pendingGrants == old(pendingGrants)
    {
      if !mic.audioStream {
        return;
      }
      mic := mic.(micMuted := true, micEnabled := false);
    }

    /** `unmuteMicrophone`. */
    method UnmuteMicrophone()
      requires Valid()
      modifies this
      ensures Valid()
      ensures config == old(config) && chat == old(chat) && link == old(link) && calls == old(calls) && sent == old(sent)
      ensures mic == Unmuted(old(mic))
      ensures pendingGrants == old(pendingGrants)
    {
      if !mic.audioStream {
        return;
      }
      mic := mic.(micMuted := false, micEnabled := true);
    }

    /** `toggleMicrophone`. */
    method ToggleMicrophone()
      requires Valid()
      modifies this
      ensures Valid()
      ensures config == old(config) && chat == old(chat) && link == old(link) && calls == old(calls) && sent == old(sent)
      ensures mic == MicrophoneToggled(old(mic))
      ensures pendingGrants == old(pendingGrants)
    {
      if !mic.audioStream {
        return;
      }
      if mic.micMuted {
        UnmuteMicrophone();
      } else {
        MuteMicrophone();
      }
    }

    /**
     * The capture processor's `onaudioprocess` with one buffer of samples:
     * with an open socket the samples are converted to 16-bit PCM,
     * base64-encoded and sent in chunks of at most 4096 characters, in
     * order; the chunks returned are the ones sent.
     */
    method OnAudioProcess(samples: seq<real>) returns (chunks: seq<string>)
      requires Valid() && mic.audioProcessor
      modifies this
      ensures Valid()
      ensures Snap() == AudioCaptured(old(Snap()), chunks)
      ensures !(link.realtimeSocket && link.socketOpen) ==> chunks == []
      ensures link.realtimeSocket && link.socketOpen ==>
        && Chunking.Concat(chunks) == base64Encode(Pcm.EncodePcm16(samples))
        && forall k :: 0 <= k < |chunks| ==> 0 < |chunks[k]| <= Chunking.ChunkSize
      ensures pendingGrants == old(pendingGrants)
    {
      if !link.realtimeSocket || !link.socketOpen {
        return [];
      }
      var pcmBuffer := Pcm.FloatTo16BitPcm(samples);
      var base64Audio := base64Encode(pcmBuffer[..]);
      chunks := Chunking.SplitIntoChunks(base64Audio);
      var i := 0;
      while i < |chunks|
        invariant 0 <= i <= |chunks|
        invariant Snap() == old(Snap()).(sent := old(sent) + AudioFrames(chunks[..i]))
        invariant pendingGrants == old(pendingGrants)
      {
        assert chunks[..i + 1][..i] == chunks[..i];
        sent := sent + [AudioAppend(chunks[i])];
        i := i + 1;
      }
      assert chunks[..i] == chunks;
    }

    // -------------------------------------------------------------------
    // Teardown and connection

    /**
     * `teardown(next, reason)`: stops the recording and the playback,
     * closes the sockets and the peer connection (their handlers detached
     * first, so no close event follows), clears the video, and forgets
     * every session-scoped id, accumulator, pending reason and timer.
     */
    method Teardown(next: Status, reason: string)
      requires playback.Valid() && TokensIssued() && (next == Idle || next == Error)
      modifies this, playback
      ensures Valid()
      ensures Snap() == TornDown(old(Snap()), next, reason)
      ensures pendingGrants == old(pendingGrants)
      ensures PlaybackStopped()
    {
      StopRecording();
      playback.Stop();
      // the realtime socket, the signalling socket and the peer connection are detached and closed
      link := link.(realtimeSocket := false, socketOpen := false, signalingSocket := false, peerConnection := false);
      // clearVideoElement
      if link.videoElement {
        link := link.(videoStreaming := false);
      }
      link := link.(proxySessionId := None, targetSessionId := None, hasHydratedIceServers := false);
      chat := chat.(segments := map[], pendingUserMessageId := None);
      calls := calls.(callBuffers := map[], pendingHangupReason := None, hangupTimer := None);
      chat := chat.(userSpeaking := false, assistantThinking := false);
      link := link.(errorMessage := reason, status := next);
      assert Snap() == TornDown(old(Snap()), next, reason);
      TeardownRestoresInvariant(old(Snap()), next, reason);
    }

    /** `handleError`. */
    method HandleError(message: string)
      requires playback.Valid() && TokensIssued()
      modifies this, playback
      ensures Valid()
      ensures Snap() == TornDown(old(Snap()), Error, message)
      ensures pendingGrants == old(pendingGrants)
      ensures PlaybackStopped()
    {
      Teardown(Error, message);
    }

    /** `disconnect`. */
    method Disconnect()
      requires playback.Valid() && TokensIssued()
      modifies this, playback
      ensures Valid()
      ensures Snap() == TornDown(old(Snap()), Idle, "")
      ensures pendingGrants == old(pendingGrants)
      ensures PlaybackStopped()
    {
      Teardown(Idle, "");
    }

    /**
     * `connect`: `constructionFails` says whether the WebSocket
     * constructor throws. The socket then opens later (OnSocketOpen).
     */
    method Connect(constructionFails: bool)
      requires Valid()
      modifies this, playback
      ensures Valid()
      ensures Snap() == SessionState.Connect(old(Snap()), license, constructionFails)
      ensures pendingGrants == old(pendingGrants)
      ensures license != "" && (old(link.status) == Idle || old(link.status) == Error) && constructionFails ==>
        PlaybackStopped()
      ensures !(license != "" && (old(link.status) == Idle || old(link.status) == Error) && constructionFails) ==>
        unchanged(playback)
    {
      if license == "" {
        link := link.(errorMessage := ConfigureLicense);
        return;
      }
      if link.status == Connecting || link.status == Connected {
        return;
      }
      link := link.(errorMessage := "", status := Connecting);
      chat := chat.(segments := map[], pendingUserMessageId := None);
      if constructionFails {
        HandleError(ConnectFailed);
      } else {
        link := link.(realtimeSocket := true, socketOpen := false);
      }
    }

    /** `toggleSession`. */
    method ToggleSession(constructionFails: bool)
      requires Valid()
      modifies this, playback
      ensures Valid()
      ensures Snap() == SessionToggled(old(Snap()), license, constructionFails)
      ensures pendingGrants == old(pendingGrants)
      ensures old(link.status) == Connected || old(link.status) == Connecting ==> PlaybackStopped()
      ensures (old(link.status) == Idle || old(link.status) == Error) && license != "" && constructionFails ==>
        PlaybackStopped()
      ensures (old(link.status) == Idle || old(link.status) == Error) && !(license != "" && constructionFails) ==>
        unchanged(playback)
    {
      if link.status == Connected || link.status == Connecting {
        Disconnect();
      } else {
        Connect(constructionFails);
      }
    }

    /** The realtime socket's `onopen`. */
    method OnSocketOpen()
      requires Valid() && link.realtimeSocket
      modifies this
      ensures Valid()
      ensures Snap() == SocketOpened(old(Snap()))
      ensures pendingGrants == old(pendingGrants)
    {
      link := link.(socketOpen := true);
    }

    /** The realtime socket's `onerror`. */
    method OnSocketError()
      requires Valid() && link.realtimeSocket
      modifies this, playback
      ensures Valid()
      ensures Snap() == TornDown(old(Snap()), Error, SocketIssue)
      ensures pendingGrants == old(pendingGrants)
      ensures PlaybackStopped()
    {
      HandleError(SocketIssue);
    }

    /** The realtime socket's `onclose`. */
    method OnSocketClose()
      requires Valid() && link.realtimeSocket
      modifies this, playback
      ensures Valid()
      ensures Snap() == SocketClosed(old(Snap()))
      ensures pendingGrants == old(pendingGrants)
      ensures PlaybackStopped()
    {
      if link.status == Connected {
        Teardown(Idle, SessionClosed);
      } else {
        Teardown(Idle, "");
      }
    }

    // -------------------------------------------------------------------
    // Outbound frames

    /** `sendSessionUpdate`: the update, then the last three user messages replayed. */
    method SendSessionUpdate()
      modifies this
      ensures config == old(config) && chat == old(chat) && link == old(link) && mic == old(mic) && calls == old(calls)
      ensures sent == SessionUpdateSent(old(Snap())).sent
      ensures pendingGrants == old(pendingGrants)
    {
      if link.realtimeSocket && link.socketOpen {
        sent := sent + [SessionUpdate(config.prompt, config.voice)];
        ReplayUserTexts(RecentUserTexts(chat.messages));
      }
    }

    /** The replay loop of `sendSessionUpdate`: one user text frame per text, in order. */
    method ReplayUserTexts(texts: seq<string>)
      modifies this
      ensures config == old(config) && chat == old(chat) && link == old(link) && mic == old(mic) && calls == old(calls)
      ensures sent == old(sent) + UserTextFrames(texts)
      ensures pendingGrants == old(pendingGrants)
    {
      var i := 0;
      while i < |texts|
        invariant 0 <= i <= |texts|
        invariant config == old(config) && chat == old(chat) && link == old(link) && mic == old(mic) && calls == old(calls)
        invariant sent == old(sent) + UserTextFrames(texts[..i])
        invariant pendingGrants == old(pendingGrants)
      {
        assert texts[..i + 1][..i] == texts[..i];
        sent := sent + [UserText(texts[i])];
        i := i + 1;
      }
      assert texts[..i] == texts;
    }

    /** `sendTextMessage`; `unique` and `now` stand for `createId`'s suffix and `Date.now()`. */
    method SendTextMessage(unique: string, now: int)
      requires Valid()
      modifies this
      ensures Valid()
      ensures Snap() == TextSent(old(Snap()), unique, now)
      ensures pendingGrants == old(pendingGrants)
    {
      var text := Text.Trim(chat.manualMessage);
      if text == "" {
      } else if !link.realtimeSocket || !link.socketOpen {
        link := link.(errorMessage := NotConnected);
      } else {
        chat := chat.(manualMessage := "", messages := chat.messages + [ChatMessage(CreateId("user", unique), User, text, false, now)]);
        sent := sent + [UserText(text), ResponseCreate];
      }
      TextSentSpec(old(Snap()), unique, now);
    }

    /** `sendFunctionCallResult`. */
    method SendFunctionCallResult(callId: string, output: ToolCalls.CallOutput)
      modifies this
      ensures config == old(config) && chat == old(chat) && link == old(link) && mic == old(mic) && calls == old(calls)
      ensures sent == old(sent) + CallResultFrames(old(link), callId, output)
      ensures pendingGrants == old(pendingGrants)
    {
      if !link.realtimeSocket || !link.socketOpen {
        return;
      }
      sent := sent + [FunctionCallOutput(callId, output)];
      sent := sent + [ResponseCreate];
    }

    // -------------------------------------------------------------------
    // Tool calls and hangup

    /** `handleFunctionCallDelta`. */
    method HandleFunctionCallDelta(callId: Option<string>, delta: Option<string>)
      modifies this
      ensures config == old(config) && chat == old(chat) && link == old(link) && mic == old(mic) && sent == old(sent)
      ensures calls == old(calls).(callBuffers := ToolCalls.WithFragment(old(calls.callBuffers), callId, delta))
      ensures pendingGrants == old(pendingGrants)
    {
      if ToolCalls.CallKey(callId).None? || delta.None? {
        return;
      }
      var id := callId.value;
      calls := calls.(callBuffers := calls.callBuffers[id := Segment(calls.callBuffers, id) + delta.value]);
    }

    /** `scheduleAutoHangup`: record the reason, cancel any timer, acknowledge the call. */
    method ScheduleAutoHangup(reason: Option<string>, callId: Option<string>)
      modifies this
      ensures config == old(config) && chat == old(chat) && link == old(link) && mic == old(mic)
      ensures calls == HangupScheduled(old(calls), reason)
      ensures sent == old(sent) + if callId.Some? then CallResultFrames(old(link), callId.value,
                                                                  ToolCalls.Acknowledged(ToolCalls.HangupReason(reason)))
                            else []
      ensures pendingGrants == old(pendingGrants)
    {
      var r := ToolCalls.HangupReason(reason);
      calls := calls.(pendingHangupReason := Some(r), hangupTimer := None);
      if callId.Some? {
        SendFunctionCallResult(callId.value, ToolCalls.Acknowledged(r));
      }
    }

    /** `handleFunctionCallRequest` for a named call. */
    method HandleFunctionCallRequest(name: string, reason: Option<string>, callId: Option<string>)
      requires name != ""
      modifies this
      ensures config == old(config) && chat == old(chat) && link == old(link) && mic == old(mic)
      ensures calls == CallsAfterCall(old(calls), name, None, reason)
      ensures sent == old(sent) + ReplyFrames(old(link), callId, ToolCalls.Reply(name, callId, reason))
      ensures pendingGrants == old(pendingGrants)
    {
      if name == ToolCalls.EndConversation {
        ScheduleAutoHangup(reason, callId);
      } else if callId.Some? {
        SendFunctionCallResult(callId.value, ToolCalls.Ignored(ToolCalls.Unhandled(name)));
      }
    }

    /** `handleFunctionCallDone`. */
    method HandleFunctionCallDone(name: Option<string>, callId: Option<string>, arguments: Option<string>)
      modifies this
      ensures Snap() == CallFinished(old(Snap()), name, callId, arguments, reasonOf)
      ensures pendingGrants == old(pendingGrants)
    {
      var n := name.GetOr("");
      var key := ToolCalls.CallKey(callId);
      var rawArguments: Option<string> := None;
      if arguments.Some? && Text.Trim(arguments.value) != "" {
        rawArguments := arguments;
      } else if key.Some? && key.value in calls.callBuffers {
        rawArguments := Some(calls.callBuffers[key.value]);
      }
      if key.Some? {
        calls := calls.(callBuffers := calls.callBuffers - {key.value});
      }
      var reason := ToolCalls.ReasonField(rawArguments, reasonOf);
      if n == "" {
        if key.Some? {
          SendFunctionCallResult(key.value, ToolCalls.Ignored(ToolCalls.NameMissing));
        }
        return;
      }
      HandleFunctionCallRequest(n, reason, key);
    }

    /** `attemptAutoHangup`: (re-)arm the hangup timer under a new id. */
    method AttemptAutoHangup()
      requires Valid()
      modifies this
      ensures Valid()
      ensures config == old(config) && chat == old(chat) && link == old(link) && mic == old(mic) && sent == old(sent)
      ensures calls == HangupAttempted(old(calls), old(link.status))
      ensures pendingGrants == old(pendingGrants)
    {
      if calls.pendingHangupReason.None? || calls.pendingHangupReason.value == "" || link.status != Connected {
        return;
      }
      calls := calls.(lastTimerId := calls.lastTimerId + 1);
      calls := calls.(hangupTimer := Some(calls.lastTimerId));
    }

    /** The armed hangup timer fires. */
    method OnHangupTimer()
      requires Valid() && calls.hangupTimer.Some?
      modifies this, playback
      ensures Valid()
      ensures Snap() == HangupFired(old(Snap()))
      ensures pendingGrants == old(pendingGrants)
      ensures PlaybackStopped()
    {
      calls := calls.(hangupTimer := None, pendingHangupReason := None);
      Disconnect();
    }

    // -------------------------------------------------------------------
    // Signalling

    /** `setupSignalingSocket`. */
    method SetupSignalingSocket()
      modifies this
      ensures config == old(config) && chat == old(chat) && mic == old(mic) && calls == old(calls) && sent == old(sent)
      ensures link == SignalingSetUp(old(link))
      ensures pendingGrants == old(pendingGrants)
    {
      if link.proxySessionId.None? || link.proxySessionId.value == "" || link.signalingSocket {
        return;
      }
      link := link.(targetSessionId := Some("target-" + link.proxySessionId.value));
      link := link.(signalingSocket := true);
    }

    /** The `session.session_id` case. */
    method HandleSessionId(m: Inbound)
      modifies this
      ensures config == old(config) && chat == old(chat) && mic == old(mic) && calls == old(calls) && sent == old(sent)
      ensures link == SessionIdReceived(old(link), m)
      ensures pendingGrants == old(pendingGrants)
    {
      var sessionId := if m.sessionId.Some? then m.sessionId else m.altSessionId;
      if sessionId.Some? && sessionId.value != "" && sessionId != link.proxySessionId {
        link := link.(proxySessionId := sessionId);
        SetupSignalingSocket();
      }
    }

    /** The signalling socket's `onclose`. */
    method OnSignalingClose()
      requires Valid() && link.signalingSocket
      modifies this
      ensures Valid()
      ensures config == old(config) && chat == old(chat) && mic == old(mic) && calls == old(calls) && sent == old(sent)
      ensures link == SignalingClosed(old(link))
      ensures pendingGrants == old(pendingGrants)
    {
      link := link.(signalingSocket := false, targetSessionId := None);
    }

    /**
     * An `offer` on the signalling socket, handled to completion:
     * `settled` says whether `ensureIceServers` settled the ICE servers;
     * any earlier peer connection is closed and replaced.
     */
    method OnOffer(settled: bool)
      requires Valid() && link.signalingSocket
      modifies this
      ensures Valid()
      ensures config == old(config) && chat == old(chat) && mic == old(mic) && calls == old(calls) && sent == old(sent)
      ensures link == OfferAnswered(old(link), settled)
      ensures pendingGrants == old(pendingGrants)
    {
      if !link.hasHydratedIceServers && settled {
        link := link.(hasHydratedIceServers := true);
      }
      if link.peerConnection {
        link := link.(peerConnection := false);
      }
      link := link.(peerConnection := true);
    }

    /** The peer connection's `ontrack`. */
    method OnRemoteTrack()
      requires Valid() && link.peerConnection
      modifies this
      ensures Valid()
      ensures config == old(config) && chat == old(chat) && mic == old(mic) && calls == old(calls) && sent == old(sent)
      ensures link == RemoteTrack(old(link))
      ensures pendingGrants == old(pendingGrants)
    {
      if !link.videoElement {
        return;
      }
      link := link.(videoStreaming := true);
    }

    /** The component binds or unbinds its video element. */
    method SetVideoElement(present: bool)
      requires Valid()
      modifies this
      ensures Valid()
      ensures config == old(config) && chat == old(chat) && mic == old(mic) && calls == old(calls) && sent == old(sent)
      ensures link == old(link).(videoElement := present)
      ensures pendingGrants == old(pendingGrants)
    {
      link := link.(videoElement := present);
    }

    // -------------------------------------------------------------------
    // Inbound frames

    /**
     * The realtime socket's `onmessage` with one parsed event, dispatched
     * on its `type`. The session changes as Handled says; an audio delta
     * that decodes is wrapped in a WAV container and queued for playback;
     * an error frame stops playback; no other frame touches it. `attempt`
     * is the microphone request `session.updated` issues, if any.
     */
    method OnMessage(m: Inbound, unique: string, now: int) returns (attempt: Option<nat>)
      requires Valid() && link.realtimeSocket && link.socketOpen
      modifies this, playback
      ensures Valid()
      ensures Snap() == Handled(old(Snap()), m, unique, now, reasonOf)
      ensures attempt.Some? ==> KindOf(m.kind) == SessionUpdated && attempt.value in pendingGrants
      ensures pendingGrants == old(pendingGrants) + if attempt.Some? then {attempt.value} else {}
      ensures KindOf(m.kind) == AudioDelta && m.delta.Some? && base64Decode(m.delta.value).Some? ==>
        AudioQueued(base64Decode(m.delta.value).value)
      ensures KindOf(m.kind) == ErrorEvent || KindOf(m.kind) == ResponseError ==> PlaybackStopped()
      ensures KindOf(m.kind) != ErrorEvent && KindOf(m.kind) != ResponseError &&
              !(KindOf(m.kind) == AudioDelta && m.delta.Some? && base64Decode(m.delta.value).Some?) ==>
        unchanged(playback)
    {
      HandledInvariant(Snap(), m, unique, now, reasonOf);
      attempt := Dispatch(KindOf(m.kind), m, unique, now);
    }

    /** The `switch (data.type)` of `onmessage`, on the kind the type names. */
    method Dispatch(kind: EventKind, m: Inbound, unique: string, now: int) returns (attempt: Option<nat>)
      requires Valid() && link.realtimeSocket && link.socketOpen
      requires Invariant(Dispatched(Snap(), kind, m, unique, now, reasonOf))
      modifies this, playback
      ensures Valid()
      ensures Snap() == Dispatched(old(Snap()), kind, m, unique, now, reasonOf)
      ensures attempt.Some? ==> kind == SessionUpdated && attempt.value in pendingGrants
      ensures pendingGrants == old(pendingGrants) + if attempt.Some? then {attempt.value} else {}
      ensures kind == AudioDelta && m.delta.Some? && base64Decode(m.delta.value).Some? ==>
        AudioQueued(base64Decode(m.delta.value).value)
      ensures kind == ErrorEvent || kind == ResponseError ==> PlaybackStopped()
      ensures kind != ErrorEvent && kind != ResponseError &&
              !(kind == AudioDelta && m.delta.Some? && base64Decode(m.delta.value).Some?) ==>
        unchanged(playback)
    {
      if kind == AudioDelta {
        attempt := None;
        PlayAudioDelta(m.delta);
      } else if kind == ErrorEvent || kind == ResponseError {
        attempt := None;
        HandleError(m.errorMessage.GetOr(ServiceError));
      } else {
        attempt := DispatchSession(kind, m, unique, now);
      }
    }

    /** The `response.audio.delta` case: a payload that decodes is queued for playback. */
    method PlayAudioDelta(delta: Option<string>)
      requires playback.Valid()
      modifies playback
      ensures playback.Valid()
      ensures delta.Some? && base64Decode(delta.value).Some? ==> AudioQueued(base64Decode(delta.value).value)
      ensures !(delta.Some? && base64Decode(delta.value).Some?) ==> unchanged(playback)
    {
      if delta.Some? {
        var pcm := base64Decode(delta.value);
        if pcm.Some? {
          var _ := playback.EnqueueAudioChunk(pcm.value);
        }
      }
    }

    /** The cases of the switch that leave the playback queue alone. */
    method DispatchSession(kind: EventKind, m: Inbound, unique: string, now: int) returns (attempt: Option<nat>)
      requires Valid() && link.realtimeSocket && link.socketOpen
      requires kind != AudioDelta && kind != ErrorEvent && kind != ResponseError
      requires Invariant(Dispatched(Snap(), kind, m, unique, now, reasonOf))
      modifies this
      ensures Valid()
      ensures Snap() == Dispatched(old(Snap()), kind, m, unique, now, reasonOf)
      ensures attempt.Some? ==> kind == SessionUpdated && attempt.value in pendingGrants
      ensures pendingGrants == old(pendingGrants) + if attempt.Some? then {attempt.value} else {}
    {
      attempt := None;
      match kind {
        case SessionCreated =>
          SendSessionUpdate();
        case SessionUpdated =>
          link := link.(status := Connected);
          attempt := StartRecording();
        case SessionIdAssigned =>
          HandleSessionId(m);
        case Unrecognized =>
        case SpeechStarted | SpeechStopped | TranscriptionCompleted | TranscriptDelta | TranscriptDone
           | ResponseCompleted | AudioDone | ArgumentsDelta | ArgumentsDone =>
          DispatchConversation(kind, m, unique, now);
      }
      assert Snap() == Dispatched(old(Snap()), kind, m, unique, now, reasonOf);
    }

    /** The cases of the switch that concern the conversation: speech, transcripts, responses and tool calls. */
    method DispatchConversation(kind: EventKind, m: Inbound, unique: string, now: int)
      requires Valid()
      requires kind in {SpeechStarted, SpeechStopped, TranscriptionCompleted, TranscriptDelta, TranscriptDone,
                        ResponseCompleted, AudioDone, ArgumentsDelta, ArgumentsDone}
      requires Invariant(Dispatched(Snap(), kind, m, unique, now, reasonOf))
      modifies this
      ensures Valid()
      ensures Snap() == Dispatched(old(Snap()), kind, m, unique, now, reasonOf)
      ensures pendingGrants == old(pendingGrants)
    {
      match kind {
        case SpeechStarted =>
          chat := chat.(userSpeaking := true);
          HandleUserPlaceholder(unique, now);
        case SpeechStopped =>
          chat := chat.(userSpeaking := false);
        case TranscriptionCompleted =>
          ResolveUserPlaceholder(m.transcript.GetOr(""));
        case TranscriptDelta =>
          HandleAssistantDelta(m.responseId, m.delta.GetOr(""), now);
        case TranscriptDone =>
          FinalizeAssistantResponse(m.responseId);
        case ResponseCompleted | AudioDone =>
          chat := chat.(assistantThinking := false);
          AttemptAutoHangup();
        case ArgumentsDelta =>
          HandleFunctionCallDelta(m.callId, m.delta);
        case ArgumentsDone =>
          HandleFunctionCallDone(m.name, m.callId, m.arguments);
      }
      assert Snap() == Dispatched(old(Snap()), kind, m, unique, now, reasonOf);
    }

    // -------------------------------------------------------------------
    // History, configuration and playback resume

    /** `clearHistory`: the log and the stored history are emptied. */
    method ClearHistory()
      requires Valid()
      modifies this
      ensures Valid()
      ensures config == old(config) && link == old(link) && mic == old(mic) && calls == old(calls) && sent == old(sent)
      ensures chat == HistoryCleared(old(chat))
      ensures pendingGrants == old(pendingGrants)
    {
      chat := chat.(messages := []);
      chat := chat.(savedHistory := TrimHistory([]));
    }

    /** The deep watcher on the log runs `saveHistory`. */
    method OnHistoryChanged()
      requires Valid()
      modifies this
      ensures Valid()
      ensures config == old(config) && link == old(link) && mic == old(mic) && calls == old(calls) && sent == old(sent)
      ensures chat == HistoryFlushed(old(chat))
      ensures pendingGrants == old(pendingGrants)
    {
      chat := chat.(savedHistory := TrimHistory(chat.messages));
    }

    /** `setPrompt`. */
    method SetPrompt(p: string)
      requires Valid()
      modifies this
      ensures Valid()
      ensures Snap() == PromptSet(old(Snap()), p)
      ensures pendingGrants == old(pendingGrants)
    {
      config := config.(prompt := if p != "" then p else DefaultPrompt);
      if link.status == Connected {
        SendSessionUpdate();
      }
    }

    /** `setVoice`. */
    method SetVoice(v: string)
      requires Valid()
      modifies this
      ensures Valid()
      ensures Snap() == VoiceSet(old(Snap()), v)
      ensures pendingGrants == old(pendingGrants)
    {
      if v == "" {
        return;
      }
      config := config.(voice := v);
      if link.status == Connected {
        SendSessionUpdate();
      }
    }

    /** `setCharacter`. */
    method SetCharacter(name: string)
      requires Valid()
      modifies this
      ensures Valid()
      ensures chat == old(chat) && link == old(link) && mic == old(mic) && calls == old(calls) && sent == old(sent)
      ensures config == CharacterSet(old(config), name)
      ensures pendingGrants == old(pendingGrants)
    {
      if name == "" {
        return;
      }
      config := config.(characterName := name);
    }

    /** `resumePlaybackAudio`: the session is untouched. */
    method ResumePlaybackAudio()
      requires Valid()
      modifies playback
      ensures Valid()
      ensures playback.hasContext == (old(playback.hasContext) || playback.audioSupported)
      ensures playback.queue == old(playback.queue) && playback.active == old(playback.active)
      ensures playback.hasSource == old(playback.hasSource)
      ensures playback.enqueued == old(playback.enqueued) && playback.dequeued == old(playback.dequeued)
    {
      playback.ResumeContext();
    }
  }
}
