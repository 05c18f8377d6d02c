/**
 * The state the realtime session manager keeps between events, as one
 * value, and what each of its operations does to that value. Browser
 * objects (sockets, peer connection, audio graph, media stream) are kept
 * only as "present or absent"; the outbound socket traffic is kept as the
 * log of frames delivered. The session class performs these operations
 * in place and is proved against the functions here.
 */
module SessionState {
  import opened Wrappers
  import opened Transcript
  import Text
  import ToolCalls
  import opened Protocol

  datatype Status = Idle | Connecting | Connected | Error

  /** The prompt used when none is configured or an empty one is set. */
  const DefaultPrompt: string :=
    "You are Navi, a patient NavTalk AI language tutor that adapts to the learner's goal.\n"
    + "Keep responses concise (1-3 sentences), always encourage real-time speaking practice,\n"
    + "and offer micro-corrections that do not break learner confidence."
  const DefaultCharacter: string := "navtalk.Brain"
  const DefaultVoice: string := "cedar"

  const ConfigureLicense: string := "Please configure the NavTalk license in your .env file."
  const ConnectFailed: string := "Unable to connect to the NavTalk service."
  const SocketIssue: string := "Realtime connection encountered an issue. Please try again."
  const SessionClosed: string := "Session closed."
  const MicrophoneDenied: string := "Unable to access the microphone. Please check browser permissions."
  const NotConnected: string := "Not connected to NavTalk, unable to send messages."

  /** How many recent user messages are replayed after a session update. */
  const ReplayedUserMessages: nat := 3

  /** The configuration the setters change. */
  datatype Config = Config(prompt: string, voice: string, characterName: string)

  /** The transcript side: the log, what storage loads back as, the draft and the accumulators. */
  datatype Chat = Chat(
    messages: seq<ChatMessage>, savedHistory: seq<ChatMessage>, manualMessage: string,
    pendingUserMessageId: Option<string>, segments: map<string, string>,
    assistantThinking: bool, userSpeaking: bool)

  /** The connection side: status, error text, sockets and signalling, present or absent. */
  datatype Link = Link(
    status: Status, errorMessage: string,
    realtimeSocket: bool, socketOpen: bool, signalingSocket: bool, peerConnection: bool,
    proxySessionId: Option<string>, targetSessionId: Option<string>, hasHydratedIceServers: bool,
    videoElement: bool, videoStreaming: bool)

  /** The microphone side: the attempt token and the capture graph, present or absent. */
  datatype Mic = Mic(
    recordingToken: nat, audioStream: bool, audioContext: bool, audioSourceNode: bool,
    audioProcessor: bool, micEnabled: bool, micMuted: bool)

  /** The tool-call side: argument buffers, the pending hangup and its timer. */
  datatype Calls = Calls(
    callBuffers: map<string, string>, pendingHangupReason: Option<string>,
    hangupTimer: Option<nat>, lastTimerId: nat)

  datatype State = State(config: Config, chat: Chat, link: Link, mic: Mic, calls: Calls, sent: seq<Outbound>)

  /** `createId(prefix)`: the prefix, a dash, and a unique suffix from the environment. */
  function CreateId(prefix: string, unique: string): (id: string)
    ensures id != "" && prefix <= id
  {
    prefix + "-" + unique
  }

  /** No capture graph and no live stream. */
  predicate MicIdle(m: Mic)
  {
    !m.audioStream && !m.audioContext && !m.audioSourceNode && !m.audioProcessor && !m.micEnabled && !m.micMuted
  }

  /** Nothing session-scoped is held: no handle, no accumulator, nothing pending. */
  predicate Quiescent(s: State)
  {
    && !s.link.realtimeSocket && !s.link.socketOpen && !s.link.signalingSocket && !s.link.peerConnection
    && s.link.proxySessionId.None? && s.link.targetSessionId.None? && !s.link.hasHydratedIceServers
    && MicIdle(s.mic)
    && s.chat.segments == map[] && s.chat.pendingUserMessageId.None?
    && !s.chat.userSpeaking && !s.chat.assistantThinking
    && s.calls.callBuffers == map[] && s.calls.pendingHangupReason.None? && s.calls.hangupTimer.None?
  }

  /**
   * What holds between events: a socket exists exactly while connecting or
   * connected, and otherwise the session holds nothing; the microphone is
   * live only on a connected session; a hangup timer runs only with a
   * pending reason on a connected session; signalling state hangs off a
   * proxy session id.
   */
  predicate Invariant(s: State)
  {
    && (s.link.socketOpen ==> s.link.realtimeSocket)
    && (s.link.realtimeSocket <==> (s.link.status == Connecting || s.link.status == Connected))
    && (!s.link.realtimeSocket ==> Quiescent(s))
    && (s.mic.audioStream ==> s.link.status == Connected)
    && (s.mic.audioContext || s.mic.audioSourceNode || s.mic.audioProcessor || s.mic.micEnabled ==> s.mic.audioStream)
    && (s.calls.hangupTimer.Some? ==> s.calls.pendingHangupReason.Some? && s.link.status == Connected)
    && (s.calls.hangupTimer.Some? ==> s.calls.hangupTimer.value <= s.calls.lastTimerId)
    && (s.link.targetSessionId.Some? ==> s.link.signalingSocket)
    && (s.link.signalingSocket ==> s.link.proxySessionId.Some?)
    && (s.chat.pendingUserMessageId.Some? ==> s.chat.pendingUserMessageId.value != "")
  }

  /** The state a fresh session starts in, with the history loaded from storage. */
  function Initial(config: Config, history: seq<ChatMessage>, videoElement: bool): (s: State)
    ensures Invariant(s) && Quiescent(s) && s.link.status == Idle && s.chat.messages == history
  {
    State(config,
          Chat(history, history, "", None, map[], false, false),
          Link(Idle, "", false, false, false, false, None, None, false, videoElement, false),
          Mic(0, false, false, false, false, false, false),
          Calls(map[], None, None, 0),
          [])
  }

  // ---------------------------------------------------------------------
  // Microphone

  /** `stopRecording`: a new token (superseding any attempt in flight) and no audio graph. */
  function RecordingStopped(m: Mic): (r: Mic)
    ensures MicIdle(r) && r.recordingToken == m.recordingToken + 1
  {
    Mic(m.recordingToken + 1, false, false, false, false, false, false)
  }

  /** The synchronous part of `startRecording`: with no stream yet, a new attempt token. */
  function RecordingRequested(m: Mic): Mic
  {
    if m.audioStream then m else m.(recordingToken := m.recordingToken + 1)
  }

  /**
   * The microphone arrived for attempt `token`: kept only when no later
   * attempt or stop has happened since; then the stream is live, unmuted,
   * and wired to the capture processor.
   */
  function MicrophoneGranted(m: Mic, token: nat): Mic
  {
    if token != m.recordingToken then m
    else m.(audioStream := true, micMuted := false, micEnabled := true,
            audioContext := true, audioSourceNode := true, audioProcessor := true)
  }

  /**
   * An attempt is honoured only while it is the latest: once a later
   * request or a stop has advanced the token, its grant changes nothing.
   */
  lemma SupersededGrantIgnored(m: Mic, token: nat)
    requires token == m.recordingToken
    ensures MicrophoneGranted(RecordingStopped(m), token) == RecordingStopped(m)
    ensures !m.audioStream ==> MicrophoneGranted(RecordingRequested(m), token) == RecordingRequested(m)
    ensures MicrophoneGranted(m, token).audioStream && !MicrophoneGranted(m, token).micMuted
  {
  }

  function Muted(m: Mic): Mic
  {
    if !m.audioStream then m else m.(micMuted := true, micEnabled := false)
  }

  function Unmuted(m: Mic): Mic
  {
    if !m.audioStream then m else m.(micMuted := false, micEnabled := true)
  }

  function MicrophoneToggled(m: Mic): Mic
  {
    if !m.audioStream then m else if m.micMuted then Unmuted(m) else Muted(m)
  }

  /** Mute and unmute do nothing without a stream; with one, they set and clear the muted flag. */
  lemma MuteSpec(m: Mic)
    ensures !m.audioStream ==> Muted(m) == m && Unmuted(m) == m && MicrophoneToggled(m) == m
    ensures m.audioStream ==> Muted(m).micMuted && !Muted(m).micEnabled
    ensures m.audioStream ==> !Unmuted(m).micMuted && Unmuted(m).micEnabled
    ensures m.audioStream ==> MicrophoneToggled(m).micMuted == !m.micMuted
    ensures Unmuted(Muted(m)) == Unmuted(m)
  {
  }

  // ---------------------------------------------------------------------
  // Teardown

  /**
   * `teardown(next, reason)`: the recording is stopped and every
   * session-scoped handle, accumulator, pending id, hangup reason and timer
   * is dropped; the error message becomes the reason (empty for none) and
   * the status becomes `next`. The transcript, the draft, the
   * configuration, the timer counter and what was sent are kept.
   */
  function TornDown(s: State, next: Status, reason: string): (r: State)
    ensures Quiescent(r) && r.link.status == next && r.link.errorMessage == reason
    ensures r.config == s.config && r.sent == s.sent
    ensures r.chat.messages == s.chat.messages && r.chat.savedHistory == s.chat.savedHistory
    ensures r.chat.manualMessage == s.chat.manualMessage
    ensures r.mic.recordingToken == s.mic.recordingToken + 1 && r.calls.lastTimerId == s.calls.lastTimerId
    ensures r.link.videoElement == s.link.videoElement
    ensures r.link.videoStreaming == (s.link.videoStreaming && !s.link.videoElement)
  {
    s.(mic := RecordingStopped(s.mic),
       link := s.link.(status := next, errorMessage := reason,
                       realtimeSocket := false, socketOpen := false, signalingSocket := false, peerConnection := false,
                       proxySessionId := None, targetSessionId := None, hasHydratedIceServers := false,
                       videoStreaming := if s.link.videoElement then false else s.link.videoStreaming),
       chat := s.chat.(segments := map[], pendingUserMessageId := None, userSpeaking := false, assistantThinking := false),
       calls := s.calls.(callBuffers := map[], pendingHangupReason := None, hangupTimer := None))
  }

  /**
   * A second teardown with the same arguments changes nothing but the
   * recording token, which every `stopRecording` advances.
   */
  lemma TeardownIdempotent(s: State, next: Status, reason: string)
    ensures var once := TornDown(s, next, reason);
      TornDown(once, next, reason) == once.(mic := once.mic.(recordingToken := s.mic.recordingToken + 2))
  {
  }

  /** Teardown to 'idle' or 'error' always leaves a state in which the invariant holds, whatever came before. */
  lemma TeardownRestoresInvariant(s: State, next: Status, reason: string)
    requires next == Idle || next == Error
    ensures Invariant(TornDown(s, next, reason))
  {
  }

  // ---------------------------------------------------------------------
  // Transcript

  /** `handleUserPlaceholder`: a "Listening..." user entry, unless one is already pending. */
  function PlaceholderOpened(c: Chat, unique: string, now: int): Chat
  {
    if c.pendingUserMessageId.Some? then c
    else
      var id := CreateId("user", unique);
      c.(messages := c.messages + [ChatMessage(id, User, ListeningText, true, now)],
         pendingUserMessageId := Some(id))
  }

  /**
   * `resolveUserPlaceholder`: the pending entry is removed when the
   * transcript is blank, otherwise it gets the trimmed transcript and
   * stops streaming; either way nothing is pending afterwards.
   */
  function PlaceholderResolved(c: Chat, transcript: string): Chat
  {
    if c.pendingUserMessageId.None? then c
    else
      var id := c.pendingUserMessageId.value;
      var t := Text.Trim(transcript);
      c.(messages := if t == "" then Removed(c.messages, id) else Updated(c.messages, id, t, Some(false)),
         pendingUserMessageId := None)
  }

  /**
   * At most one placeholder is pending: opening one while another is
   * pending adds nothing. Resolving with none pending changes nothing.
   * Resolving a blank transcript removes the pending entry; any other
   * transcript becomes that entry's text, trimmed, with streaming off.
   */
  lemma PlaceholderSpec(c: Chat, unique: string, now: int, transcript: string)
    ensures c.pendingUserMessageId.Some? ==> PlaceholderOpened(c, unique, now) == c
    ensures c.pendingUserMessageId.None? ==>
      var r := PlaceholderOpened(c, unique, now);
      && r.pendingUserMessageId.Some?
      && r.messages == c.messages + [ChatMessage(r.pendingUserMessageId.value, User, ListeningText, true, now)]
    ensures c.pendingUserMessageId.None? ==> PlaceholderResolved(c, transcript) == c
    ensures c.pendingUserMessageId.Some? ==>
      var r := PlaceholderResolved(c, transcript);
      var id := c.pendingUserMessageId.value;
      var i := FindIndex(c.messages, id);
      && r.pendingUserMessageId.None?
      && (Text.AllWhitespace(transcript) && i >= 0 ==>
            r.messages == c.messages[..i] + c.messages[i + 1..]
            && CountId(r.messages, id) + 1 == CountId(c.messages, id))
      && (!Text.AllWhitespace(transcript) && i >= 0 ==>
            |r.messages| == |c.messages|
            && r.messages[i] == c.messages[i].(text := Text.Trim(transcript), streaming := false))
      && (i == -1 ==> r.messages == c.messages)
  {
    Text.TrimSpec(transcript);
    if c.pendingUserMessageId.Some? {
      var id := c.pendingUserMessageId.value;
      RemovedSpec(c.messages, id);
      UpdatedSpec(c.messages, id, Text.Trim(transcript), Some(false));
    }
  }

  /**
   * `handleAssistantDelta`: thinking is on, the response's accumulator
   * grows by the delta, and its entry is upserted with the accumulated text.
   */
  function AssistantDelta(c: Chat, id: string, delta: string, now: int): Chat
  {
    var next := Segment(c.segments, id) + delta;
    c.(assistantThinking := true, segments := c.segments[id := next],
       messages := Upserted(c.messages, id, next, now))
  }

  /** `finalizeAssistantResponse`: the entry stops streaming and thinking is off. */
  function AssistantFinalized(c: Chat, id: string): Chat
  {
    c.(messages := Finalized(c.messages, id), assistantThinking := false)
  }

  /** The transcript after one `handleAssistantDelta` per delta of `ds`, all for response `id`. */
  function AssistantDeltas(c: Chat, id: string, ds: seq<string>, now: int): Chat
  {
    if ds == [] then c else AssistantDelta(AssistantDeltas(c, id, ds[..|ds| - 1], now), id, ds[|ds| - 1], now)
  }

  /** Streaming touches only the accumulators, the log and the thinking flag. */
  lemma {:induction false} AssistantDeltasFrame(c: Chat, id: string, ds: seq<string>, now: int)
    ensures var r := AssistantDeltas(c, id, ds, now);
      && r.segments == StreamedSegments(c.segments, id, ds)
      && r.messages == StreamedLog(c.messages, c.segments, id, ds, now)
      && r.savedHistory == c.savedHistory && r.manualMessage == c.manualMessage
      && r.pendingUserMessageId == c.pendingUserMessageId && r.userSpeaking == c.userSpeaking
      && (ds != [] ==> r.assistantThinking)
  {
    if ds != [] {
      AssistantDeltasFrame(c, id, ds[..|ds| - 1], now);
    }
  }

  /**
   * After deltas d1..dk for response r, starting with no accumulator for r
   * and no entry for it: the accumulator holds d1 + ... + dk, exactly one
   * entry has id r and it streams that text; finalising then turns its
   * streaming off and thinking off, and touches no other entry.
   */
  lemma StreamThenFinalize(c: Chat, id: string, ds: seq<string>, now: int)
    requires id !in c.segments && CountId(c.messages, id) == 0 && ds != []
    ensures var r := AssistantDeltas(c, id, ds, now);
      var j := FindIndex(r.messages, id);
      var f := AssistantFinalized(r, id);
      && id in r.segments && r.segments[id] == ConcatDeltas(ds)
      && CountId(r.messages, id) == 1
      && j >= 0 && r.messages[j].text == ConcatDeltas(ds) && r.messages[j].streaming
      && r.assistantThinking
      && !f.assistantThinking && f.messages[j] == r.messages[j].(streaming := false)
      && |f.messages| == |r.messages|
      && (forall k :: 0 <= k < |r.messages| && k != j ==> f.messages[k] == r.messages[k])
  {
    AssistantDeltasFrame(c, id, ds, now);
    StreamedSegmentsSpec(c.segments, id, ds);
    StreamedLogSpec(c.messages, c.segments, id, ds, now);
    var r := AssistantDeltas(c, id, ds, now);
    FinalizedSpec(r.messages, id);
  }

  /** `sendTextMessage`. */
  function TextSent(s: State, unique: string, now: int): State
  {
    var text := Text.Trim(s.chat.manualMessage);
    if text == "" then s
    else if !s.link.realtimeSocket || !s.link.socketOpen then s.(link := s.link.(errorMessage := NotConnected))
    else s.(chat := s.chat.(manualMessage := "",
                            messages := s.chat.messages + [ChatMessage(CreateId("user", unique), User, text, false, now)]),
            sent := s.sent + [UserText(text), ResponseCreate])
  }

  /**
   * A blank draft is not sent; with no open socket only the error message
   * changes; otherwise the trimmed text is logged as a user entry, sent,
   * followed by a response request, and the draft is cleared.
   */
  lemma TextSentSpec(s: State, unique: string, now: int)
    ensures Text.AllWhitespace(s.chat.manualMessage) ==> TextSent(s, unique, now) == s
    ensures !Text.AllWhitespace(s.chat.manualMessage) && !(s.link.realtimeSocket && s.link.socketOpen) ==>
      TextSent(s, unique, now) == s.(link := s.link.(errorMessage := NotConnected))
    ensures !Text.AllWhitespace(s.chat.manualMessage) && s.link.realtimeSocket && s.link.socketOpen ==>
      var r := TextSent(s, unique, now);
      var t := Text.Trim(s.chat.manualMessage);
      && r.chat.manualMessage == "" && t != ""
      && |r.chat.messages| == |s.chat.messages| + 1 && r.chat.messages[..|s.chat.messages|] == s.chat.messages
      && r.chat.messages[|s.chat.messages|].text == t && r.chat.messages[|s.chat.messages|].role == User
      && r.sent == s.sent + [UserText(t), ResponseCreate]
      && r.link == s.link && r.mic == s.mic && r.calls == s.calls
    ensures Invariant(s) ==> Invariant(TextSent(s, unique, now))
  {
    Text.TrimSpec(s.chat.manualMessage);
    var r := TextSent(s, unique, now);
    if !Text.AllWhitespace(s.chat.manualMessage) && s.link.realtimeSocket && s.link.socketOpen {
      assert r.chat.messages[..|s.chat.messages|] == s.chat.messages;
    }
  }

  function HistoryCleared(c: Chat): Chat
  {
    c.(messages := [], savedHistory := [])
  }

  /** The history watcher firing: storage now loads back as the last 40 entries. */
  function HistoryFlushed(c: Chat): Chat
  {
    c.(savedHistory := TrimHistory(c.messages))
  }

  // ---------------------------------------------------------------------
  // Outbound session configuration

  /** The texts of the user entries of a log, in order. */
  function UserTexts(msgs: seq<ChatMessage>): (r: seq<string>)
    ensures |r| <= |msgs|
  {
    if msgs == [] then []
    else UserTexts(msgs[..|msgs| - 1]) + (if msgs[|msgs| - 1].role == User then [msgs[|msgs| - 1].text] else [])
  }

  /** `filter(role === 'user').slice(-3)`: the texts of the last three user entries, oldest first. */
  function RecentUserTexts(msgs: seq<ChatMessage>): (r: seq<string>)
    ensures |r| == if |UserTexts(msgs)| <= ReplayedUserMessages then |UserTexts(msgs)| else ReplayedUserMessages
    ensures r == UserTexts(msgs)[|UserTexts(msgs)| - |r|..]
  {
    var u := UserTexts(msgs);
    if |u| <= ReplayedUserMessages then u else u[|u| - ReplayedUserMessages..]
  }

  /** Every user text comes from a user entry of the log. */
  lemma {:induction false} UserTextsFromLog(msgs: seq<ChatMessage>, k: nat)
    requires k < |UserTexts(msgs)|
    ensures exists i :: 0 <= i < |msgs| && msgs[i].role == User && msgs[i].text == UserTexts(msgs)[k]
  {
    var n := |msgs| - 1;
    var front := UserTexts(msgs[..n]);
    if k < |front| {
      UserTextsFromLog(msgs[..n], k);
      var i :| 0 <= i < n && msgs[..n][i].role == User && msgs[..n][i].text == front[k];
      assert msgs[i] == msgs[..n][i];
    } else {
      assert msgs[n].role == User && msgs[n].text == UserTexts(msgs)[k];
    }
  }

  /** The frames that replay user texts. */
  function UserTextFrames(texts: seq<string>): (r: seq<Outbound>)
    ensures |r| == |texts| && forall k :: 0 <= k < |r| ==> r[k] == UserText(texts[k])
  {
    if texts == [] then [] else UserTextFrames(texts[..|texts| - 1]) + [UserText(texts[|texts| - 1])]
  }

  /** The frames `sendSessionUpdate` sends: the update, then the replayed user texts. */
  function SessionUpdateFrames(s: State): seq<Outbound>
  {
    [SessionUpdate(s.config.prompt, s.config.voice)] + UserTextFrames(RecentUserTexts(s.chat.messages))
  }

  /**
   * `sendSessionUpdate`: with an open socket, the session update carrying
   * the current prompt and voice, then the last three user messages
   * replayed; nothing is delivered without an open socket.
   */
  function SessionUpdateSent(s: State): State
  {
    if !s.link.realtimeSocket || !s.link.socketOpen then s
    else s.(sent := s.sent + SessionUpdateFrames(s))
  }

  /**
   * A session update sends at most four frames: the update with the
   * current prompt and voice, then at most three replayed user texts,
   * oldest first, each the text of a user entry of the log.
   */
  lemma SessionUpdateSpec(s: State)
    ensures var f := SessionUpdateFrames(s);
      && 1 <= |f| <= 1 + ReplayedUserMessages
      && f[0] == SessionUpdate(s.config.prompt, s.config.voice)
      && forall k :: 1 <= k < |f| ==>
           f[k].UserText? &&
           exists i :: 0 <= i < |s.chat.messages| && s.chat.messages[i].role == User && s.chat.messages[i].text == f[k].text
  {
    var f := SessionUpdateFrames(s);
    var texts := RecentUserTexts(s.chat.messages);
    var u := UserTexts(s.chat.messages);
    forall k | 1 <= k < |f|
      ensures f[k].UserText?
      ensures exists i :: 0 <= i < |s.chat.messages| && s.chat.messages[i].role == User && s.chat.messages[i].text == f[k].text
    {
      assert f[k] == UserText(texts[k - 1]);
      assert texts[k - 1] == u[|u| - |texts| + k - 1];
      UserTextsFromLog(s.chat.messages, |u| - |texts| + k - 1);
    }
  }

  /** The frames carrying captured audio, one `input_audio_buffer.append` per chunk. */
  function AudioFrames(chunks: seq<string>): (r: seq<Outbound>)
    ensures |r| == |chunks| && forall k :: 0 <= k < |r| ==> r[k] == AudioAppend(chunks[k])
  {
    if chunks == [] then [] else AudioFrames(chunks[..|chunks| - 1]) + [AudioAppend(chunks[|chunks| - 1])]
  }

  /**
   * The capture processor's `onaudioprocess`: with an open socket the
   * encoded chunks are sent in order; without one the frame is dropped.
   */
  function AudioCaptured(s: State, chunks: seq<string>): State
  {
    if !s.link.realtimeSocket || !s.link.socketOpen then s
    else s.(sent := s.sent + AudioFrames(chunks))
  }

  /** `setPrompt`: empty selects the default; a connected session is re-configured. */
  function PromptSet(s: State, prompt: string): State
  {
    var t := s.(config := s.config.(prompt := if prompt == "" then DefaultPrompt else prompt));
    if t.link.status == Connected then SessionUpdateSent(t) else t
  }

  /** `setVoice`: empty is ignored; a connected session is re-configured. */
  function VoiceSet(s: State, voice: string): State
  {
    if voice == "" then s
    else
      var t := s.(config := s.config.(voice := voice));
      if t.link.status == Connected then SessionUpdateSent(t) else t
  }

  /** `setCharacter`: empty is ignored; takes effect at the next connect. */
  function CharacterSet(c: Config, characterName: string): Config
  {
    if characterName == "" then c else c.(characterName := characterName)
  }

  /**
   * The setters: an empty prompt selects the default prompt and an empty
   * voice or character is ignored; a connected session with an open
   * socket is re-configured with a session update carrying the new
   * values, while any other session only records them.
   */
  lemma SettersSpec(s: State, prompt: string, voice: string, characterName: string)
    ensures PromptSet(s, prompt).config.prompt == (if prompt == "" then DefaultPrompt else prompt)
    ensures PromptSet(s, prompt).config.voice == s.config.voice && PromptSet(s, prompt).chat == s.chat
    ensures voice == "" ==> VoiceSet(s, voice) == s
    ensures voice != "" ==> VoiceSet(s, voice).config.voice == voice && VoiceSet(s, voice).config.prompt == s.config.prompt
    ensures s.link.status == Connected && s.link.realtimeSocket && s.link.socketOpen ==>
      && PromptSet(s, prompt).sent == s.sent + [SessionUpdate(PromptSet(s, prompt).config.prompt, s.config.voice)]
                                               + UserTextFrames(RecentUserTexts(s.chat.messages))
      && (voice != "" ==> VoiceSet(s, voice).sent == s.sent + [SessionUpdate(s.config.prompt, voice)]
                                                   + UserTextFrames(RecentUserTexts(s.chat.messages)))
    ensures s.link.status != Connected ==> PromptSet(s, prompt).sent == s.sent && VoiceSet(s, voice).sent == s.sent
    ensures characterName == "" ==> CharacterSet(s.config, characterName) == s.config
    ensures characterName != "" ==> CharacterSet(s.config, characterName) == s.config.(characterName := characterName)
  {
  }

  // ---------------------------------------------------------------------
  // Signalling

  /** `setupSignalingSocket`: with a proxy id and no signalling socket yet, open one. */
  function SignalingSetUp(l: Link): Link
  {
    if l.proxySessionId.None? || l.proxySessionId.value == "" || l.signalingSocket then l
    else l.(targetSessionId := Some("target-" + l.proxySessionId.value), signalingSocket := true)
  }

  /** The `session.session_id` case: a new, non-empty id replaces the proxy id and signalling starts. */
  function SessionIdReceived(l: Link, m: Inbound): Link
  {
    var sid := if m.sessionId.Some? then m.sessionId else m.altSessionId;
    if sid.Some? && sid.value != "" && sid != l.proxySessionId then SignalingSetUp(l.(proxySessionId := sid))
    else l
  }

  function SignalingClosed(l: Link): Link
  {
    l.(signalingSocket := false, targetSessionId := None)
  }

  /**
   * `handleOffer` run to completion: the ICE servers are hydrated unless
   * they already were (`settled` says whether the fetch settled them: a
   * well-formed answer or a failed request does, any other answer does
   * not), and a new peer connection replaces any earlier one.
   */
  function OfferAnswered(l: Link, settled: bool): Link
  {
    l.(hasHydratedIceServers := l.hasHydratedIceServers || settled, peerConnection := true)
  }

  /** The peer connection's `ontrack`: streaming starts when there is a video element. */
  function RemoteTrack(l: Link): Link
  {
    if !l.videoElement then l else l.(videoStreaming := true)
  }

  /**
   * The `session.session_id` case: an id that is new and non-empty
   * replaces the proxy id and, when no signalling socket is open yet,
   * opens one towards "target-<id>"; a missing, empty or repeated id
   * changes nothing.
   */
  lemma SessionIdSpec(l: Link, m: Inbound)
    ensures var sid := if m.sessionId.Some? then m.sessionId else m.altSessionId;
      && (sid.None? || sid.value == "" || sid == l.proxySessionId ==> SessionIdReceived(l, m) == l)
      && (sid.Some? && sid.value != "" && sid != l.proxySessionId ==>
            var r := SessionIdReceived(l, m);
            && r.proxySessionId == sid && r.signalingSocket
            && (!l.signalingSocket ==> r.targetSessionId == Some("target-" + sid.value))
            && (l.signalingSocket ==> r.targetSessionId == l.targetSessionId)
            && r.status == l.status && r.realtimeSocket == l.realtimeSocket && r.peerConnection == l.peerConnection)
  {
    var sid := if m.sessionId.Some? then m.sessionId else m.altSessionId;
    if sid.Some? && sid.value != "" && sid != l.proxySessionId {
      assert SessionIdReceived(l, m) == SignalingSetUp(l.(proxySessionId := sid));
    }
  }

  /**
   * The rest of signalling: the socket's close drops the target, an
   * answered offer leaves a peer connection whose ICE servers stay
   * hydrated once they are, and a remote track streams into the video
   * element when there is one.
   */
  lemma SignalingSpec(l: Link, settled: bool)
    ensures !SignalingClosed(l).signalingSocket && SignalingClosed(l).targetSessionId.None?
    ensures OfferAnswered(l, settled).peerConnection
    ensures l.hasHydratedIceServers ==> OfferAnswered(l, settled).hasHydratedIceServers
    ensures settled ==> OfferAnswered(l, settled).hasHydratedIceServers
    ensures RemoteTrack(l).videoStreaming <==> l.videoStreaming || l.videoElement
  {
  }

  /** The socket's `onopen`: it is open from now on. */
  function SocketOpened(s: State): State
  {
    s.(link := s.link.(socketOpen := true))
  }

  // ---------------------------------------------------------------------
  // Tool calls and hangup

  /** The frames `sendFunctionCallResult` sends when the socket is open. */
  function CallResultFrames(l: Link, callId: string, output: ToolCalls.CallOutput): seq<Outbound>
  {
    if !l.realtimeSocket || !l.socketOpen then [] else [FunctionCallOutput(callId, output), ResponseCreate]
  }

  /** `scheduleAutoHangup` on the call state: record the reason and cancel any timer. */
  function HangupScheduled(c: Calls, reason: Option<string>): Calls
  {
    c.(pendingHangupReason := Some(ToolCalls.HangupReason(reason)), hangupTimer := None)
  }

  /**
   * `handleFunctionCallDone`, with `handleFunctionCallRequest` and
   * `scheduleAutoHangup`: resolve the arguments, drop the call's buffer,
   * read the reason from the parsed arguments, and dispatch on the name.
   */
  function CallFinished(s: State, name: Option<string>, callId: Option<string>, arguments: Option<string>,
                        reasonOf: string -> Option<string>): State
  {
    var key := ToolCalls.CallKey(callId);
    var reason := ToolCalls.ReasonField(ToolCalls.ResolveArguments(arguments, key, s.calls.callBuffers), reasonOf);
    s.(calls := CallsAfterCall(s.calls, name.GetOr(""), key, reason),
       sent := s.sent + ReplyFrames(s.link, key, ToolCalls.Reply(name.GetOr(""), key, reason)))
  }

  /** The call state after a finished call: its buffer dropped, a hangup scheduled for `end_conversation`. */
  function CallsAfterCall(c: Calls, n: string, key: Option<string>, reason: Option<string>): Calls
  {
    var calls := c.(callBuffers := if key.Some? then c.callBuffers - {key.value} else c.callBuffers);
    if n == ToolCalls.EndConversation then HangupScheduled(calls, reason) else calls
  }

  /** The frames answering a finished call: its reply, when there is one. */
  function ReplyFrames(l: Link, key: Option<string>, reply: Option<ToolCalls.CallOutput>): seq<Outbound>
    requires reply.Some? ==> key.Some?
  {
    if reply.Some? then CallResultFrames(l, key.value, reply.value) else []
  }

  /**
   * A finished call always drops its buffer and leaves the transcript,
   * the connection and the microphone untouched.
   */
  lemma CallFinishedFrame(s: State, name: Option<string>, callId: Option<string>, arguments: Option<string>,
                          reasonOf: string -> Option<string>)
    ensures var r := CallFinished(s, name, callId, arguments, reasonOf);
      var key := ToolCalls.CallKey(callId);
      && (key.Some? ==> key.value !in r.calls.callBuffers && r.calls.callBuffers == s.calls.callBuffers - {key.value})
      && (key.None? ==> r.calls.callBuffers == s.calls.callBuffers)
      && r.calls.lastTimerId == s.calls.lastTimerId
      && r.config == s.config && r.chat == s.chat && r.link == s.link && r.mic == s.mic
  {
    var key := ToolCalls.CallKey(callId);
    var reason := ToolCalls.ReasonField(ToolCalls.ResolveArguments(arguments, key, s.calls.callBuffers), reasonOf);
    assert CallFinished(s, name, callId, arguments, reasonOf).calls == CallsAfterCall(s.calls, name.GetOr(""), key, reason);
  }

  /**
   * A finished call records the hangup reason and cancels the timer
   * exactly when it names `end_conversation`; any other call leaves both
   * as they were.
   */
  lemma CallFinishedHangup(s: State, name: Option<string>, callId: Option<string>, arguments: Option<string>,
                           reasonOf: string -> Option<string>)
    ensures var r := CallFinished(s, name, callId, arguments, reasonOf);
      var key := ToolCalls.CallKey(callId);
      var reason := ToolCalls.ReasonField(ToolCalls.ResolveArguments(arguments, key, s.calls.callBuffers), reasonOf);
      var hangup := name.GetOr("") == ToolCalls.EndConversation;
      && (hangup ==> r.calls.pendingHangupReason == Some(ToolCalls.HangupReason(reason)) && r.calls.hangupTimer.None?)
      && (!hangup ==> r.calls.pendingHangupReason == s.calls.pendingHangupReason && r.calls.hangupTimer == s.calls.hangupTimer)
  {
  }

  /**
   * A finished call sends exactly the reply ToolCalls.Reply prescribes,
   * followed by a response request, when it has an id and the socket is
   * open, and nothing otherwise.
   */
  lemma CallFinishedReply(s: State, name: Option<string>, callId: Option<string>, arguments: Option<string>,
                          reasonOf: string -> Option<string>)
    ensures var r := CallFinished(s, name, callId, arguments, reasonOf);
      var key := ToolCalls.CallKey(callId);
      var reason := ToolCalls.ReasonField(ToolCalls.ResolveArguments(arguments, key, s.calls.callBuffers), reasonOf);
      var reply := ToolCalls.Reply(name.GetOr(""), key, reason);
      && (reply.Some? <==> key.Some?)
      && r.sent == s.sent + (if reply.Some? && s.link.realtimeSocket && s.link.socketOpen
                             then [FunctionCallOutput(key.value, reply.value), ResponseCreate] else [])
  {
    var key := ToolCalls.CallKey(callId);
    var reason := ToolCalls.ReasonField(ToolCalls.ResolveArguments(arguments, key, s.calls.callBuffers), reasonOf);
    var reply := ToolCalls.Reply(name.GetOr(""), key, reason);
    ToolCalls.ReplySpec(name.GetOr(""), key, reason);
    assert CallFinished(s, name, callId, arguments, reasonOf).sent == s.sent + ReplyFrames(s.link, key, reply);
  }

  /**
   * `attemptAutoHangup`: with a pending reason on a connected session,
   * (re-)arm the timer under a fresh id; otherwise nothing.
   */
  function HangupAttempted(c: Calls, status: Status): Calls
  {
    if c.pendingHangupReason.None? || c.pendingHangupReason.value == "" || status != Connected then c
    else c.(hangupTimer := Some(c.lastTimerId + 1), lastTimerId := c.lastTimerId + 1)
  }

  /** The timer fired: the reason is consumed and the session disconnects. */
  function HangupFired(s: State): State
  {
    TornDown(s.(calls := s.calls.(hangupTimer := None, pendingHangupReason := None)), Idle, "")
  }

  /**
   * Hangup end to end: after an `end_conversation` call, the next
   * completed response on a connected session arms a timer under an id
   * never used before, replacing any earlier one; firing it ends in 'idle'
   * with no error and nothing pending. Without a pending reason, or on a
   * session that is not connected, nothing is armed.
   */
  lemma HangupSpec(s: State, reason: Option<string>)
    requires Invariant(s)
    ensures s.calls.pendingHangupReason.None? || s.link.status != Connected ==>
      HangupAttempted(s.calls, s.link.status) == s.calls
    ensures s.link.status == Connected ==>
      var h := HangupScheduled(s.calls, reason);
      var a := HangupAttempted(h, Connected);
      var f := HangupFired(s.(calls := a));
      && h.pendingHangupReason == Some(ToolCalls.HangupReason(reason)) && h.hangupTimer.None?
      && a.hangupTimer == Some(s.calls.lastTimerId + 1)
      && (s.calls.hangupTimer.Some? ==> a.hangupTimer != s.calls.hangupTimer)
      && f.link.status == Idle && f.link.errorMessage == "" && Quiescent(f)
  {
  }

  // ---------------------------------------------------------------------
  // Connection

  /**
   * `connect`: without a license only the license message is shown; while
   * connecting or connected nothing happens; otherwise the error clears,
   * the status becomes 'connecting', the response accumulators and the
   * pending placeholder are dropped, and the socket is created (or, when
   * its construction throws, the session ends in 'error').
   */
  function Connect(s: State, license: string, constructionFails: bool): State
  {
    if license == "" then s.(link := s.link.(errorMessage := ConfigureLicense))
    else if s.link.status == Connecting || s.link.status == Connected then s
    else
      var c := s.(link := s.link.(errorMessage := "", status := Connecting),
                  chat := s.chat.(segments := map[], pendingUserMessageId := None));
      if constructionFails then TornDown(c, Error, ConnectFailed)
      else c.(link := c.link.(realtimeSocket := true, socketOpen := false))
  }

  lemma ConnectSpec(s: State, license: string, constructionFails: bool)
    requires Invariant(s)
    ensures license == "" ==> Connect(s, license, constructionFails) == s.(link := s.link.(errorMessage := ConfigureLicense))
    ensures license != "" && (s.link.status == Connecting || s.link.status == Connected) ==>
      Connect(s, license, constructionFails) == s
    ensures license != "" && (s.link.status == Idle || s.link.status == Error) && !constructionFails ==>
      var r := Connect(s, license, constructionFails);
      && r.link.status == Connecting && r.link.realtimeSocket && !r.link.socketOpen && r.link.errorMessage == ""
      && r.chat.messages == s.chat.messages && Invariant(r)
    ensures license != "" && (s.link.status == Idle || s.link.status == Error) && constructionFails ==>
      var r := Connect(s, license, constructionFails);
      r.link.status == Error && r.link.errorMessage == ConnectFailed && Quiescent(r)
  {
  }

  /**
   * The socket's `onclose`: back to 'idle'; the "Session closed." notice
   * appears only when the session had been connected.
   */
  function SocketClosed(s: State): State
  {
    TornDown(s, Idle, if s.link.status == Connected then SessionClosed else "")
  }

  lemma SocketClosedSpec(s: State)
    ensures SocketClosed(s).link.status == Idle && Quiescent(SocketClosed(s))
    ensures SocketClosed(s).link.errorMessage == SessionClosed <==> s.link.status == Connected
    ensures s.link.status != Connected ==> SocketClosed(s).link.errorMessage == ""
  {
  }

  /** `toggleSession`: disconnect while connecting or connected, connect otherwise. */
  function SessionToggled(s: State, license: string, constructionFails: bool): State
  {
    if s.link.status == Connected || s.link.status == Connecting then TornDown(s, Idle, "")
    else Connect(s, license, constructionFails)
  }

  /**
   * Toggling ends a connecting or connected session in 'idle' with no
   * error and starts one from 'idle' or 'error'; with a license and a
   * socket that can be built, two toggles from 'idle' or 'error' end
   * where a disconnect would, in 'idle' with nothing held.
   */
  lemma ToggleSpec(s: State, license: string, constructionFails: bool)
    requires Invariant(s)
    ensures s.link.status == Connected || s.link.status == Connecting ==>
      var r := SessionToggled(s, license, constructionFails);
      r.link.status == Idle && r.link.errorMessage == "" && Quiescent(r)
    ensures s.link.status == Idle || s.link.status == Error ==>
      SessionToggled(s, license, constructionFails) == Connect(s, license, constructionFails)
    ensures license != "" && !constructionFails && (s.link.status == Idle || s.link.status == Error) ==>
      var r := SessionToggled(SessionToggled(s, license, constructionFails), license, constructionFails);
      r.link.status == Idle && r.link.errorMessage == "" && Quiescent(r) && r.chat.messages == s.chat.messages
  {
  }

  // ---------------------------------------------------------------------
  // Inbound events

  /**
   * The socket's `onmessage` switch, on the session state (the audio case
   * only feeds the playback queue, which is not part of this value).
   */
  function Handled(s: State, m: Inbound, unique: string, now: int, reasonOf: string -> Option<string>): State
  {
    Dispatched(s, KindOf(m.kind), m, unique, now, reasonOf)
  }

  /** The case of the switch selected by `kind`. */
  function Dispatched(s: State, kind: EventKind, m: Inbound, unique: string, now: int,
                      reasonOf: string -> Option<string>): State
  {
    match kind
    case SessionCreated => SessionUpdateSent(s)
    case SessionUpdated => s.(link := s.link.(status := Connected), mic := RecordingRequested(s.mic))
    case SessionIdAssigned => s.(link := SessionIdReceived(s.link, m))
    case SpeechStarted => s.(chat := PlaceholderOpened(s.chat.(userSpeaking := true), unique, now))
    case SpeechStopped => s.(chat := s.chat.(userSpeaking := false))
    case TranscriptionCompleted => s.(chat := PlaceholderResolved(s.chat, m.transcript.GetOr("")))
    case TranscriptDelta => s.(chat := AssistantDelta(s.chat, m.responseId, m.delta.GetOr(""), now))
    case TranscriptDone => s.(chat := AssistantFinalized(s.chat, m.responseId))
    case AudioDelta => s
    case ResponseCompleted | AudioDone =>
      s.(chat := s.chat.(assistantThinking := false), calls := HangupAttempted(s.calls, s.link.status))
    case ArgumentsDelta => s.(calls := s.calls.(callBuffers := ToolCalls.WithFragment(s.calls.callBuffers, m.callId, m.delta)))
    case ArgumentsDone => CallFinished(s, m.name, m.callId, m.arguments, reasonOf)
    case ErrorEvent | ResponseError => TornDown(s, Error, m.errorMessage.GetOr(ServiceError))
    case Unrecognized => s
  }

  /**
   * What the dispatcher promises: frames of any kind it has no case for,
   * and audio frames, leave the session state as it was; error frames end
   * the session in 'error' with the service's message (or the default);
   * `session.updated` makes the session connected and keeps the socket;
   * speech start marks the user speaking, opens a "Listening..." user
   * entry unless one is pending, and leaves the connection alone.
   */
  lemma HandledSpec(s: State, m: Inbound, unique: string, now: int, reasonOf: string -> Option<string>)
    ensures KindOf(m.kind) == Unrecognized || KindOf(m.kind) == AudioDelta ==> Handled(s, m, unique, now, reasonOf) == s
    ensures KindOf(m.kind) == ErrorEvent || KindOf(m.kind) == ResponseError ==>
      var r := Handled(s, m, unique, now, reasonOf);
      r.link.status == Error && Quiescent(r) && r.link.errorMessage == m.errorMessage.GetOr(ServiceError)
    ensures KindOf(m.kind) == SessionUpdated ==>
      var r := Handled(s, m, unique, now, reasonOf);
      r.link.status == Connected && r.link.realtimeSocket == s.link.realtimeSocket && r.chat == s.chat
    ensures KindOf(m.kind) == SpeechStarted ==>
      var r := Handled(s, m, unique, now, reasonOf);
      && r.chat.userSpeaking && r.link == s.link && r.mic == s.mic && r.calls == s.calls
      && r.chat.pendingUserMessageId.Some?
      && (s.chat.pendingUserMessageId.None? ==>
            r.chat.messages == s.chat.messages + [ChatMessage(r.chat.pendingUserMessageId.value, User, ListeningText, true, now)])
      && (s.chat.pendingUserMessageId.Some? ==> r.chat == s.chat.(userSpeaking := true))
  {
    DispatchedSpec(s, KindOf(m.kind), m, unique, now, reasonOf);
  }

  /** HandledSpec for the case `kind` selects. */
  lemma DispatchedSpec(s: State, kind: EventKind, m: Inbound, unique: string, now: int,
                       reasonOf: string -> Option<string>)
    ensures kind == Unrecognized || kind == AudioDelta ==> Dispatched(s, kind, m, unique, now, reasonOf) == s
    ensures kind == ErrorEvent || kind == ResponseError ==>
      var r := Dispatched(s, kind, m, unique, now, reasonOf);
      r.link.status == Error && Quiescent(r) && r.link.errorMessage == m.errorMessage.GetOr(ServiceError)
    ensures kind == SessionUpdated ==>
      var r := Dispatched(s, kind, m, unique, now, reasonOf);
      r.link.status == Connected && r.link.realtimeSocket == s.link.realtimeSocket && r.chat == s.chat
    ensures kind == SpeechStarted ==>
      var r := Dispatched(s, kind, m, unique, now, reasonOf);
      && r.chat.userSpeaking && r.link == s.link && r.mic == s.mic && r.calls == s.calls
      && r.chat.pendingUserMessageId.Some?
      && (s.chat.pendingUserMessageId.None? ==>
            r.chat.messages == s.chat.messages + [ChatMessage(r.chat.pendingUserMessageId.value, User, ListeningText, true, now)])
      && (s.chat.pendingUserMessageId.Some? ==> r.chat == s.chat.(userSpeaking := true))
  {
  }

  /**
   * Every event the live socket delivers keeps the invariant: a frame only
   * arrives while the socket exists, and the microphone is never made live
   * by a frame.
   */
  lemma {:induction false} HandledInvariant(s: State, m: Inbound, unique: string, now: int,
                                            reasonOf: string -> Option<string>)
    requires Invariant(s) && s.link.realtimeSocket
    ensures Invariant(Handled(s, m, unique, now, reasonOf))
  {
    var kind := KindOf(m.kind);
    if kind in {SpeechStarted, SpeechStopped, TranscriptionCompleted, TranscriptDelta, TranscriptDone} {
      TranscriptEventInvariant(s, kind, m, unique, now, reasonOf);
    } else if kind in {ResponseCompleted, AudioDone, ArgumentsDelta, ArgumentsDone} {
      ToolEventInvariant(s, kind, m, unique, now, reasonOf);
    } else {
      ConnectionEventInvariant(s, kind, m, unique, now, reasonOf);
    }
  }

  /** The transcript events change only the transcript side, and keep a pending placeholder's id non-empty. */
  lemma TranscriptEventInvariant(s: State, kind: EventKind, m: Inbound, unique: string, now: int,
                                 reasonOf: string -> Option<string>)
    requires Invariant(s) && s.link.realtimeSocket
    requires kind in {SpeechStarted, SpeechStopped, TranscriptionCompleted, TranscriptDelta, TranscriptDone}
    ensures Invariant(Dispatched(s, kind, m, unique, now, reasonOf))
  {
  }

  /** Response and tool-call events: a finished call keeps the connection and cancels or keeps the timer. */
  lemma {:induction false} ToolEventInvariant(s: State, kind: EventKind, m: Inbound, unique: string, now: int,
                                              reasonOf: string -> Option<string>)
    requires Invariant(s) && s.link.realtimeSocket
    requires kind in {ResponseCompleted, AudioDone, ArgumentsDelta, ArgumentsDone}
    ensures Invariant(Dispatched(s, kind, m, unique, now, reasonOf))
  {
    if kind == ArgumentsDone {
      CallFinishedFrame(s, m.name, m.callId, m.arguments, reasonOf);
      CallFinishedHangup(s, m.name, m.callId, m.arguments, reasonOf);
    }
  }

  /** The connection events, audio, errors and unknown frames. */
  lemma ConnectionEventInvariant(s: State, kind: EventKind, m: Inbound, unique: string, now: int,
                                 reasonOf: string -> Option<string>)
    requires Invariant(s) && s.link.realtimeSocket
    requires kind in {SessionCreated, SessionUpdated, SessionIdAssigned, AudioDelta, ErrorEvent, ResponseError, Unrecognized}
    ensures Invariant(Dispatched(s, kind, m, unique, now, reasonOf))
  {
    if kind == ErrorEvent || kind == ResponseError {
      TeardownRestoresInvariant(s, Error, m.errorMessage.GetOr(ServiceError));
    }
  }
}
