# NavTalk realtime session manager, modelled in Dafny

NavTalk is a browser front end for a spoken-language tutor. Its core is the
composable `useNavTalkRealtime`. It opens a realtime socket to the NavTalk
service and dispatches the service's events, keeping three things: a
transcript of user and assistant messages, the microphone capture, and a
shared queue that plays the assistant's audio back. It also answers the
model's `end_conversation` tool call by hanging up a few seconds after the
next completed response. Two small pure helpers sit beside it: asset URL
resolution and the tutor and learning-goal catalogue lookups.

The project models this core as follows.

- **Session class.** `Session.RealtimeSession` is a class whose fields are the
  composable's closure variables. They are grouped into the records
  `SessionState.Config`, `Chat`, `Link`, `Mic` and `Calls`, plus `sent`, the
  log of frames delivered on the realtime socket. There is one method per
  operation the composable exposes and one per callback it installs: socket,
  signalling, microphone grant or denial, hangup timer and history watcher.
- **Proof against SessionState.** Every method is proved against a function of
  `SessionState` that says what the operation does to the whole state. The
  properties of those functions are proved there as lemmas, chief among them:
  - `SessionState.Invariant` holds after every event;
  - teardown resets every session-scoped field;
  - superseded microphone grants are ignored;
  - the hangup timer is unique;
  - placeholders and streamed responses behave as the source intends.
- **Playback queue.** The module-level queue is the class `Playback.Player`. Its
  ghost record of pushed buffers proves strict FIFO order. Decode success,
  decode failure and end of playback arrive as separate events.
- **Array-writing helpers.** `Pcm.FloatTo16BitPcm` and `Wav.CreateWavFromPcm`
  keep the source's in-place writes into a byte array. They are proved
  against the functions `Pcm.EncodePcm16` and `Wav.WavHeader`, whose layout
  and round-trip properties are lemmas.
- **Pure helpers.** `AssetUrl`, `Avatars`, `Goals`, `Catalog`, `ToolCalls`,
  `Transcript` and `Text` are pure functions and lemmas.

What the environment supplies becomes parameters:

- Base64 encoding and decoding and the `reason` field of parsed tool-call
  arguments are function-valued constants given to the constructor.
- `createId`'s random suffix and `Date.now()` are the `unique` and `now`
  parameters.
- Whether the WebSocket constructor throws is `constructionFails`.
- Whether the ICE-server fetch settles is `settled`.
- The environment variables and the stored history are constructor arguments.

Behaviour worth knowing before reading the table:

- the message switch (`src/composables/useNavTalkRealtime.ts:749-806`)
  compares `data.type` with its flat case labels (`session.updated`,
  `response.audio.delta`, ...) and ignores every other type
  (`Protocol.KindOfSpec`);
- `input_audio_buffer.speech_started` (lines 765-768) marks the user
  speaking and opens a placeholder entry; it does not stop playback;
- the realtime socket's close (lines 816-822) always ends in 'idle', and
  the "Session closed." notice appears only when the session had been
  connected;
- teardown is idempotent except for the recording token, which each teardown
  advances (`SessionState.TeardownIdempotent`).

## Model

| member | source | states |
|---|---|---|
| AssetUrl.NormalizeBase | src/utils/assetUrl.ts:1-4 | the base always ends in '/'; a base already ending in '/' is kept, any other gets one '/' appended, and a missing base is "/" |
| AssetUrl.NormalizePath | src/utils/assetUrl.ts:7 | a path starting with '/' loses exactly that one character; any other path is kept verbatim |
| AssetUrl.ResolveAsset | src/utils/assetUrl.ts:6-9 | the URL has the normalised base as a prefix, followed by exactly the normalised path, and its length is their sum |
| AssetUrl.LeadingSlashIgnored | src/utils/assetUrl.ts:6-9 | for any x not starting with '/', resolving "/" + x gives the same URL as resolving x |
| Catalog.FindFirst | src/data/avatars.ts:49 | `find` by id: a result is a catalogue entry carrying the query and no earlier entry carries it; there is no result exactly when no entry carries it |
| Catalog.FindFirstUnique | src/data/goals.ts:42 | with pairwise distinct keys, looking up an entry's key returns that very entry |
| Avatars.FindAvatar | src/data/avatars.ts:47-50 | a missing or empty id gives no tutor; a result is a catalogue entry whose id is the query; no result exactly when no tutor has that id |
| Avatars.AvatarIdsDistinct | src/data/avatars.ts:10-45 | the four tutor ids are pairwise distinct |
| Avatars.FindAvatarReturnsEntry | src/data/avatars.ts:47-50 | looking up any tutor's own id returns that tutor |
| Goals.FindGoal | src/data/goals.ts:40-43 | a missing or empty id gives no goal; a result is a catalogue entry whose id is the query; no result exactly when no goal has that id |
| Goals.GoalIdsDistinct | src/data/goals.ts:9-38 | the four goal ids are pairwise distinct |
| Goals.FindGoalReturnsEntry | src/data/goals.ts:40-43 | looking up any goal's own id returns that goal |
| Bytes.Uint16RoundTrip | src/composables/useNavTalkRealtime.ts:124-135 | `setUint16(.., true)` writes the value modulo 2^16 in two little-endian bytes, which read back to that value |
| Bytes.Uint32RoundTrip | src/composables/useNavTalkRealtime.ts:118-131 | `setUint32(.., true)` writes the value modulo 2^32 in four little-endian bytes, which read back to that value |
| Pcm.Clamp | src/composables/useNavTalkRealtime.ts:63 | the clamped sample lies in [-1, 1], equals the input inside that range and the nearer bound outside it |
| Pcm.Truncate | src/composables/useNavTalkRealtime.ts:64 | conversion of the scaled sample to an integer truncates toward zero |
| Pcm.ToInt16 | src/composables/useNavTalkRealtime.ts:64 | `setInt16` stores a value in [-32768, 32767] congruent to its argument modulo 2^16, and in-range values unchanged |
| Pcm.SampleInRange | src/composables/useNavTalkRealtime.ts:63-64 | clamping before scaling keeps every stored sample in [-32768, 32767] without wrap-around, negative only for a negative sample |
| Pcm.Int16RoundTrip | src/composables/useNavTalkRealtime.ts:64 | a 16-bit value written little-endian reads back as itself |
| Pcm.EncodePcm16 | src/composables/useNavTalkRealtime.ts:58-67 | the encoding has exactly two bytes per input sample |
| Pcm.EncodedSampleAt | src/composables/useNavTalkRealtime.ts:62-65 | the bytes at offset 2k encode sample k of the input, converted as above |
| Pcm.EncodedSampleBounds | src/composables/useNavTalkRealtime.ts:58-67 | the output is 2 bytes per sample and every stored sample lies in [-32768, 32767] with the sign of the clamped input |
| Pcm.QuantizationError | src/composables/useNavTalkRealtime.ts:63-64 | reading a stored sample back with the same scale recovers the clamped input within one quantization step |
| Pcm.SetInt16 | src/composables/useNavTalkRealtime.ts:64 | one `setInt16` leaves the bytes before the offset, appends the little-endian 16-bit value and leaves every byte after it unchanged |
| Pcm.FloatTo16BitPcm | src/composables/useNavTalkRealtime.ts:58-67 | the loop fills a fresh buffer of 2n bytes whose contents are the encoding of the n samples |
| Chunking.Slice | src/composables/useNavTalkRealtime.ts:602 | `slice(i, i + n)` has length n, or what is left of the text after i when that is shorter, and its k-th character is the text's (i + k)-th |
| Chunking.SplitIntoChunks | src/composables/useNavTalkRealtime.ts:600-604 | every piece is non-empty and at most 4096 long, all but the last exactly 4096, their number is the length divided by 4096 rounded up, and they concatenate back to the text |
| Protocol.KindOfSpec | src/composables/useNavTalkRealtime.ts:749-806 | the switch on `data.type` recognises a type exactly when it equals one of its case labels (`error` and `response.error` sharing one case body) and then selects the first label it equals; every other type falls to the default |
| Wav.Ascii | src/composables/useNavTalkRealtime.ts:110-115 | a tag is one byte per character, its code modulo 256 |
| Wav.WriteString | src/composables/useNavTalkRealtime.ts:110-115 | `writeString` appends the tag's bytes at the offset, advances it by the tag's length and leaves the bytes after the tag unchanged |
| Wav.SetUint32 | src/composables/useNavTalkRealtime.ts:118-119 | a 32-bit size field is appended little-endian after the bytes already written; the bytes after it are unchanged |
| Wav.SetUint16 | src/composables/useNavTalkRealtime.ts:124-125 | a 16-bit field is appended little-endian after the bytes already written; the bytes after it are unchanged |
| Wav.WriteRiffDescriptor | src/composables/useNavTalkRealtime.ts:117-120 | writes "RIFF", the size 36 + n and "WAVE", advancing the offset by 12; the bytes before and after are unchanged |
| Wav.WriteFmtFormat | src/composables/useNavTalkRealtime.ts:121-127 | writes "fmt ", the chunk size 16, format 1 and one channel, advancing by 12; the bytes before and after are unchanged |
| Wav.WriteFmtRates | src/composables/useNavTalkRealtime.ts:128-135 | writes the sample rate, the byte rate rate × 2, block align 2 and 16 bits, advancing by 12; the bytes before and after are unchanged |
| Wav.WriteFmtChunk | src/composables/useNavTalkRealtime.ts:121-135 | writes the whole 24-byte fmt chunk; the bytes before and after are unchanged |
| Wav.WriteDataChunkHeader | src/composables/useNavTalkRealtime.ts:136-138 | writes "data" and the payload size n, advancing by 8; the bytes before and after are unchanged |
| Wav.WriteHeader | src/composables/useNavTalkRealtime.ts:117-138 | the first 44 bytes are the canonical header for n payload bytes at the given rate, and the payload area after them is untouched |
| Wav.CreateWavFromPcm | src/composables/useNavTalkRealtime.ts:105-142 | a fresh buffer of 44 + n bytes: the canonical header followed by the PCM payload |
| Wav.ParseWav | src/composables/useNavTalkRealtime.ts:105-142 | a reference reader for the container: when it accepts a buffer, the payload is everything from byte 44 |
| Wav.WavLayout | src/composables/useNavTalkRealtime.ts:105-142 | the output has length 44 + n; "RIFF" with size 36 + n, "WAVE", "fmt " of size 16, format 1, 1 channel, the rate, byte rate rate × 2, block align 2, 16 bits, "data" with size n (sizes modulo 2^32), and bytes 44.. equal to the payload |
| Wav.WavRoundTrip | src/composables/useNavTalkRealtime.ts:105-142 | when the sizes fit 32 bits, reading the container back recovers exactly the rate and the payload |
| Playback.Player.constructor | src/composables/useNavTalkRealtime.ts:79-82 | the shared queue starts empty and inactive, with no context and no source |
| Playback.Player.EnsureContext | src/composables/useNavTalkRealtime.ts:144-154 | a context exists afterwards exactly when audio is supported; the queue is untouched |
| Playback.Player.Stop | src/composables/useNavTalkRealtime.ts:156-172 | `stopPlayback` empties the queue, clears the active flag and drops the source and the context |
| Playback.Player.PlayQueued | src/composables/useNavTalkRealtime.ts:174-200 | the driver does nothing while active, on an empty queue or without audio support; otherwise it removes exactly the oldest buffer, hands it to the decoder and sets the flag; the queue stays FIFO |
| Playback.Player.EnqueueAudioChunk | src/composables/useNavTalkRealtime.ts:202-207 | the WAV-wrapped chunk is pushed at the back and the driver runs (Pushed): exactly when nothing was playing and audio is supported, the oldest buffer is taken off for decoding, the flag is set and the context created; otherwise the chunk waits at the back |
| Playback.Player.DecodeSucceeded | src/composables/useNavTalkRealtime.ts:183-194 | a decoded buffer becomes the playing source; the queue and the flag are untouched |
| Playback.Player.PlaybackEnded | src/composables/useNavTalkRealtime.ts:188-192 | the end of a buffer drops the source, clears the flag and advances to the next-oldest buffer, if any and if audio is supported, creating the context for it |
| Playback.Player.DecodeFailed | src/composables/useNavTalkRealtime.ts:195-199 | a decode failure clears the flag and advances to the next-oldest buffer, if any and if audio is supported, creating the context for it; the source is kept |
| Playback.Player.ResumeContext | src/composables/useNavTalkRealtime.ts:209-215 | a context exists afterwards when audio is supported; the queue is untouched |
| Text.TrimSpec | src/composables/useNavTalkRealtime.ts:302-303 | `trim` yields a contiguous piece of the text with only whitespace around it and none at either of its ends, and "" exactly when the text is all whitespace |
| Transcript.FindIndex | src/composables/useNavTalkRealtime.ts:281 | `findIndex` gives the first entry with the id, or -1 exactly when no entry has it |
| Transcript.UpdatedSpec | src/composables/useNavTalkRealtime.ts:280-287 | an unknown id changes nothing; otherwise only the first entry with the id changes: new text, streaming flag when given, same id, role and timestamp |
| Transcript.RemovedSpec | src/composables/useNavTalkRealtime.ts:289-293 | an unknown id changes nothing; otherwise exactly the first entry with the id is spliced out and the rest keep their order |
| Transcript.UpsertedSpec | src/composables/useNavTalkRealtime.ts:315-327 | on a log where at most one entry carries the id, after an upsert exactly one does (so repeated upserts keep the condition) and it streams the text; the log grows only for a new id and no other entry changes |
| Transcript.FinalizedSpec | src/composables/useNavTalkRealtime.ts:330-334 | finalising turns the entry's streaming off and changes no other entry; an unknown id changes nothing |
| Transcript.StreamedSegmentsSpec | src/composables/useNavTalkRealtime.ts:313-314 | after deltas d1..dk the response's accumulator holds what it held before followed by d1 + ... + dk |
| Transcript.StreamedSegmentsFrame | src/composables/useNavTalkRealtime.ts:313-314 | deltas for one response leave every other accumulator as it was |
| Transcript.StreamedLogSpec | src/composables/useNavTalkRealtime.ts:311-328 | after deltas for a response exactly one entry has its id, streaming the accumulated text, so the response is never duplicated |
| Transcript.TrimHistory | src/composables/useNavTalkRealtime.ts:47 | the saved history is the most recent 40 entries, in order |
| Transcript.TrimHistoryIdempotent | src/composables/useNavTalkRealtime.ts:47 | trimming a trimmed history changes nothing |
| Transcript.LoadHistory | src/composables/useNavTalkRealtime.ts:28-41 | a missing, empty, unparsable or non-array stored value loads as the empty log; a stored array loads as its items |
| Transcript.SaveLoadRoundTrip | src/composables/useNavTalkRealtime.ts:28-49 | what `saveHistory` stores loads back as the most recent 40 entries |
| ToolCalls.CallKey | src/composables/useNavTalkRealtime.ts:879 | a call has a key exactly when its `call_id` is present and non-empty |
| ToolCalls.WithFragment | src/composables/useNavTalkRealtime.ts:869-875 | a delta is appended to the call's buffer only when there is a call id and a string delta; no other buffer changes |
| ToolCalls.FragmentsAccumulate | src/composables/useNavTalkRealtime.ts:869-875 | fragments d1..dk for a call leave its buffer as before followed by d1 + ... + dk, and no other buffer changes |
| ToolCalls.CallReasonSpec | src/composables/useNavTalkRealtime.ts:881-898 | inline arguments that are not blank win over the buffer; otherwise a non-empty buffer is read; otherwise there is no reason (the `{}` fallback) |
| ToolCalls.HangupReason | src/composables/useNavTalkRealtime.ts:923-924 | the recorded hangup reason is never empty |
| ToolCalls.HangupReasonSpec | src/composables/useNavTalkRealtime.ts:923-924 | the reason is the given one trimmed, or the default text when it is missing or all whitespace, and is already trimmed |
| ToolCalls.ReplySpec | src/composables/useNavTalkRealtime.ts:900-932 | a call is answered exactly when it has an id; it is acknowledged exactly for `end_conversation`, and ignored with "Function name missing." or "Unhandled function: name" otherwise |
| SessionState.CreateId | src/composables/useNavTalkRealtime.ts:51-56 | an id is non-empty and starts with its prefix |
| SessionState.Initial | src/composables/useNavTalkRealtime.ts:217-258 | a fresh session is idle, holds nothing, satisfies the invariant and shows the stored history |
| SessionState.RecordingStopped | src/composables/useNavTalkRealtime.ts:614-654 | stopping advances the token and leaves no stream, graph, enabled track or mute flag |
| SessionState.SupersededGrantIgnored | src/composables/useNavTalkRealtime.ts:568-583 | a grant whose token was superseded by a stop or a new request changes nothing; a current one makes the stream live and unmuted |
| SessionState.MuteSpec | src/composables/useNavTalkRealtime.ts:542-561 | mute, unmute and toggle do nothing without a stream; with one they set, clear or flip the muted flag and the tracks' enabled state |
| SessionState.TornDown | src/composables/useNavTalkRealtime.ts:667-707 | teardown holds nothing session-scoped afterwards, sets the status and the message (or ''), advances the token and keeps the transcript, the draft, the configuration and what was sent |
| SessionState.TeardownIdempotent | src/composables/useNavTalkRealtime.ts:667-707 | a second teardown with the same arguments changes nothing but the recording token |
| SessionState.TeardownRestoresInvariant | src/composables/useNavTalkRealtime.ts:667-707 | teardown to 'idle' or 'error' restores the invariant from any state |
| SessionState.PlaceholderSpec | src/composables/useNavTalkRealtime.ts:295-309 | at most one "Listening..." entry is pending; a blank transcript removes it, any other becomes its trimmed text with streaming off; the pending id is cleared; resolving with none pending changes nothing |
| SessionState.AssistantDeltasFrame | src/composables/useNavTalkRealtime.ts:311-328 | streaming deltas changes only the accumulators, the log and the thinking flag, which is on afterwards |
| SessionState.StreamThenFinalize | src/composables/useNavTalkRealtime.ts:311-336 | after deltas d1..dk the accumulator is d1 + ... + dk and exactly one streaming entry holds it; finalising turns its streaming and thinking off and leaves the other entries unchanged |
| SessionState.TextSentSpec | src/composables/useNavTalkRealtime.ts:829-854 | a blank draft is not sent; without an open socket only the error message changes; otherwise the trimmed text is logged as a user entry and sent, followed by a response request, and the draft clears; the invariant is kept |
| SessionState.RecentUserTexts | src/composables/useNavTalkRealtime.ts:502 | the replayed texts are the last (at most) three user texts, oldest first |
| SessionState.UserTextFrames | src/composables/useNavTalkRealtime.ts:503-519 | one `conversation.item.create` frame per replayed text, in order |
| SessionState.SessionUpdateSpec | src/composables/useNavTalkRealtime.ts:459-520 | a session update sends the update with the current prompt and voice, then at most three replayed texts, each the text of a user entry of the log |
| SessionState.AudioFrames | src/composables/useNavTalkRealtime.ts:601-604 | one `input_audio_buffer.append` frame per chunk, in order |
| SessionState.SettersSpec | src/composables/useNavTalkRealtime.ts:966-984 | an empty prompt selects the default and an empty voice or character is ignored; a connected session is sent a session update with the new values, any other only records them |
| SessionState.SessionIdSpec | src/composables/useNavTalkRealtime.ts:757-764 | a new non-empty session id replaces the proxy id and opens signalling towards "target-id" unless it is open; a missing, empty or repeated id changes nothing |
| SessionState.SignalingSpec | src/composables/useNavTalkRealtime.ts:355-456 | the signalling close drops the target; an answered offer leaves a peer connection whose ICE servers stay hydrated once they are; a remote track streams when there is a video element |
| SessionState.CallFinishedFrame | src/composables/useNavTalkRealtime.ts:877-889 | a finished call always drops its buffer and leaves the transcript, the connection and the microphone untouched |
| SessionState.CallFinishedHangup | src/composables/useNavTalkRealtime.ts:910-933 | a finished call records the hangup reason and cancels the timer exactly when it names `end_conversation` |
| SessionState.CallFinishedReply | src/composables/useNavTalkRealtime.ts:900-949 | a finished call with an id is answered as ReplySpec says, followed by a response request, only when the socket is open |
| SessionState.HangupSpec | src/composables/useNavTalkRealtime.ts:922-964 | arming needs a pending reason on a connected session; re-arming replaces the timer with one under a never-used id; firing ends 'idle' with no error and nothing pending |
| SessionState.ConnectSpec | src/composables/useNavTalkRealtime.ts:717-827 | without a license only the license message is set; connecting or connected is a no-op; otherwise the session is connecting with a fresh socket, or ends in 'error' when the socket cannot be built |
| SessionState.SocketClosedSpec | src/composables/useNavTalkRealtime.ts:816-822 | the socket's close ends 'idle' holding nothing, with "Session closed." exactly when the session was connected |
| SessionState.ToggleSpec | src/composables/useNavTalkRealtime.ts:856-862 | toggling disconnects a connecting or connected session and connects any other; two toggles from 'idle' end disconnected |
| SessionState.HandledSpec | src/composables/useNavTalkRealtime.ts:749-806 | unknown and audio frames leave the session state alone; error frames end in 'error' with the service's or the default message; `session.updated` connects; speech start marks the user speaking and opens a "Listening..." user entry unless one is pending, leaving the connection, microphone and calls alone |
| SessionState.HandledInvariant | src/composables/useNavTalkRealtime.ts:743-810 | every frame the live socket delivers keeps the invariant |
| SessionState.TranscriptEventInvariant | src/composables/useNavTalkRealtime.ts:765-780 | the speech and transcript frames keep the invariant |
| SessionState.ToolEventInvariant | src/composables/useNavTalkRealtime.ts:786-799 | the response and tool-call frames keep the invariant |
| SessionState.ConnectionEventInvariant | src/composables/useNavTalkRealtime.ts:750-806 | the session, audio, error and unknown frames keep the invariant |
| Session.RealtimeSession.constructor | src/composables/useNavTalkRealtime.ts:217-258 | each configuration value is the environment's when defined (even empty) and the default otherwise; the session starts idle with the stored history |
| Session.RealtimeSession.AppendMessage | src/composables/useNavTalkRealtime.ts:268-278 | pushes one entry with a fresh id at the end of the log; nothing else changes |
| Session.RealtimeSession.UpdateMessage | src/composables/useNavTalkRealtime.ts:280-287 | the log becomes Transcript.Updated of the old log; nothing else changes |
| Session.RealtimeSession.RemoveMessage | src/composables/useNavTalkRealtime.ts:289-293 | the log becomes Transcript.Removed of the old log; nothing else changes |
| Session.RealtimeSession.HandleUserPlaceholder | src/composables/useNavTalkRealtime.ts:295-298 | the transcript becomes SessionState.PlaceholderOpened of the old one |
| Session.RealtimeSession.ResolveUserPlaceholder | src/composables/useNavTalkRealtime.ts:300-309 | the transcript becomes SessionState.PlaceholderResolved of the old one |
| Session.RealtimeSession.HandleAssistantDelta | src/composables/useNavTalkRealtime.ts:311-328 | the transcript becomes SessionState.AssistantDelta of the old one |
| Session.RealtimeSession.FinalizeAssistantResponse | src/composables/useNavTalkRealtime.ts:330-336 | the transcript becomes SessionState.AssistantFinalized of the old one |
| Session.RealtimeSession.StopRecording | src/composables/useNavTalkRealtime.ts:614-654 | the microphone becomes RecordingStopped: a new token and no capture graph |
| Session.RealtimeSession.StartRecording | src/composables/useNavTalkRealtime.ts:563-571 | with no stream, a request goes out under a new token that is returned; with a stream nothing happens |
| Session.RealtimeSession.OnMicrophoneGranted | src/composables/useNavTalkRealtime.ts:571-607 | a grant is honoured only under the current token, which a connected session issued; the invariant is kept |
| Session.RealtimeSession.OnMicrophoneDenied | src/composables/useNavTalkRealtime.ts:608-611 | a denial tears the session down to 'error' with the microphone message and stops playback |
| Session.RealtimeSession.MuteMicrophone | src/composables/useNavTalkRealtime.ts:542-546 | the microphone becomes Muted of the old one; the invariant is kept |
| Session.RealtimeSession.UnmuteMicrophone | src/composables/useNavTalkRealtime.ts:548-552 | the microphone becomes Unmuted of the old one; the invariant is kept |
| Session.RealtimeSession.ToggleMicrophone | src/composables/useNavTalkRealtime.ts:554-561 | the microphone becomes MicrophoneToggled of the old one |
| Session.RealtimeSession.OnAudioProcess | src/composables/useNavTalkRealtime.ts:593-605 | with an open socket the encoded samples are sent as chunks of at most 4096 characters that concatenate to the base64 text; without one nothing is sent |
| Session.RealtimeSession.Teardown | src/composables/useNavTalkRealtime.ts:667-707 | the state becomes TornDown of the old one, the invariant holds again and playback is stopped |
| Session.RealtimeSession.HandleError | src/composables/useNavTalkRealtime.ts:709-711 | teardown to 'error' with the message |
| Session.RealtimeSession.Disconnect | src/composables/useNavTalkRealtime.ts:713-715 | teardown to 'idle' with no message |
| Session.RealtimeSession.Connect | src/composables/useNavTalkRealtime.ts:717-827 | the state becomes SessionState.Connect of the old one; when the socket cannot be built playback is stopped entirely, otherwise it is untouched; no microphone request is added or answered |
| Session.RealtimeSession.ToggleSession | src/composables/useNavTalkRealtime.ts:856-862 | the state becomes SessionToggled of the old one; a connected or connecting session stops playback entirely, an idle or failed one follows Connect's rule |
| Session.RealtimeSession.OnSocketOpen | src/composables/useNavTalkRealtime.ts:739-741 | the socket is open from now on; the invariant is kept and no microphone request changes |
| Session.RealtimeSession.OnSocketError | src/composables/useNavTalkRealtime.ts:812-814 | teardown to 'error' with the connection-issue message; playback is stopped entirely |
| Session.RealtimeSession.OnSocketClose | src/composables/useNavTalkRealtime.ts:816-822 | the state becomes SocketClosed of the old one; playback is stopped entirely |
| Session.RealtimeSession.SendSessionUpdate | src/composables/useNavTalkRealtime.ts:459-520 | the frames sent are SessionUpdateSent's: the update, then the replayed texts, only on an open socket |
| Session.RealtimeSession.ReplayUserTexts | src/composables/useNavTalkRealtime.ts:502-519 | the loop sends one user text frame per text, in order |
| Session.RealtimeSession.SendTextMessage | src/composables/useNavTalkRealtime.ts:829-854 | the state becomes TextSent of the old one; the invariant is kept |
| Session.RealtimeSession.SendFunctionCallResult | src/composables/useNavTalkRealtime.ts:935-949 | on an open socket the output and a response request are sent; otherwise nothing |
| Session.RealtimeSession.HandleFunctionCallDelta | src/composables/useNavTalkRealtime.ts:869-875 | the buffers become ToolCalls.WithFragment of the old ones |
| Session.RealtimeSession.ScheduleAutoHangup | src/composables/useNavTalkRealtime.ts:922-933 | records the hangup reason, cancels the timer and acknowledges a call that has an id |
| Session.RealtimeSession.HandleFunctionCallRequest | src/composables/useNavTalkRealtime.ts:910-920 | `end_conversation` schedules the hangup; any other name is answered as ignored when the call has an id |
| Session.RealtimeSession.HandleFunctionCallDone | src/composables/useNavTalkRealtime.ts:877-908 | the state becomes CallFinished of the old one |
| Session.RealtimeSession.AttemptAutoHangup | src/composables/useNavTalkRealtime.ts:951-964 | the call state becomes HangupAttempted of the old one; the invariant is kept |
| Session.RealtimeSession.OnHangupTimer | src/composables/useNavTalkRealtime.ts:959-963 | the state becomes HangupFired of the old one; playback is stopped entirely |
| Session.RealtimeSession.SetupSignalingSocket | src/composables/useNavTalkRealtime.ts:421-430 | the connection becomes SignalingSetUp of the old one |
| Session.RealtimeSession.HandleSessionId | src/composables/useNavTalkRealtime.ts:757-764 | the connection becomes SessionIdReceived of the old one |
| Session.RealtimeSession.OnSignalingClose | src/composables/useNavTalkRealtime.ts:453-456 | the connection becomes SignalingClosed of the old one |
| Session.RealtimeSession.OnOffer | src/composables/useNavTalkRealtime.ts:355-411 | the connection becomes OfferAnswered of the old one |
| Session.RealtimeSession.OnRemoteTrack | src/composables/useNavTalkRealtime.ts:362-377 | the connection becomes RemoteTrack of the old one |
| Session.RealtimeSession.SetVideoElement | src/composables/useNavTalkRealtime.ts:217 | binding or unbinding the video element changes only its presence; the invariant is kept |
| Session.RealtimeSession.OnMessage | src/composables/useNavTalkRealtime.ts:743-810 | the state becomes Handled of the old one and the invariant holds; a decodable audio delta is queued and drives playback (AudioQueued), an error frame stops playback, and no other frame touches playback; only `session.updated` adds a microphone request |
| Session.RealtimeSession.Dispatch | src/composables/useNavTalkRealtime.ts:749-806 | the state becomes Dispatched of the old one for the frame's kind, with the same playback and microphone-request effects |
| Session.RealtimeSession.PlayAudioDelta | src/composables/useNavTalkRealtime.ts:781-785 | a string delta that decodes is wrapped in a WAV container, queued and drives playback as EnqueueAudioChunk does; anything else leaves playback alone |
| Session.RealtimeSession.DispatchSession | src/composables/useNavTalkRealtime.ts:750-764 | the session frames change the state as Dispatched says; only `session.updated` issues a microphone request |
| Session.RealtimeSession.DispatchConversation | src/composables/useNavTalkRealtime.ts:765-799 | the speech, transcript, response and tool-call frames change the state as Dispatched says |
| Session.RealtimeSession.ClearHistory | src/composables/useNavTalkRealtime.ts:864-867 | the log and the stored history are emptied |
| Session.RealtimeSession.OnHistoryChanged | src/composables/useNavTalkRealtime.ts:260-266 | the stored history becomes the last 40 entries of the log |
| Session.RealtimeSession.SetPrompt | src/composables/useNavTalkRealtime.ts:966-971 | the state becomes PromptSet of the old one |
| Session.RealtimeSession.SetVoice | src/composables/useNavTalkRealtime.ts:978-984 | the state becomes VoiceSet of the old one |
| Session.RealtimeSession.SetCharacter | src/composables/useNavTalkRealtime.ts:973-976 | the configuration becomes CharacterSet of the old one |
| Session.RealtimeSession.ResumePlaybackAudio | src/composables/useNavTalkRealtime.ts:1014 | resuming playback creates the context when audio is supported and leaves the session, the queue, the flag, the source and the FIFO record alone |

## Left out

- WebRTC signalling is modelled only as the flags it leaves behind. This covers the ICE-server fetch, SDP offer and answer, ICE candidates and `restartIce`. An offer is one atomic step (`OnOffer`), and whether the fetch settled is a parameter. The `create`, `answer` and `iceCandidate` frames on the signalling socket are not logged, and `handleIceCandidate` is not modelled, since it only forwards to the browser. Because an offer is one step, the model does not show a race in `handleOffer` (`src/composables/useNavTalkRealtime.ts:355-360`): it creates the peer connection after awaiting the ICE fetch without checking that the session still exists, so a teardown during the fetch is followed by a new peer connection and the hydrated flag set again on an ended session.
- Web Audio and media devices are not modelled. This covers `AudioContext` state, `decodeAudioData`, the script processor and track objects. Decode outcomes and the end of playback are events the environment calls, and a context that throws on creation after a microphone grant is not modelled.
- Audio samples are real numbers. NaN and infinite samples, and the rounding of float products, are floating point and are left out.
- Base64 encoding and decoding, `JSON.parse` of tool-call arguments and of the stored history, and `JSON.stringify` are parameters. Their correctness is not part of this model.
- `createId`'s randomness and `Date.now()` are the `unique` and `now` parameters. The uniqueness of generated ids is not proved.
- The `model` and `baseUrl` settings are left out, as are the URLs built from them and the fixed fields of the `session.update` payload (turn detection, temperature, tools). The frames are kept as the `Outbound` datatype rather than as JSON text.
- Inbound fields that are present but not strings are left out; they are treated as missing. A missing `response_id` is the empty string.
- The absence of `navigator` or `window` is left out: the session always runs in a browser.
- Direct writes to the reactive `config` object by the page are left out; only the setters change it.
- Sending on a socket that is not open delivers nothing in the model. The browser would throw or drop the frame instead.
- Session.RealtimeSession.OnMicrophoneDenied: a microphone denial that arrives after the session ended still tears it down to 'error', as the code does. The model keeps this and proves nothing stronger.
- Session.RealtimeSession.OnHangupTimer: the 5000 ms delay is not modelled; the timer firing is an event the environment calls.
- Logging to the console is left out.
