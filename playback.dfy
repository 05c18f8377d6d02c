/**
 * The module-level playback state shared by every session: a FIFO of WAV
 * buffers waiting to be decoded and played, one "active" flag that keeps
 * playback sequential, and the output context and source node (present or
 * absent). Decoding is asynchronous in the source; its outcome arrives
 * later as one of the events DecodeSucceeded, PlaybackEnded and
 * DecodeFailed, which carry no check of which session or buffer they
 * belong to.
 */
module Playback {
  import opened Bytes
  import opened Wrappers
  import Wav

  class Player {
    /** Whether the environment offers an `AudioContext` constructor at all. */
    const audioSupported: bool
    /** `playbackQueue`. */
    var queue: seq<seq<byte>>
    /** `isPlaybackActive`. */
    var active: bool
    /** `playbackContext !== null`. */
    var hasContext: bool
    /** `playbackSource !== null`. */
    var hasSource: bool
    /** The buffers pushed since the queue was last emptied, in push order. */
    ghost var enqueued: seq<seq<byte>>
    /** How many of those the driver has taken off the queue. */
    ghost var dequeued: nat

    /** The queue is always the not-yet-taken tail of what was pushed: strict FIFO. */
    ghost predicate Valid()
      reads this
    {
      && dequeued <= |enqueued|
      && queue == enqueued[dequeued..]
      && (hasContext ==> audioSupported)
    }

    /**
     * What pushing `w` and running the driver does: `w` is recorded at the
     * back; when nothing was playing and audio is supported, the oldest
     * buffer is taken off for decoding, the flag is set and the context
     * exists; otherwise `w` waits at the back of the queue.
     */
    twostate predicate Pushed(w: seq<byte>)
      reads this
    {
      && enqueued == old(enqueued) + [w]
      && hasSource == old(hasSource)
      && active == (old(active) || audioSupported)
      && hasContext == (old(hasContext) || (!old(active) && audioSupported))
      && if !old(active) && audioSupported then
           queue == (old(queue) + [w])[1..] && dequeued == old(dequeued) + 1
         else
           queue == old(queue) + [w] && dequeued == old(dequeued)
    }

    constructor (audioSupported: bool)
      ensures Valid()
      ensures this.audioSupported == audioSupported
      ensures queue == [] && !active && !hasContext && !hasSource
    {
      this.audioSupported := audioSupported;
      queue, active, hasContext, hasSource := [], false, false, false;
      enqueued, dequeued := [], 0;
    }

    /** `stopPlayback`: stop the source, empty the queue, clear the flag, release the context. */
    method Stop()
      requires Valid()
      modifies this
      ensures Valid()
      ensures queue == [] && !active && !hasSource && !hasContext
    {
      if hasSource {
        hasSource := false;
      }
      queue := [];
      active := false;
      if hasContext {
        hasContext := false;
      }
      enqueued, dequeued := [], 0;
    }

    /** `ensurePlaybackContext`: create the context on first use; none when unsupported. */
    method EnsureContext() returns (ok: bool)
      requires Valid()
      modifies this
      ensures Valid()
      ensures ok == audioSupported
      ensures hasContext == (old(hasContext) || audioSupported)
      ensures queue == old(queue) && active == old(active) && hasSource == old(hasSource)
      ensures enqueued == old(enqueued) && dequeued == old(dequeued)
    {
      if !audioSupported {
        return false;
      }
      if !hasContext {
        hasContext := true;
      }
      ok := true;
    }

    /**
     * `playQueuedAudio`: nothing happens while a buffer is active or when
     * the queue is empty; nothing but the context check happens without an
     * audio context; otherwise exactly the oldest buffer is taken off the
     * queue and handed to the decoder, and the flag is set.
     */
    method PlayQueued() returns (decoding: Option<seq<byte>>)
      requires Valid()
      modifies this
      ensures Valid()
      ensures hasSource == old(hasSource) && enqueued == old(enqueued)
      ensures old(active) || old(queue) == [] || !audioSupported ==>
        && decoding.None? && queue == old(queue) && active == old(active)
        && dequeued == old(dequeued)
        && hasContext == (old(hasContext) || (!old(active) && old(queue) != [] && audioSupported))
      ensures !old(active) && old(queue) != [] && audioSupported ==>
        && decoding == Some(old(queue)[0])
        && decoding.value == enqueued[old(dequeued)]
        && queue == old(queue)[1..] && dequeued == old(dequeued) + 1
        && active && hasContext
    {
      if active || |queue| == 0 {
        return None;
      }
      var ok := EnsureContext();
      if !ok {
        return None;
      }
      var wav := queue[0];
      queue := queue[1..];
      dequeued := dequeued + 1;
      active := true;
      decoding := Some(wav);
    }

    /**
     * `enqueueAudioChunk` after base64 decoding: the PCM bytes are wrapped
     * in a 24 kHz WAV container, pushed at the back, and the driver runs.
     */
    method EnqueueAudioChunk(pcm: seq<byte>) returns (decoding: Option<seq<byte>>)
      requires Valid()
      modifies this
      ensures Valid()
      ensures Pushed(Wav.WavHeader(|pcm|, Wav.DefaultSampleRate) + pcm)
      ensures decoding.Some? <==> !old(active) && audioSupported
      ensures decoding.Some? ==>
        decoding.value == (old(queue) + [Wav.WavHeader(|pcm|, Wav.DefaultSampleRate) + pcm])[0]
    {
      var wavBuffer := Wav.CreateWavFromPcm(pcm, Wav.DefaultSampleRate);
      queue := queue + [wavBuffer[..]];
      enqueued := enqueued + [wavBuffer[..]];
      decoding := PlayQueued();
    }

    /** The decode promise resolved: a source node is created and started. */
    method DecodeSucceeded()
      requires Valid()
      modifies this
      ensures Valid()
      ensures hasSource
      ensures queue == old(queue) && active == old(active) && hasContext == old(hasContext)
      ensures enqueued == old(enqueued) && dequeued == old(dequeued)
    {
      hasSource := true;
    }

    /** The source's `onended`: the flag clears and the driver takes the next buffer. */
    method PlaybackEnded() returns (decoding: Option<seq<byte>>)
      requires Valid()
      modifies this
      ensures Valid()
      ensures !hasSource && enqueued == old(enqueued)
      ensures old(queue) == [] || !audioSupported ==> !active && decoding.None? && queue == old(queue)
      ensures old(queue) != [] && audioSupported ==>
        && active && decoding == Some(old(queue)[0]) && queue == old(queue)[1..]
        && decoding.value == enqueued[old(dequeued)]
      ensures hasContext == (old(hasContext) || (old(queue) != [] && audioSupported))
      ensures dequeued == (if decoding.Some? then old(dequeued) + 1 else old(dequeued))
    {
      hasSource := false;
      active := false;
      decoding := PlayQueued();
    }

    /** The decode promise rejected: the buffer is skipped, the flag clears and the driver advances. */
    method DecodeFailed() returns (decoding: Option<seq<byte>>)
      requires Valid()
      modifies this
      ensures Valid()
      ensures hasSource == old(hasSource) && enqueued == old(enqueued)
      ensures old(queue) == [] || !audioSupported ==> !active && decoding.None? && queue == old(queue)
      ensures old(queue) != [] && audioSupported ==>
        && active && decoding == Some(old(queue)[0]) && queue == old(queue)[1..]
        && decoding.value == enqueued[old(dequeued)]
      ensures hasContext == (old(hasContext) || (old(queue) != [] && audioSupported))
      ensures dequeued == (if decoding.Some? then old(dequeued) + 1 else old(dequeued))
    {
      active := false;
      decoding := PlayQueued();
    }

    /** `resumePlaybackContext`: create the context if there is none (resuming is not modelled). */
    method ResumeContext()
      requires Valid()
      modifies this
      ensures Valid()
      ensures hasContext == (old(hasContext) || audioSupported)
      ensures queue == old(queue) && active == old(active) && hasSource == old(hasSource)
      ensures enqueued == old(enqueued) && dequeued == old(dequeued)
    {
      if !hasContext {
        var _ := EnsureContext();
      }
    }
  }
}
