/**
 * Framing of one captured audio frame: the base64 text is cut into
 * consecutive slices of at most 4096 characters, each sent as its own
 * `input_audio_buffer.append` message.
 */
module Chunking {

  const ChunkSize: nat := 4096

  /** The pieces joined back together, in order. */
  function Concat(chunks: seq<string>): string
  {
    if chunks == [] then [] else Concat(chunks[..|chunks| - 1]) + chunks[|chunks| - 1]
  }

  /** `s.slice(i, i + n)`: the end index is clamped to the length. */
  function Slice(s: string, i: nat, n: nat): (r: string)
    requires i <= |s|
    ensures |r| == (if i + n <= |s| then n else |s| - i)
    ensures forall k :: 0 <= k < |r| ==> r[k] == s[i + k]
  {
    s[i..if i + n <= |s| then i + n else |s|]
  }

  /**
   * The chunk loop of the capture handler: every piece is non-empty and
   * at most ChunkSize long, every piece but the last is exactly ChunkSize
   * long, and the pieces concatenate back to the original text.
   */
  method SplitIntoChunks(text: string) returns (chunks: seq<string>)
    ensures Concat(chunks) == text
    ensures forall k :: 0 <= k < |chunks| ==> 0 < |chunks[k]| <= ChunkSize
    ensures forall k :: 0 <= k < |chunks| - 1 ==> |chunks[k]| == ChunkSize
    ensures |chunks| == (|text| + ChunkSize - 1) / ChunkSize
  {
    chunks := [];
    var i := 0;
    while i < |text|
      invariant i == |chunks| * ChunkSize
      invariant Concat(chunks) == text[..if i <= |text| then i else |text|]
      invariant forall k :: 0 <= k < |chunks| ==> 0 < |chunks[k]| <= ChunkSize
      invariant i <= |text| ==> forall k :: 0 <= k < |chunks| ==> |chunks[k]| == ChunkSize
      invariant forall k :: 0 <= k < |chunks| - 1 ==> |chunks[k]| == ChunkSize
      invariant i > |text| ==> i < |text| + ChunkSize
      decreases |text| - i
    {
      var chunk := Slice(text, i, ChunkSize);
      chunks := chunks + [chunk];
      assert chunks[..|chunks| - 1] == chunks[..|chunks| - 1];
      assert text[..i + |chunk|] == text[..i] + chunk;
      i := i + ChunkSize;
    }
  }
}
