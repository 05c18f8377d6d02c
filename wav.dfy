/**
 * The WAV container the playback path wraps around each decoded PCM16 chunk
 * (`createWavFromPCM`): the 44-byte canonical RIFF/WAVE header for one
 * channel of 16-bit samples, followed by the payload.
 */
module Wav {
  import opened Bytes
  import opened Wrappers

  /** The rate `enqueueAudioChunk` uses (the default argument). */
  const DefaultSampleRate: nat := 24000
  const HeaderSize: nat := 44

  /** `charCodeAt` followed by `setUint8`: each character keeps its low 8 bits. */
  function Ascii(s: string): (r: seq<byte>)
    ensures |r| == |s|
    ensures forall i :: 0 <= i < |s| ==> r[i] == (s[i] as int) % 256
  {
    if s == [] then [] else [(s[0] as int) % 256] + Ascii(s[1..])
  }

  /** The RIFF chunk descriptor: tag, size of the rest of the file, format tag. */
  function RiffDescriptor(n: nat): seq<byte>
  {
    Ascii("RIFF") + Uint32LE(36 + n) + Ascii("WAVE")
  }

  /** The "fmt " sub-chunk for mono 16-bit PCM at the given rate. */
  function FmtChunk(sampleRate: nat): seq<byte>
  {
    Ascii("fmt ") + Uint32LE(16)
    + Uint16LE(1)                   // audio format: PCM
    + Uint16LE(1)                   // channels
    + Uint32LE(sampleRate)
    + Uint32LE(sampleRate * 2)      // byte rate
    + Uint16LE(2)                   // block align
    + Uint16LE(16)                  // bits per sample
  }

  /** The "data" sub-chunk header for n payload bytes. */
  function DataChunkHeader(n: nat): seq<byte>
  {
    Ascii("data") + Uint32LE(n)
  }

  /** The 44-byte header, in the order the source writes it. */
  function WavHeader(n: nat, sampleRate: nat): seq<byte>
  {
    RiffDescriptor(n) + FmtChunk(sampleRate) + DataChunkHeader(n)
  }

  /** `writeString`: one byte per character, starting at `offset`. */
  method WriteString(view: array<byte>, offset: nat, value: string, ghost before: seq<byte>)
    returns (next: nat)
    requires offset + |value| <= view.Length && view[..offset] == before
    modifies view
    ensures next == offset + |value|
    ensures view[..next] == before + Ascii(value)
    ensures view[next..] == old(view[next..])
  {
    ghost var written := Ascii(value);
    var i := 0;
    while i < |value|
      invariant 0 <= i <= |value|
      invariant view[..offset + i] == before + written[..i]
      invariant view[offset + |value|..] == old(view[offset + |value|..])
    {
      view[offset + i] := (value[i] as int) % 256;
      assert view[..offset + i + 1] == view[..offset + i] + [written[i]];
      i := i + 1;
    }
    next := offset + |value|;
  }

  /** `setUint32(offset, v, true)`. */
  method SetUint32(view: array<byte>, offset: nat, v: nat, ghost before: seq<byte>)
    requires offset + 4 <= view.Length && view[..offset] == before
    modifies view
    ensures view[..offset + 4] == before + Uint32LE(v)
    ensures view[offset + 4..] == old(view[offset + 4..])
  {
    view[offset] := v % 256;
    view[offset + 1] := (v / 256) % 256;
    view[offset + 2] := (v / 0x1_0000) % 256;
    view[offset + 3] := (v / 0x100_0000) % 256;
  }

  /** `setUint16(offset, v, true)`. */
  method SetUint16(view: array<byte>, offset: nat, v: nat, ghost before: seq<byte>)
    requires offset + 2 <= view.Length && view[..offset] == before
    modifies view
    ensures view[..offset + 2] == before + Uint16LE(v)
    ensures view[offset + 2..] == old(view[offset + 2..])
  {
    view[offset] := v % 256;
    view[offset + 1] := (v / 256) % 256;
  }

  /**
   * `createWavFromPCM`: a fresh buffer of 44 + n bytes holding the header
   * for n payload bytes at the given rate, then the payload itself.
   */
  method CreateWavFromPcm(pcm: seq<byte>, sampleRate: nat) returns (wav: array<byte>)
    ensures fresh(wav)
    ensures wav.Length == HeaderSize + |pcm|
    ensures wav[..] == WavHeader(|pcm|, sampleRate) + pcm
  {
    wav := new byte[HeaderSize + |pcm|];
    WriteHeader(wav, |pcm|, sampleRate);
    // `new Uint8Array(wavBuffer, 44).set(new Uint8Array(pcmBuffer))`
    forall i | 0 <= i < |pcm| {
      wav[HeaderSize + i] := pcm[i];
    }
    assert wav[..] == wav[..HeaderSize] + wav[HeaderSize..];
  }

  /** The header-writing steps of `createWavFromPCM`, advancing `offset` field by field. */
  method WriteHeader(wav: array<byte>, n: nat, sampleRate: nat)
    requires wav.Length >= HeaderSize
    modifies wav
    ensures wav[..HeaderSize] == WavHeader(n, sampleRate)
    ensures wav[HeaderSize..] == old(wav[HeaderSize..])
  {
    var offset := 0;
    offset := WriteRiffDescriptor(wav, offset, n);
    assert wav[..offset] == RiffDescriptor(n);
    offset := WriteFmtChunk(wav, offset, sampleRate);
    assert wav[..offset] == RiffDescriptor(n) + FmtChunk(sampleRate);
    offset := WriteDataChunkHeader(wav, offset, n);
    assert wav[..offset] == RiffDescriptor(n) + FmtChunk(sampleRate) + DataChunkHeader(n);
  }

  method WriteRiffDescriptor(wav: array<byte>, offset: nat, n: nat) returns (next: nat)
    requires offset + 12 <= wav.Length
    modifies wav
    ensures next == offset + 12
    ensures wav[..next] == old(wav[..offset]) + RiffDescriptor(n)
    ensures wav[next..] == old(wav[next..])
  {
    ghost var h := wav[..offset];
    next := WriteString(wav, offset, "RIFF", h);
    h := h + Ascii("RIFF");
    SetUint32(wav, next, 36 + n, h);
    next := next + 4;
    h := h + Uint32LE(36 + n);
    next := WriteString(wav, next, "WAVE", h);
    h := h + Ascii("WAVE");
  }

  method WriteFmtChunk(wav: array<byte>, offset: nat, sampleRate: nat) returns (next: nat)
    requires offset + 24 <= wav.Length
    modifies wav
    ensures next == offset + 24
    ensures wav[..next] == old(wav[..offset]) + FmtChunk(sampleRate)
    ensures wav[next..] == old(wav[next..])
  {
    ghost var h := wav[..offset];
    next := WriteFmtFormat(wav, offset);
    ghost var format := Ascii("fmt ") + Uint32LE(16) + Uint16LE(1) + Uint16LE(1);
    next := WriteFmtRates(wav, next, sampleRate);
    ghost var rates := Uint32LE(sampleRate) + Uint32LE(sampleRate * 2) + Uint16LE(2) + Uint16LE(16);
    assert wav[..next] == h + format + rates;
    assert FmtChunk(sampleRate) == format + rates;
  }

  /** The first half of the "fmt " sub-chunk: tag, size, format and channel count. */
  method WriteFmtFormat(wav: array<byte>, offset: nat) returns (next: nat)
    requires offset + 12 <= wav.Length
    modifies wav
    ensures next == offset + 12
    ensures wav[..next] == old(wav[..offset]) + (Ascii("fmt ") + Uint32LE(16) + Uint16LE(1) + Uint16LE(1))
    ensures wav[next..] == old(wav[next..])
  {
    ghost var h := wav[..offset];
    ghost var tail := wav[offset + 12..];
    next := WriteString(wav, offset, "fmt ", h);
    h := h + Ascii("fmt ");
    SetUint32(wav, next, 16, h);
    next := next + 4;
    h := h + Uint32LE(16);
    assert wav[offset + 12..] == tail;
    SetUint16(wav, next, 1, h);
    next := next + 2;
    h := h + Uint16LE(1);
    SetUint16(wav, next, 1, h);
    next := next + 2;
    h := h + Uint16LE(1);
  }

  /** The second half of the "fmt " sub-chunk: rate, byte rate, block align and bit depth. */
  method WriteFmtRates(wav: array<byte>, offset: nat, sampleRate: nat) returns (next: nat)
    requires offset + 12 <= wav.Length
    modifies wav
    ensures next == offset + 12
    ensures wav[..next] == old(wav[..offset]) + (Uint32LE(sampleRate) + Uint32LE(sampleRate * 2) + Uint16LE(2) + Uint16LE(16))
    ensures wav[next..] == old(wav[next..])
  {
    ghost var h := wav[..offset];
    ghost var tail := wav[offset + 12..];
    SetUint32(wav, offset, sampleRate, h);
    next := offset + 4;
    h := h + Uint32LE(sampleRate);
    SetUint32(wav, next, sampleRate * 2, h);
    next := next + 4;
    h := h + Uint32LE(sampleRate * 2);
    assert wav[offset + 12..] == tail;
    SetUint16(wav, next, 2, h);
    next := next + 2;
    h := h + Uint16LE(2);
    SetUint16(wav, next, 16, h);
    next := next + 2;
    h := h + Uint16LE(16);
  }

  method WriteDataChunkHeader(wav: array<byte>, offset: nat, n: nat) returns (next: nat)
    requires offset + 8 <= wav.Length
    modifies wav
    ensures next == offset + 8
    ensures wav[..next] == old(wav[..offset]) + DataChunkHeader(n)
    ensures wav[next..] == old(wav[next..])
  {
    ghost var h := wav[..offset];
    next := WriteString(wav, offset, "data", h);
    h := h + Ascii("data");
    SetUint32(wav, next, n, h);
    next := next + 4;
    h := h + Uint32LE(n);
  }

  /** What a reader of the canonical header recovers: the rate and the payload. */
  datatype WavInfo = WavInfo(sampleRate: nat, data: seq<byte>)

  /**
   * A reader for exactly the container CreateWavFromPcm writes: mono PCM,
   * 16 bits, byte rate and block align consistent, both size fields
   * matching the buffer. Anything else is refused.
   */
  function ParseWav(w: seq<byte>): (r: Option<WavInfo>)
    ensures r.Some? ==> |w| == HeaderSize + |r.value.data| && w[HeaderSize..] == r.value.data
  {
    if |w| < HeaderSize then None
    else if w[0..4] != Ascii("RIFF") || w[8..12] != Ascii("WAVE")
         || w[12..16] != Ascii("fmt ") || w[36..40] != Ascii("data") then None
    else if ReadUint32LE(w, 16) != 16 || ReadUint16LE(w, 20) != 1 || ReadUint16LE(w, 22) != 1
         || ReadUint16LE(w, 32) != 2 || ReadUint16LE(w, 34) != 16 then None
    else
      var rate := ReadUint32LE(w, 24);
      if ReadUint32LE(w, 28) != rate * 2 || ReadUint32LE(w, 4) != |w| - 8
         || ReadUint32LE(w, 40) != |w| - HeaderSize then None
      else Some(WavInfo(rate, w[HeaderSize..]))
  }

  /** A slice inside one half of a concatenation is a slice of that half. */
  lemma SliceOfConcat(a: seq<byte>, b: seq<byte>, i: nat, j: nat)
    requires i <= j <= |a| + |b|
    ensures j <= |a| ==> (a + b)[i..j] == a[i..j]
    ensures |a| <= i ==> (a + b)[i..j] == b[i - |a|..j - |a|]
  {
  }

  lemma RiffLayout(n: nat)
    ensures var r := RiffDescriptor(n);
      |r| == 12 && r[0..4] == Ascii("RIFF") && r[4..8] == Uint32LE(36 + n) && r[8..12] == Ascii("WAVE")
  {
    var a, b, c := Ascii("RIFF"), Uint32LE(36 + n), Ascii("WAVE");
    SliceOfConcat(a + b, c, 0, 4);
    SliceOfConcat(a, b, 0, 4);
    SliceOfConcat(a + b, c, 4, 8);
    SliceOfConcat(a, b, 4, 8);
    SliceOfConcat(a + b, c, 8, 12);
  }

  lemma DataLayout(n: nat)
    ensures var d := DataChunkHeader(n);
      |d| == 8 && d[0..4] == Ascii("data") && d[4..8] == Uint32LE(n)
  {
    SliceOfConcat(Ascii("data"), Uint32LE(n), 0, 4);
    SliceOfConcat(Ascii("data"), Uint32LE(n), 4, 8);
  }

  lemma FmtLayout(rate: nat)
    ensures var f := FmtChunk(rate);
      && |f| == 24 && f[0..4] == Ascii("fmt ") && f[4..8] == Uint32LE(16)
      && f[8..10] == Uint16LE(1) && f[10..12] == Uint16LE(1)
      && f[12..16] == Uint32LE(rate) && f[16..20] == Uint32LE(rate * 2)
      && f[20..22] == Uint16LE(2) && f[22..24] == Uint16LE(16)
  {
    var f := FmtChunk(rate);
    assert forall k :: 0 <= k < 4 ==> f[k] == Ascii("fmt ")[k];
    assert forall k :: 0 <= k < 4 ==> f[4 + k] == Uint32LE(16)[k];
    assert forall k :: 0 <= k < 2 ==> f[8 + k] == Uint16LE(1)[k];
    assert forall k :: 0 <= k < 2 ==> f[10 + k] == Uint16LE(1)[k];
    assert forall k :: 0 <= k < 4 ==> f[12 + k] == Uint32LE(rate)[k];
    assert forall k :: 0 <= k < 4 ==> f[16 + k] == Uint32LE(rate * 2)[k];
    assert forall k :: 0 <= k < 2 ==> f[20 + k] == Uint16LE(2)[k];
    assert forall k :: 0 <= k < 2 ==> f[22 + k] == Uint16LE(16)[k];
  }

  /**
   * The layout of the container: tags at 0, 8, 12 and 36; the RIFF size
   * 36 + n, the fmt size 16, format 1, 1 channel, the rate, byte rate
   * rate * 2, block align 2, 16 bits and the data size n (each size field
   * modulo 2^32, as `setUint32` stores it), and the payload from byte 44.
   */
  lemma WavLayout(pcm: seq<byte>, sampleRate: nat)
    ensures var w := WavHeader(|pcm|, sampleRate) + pcm;
      && |w| == HeaderSize + |pcm|
      && w[0..4] == Ascii("RIFF") && w[8..12] == Ascii("WAVE")
      && w[12..16] == Ascii("fmt ") && w[36..40] == Ascii("data")
      && ReadUint32LE(w, 4) == (36 + |pcm|) % TwoTo32
      && ReadUint32LE(w, 16) == 16
      && ReadUint16LE(w, 20) == 1 && ReadUint16LE(w, 22) == 1
      && ReadUint32LE(w, 24) == sampleRate % TwoTo32
      && ReadUint32LE(w, 28) == (sampleRate * 2) % TwoTo32
      && ReadUint16LE(w, 32) == 2 && ReadUint16LE(w, 34) == 16
      && ReadUint32LE(w, 40) == |pcm| % TwoTo32
      && w[HeaderSize..] == pcm
  {
    var n := |pcm|;
    var r, f, d := RiffDescriptor(n), FmtChunk(sampleRate), DataChunkHeader(n);
    RiffLayout(n);
    FmtLayout(sampleRate);
    var w := WavHeader(n, sampleRate) + pcm;
    Reassociate(r, f, d, pcm);
    var rest := f + (d + pcm);
    RiffFields(w, r, rest, n);
    FmtFields(w, r, rest, f, d + pcm, sampleRate);
    DataFields(w, r, f, d, pcm);
  }

  lemma Reassociate(a: seq<byte>, b: seq<byte>, c: seq<byte>, e: seq<byte>)
    ensures a + b + c + e == a + (b + (c + e))
  {
  }

  /** Bytes 0..12 of the container: the RIFF tag, the RIFF size and the WAVE tag. */
  lemma RiffFields(w: seq<byte>, r: seq<byte>, rest: seq<byte>, n: nat)
    requires r == RiffDescriptor(n) && w == r + rest
    ensures |w| >= 12 && w[0..4] == Ascii("RIFF") && w[8..12] == Ascii("WAVE")
    ensures ReadUint32LE(w, 4) == (36 + n) % TwoTo32
  {
    RiffLayout(n);
    SliceOfConcat(r, rest, 0, 4);
    SliceOfConcat(r, rest, 4, 8);
    SliceOfConcat(r, rest, 8, 12);
    ReadUint32At(w, 4, Uint32LE(36 + n));
    Uint32RoundTrip(36 + n);
  }

  /** Bytes 36..44 of the container and what follows: the data tag, the data size, the payload. */
  lemma DataFields(w: seq<byte>, r: seq<byte>, f: seq<byte>, d: seq<byte>, pcm: seq<byte>)
    requires |r| == 12 && |f| == 24 && d == DataChunkHeader(|pcm|) && w == r + (f + (d + pcm))
    ensures |w| == HeaderSize + |pcm|
    ensures w[36..40] == Ascii("data") && ReadUint32LE(w, 40) == |pcm| % TwoTo32
    ensures w[HeaderSize..] == pcm
  {
    var n := |pcm|;
    DataLayout(n);
    var rest, tail := f + (d + pcm), d + pcm;
    SliceOfConcat(r, rest, 36, 40);
    SliceOfConcat(f, tail, 24, 28);
    SliceOfConcat(d, pcm, 0, 4);
    SliceOfConcat(r, rest, 40, 44);
    SliceOfConcat(f, tail, 28, 32);
    SliceOfConcat(d, pcm, 4, 8);
    ReadUint32At(w, 40, Uint32LE(n));
    Uint32RoundTrip(n);
    assert w[HeaderSize..] == pcm;
  }

  lemma FmtFields(w: seq<byte>, r: seq<byte>, rest: seq<byte>, f: seq<byte>, tail: seq<byte>, rate: nat)
    requires |r| == 12 && w == r + rest && rest == f + tail && f == FmtChunk(rate)
    ensures w[12..16] == Ascii("fmt ")
    ensures ReadUint32LE(w, 16) == 16
    ensures ReadUint16LE(w, 20) == 1 && ReadUint16LE(w, 22) == 1
    ensures ReadUint32LE(w, 24) == rate % TwoTo32
    ensures ReadUint32LE(w, 28) == (rate * 2) % TwoTo32
    ensures ReadUint16LE(w, 32) == 2 && ReadUint16LE(w, 34) == 16
  {
    FmtLayout(rate);
    SliceInMiddle(r, f, tail, 0, 4);
    SliceInMiddle(r, f, tail, 4, 8);
    SliceInMiddle(r, f, tail, 8, 10);
    SliceInMiddle(r, f, tail, 10, 12);
    SliceInMiddle(r, f, tail, 12, 16);
    SliceInMiddle(r, f, tail, 16, 20);
    SliceInMiddle(r, f, tail, 20, 22);
    SliceInMiddle(r, f, tail, 22, 24);
    FmtFormatFields(w, rate);
    FmtRateFields(w, rate);
  }

  /** A slice of the middle part of a three-way concatenation. */
  lemma SliceInMiddle(a: seq<byte>, b: seq<byte>, c: seq<byte>, i: nat, j: nat)
    requires i <= j <= |b|
    ensures (a + (b + c))[|a| + i..|a| + j] == b[i..j]
  {
    SliceOfConcat(a, b + c, |a| + i, |a| + j);
    SliceOfConcat(b, c, i, j);
  }

  lemma FmtFormatFields(w: seq<byte>, rate: nat)
    requires |w| >= 36
    requires w[16..20] == Uint32LE(16) && w[20..22] == Uint16LE(1) && w[22..24] == Uint16LE(1)
    ensures ReadUint32LE(w, 16) == 16
    ensures ReadUint16LE(w, 20) == 1 && ReadUint16LE(w, 22) == 1
  {
    ReadUint32At(w, 16, Uint32LE(16));
    Uint32RoundTrip(16);
    ReadUint16At(w, 20, Uint16LE(1));
    ReadUint16At(w, 22, Uint16LE(1));
    Uint16RoundTrip(1);
  }

  lemma FmtRateFields(w: seq<byte>, rate: nat)
    requires |w| >= 36
    requires w[24..28] == Uint32LE(rate) && w[28..32] == Uint32LE(rate * 2)
    requires w[32..34] == Uint16LE(2) && w[34..36] == Uint16LE(16)
    ensures ReadUint32LE(w, 24) == rate % TwoTo32
    ensures ReadUint32LE(w, 28) == (rate * 2) % TwoTo32
    ensures ReadUint16LE(w, 32) == 2 && ReadUint16LE(w, 34) == 16
  {
    ReadUint32At(w, 24, Uint32LE(rate));
    Uint32RoundTrip(rate);
    ReadUint32At(w, 28, Uint32LE(rate * 2));
    Uint32RoundTrip(rate * 2);
    ReadUint16At(w, 32, Uint16LE(2));
    Uint16RoundTrip(2);
    ReadUint16At(w, 34, Uint16LE(16));
    Uint16RoundTrip(16);
  }

  /**
   * Round trip: while the sizes fit the 32-bit fields, reading back what
   * CreateWavFromPcm writes recovers the rate and the payload unchanged.
   */
  lemma WavRoundTrip(pcm: seq<byte>, sampleRate: nat)
    requires 36 + |pcm| < TwoTo32 && sampleRate * 2 < TwoTo32
    ensures ParseWav(WavHeader(|pcm|, sampleRate) + pcm) == Some(WavInfo(sampleRate, pcm))
  {
    var w := WavHeader(|pcm|, sampleRate) + pcm;
    WavLayout(pcm, sampleRate);
    assert |w| == HeaderSize + |pcm|;
    Mod32(36 + |pcm|, 36 + |pcm|, 0);
    Mod32(|pcm|, |pcm|, 0);
    Mod32(sampleRate, sampleRate, 0);
    Mod32(sampleRate * 2, sampleRate * 2, 0);
    ParseAccepts(w, sampleRate);
  }

  lemma ParseAccepts(w: seq<byte>, rate: nat)
    requires |w| >= HeaderSize
    requires w[0..4] == Ascii("RIFF") && w[8..12] == Ascii("WAVE")
    requires w[12..16] == Ascii("fmt ") && w[36..40] == Ascii("data")
    requires ReadUint32LE(w, 4) == |w| - 8 && ReadUint32LE(w, 16) == 16
    requires ReadUint16LE(w, 20) == 1 && ReadUint16LE(w, 22) == 1
    requires ReadUint32LE(w, 24) == rate && ReadUint32LE(w, 28) == rate * 2
    requires ReadUint16LE(w, 32) == 2 && ReadUint16LE(w, 34) == 16
    requires ReadUint32LE(w, 40) == |w| - HeaderSize
    ensures ParseWav(w) == Some(WavInfo(rate, w[HeaderSize..]))
  {
  }
}
