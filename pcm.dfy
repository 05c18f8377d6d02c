/**
 * The capture path's sample conversion (`floatTo16BitPCM`): each
 * floating-point sample is clamped to [-1, 1], scaled by 0x8000 when
 * negative and by 0x7fff otherwise, and stored as a little-endian signed
 * 16-bit integer by `DataView.setInt16`.
 *
 * Samples are modelled as reals: every Float32 value is a real number and
 * both scalings of it are exact in double precision, so the only rounding
 * step left is the integer conversion `setInt16` performs, which is
 * written out below (truncation toward zero, then wrap to 16 bits).
 */
module Pcm {
  import opened Bytes

  const NegativeScale: real := 32768.0   // 0x8000
  const PositiveScale: real := 32767.0   // 0x7fff

  /** `Math.max(-1, Math.min(1, x))`. */
  function Clamp(x: real): (s: real)
    ensures -1.0 <= s <= 1.0
    ensures -1.0 <= x <= 1.0 ==> s == x
    ensures x > 1.0 ==> s == 1.0
    ensures x < -1.0 ==> s == -1.0
  {
    var m := if x < 1.0 then x else 1.0;
    if m > -1.0 then m else -1.0
  }

  /** The value handed to `setInt16`: `s < 0 ? s * 0x8000 : s * 0x7fff`. */
  function Scale(s: real): real
  {
    if s < 0.0 then s * NegativeScale else s * PositiveScale
  }

  /** ECMAScript ToIntegerOrInfinity on a finite number: truncation toward zero. */
  function Truncate(v: real): (k: int)
    ensures 0.0 <= v ==> k as real <= v < k as real + 1.0
    ensures v < 0.0 ==> k as real - 1.0 < v <= k as real
  {
    if v < 0.0 then -((-v).Floor) else v.Floor
  }

  /** ECMAScript ToInt16 on an integer: reduce modulo 2^16 into [-32768, 32767]. */
  function ToInt16(k: int): (r: int)
    ensures -32768 <= r <= 32767
    ensures -32768 <= k <= 32767 ==> r == k
    ensures (r - k) % 65536 == 0
  {
    (k + 32768) % 65536 - 32768
  }

  /** The 16-bit value one input sample becomes. */
  function Sample16(x: real): int
  {
    ToInt16(Truncate(Scale(Clamp(x))))
  }

  /** The conversion never wraps: the clamped, scaled, truncated sample already fits 16 bits. */
  lemma SampleInRange(x: real)
    ensures -32768 <= Truncate(Scale(Clamp(x))) <= 32767
    ensures Sample16(x) == Truncate(Scale(Clamp(x)))
    ensures -32768 <= Sample16(x) <= 32767
    ensures (Sample16(x) < 0) ==> Clamp(x) < 0.0
  {
    var s := Clamp(x);
    if s < 0.0 {
      assert -32768.0 <= s * NegativeScale < 0.0;
    } else {
      assert 0.0 <= s * PositiveScale <= 32767.0;
    }
  }

  /** The two bytes `setInt16(_, v, true)` writes: two's complement, low byte first. */
  function Int16LE(v: int): (r: seq<byte>)
    ensures |r| == 2
  {
    Uint16LE(v % 65536)
  }

  /** `getInt16(i, true)`: the reader that undoes Int16LE. */
  function ReadInt16LE(s: seq<byte>, i: nat): (v: int)
    requires i + 2 <= |s|
    ensures -32768 <= v <= 32767
  {
    var u := ReadUint16LE(s, i);
    if u >= 32768 then u - 65536 else u
  }

  lemma Int16RoundTrip(v: int)
    requires -32768 <= v <= 32767
    ensures ReadInt16LE(Int16LE(v), 0) == v
  {
    Uint16RoundTrip(v % 65536);
  }

  /** The whole output buffer: two bytes per sample, in input order. */
  function EncodePcm16(xs: seq<real>): (r: seq<byte>)
    ensures |r| == 2 * |xs|
  {
    if xs == [] then []
    else EncodePcm16(xs[..|xs| - 1]) + Int16LE(Sample16(xs[|xs| - 1]))
  }

  /** Bytes 2k and 2k + 1 of the output hold sample k, converted. */
  lemma {:induction false} EncodedSampleAt(xs: seq<real>, k: nat)
    requires k < |xs|
    ensures ReadInt16LE(EncodePcm16(xs), 2 * k) == Sample16(xs[k])
  {
    var n := |xs| - 1;
    var front := EncodePcm16(xs[..n]);
    var last := Int16LE(Sample16(xs[n]));
    var r := EncodePcm16(xs);
    assert r == front + last;
    if k == n {
      assert r[2 * k] == last[0] && r[2 * k + 1] == last[1];
      ReadUint16At(r, 2 * k, last);
      SampleInRange(xs[n]);
      Int16RoundTrip(Sample16(xs[n]));
    } else {
      EncodedSampleAt(xs[..n], k);
      assert r[2 * k] == front[2 * k] && r[2 * k + 1] == front[2 * k + 1];
      assert xs[..n][k] == xs[k];
    }
  }

  /** `getInt16` of one output pair mapped back to [-1, 1] by the same scale. */
  function Dequantize(v: int): real
  {
    if v < 0 then v as real / NegativeScale else v as real / PositiveScale
  }

  /**
   * Encoding a sample and decoding it back reproduces the clamped sample
   * within one quantization step (1/32767).
   */
  lemma QuantizationError(x: real)
    ensures -1.0 / PositiveScale < Dequantize(Sample16(x)) - Clamp(x) < 1.0 / PositiveScale
  {
    var s := Clamp(x);
    SampleInRange(x);
    var v := Sample16(x);
    if s < 0.0 {
      var t := s * NegativeScale;
      assert v as real - 1.0 < t <= v as real;
      if v < 0 {
        assert Dequantize(v) - s == (v as real - t) / NegativeScale;
      } else {
        assert v == 0;
        assert Dequantize(v) - s == -t / NegativeScale;
      }
    } else {
      var t := s * PositiveScale;
      assert v as real <= t < v as real + 1.0;
      assert Dequantize(v) - s == (v as real - t) / PositiveScale;
    }
  }

  /** `setInt16(offset, value, true)`: ToInt16 of the number, then its two bytes. */
  method SetInt16(view: array<byte>, offset: nat, value: real, ghost before: seq<byte>)
    requires offset + 2 <= view.Length && view[..offset] == before
    modifies view
    ensures view[..offset + 2] == before + Int16LE(ToInt16(Truncate(value)))
    ensures view[offset + 2..] == old(view[offset + 2..])
  {
    var u := ToInt16(Truncate(value)) % 65536;
    view[offset] := u % 256;
    view[offset + 1] := (u / 256) % 256;
    assert view[..offset + 2] == view[..offset] + [u % 256, (u / 256) % 256];
  }

  /**
   * `floatTo16BitPCM`: a fresh buffer of exactly two bytes per sample,
   * holding each clamped and scaled sample as signed 16-bit little-endian.
   */
  method FloatTo16BitPcm(samples: seq<real>) returns (buffer: array<byte>)
    ensures fresh(buffer)
    ensures buffer.Length == 2 * |samples|
    ensures buffer[..] == EncodePcm16(samples)
  {
    buffer := new byte[|samples| * 2];
    var view := buffer;
    var offset := 0;
    var i := 0;
    while i < |samples|
      invariant 0 <= i <= |samples| && offset == 2 * i
      invariant view == buffer && buffer.Length == 2 * |samples|
      invariant buffer[..offset] == EncodePcm16(samples[..i])
    {
      var s := Clamp(samples[i]);
      SetInt16(view, offset, if s < 0.0 then s * NegativeScale else s * PositiveScale, buffer[..offset]);
      assert samples[..i + 1][..i] == samples[..i];
      i, offset := i + 1, offset + 2;
    }
    assert samples[..i] == samples;
  }

  /**
   * What the conversion promises of each sample: the output has two
   * bytes per input sample, and the value stored for sample k lies in
   * [-32768, 32767] and has the sign of the clamped sample.
   */
  lemma EncodedSampleBounds(xs: seq<real>, k: nat)
    requires k < |xs|
    ensures |EncodePcm16(xs)| == 2 * |xs|
    ensures var v := ReadInt16LE(EncodePcm16(xs), 2 * k);
      -32768 <= v <= 32767 && (v < 0 ==> Clamp(xs[k]) < 0.0) && v == Sample16(xs[k])
  {
    EncodedSampleAt(xs, k);
    SampleInRange(xs[k]);
  }
}
