/**
 * Little-endian byte encodings, as written by the `DataView` setters
 * `setUint16(offset, v, true)` and `setUint32(offset, v, true)`.
 * A setter keeps only the low 16 or 32 bits of its argument.
 */
module Bytes {

  type byte = x: int | 0 <= x < 256

  const TwoTo16: nat := 0x1_0000
  const TwoTo32: nat := 0x1_0000_0000

  /** The two bytes `setUint16(_, v, true)` writes. */
  function Uint16LE(v: nat): (r: seq<byte>)
    ensures |r| == 2
  {
    [v % 256, (v / 256) % 256]
  }

  /** The four bytes `setUint32(_, v, true)` writes. */
  function Uint32LE(v: nat): (r: seq<byte>)
    ensures |r| == 4
  {
    [v % 256, (v / 256) % 256, (v / 0x1_0000) % 256, (v / 0x100_0000) % 256]
  }

  /** `getUint16(i, true)`: the reader that undoes Uint16LE. */
  function ReadUint16LE(s: seq<byte>, i: nat): (v: nat)
    requires i + 2 <= |s|
    ensures v < TwoTo16
  {
    s[i] as int + 256 * (s[i + 1] as int)
  }

  /** `getUint32(i, true)`: the reader that undoes Uint32LE. */
  function ReadUint32LE(s: seq<byte>, i: nat): (v: nat)
    requires i + 4 <= |s|
    ensures v < TwoTo32
  {
    s[i] as int + 256 * (s[i + 1] as int) + 0x1_0000 * (s[i + 2] as int) + 0x100_0000 * (s[i + 3] as int)
  }

  /** Writing then reading a 16-bit field gives the value modulo 2^16. */
  lemma Uint16RoundTrip(v: nat)
    ensures ReadUint16LE(Uint16LE(v), 0) == v % TwoTo16
  {
    var q := v / 256;
    assert v == v % 256 + 256 * q;
    assert q == q % 256 + 256 * (q / 256);
    assert v == v % 256 + 256 * (q % 256) + TwoTo16 * (q / 256);
    Mod16(v, q / 256);
  }

  /** Writing then reading a 32-bit field gives the value modulo 2^32. */
  lemma Uint32RoundTrip(v: nat)
    ensures ReadUint32LE(Uint32LE(v), 0) == v % TwoTo32
  {
    var q1 := v / 256;
    var q2 := q1 / 256;
    var q3 := q2 / 256;
    assert q1 == v / 256;
    DivDiv(v, 256);
    assert q2 == v / 0x1_0000;
    DivDiv(v, 0x1_0000);
    assert q3 == v / 0x100_0000;
    assert v == v % 256 + 256 * q1;
    assert q1 == q1 % 256 + 256 * q2;
    assert q2 == q2 % 256 + 256 * q3;
    assert q3 == q3 % 256 + 256 * (q3 / 256);
    var low := v % 256 + 256 * (q1 % 256) + 0x1_0000 * (q2 % 256) + 0x100_0000 * (q3 % 256);
    assert v == low + TwoTo32 * (q3 / 256);
    Mod32(v, low, q3 / 256);
  }

  lemma DivDiv(v: nat, a: nat)
    requires a == 256 || a == 0x1_0000
    ensures v / a / 256 == v / (a * 256)
  {
    var q := v / a;
    var r := v % a;
    var q2 := q / 256;
    var r2 := q % 256;
    assert v == a * (256 * q2 + r2) + r;
    assert v == (a * 256) * q2 + (a * r2 + r);
    assert 0 <= a * r2 + r < a * 256;
  }

  lemma Mod16(v: nat, k: nat)
    requires v - TwoTo16 * k >= 0 && v - TwoTo16 * k < TwoTo16
    ensures v % TwoTo16 == v - TwoTo16 * k
  {
  }

  lemma Mod32(v: nat, low: nat, k: nat)
    requires low < TwoTo32 && v == low + TwoTo32 * k
    ensures v % TwoTo32 == low
  {
  }

  /** A 16-bit read depends only on the two bytes it reads. */
  lemma ReadUint16At(s: seq<byte>, i: nat, b: seq<byte>)
    requires i + 2 <= |s| && s[i..i + 2] == b
    ensures ReadUint16LE(s, i) == ReadUint16LE(b, 0)
  {
    assert s[i] == b[0] && s[i + 1] == b[1];
  }

  /** A 32-bit read depends only on the four bytes it reads. */
  lemma ReadUint32At(s: seq<byte>, i: nat, b: seq<byte>)
    requires i + 4 <= |s| && s[i..i + 4] == b
    ensures ReadUint32LE(s, i) == ReadUint32LE(b, 0)
  {
    assert s[i] == b[0] && s[i + 1] == b[1] && s[i + 2] == b[2] && s[i + 3] == b[3];
  }
}
