/** Byte-level decoding shared by the audio player and the recognition
    client: turning the binary string that atob returns into bytes, and
    reading little-endian signed 16-bit PCM samples out of those bytes. */
module Pcm {

  /** One element of a Uint8Array. */
  type Byte = x: int | 0 <= x < 256

  /** A value DataView.getInt16 can return. */
  type Int16 = x: int | -0x8000 <= x < 0x8000

  /** Storing a number into a Uint8Array keeps it modulo 2^8. */
  function ToUint8(n: int): Byte
  {
    n % 256
  }

  /** A string whose every character code fits in a byte: what atob returns. */
  predicate IsBinaryString(s: string)
  {
    forall i :: 0 <= i < |s| ==> s[i] as int < 256
  }

  /** The bytes of a binary string (what atob returns), one per character,
      each its character code reduced to a Uint8. On a binary string
      `Uint8Array.from(s, c => c.charCodeAt(0))` and a loop of
      `bytes[i] = s.charCodeAt(i)` agree; on other strings they need not. */
  function CharCodes(s: string): (bytes: seq<Byte>)
  {
    seq(|s|, i requires 0 <= i < |s| => ToUint8(s[i] as int))
  }

  /** The binary string whose character codes are `bytes`
      (String.fromCharCode applied to each byte). */
  function FromCharCodes(bytes: seq<Byte>): (s: string)
  {
    seq(|bytes|, i requires 0 <= i < |bytes| => bytes[i] as char)
  }

  /** On a binary string no character is altered: byte i is char code i. */
  lemma CharCodesOfBinaryString(s: string)
    requires IsBinaryString(s)
    ensures |CharCodes(s)| == |s|
    ensures forall i :: 0 <= i < |s| ==> CharCodes(s)[i] == s[i] as int
  {
  }

  /** Bytes survive a trip through a binary string. */
  lemma CharCodesRoundTrip(bytes: seq<Byte>)
    ensures IsBinaryString(FromCharCodes(bytes))
    ensures CharCodes(FromCharCodes(bytes)) == bytes
  {
  }

  /** A binary string survives a trip through its bytes. */
  lemma FromCharCodesRoundTrip(s: string)
    requires IsBinaryString(s)
    ensures FromCharCodes(CharCodes(s)) == s
  {
  }

  /** DataView.getInt16(offset, true): the two bytes at `offset`, low byte
      first, read as a two's-complement 16-bit integer. */
  function Int16LE(lo: Byte, hi: Byte): (v: Int16)
    ensures v < 0 <==> hi >= 0x80
    ensures (v + 0x10000) % 0x10000 == lo + 256 * hi
  {
    var u := lo + 256 * hi;
    if u >= 0x8000 then u - 0x10000 else u
  }

  /** The two bytes, low byte first, that store `v` in two's complement. */
  function Int16Bytes(v: Int16): (b: (Byte, Byte))
  {
    var u := if v < 0 then v + 0x10000 else v;
    (u % 256, u / 256)
  }

  /** Reading back the bytes of a sample gives the sample. */
  lemma Int16RoundTrip(v: Int16)
    ensures Int16LE(Int16Bytes(v).0, Int16Bytes(v).1) == v
  {
  }

  /** Every pair of bytes is the encoding of the sample it reads as. */
  lemma Int16BytesRoundTrip(lo: Byte, hi: Byte)
    ensures Int16Bytes(Int16LE(lo, hi)) == (lo, hi)
  {
  }

  /** The samples of a PCM byte sequence, two bytes per sample; a trailing
      odd byte starts no sample. */
  function Samples(pcm: seq<Byte>): (s: seq<Int16>)
    ensures |s| == |pcm| / 2
    ensures forall i :: 0 <= i < |s| ==> s[i] == Int16LE(pcm[2 * i], pcm[2 * i + 1])
    decreases |pcm|
  {
    if |pcm| < 2 then [] else [Int16LE(pcm[0], pcm[1])] + Samples(pcm[2..])
  }

  /** Little-endian 16-bit PCM bytes for a sequence of samples. */
  function Encode(samples: seq<Int16>): (pcm: seq<Byte>)
    ensures |pcm| == 2 * |samples|
  {
    if samples == [] then []
    else [Int16Bytes(samples[0]).0, Int16Bytes(samples[0]).1] + Encode(samples[1..])
  }

  /** Decoding what was encoded gives back the samples. */
  lemma {:induction false} DecodeEncode(samples: seq<Int16>)
    ensures Samples(Encode(samples)) == samples
  {
    if samples != [] {
      var pcm := Encode(samples);
      assert pcm[2..] == Encode(samples[1..]);
      DecodeEncode(samples[1..]);
      Int16RoundTrip(samples[0]);
    }
  }

  /** Encoding what was decoded gives back the bytes, when none is left over. */
  lemma {:induction false} EncodeDecode(pcm: seq<Byte>)
    requires |pcm| % 2 == 0
    ensures Encode(Samples(pcm)) == pcm
  {
    if |pcm| >= 2 {
      EncodeDecode(pcm[2..]);
      Int16BytesRoundTrip(pcm[0], pcm[1]);
      assert Samples(pcm)[1..] == Samples(pcm[2..]);
    }
  }

  /** A trailing odd byte is never read. */
  lemma TrailingByteIgnored(pcm: seq<Byte>, b: Byte)
    requires |pcm| % 2 == 0
    ensures Samples(pcm + [b]) == Samples(pcm)
  {
  }

  /** A sample scaled to the Web Audio range, `v / 32768.0`. The quotient is
      a 16-bit integer times 2^-15, which a 32-bit float holds exactly, so the
      real number is the value the Float32Array stores. */
  function Normalized(v: Int16): (r: real)
    ensures -1.0 <= r < 1.0
    ensures r * 32768.0 == v as real
  {
    v as real / 32768.0
  }

  /** Scaling keeps the order of samples, so distinct samples stay distinct. */
  lemma NormalizedMonotonic(v: Int16, w: Int16)
    ensures v < w <==> Normalized(v) < Normalized(w)
  {
  }
}
