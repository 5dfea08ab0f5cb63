/** The playback byte pipeline of `convertAndPlay` (index.js:160-179 and
    198-244): decoded base64 text to bytes, the 44-byte WAV header strip,
    the little-endian 16-bit view and the scaling to floats in [-1, 1).
    `atob` itself is an input: the decoded binary string, or `None` when the
    text is not valid base64. */
module Pcm {
  import opened Wrappers
  import opened Json
  import EventRegistry

  type Byte = b: int | 0 <= b < 256
  type Int16 = s: int | -32768 <= s < 32768

  /** The length of a canonical RIFF/WAV header. */
  const WavHeaderLength: nat := 44

  /** `bytes[i] = binaryString.charCodeAt(i)`: a `Uint8Array` store keeps the
      low eight bits of each code unit. */
  function Latin1Bytes(binary: string): (r: seq<Byte>)
    ensures |r| == |binary|
    ensures forall i :: 0 <= i < |r| ==> r[i] == (binary[i] as int) % 256
  {
    seq(|binary|, i requires 0 <= i < |binary| => (binary[i] as int) % 256)
  }

  /** The binary string whose code units are the given bytes, as `atob`
      produces it. */
  function Latin1String(bytes: seq<Byte>): (s: string)
    ensures |s| == |bytes|
    ensures forall i :: 0 <= i < |s| ==> s[i] as int == bytes[i]
  {
    seq(|bytes|, i requires 0 <= i < |bytes| => bytes[i] as char)
  }

  /** Every byte string survives the trip through a binary string. */
  lemma Latin1RoundTrip(bytes: seq<Byte>)
    ensures Latin1Bytes(Latin1String(bytes)) == bytes
  {
  }

  /** `base64ToBinary` after `atob` (index.js:160-167). */
  method BinaryToBytes(binary: string) returns (bytes: array<Byte>)
    ensures fresh(bytes)
    ensures bytes[..] == Latin1Bytes(binary)
  {
    bytes := new Byte[|binary|];
    for i := 0 to |binary|
      invariant forall k :: 0 <= k < i ==> bytes[k] == (binary[k] as int) % 256
    {
      bytes[i] := (binary[i] as int) % 256;
    }
  }

  /** `if (contentType === 'wav') binary = binary.slice(44)`. */
  function StripHeader(bytes: seq<Byte>, contentType: Option<Json>): (r: seq<Byte>)
    ensures contentType != Some(JStr("wav")) ==> r == bytes
    ensures contentType == Some(JStr("wav")) ==>
      |r| == (if |bytes| <= WavHeaderLength then 0 else |bytes| - WavHeaderLength)
    // whatever is kept is the tail of the input, in order
    ensures |r| <= |bytes| && r == bytes[|bytes| - |r|..]
  {
    if contentType == Some(JStr("wav")) then
      if |bytes| <= WavHeaderLength then [] else bytes[WavHeaderLength..]
    else bytes
  }

  /** One little-endian two's-complement sample. */
  function SampleOf(lo: Byte, hi: Byte): Int16 {
    var u := lo + 256 * hi;
    if u >= 32768 then u - 65536 else u
  }

  /** The two bytes, low first, that hold a sample. */
  function SampleBytes(s: Int16): (r: seq<Byte>)
    ensures |r| == 2
  {
    var u := if s < 0 then s + 65536 else s;
    [u % 256, u / 256]
  }

  lemma SampleOfBytes(s: Int16)
    ensures SampleOf(SampleBytes(s)[0], SampleBytes(s)[1]) == s
  {
  }

  lemma BytesOfSample(lo: Byte, hi: Byte)
    ensures SampleBytes(SampleOf(lo, hi)) == [lo, hi]
  {
  }

  /** `new Int16Array(bytes.buffer)` on a little-endian host: consecutive
      byte pairs, low byte first. */
  function Int16View(bytes: seq<Byte>): (r: seq<Int16>)
    requires |bytes| % 2 == 0
    ensures |r| == |bytes| / 2
    ensures forall i :: 0 <= i < |r| ==> r[i] == SampleOf(bytes[2 * i], bytes[2 * i + 1])
    decreases |bytes|
  {
    if |bytes| == 0 then []
    else [SampleOf(bytes[0], bytes[1])] + Int16View(bytes[2..])
  }

  /** The bytes of a sample buffer. */
  function Int16Bytes(samples: seq<Int16>): (r: seq<Byte>)
    ensures |r| == 2 * |samples|
  {
    if |samples| == 0 then []
    else SampleBytes(samples[0]) + Int16Bytes(samples[1..])
  }

  /** Reading back the bytes of a sample buffer gives the samples. */
  lemma {:induction false} ViewOfBytes(samples: seq<Int16>)
    ensures Int16View(Int16Bytes(samples)) == samples
    decreases |samples|
  {
    if |samples| > 0 {
      var b := Int16Bytes(samples);
      assert b[2..] == Int16Bytes(samples[1..]);
      ViewOfBytes(samples[1..]);
      SampleOfBytes(samples[0]);
      assert Int16View(b) == [samples[0]] + samples[1..];
    }
  }

  /** The view loses nothing: its bytes are the bytes it was built from. */
  lemma {:induction false} BytesOfView(bytes: seq<Byte>)
    requires |bytes| % 2 == 0
    ensures Int16Bytes(Int16View(bytes)) == bytes
    decreases |bytes|
  {
    if |bytes| > 0 {
      var v := Int16View(bytes);
      assert v[1..] == Int16View(bytes[2..]);
      BytesOfView(bytes[2..]);
      BytesOfSample(bytes[0], bytes[1]);
      assert bytes == [bytes[0], bytes[1]] + bytes[2..];
    }
  }

  /** `int16Array[i] / 32768.0`. Both operands are exact in Float32, and
      so is the quotient, since the divisor is a power of two. */
  function Normalize(s: Int16): (f: real)
    ensures -1.0 <= f < 1.0
    ensures (f < 0.0 <==> s < 0) && (f == 0.0 <==> s == 0)
  {
    s as real / 32768.0
  }

  /** `int16ToFloat32` (index.js:173-179). */
  method Int16ToFloat32(samples: seq<Int16>) returns (out: array<real>)
    ensures fresh(out)
    ensures out.Length == |samples|
    ensures forall i :: 0 <= i < |samples| ==> out[i] == Normalize(samples[i])
    ensures forall i :: 0 <= i < |samples| ==> -1.0 <= out[i] < 1.0
  {
    out := new real[|samples|];
    for i := 0 to |samples|
      invariant forall k :: 0 <= k < i ==> out[k] == Normalize(samples[k])
    {
      out[i] := samples[i] as real / 32768.0;
    }
  }

  /** The normalization loses nothing: each sample is recovered from its float. */
  lemma NormalizeInjective(s: Int16, t: Int16)
    ensures Normalize(s) == Normalize(t) ==> s == t
  {
  }

  /** Why `convertAndPlay` rejects a clip. */
  datatype PlaybackError =
    | NoAudioData      // `!base64`: 'No audio data provided'
    | InvalidBase64    // `atob` throws an InvalidCharacterError
    | OddByteLength    // an `Int16Array` over an odd number of bytes is a RangeError
    | EmptyClip        // `createBuffer` with length 0 is a NotSupportedError

  /** The samples `convertAndPlay` hands to the audio buffer: `content` is
      `data.audioContent`, `binary` is what `atob` made of it. */
  function PlaybackSamples(content: Option<Json>, binary: Option<string>, contentType: Option<Json>)
    : (r: Result<seq<Int16>, PlaybackError>)
    ensures !Truthy(content) <==> r == Failure(NoAudioData)
    ensures r == Failure(InvalidBase64) <==> Truthy(content) && binary.None?
    ensures r == Failure(OddByteLength) <==>
      Truthy(content) && binary.Some? && |StripHeader(Latin1Bytes(binary.value), contentType)| % 2 == 1
    ensures r == Failure(EmptyClip) <==>
      Truthy(content) && binary.Some? && |StripHeader(Latin1Bytes(binary.value), contentType)| == 0
    // a clip that is accepted is exactly the audio bytes, reinterpreted
    ensures r.Success? ==>
      binary.Some? && Int16Bytes(r.value) == StripHeader(Latin1Bytes(binary.value), contentType)
    ensures r.Success? ==> |r.value| > 0
  {
    if !Truthy(content) then Failure(NoAudioData)
    else match binary
      case None => Failure(InvalidBase64)
      case Some(text) =>
        var audio := StripHeader(Latin1Bytes(text), contentType);
        if |audio| % 2 == 1 then Failure(OddByteLength)
        else if |audio| == 0 then Failure(EmptyClip)
        else
          BytesOfView(audio);
          Success(Int16View(audio))
  }

  /** What `convertAndPlay` emits, in order: `ListenerError` is the `error`
      the `catch` emits for an exception a listener threw. `played` holds the
      floats handed to the audio buffer, and `onEnded` says whether the
      `onended` handler that reports the end of the clip was installed. */
  datatype PlayEvent = AudioEnd | AudioPlay | PlayError(error: PlaybackError) | ListenerError
  datatype Playback = Playback(events: seq<PlayEvent>, played: Option<seq<real>>, onEnded: bool)

  /** `convertAndPlay`: the current clip is stopped first, which emits
      `audioEnd` even when nothing was playing; then the new clip either
      plays (`audioPlay`) or fails (`error`). Listeners run inside the `try`:
      a throwing `audioEnd` listener aborts before the clip is looked at, and
      a throwing `audioPlay` listener leaves the clip playing without its
      `onended` handler. */
  function ConvertAndPlay(content: Option<Json>, binary: Option<string>, contentType: Option<Json>,
                          table: EventRegistry.Table, throwing: set<EventRegistry.HandlerId>)
    : (p: Playback)
    ensures 2 <= |p.events| <= 3 && p.events[0] == AudioEnd
    ensures EventRegistry.ListenerThrows(table, "audioEnd", throwing) ==>
      p == Playback([AudioEnd, ListenerError], None, false)
    ensures !EventRegistry.ListenerThrows(table, "audioEnd", throwing) ==>
      (p.played.Some? <==> PlaybackSamples(content, binary, contentType).Success?)
    ensures p.played.Some? ==>
      var s := PlaybackSamples(content, binary, contentType).value;
      |p.played.value| == |s| && forall i :: 0 <= i < |s| ==> p.played.value[i] == Normalize(s[i])
    ensures p.played.Some? ==>
      (p.onEnded <==> !EventRegistry.ListenerThrows(table, "audioPlay", throwing))
      && p.events == [AudioEnd, AudioPlay] + (if p.onEnded then [] else [ListenerError])
    ensures p.onEnded ==> p.played.Some?
    ensures p.played.None? && !EventRegistry.ListenerThrows(table, "audioEnd", throwing) ==>
      p.events == [AudioEnd, PlayError(PlaybackSamples(content, binary, contentType).error)]
  {
    if EventRegistry.ListenerThrows(table, "audioEnd", throwing) then
      Playback([AudioEnd, ListenerError], None, false)
    else match PlaybackSamples(content, binary, contentType)
      case Success(s) =>
        var floats := seq(|s|, i requires 0 <= i < |s| => Normalize(s[i]));
        if EventRegistry.ListenerThrows(table, "audioPlay", throwing) then
          Playback([AudioEnd, AudioPlay, ListenerError], Some(floats), false)
        else Playback([AudioEnd, AudioPlay], Some(floats), true)
      case Failure(e) => Playback([AudioEnd, PlayError(e)], None, false)
  }

  /** End to end: a well-formed, non-empty WAV clip plays its samples, header
      dropped, when no `audioEnd` or `audioPlay` listener throws. */
  lemma WavClipPlaysItsSamples(header: seq<Byte>, samples: seq<Int16>, content: Json,
                               table: EventRegistry.Table, throwing: set<EventRegistry.HandlerId>)
    requires |header| == WavHeaderLength && |samples| > 0 && Truthy(Some(content))
    requires !EventRegistry.ListenerThrows(table, "audioEnd", throwing)
    requires !EventRegistry.ListenerThrows(table, "audioPlay", throwing)
    ensures var p := ConvertAndPlay(Some(content), Some(Latin1String(header + Int16Bytes(samples))),
                                    Some(JStr("wav")), table, throwing);
      p.events == [AudioEnd, AudioPlay] && p.onEnded
      && p.played.Some? && |p.played.value| == |samples|
      && forall i :: 0 <= i < |samples| ==> p.played.value[i] == Normalize(samples[i])
  {
    var bytes := header + Int16Bytes(samples);
    Latin1RoundTrip(bytes);
    assert StripHeader(bytes, Some(JStr("wav"))) == Int16Bytes(samples);
    ViewOfBytes(samples);
  }
}
