/** The downsampling worker (index.js:97-124): nearest-neighbour decimation
    of float capture samples from `sampleRate` to `targetRate`, scaled to
    16-bit and clamped. Float32 samples are modelled as `real`, so the
    arithmetic is exact; `Math.round` rounds halves up. */
module Downsampler {
  import opened Wrappers

  /** `Math.round(x)`. */
  function RoundHalfUp(x: real): int {
    (x + 0.5).Floor
  }

  /** `Math.max(-32768, Math.min(32767, x))`. */
  function Clamp16(x: int): (r: int)
    ensures -32768 <= r <= 32767
    ensures -32768 <= x <= 32767 ==> r == x
    ensures x < -32768 ==> r == -32768
    ensures x > 32767 ==> r == 32767
  {
    if x > 32767 then 32767 else if x < -32768 then -32768 else x
  }

  /** `Math.round(audioData.length / ratio)`: the output length. */
  function OutputLength(n: nat, ratio: real): nat
    requires ratio > 0.0
  {
    var x := n as real / ratio;
    assert x >= 0.0;
    RoundHalfUp(x)
  }

  /** `Math.floor(i * ratio)`: the input sample output `i` copies. */
  function ReadIndex(i: nat, ratio: real): int {
    (i as real * ratio).Floor
  }

  lemma MulMonotone(a: real, b: real, c: real)
    requires a <= b && c > 0.0
    ensures a * c <= b * c
  {
  }

  lemma MulStrict(a: real, b: real, c: real)
    requires a < b && c > 0.0
    ensures a * c < b * c
  {
  }

  /** Every index the loop reads lies inside the input, whatever the ratio. */
  lemma ReadIndexInRange(n: nat, ratio: real, i: nat)
    requires ratio > 0.0
    requires i < OutputLength(n, ratio)
    ensures 0 <= ReadIndex(i, ratio) < n
  {
    var x := n as real / ratio;
    assert (i + 1) as real <= x + 0.5;
    MulMonotone(i as real, x - 0.5, ratio);
    assert x * ratio == n as real;
    assert i as real * ratio < n as real;
    MulMonotone(0.0, i as real, ratio);
  }

  lemma DivTimes(a: real, c: real)
    requires c > 0.0
    ensures (a / c) * c == a
  {
  }

  lemma RoundBounds(x: real)
    ensures RoundHalfUp(x) as real - 0.5 <= x < RoundHalfUp(x) as real + 0.5
  {
  }

  lemma Sandwich(n: real, x: real, ratio: real, len: real)
    requires ratio > 0.0 && x * ratio == n
    requires len - 0.5 <= x < len + 0.5
    ensures (len - 0.5) * ratio <= n < (len + 0.5) * ratio
  {
    var lo, hi := len - 0.5, len + 0.5;
    MulMonotone(lo, x, ratio);
    MulStrict(x, hi, ratio);
    assert lo * ratio <= n < hi * ratio;
  }

  /** The output length is the input length scaled by the ratio, to within
      half a sample: `(len - 1/2) * ratio <= n < (len + 1/2) * ratio`. */
  lemma OutputLengthSpansInput(n: nat, ratio: real)
    requires ratio > 0.0
    ensures var len := OutputLength(n, ratio) as real;
      (len - 0.5) * ratio <= n as real < (len + 0.5) * ratio
  {
    var x := n as real / ratio;
    DivTimes(n as real, ratio);
    RoundBounds(x);
    Sandwich(n as real, x, ratio, RoundHalfUp(x) as real);
  }

  /** Output sample `i`: the chosen input sample scaled by 32767, rounded and
      clamped into the 16-bit range. */
  function SampleAt(audio: seq<real>, ratio: real, i: nat): (s: int)
    requires ratio > 0.0
    requires i < OutputLength(|audio|, ratio)
    ensures -32768 <= s <= 32767
  {
    ReadIndexInRange(|audio|, ratio, i);
    Clamp16(RoundHalfUp(audio[ReadIndex(i, ratio)] * 32767.0))
  }

  /** Equal rates: every sample is kept, only scaled and clamped. */
  lemma SameRateKeepsEverySample(audio: seq<real>, i: nat)
    requires i < |audio|
    ensures OutputLength(|audio|, 1.0) == |audio|
    ensures SampleAt(audio, 1.0, i) == Clamp16(RoundHalfUp(audio[i] * 32767.0))
  {
    assert |audio| as real / 1.0 == |audio| as real;
  }

  /** The messages the worker receives. */
  datatype WorkerMessage = InitMsg(sampleRate: int) | ProcessMsg(audioData: seq<real>)

  /** The worker, with the state its script keeps. */
  class Worker {
    var sampleRate: int
    const targetRate: int

    ghost predicate Valid()
      reads this
    {
      sampleRate > 0 && targetRate > 0
    }

    /** `sampleRate / targetRate`. */
    function Ratio(): real
      reads this
      requires Valid()
    {
      sampleRate as real / targetRate as real
    }

    constructor ()
      ensures Valid()
      ensures sampleRate == 44100 && targetRate == 8000
    {
      sampleRate := 44100;
      targetRate := 8000;
    }

    /** `downsample(audioData)` (index.js:112-124). */
    method Downsample(audioData: seq<real>) returns (result: array<int>)
      requires Valid()
      ensures fresh(result)
      ensures result.Length == OutputLength(|audioData|, Ratio())
      ensures forall i :: 0 <= i < result.Length ==> result[i] == SampleAt(audioData, Ratio(), i)
      ensures forall i :: 0 <= i < result.Length ==> -32768 <= result[i] <= 32767
    {
      var ratio := sampleRate as real / targetRate as real;
      var newLength := OutputLength(|audioData|, ratio);
      result := new int[newLength];
      for i := 0 to newLength
        invariant forall k :: 0 <= k < i ==> result[k] == SampleAt(audioData, ratio, k)
      {
        ReadIndexInRange(|audioData|, ratio, i);
        var pos := ReadIndex(i, ratio);
        var sample := audioData[pos] * 32767.0;
        result[i] := Clamp16(RoundHalfUp(sample));
      }
    }

    /** `self.onmessage` (index.js:101-110): `init` replaces the source rate
        and posts nothing; any other message posts the downsampled block.
        The only `init` the client sends carries the audio context's rate,
        which is positive. */
    method OnMessage(m: WorkerMessage) returns (posted: Option<array<int>>)
      requires Valid()
      requires m.InitMsg? ==> m.sampleRate > 0
      modifies this
      ensures Valid()
      ensures m.InitMsg? ==> sampleRate == m.sampleRate && posted.None?
      ensures m.ProcessMsg? ==> sampleRate == old(sampleRate) && posted.Some? && fresh(posted.value)
      ensures m.ProcessMsg? && posted.Some? ==>
        && posted.value.Length == OutputLength(|m.audioData|, Ratio())
        && forall i :: 0 <= i < posted.value.Length ==> posted.value[i] == SampleAt(m.audioData, Ratio(), i)
    {
      match m
      case InitMsg(rate) =>
        sampleRate := rate;
        posted := None;
      case ProcessMsg(audio) =>
        var block := Downsample(audio);
        posted := Some(block);
    }
  }
}
