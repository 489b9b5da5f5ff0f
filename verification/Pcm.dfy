/** Little-endian PCM16 and the two resamplers between the call's 16 kHz samples and the realtime
    provider's 24 kHz PCM16.  Samples are exact reals: float32 rounding is not modelled. */
module Pcm {

  type Byte = b: int | 0 <= b < 256
  type Int16 = v: int | -32768 <= v <= 32767

  // Go's conversion to an integer truncates toward zero.
  function Truncate(x: real): int {
    if x >= 0.0 then x.Floor else -(-x).Floor
  }

  lemma TruncatesTowardZero(x: real)
    ensures x >= 0.0 ==> Truncate(x) as real <= x < Truncate(x) as real + 1.0
    ensures x <= 0.0 ==> Truncate(x) as real - 1.0 < x <= Truncate(x) as real
  {
  }

  function Clamp(x: real, low: real, high: real): real {
    if x > high then high else if x < low then low else x
  }

  // ---------------------------------------------------------------- bytes

  // The two bytes that PutUint16 writes for int16 v.
  function LowByte(v: Int16): Byte { v % 256 }
  function HighByte(v: Int16): Byte { (v / 256) % 256 }

  // int16(Uint16(b)).
  function Int16At(low: Byte, high: Byte): Int16 {
    var word := low + 256 * high;
    if word >= 32768 then word - 65536 else word
  }

  // The low byte comes first, and the word is a two's complement number.
  lemma LittleEndian(low: Byte, high: Byte)
    ensures Int16At(low, high) == low + 256 * high || Int16At(low, high) == low + 256 * high - 65536
  {
  }

  lemma Int16RoundTrip(v: Int16)
    ensures Int16At(LowByte(v), HighByte(v)) == v
  {
  }

  // The samples held by a byte slice; a last odd byte belongs to none.
  function Decode(data: seq<Byte>): (samples: seq<Int16>)
    ensures |samples| == |data| / 2
    ensures forall i :: 0 <= i < |samples| ==> samples[i] == Int16At(data[2 * i], data[2 * i + 1])
  {
    seq(|data| / 2, i requires 0 <= i < |data| / 2 => Int16At(data[2 * i], data[2 * i + 1]))
  }

  // The first n samples of a byte slice are those given, and nothing has been written after them.
  ghost predicate Filled(data: seq<Byte>, samples: seq<Int16>, n: nat)
    requires 2 * n <= |data| && n <= |samples|
  {
    && (forall k :: 0 <= k < n ==> samples[k] == Int16At(data[2 * k], data[2 * k + 1]))
    && (forall j :: 2 * n <= j < |data| ==> data[j] == 0)
  }

  lemma FilledIsDecoded(data: seq<Byte>, samples: seq<Int16>)
    requires |samples| == |data| / 2 && Filled(data, samples, |samples|)
    ensures Decode(data) == samples && (|data| % 2 == 1 ==> data[|data| - 1] == 0)
  {
  }

  // binary.LittleEndian.PutUint16 of the next sample.
  method PutInt16(buffer: array<Byte>, ghost samples: seq<Int16>, n: nat, v: Int16)
    requires n < |samples| && v == samples[n] && 2 * n + 1 < buffer.Length && Filled(buffer[..], samples, n)
    modifies buffer
    ensures Filled(buffer[..], samples, n + 1)
  {
    buffer[2 * n], buffer[2 * n + 1] := LowByte(v), HighByte(v);
    Int16RoundTrip(v);
  }

  // ---------------------------------------------------------------- gain

  function Amplified(v: Int16, gain: real): Int16 {
    Truncate(Clamp(v as real * gain, -32768.0, 32767.0))
  }

  function AmplifiedAll(samples: seq<Int16>, gain: real): (out: seq<Int16>)
    ensures |out| == |samples|
    ensures forall k :: 0 <= k < |out| ==> out[k] == Amplified(samples[k], gain)
  {
    seq(|samples|, k requires 0 <= k < |samples| => Amplified(samples[k], gain))
  }

  method AmplifySample(sample: Int16, gain: real) returns (out: Int16)
    ensures out == Amplified(sample, gain)
  {
    var v := sample as real * gain;
    if v > 32767.0 {
      v := 32767.0;
    } else if v < -32768.0 {
      v := -32768.0;
    }
    out := Truncate(v);
  }

  // Scales every sample by `gain`, clamped to int16.  A gain of one, or no whole sample, returns the
  // data itself; otherwise a last odd byte becomes zero.
  method AmplifyPCM16(data: seq<Byte>, gain: real) returns (out: seq<Byte>)
    ensures |out| == |data|
    ensures |data| < 2 || gain == 1.0 ==> out == data
    ensures |data| >= 2 && gain != 1.0 ==>
              && Decode(out) == AmplifiedAll(Decode(data), gain)
              && (|data| % 2 == 1 ==> out[|data| - 1] == 0)
  {
    if |data| < 2 || gain == 1.0 {
      return data;
    }
    var buffer := new Byte[|data|](_ => 0);
    ghost var expected := AmplifiedAll(Decode(data), gain);
    var i := 0;
    while i + 1 < |data|
      invariant 0 <= i <= |data| && i % 2 == 0
      invariant Filled(buffer[..], expected, i / 2)
    {
      var v := AmplifySample(Int16At(data[i], data[i + 1]), gain);
      assert expected[i / 2] == v;
      PutInt16(buffer, expected, i / 2, v);
      i := i + 2;
    }
    out := buffer[..];
    FilledIsDecoded(out, expected);
  }

  // The gain used for calls doubles a sample exactly, up to the ends of the range.
  lemma GainOfTwo(v: Int16)
    ensures Amplified(v, 2.0) == if v > 16383 then 32767 else if v < -16384 then -32768 else 2 * v
  {
  }

  // ---------------------------------------------------------------- 16 kHz to 24 kHz

  function Lerp(a: real, b: real, frac: real): real {
    a + (b - a) * frac
  }

  // Linear interpolation between sample `left` and its right neighbour, if there is one.
  function Between(samples: seq<real>, left: nat, frac: real): real
    requires left < |samples|
  {
    if left + 1 < |samples| then Lerp(samples[left], samples[left + 1], frac) else samples[left]
  }

  function Quantised(x: real): Int16 {
    Truncate(Clamp(x, -1.0, 1.0) * 32767.0)
  }

  // The closed form of output i: position 2i/3, split into left index and fraction in integers.
  function Sample24(frame: seq<real>, i: nat): Int16
    requires i < 3 * |frame| / 2
  {
    Quantised(Between(frame, 2 * i / 3, (2 * i % 3) as real / 3.0))
  }

  function Samples24(frame: seq<real>): (out: seq<Int16>)
    ensures |out| == 3 * |frame| / 2
    ensures forall i :: 0 <= i < |out| ==> out[i] == Sample24(frame, i)
  {
    seq(3 * |frame| / 2, i requires 0 <= i < 3 * |frame| / 2 => Sample24(frame, i))
  }

  // The floor and the fraction of 2i/3 are those of integer division.
  lemma SplitThirds(i: nat)
    ensures (i as real * 2.0 / 3.0).Floor == 2 * i / 3
    ensures i as real * 2.0 / 3.0 - (2 * i / 3) as real == (2 * i % 3) as real / 3.0
  {
    var q, r := 2 * i / 3, 2 * i % 3;
    assert i as real * 2.0 / 3.0 == q as real + r as real / 3.0;
  }

  // One output of the loop below, by way of its position in the frame.
  method ResampleAt24k(frame: seq<real>, i: nat) returns (sample: Int16)
    requires i < |Samples24(frame)|
    ensures sample == Samples24(frame)[i]
  {
    var pos := i as real * 2.0 / 3.0;
    var left := pos.Floor;
    var frac := pos - left as real;
    SplitThirds(i);
    var v := frame[left];
    if left + 1 < |frame| {
      v := Lerp(v, frame[left + 1], frac);
    }
    assert v == Between(frame, 2 * i / 3, (2 * i % 3) as real / 3.0);
    if v > 1.0 {
      v := 1.0;
    }
    if v < -1.0 {
      v := -1.0;
    }
    sample := Truncate(v * 32767.0);
  }

  method PutSample24(buffer: array<Byte>, frame: seq<real>, i: nat)
    requires i < |Samples24(frame)| && 2 * i + 1 < buffer.Length && Filled(buffer[..], Samples24(frame), i)
    modifies buffer
    ensures Filled(buffer[..], Samples24(frame), i + 1)
  {
    var sample := ResampleAt24k(frame, i);
    PutInt16(buffer, Samples24(frame), i, sample);
  }

  // Resamples a frame to PCM16: 3/2 as many samples as the closed form says, and a zero byte after
  // them when the frame has odd length.
  method PCM16At24k(frame: seq<real>) returns (out: seq<Byte>)
    ensures |out| == 3 * |frame| && Decode(out) == Samples24(frame)
    ensures |frame| % 2 == 1 ==> out[|out| - 1] == 0
  {
    if |frame| == 0 {
      return [];
    }
    var buffer := new Byte[|frame| * 3](_ => 0);
    OutputSizes(|frame|);
    FillSamples24(buffer, frame, |frame| * 3 / 2);
    out := buffer[..];
    FilledIsDecoded(out, Samples24(frame));
  }

  method FillSamples24(buffer: array<Byte>, frame: seq<real>, count: nat)
    requires count == |Samples24(frame)| && 2 * count <= buffer.Length
    requires Filled(buffer[..], Samples24(frame), 0)
    modifies buffer
    ensures Filled(buffer[..], Samples24(frame), count)
  {
    for i := 0 to count
      invariant Filled(buffer[..], Samples24(frame), i)
    {
      PutSample24(buffer, frame, i);
    }
  }

  // The samples of n input samples fill the output buffer, but for one byte when n is odd.
  lemma OutputSizes(n: nat)
    ensures 3 * n / 2 == 3 * n - 3 * n / 2 - n % 2
  {
    Halves(n);
  }

  lemma Halves(n: nat)
    ensures n == 2 * (n / 2) + n % 2 && 3 * n / 2 == 3 * (n / 2) + n % 2
  {
  }

  // ---------------------------------------------------------------- 24 kHz to 16 kHz

  // The closed form of output i: position 3i/2; at an even i it is a source sample, at an odd i
  // the mean of two.
  function Sample16(samples: seq<Int16>, i: nat): real
    requires i < 2 * |samples| / 3
  {
    var left := 3 * i / 2;
    if i % 2 == 0 then samples[left] as real / 32768.0
    else (samples[left] as real + samples[left + 1] as real) / 65536.0
  }

  function Samples16(samples: seq<Int16>): (out: seq<real>)
    ensures |out| == 2 * |samples| / 3
    ensures forall i :: 0 <= i < |out| ==> out[i] == Sample16(samples, i)
  {
    seq(2 * |samples| / 3, i requires 0 <= i < 2 * |samples| / 3 => Sample16(samples, i))
  }

  lemma SplitHalves(i: nat)
    ensures (i as real * 3.0 / 2.0).Floor == 3 * i / 2
    ensures i as real * 3.0 / 2.0 - (3 * i / 2) as real == if i % 2 == 0 then 0.0 else 0.5
  {
    if i % 2 == 0 {
      HalfOf(i / 2);
    } else {
      HalfOf(i / 2);
      assert i == 2 * (i / 2) + 1;
    }
  }

  lemma HalfOf(h: nat)
    ensures ((2 * h) as real * 3.0 / 2.0) == (3 * h) as real && 3 * (2 * h) / 2 == 3 * h
    ensures ((2 * h + 1) as real * 3.0 / 2.0) == (3 * h + 1) as real + 0.5 && 3 * (2 * h + 1) / 2 == 3 * h + 1
  {
  }

  // The right-neighbour guard of the loop is always true: every output has two source samples.
  lemma RightNeighbourExists(n: nat, i: nat)
    requires i < 2 * n / 3
    ensures 3 * i / 2 + 1 < n
  {
  }

  method ResampleAt16k(data: seq<Byte>, i: nat) returns (v: real)
    requires i < 2 * (|data| / 2) / 3
    ensures v == Sample16(Decode(data), i)
  {
    var n := |data| / 2;
    var pos := i as real * 3.0 / 2.0;
    var left := pos.Floor;
    var frac := pos - left as real;
    SplitHalves(i);
    RightNeighbourExists(n, i);
    v := Int16At(data[left * 2], data[left * 2 + 1]) as real / 32768.0;
    if left + 1 < n {
      var next := Int16At(data[(left + 1) * 2], data[(left + 1) * 2 + 1]) as real / 32768.0;
      v := Lerp(v, next, frac);
    }
  }

  method PCM16At16k(data: seq<Byte>) returns (out: seq<real>)
    ensures out == Samples16(Decode(data))
  {
    var n := |data| / 2;
    if n == 0 {
      return [];
    }
    var buffer := new real[n * 2 / 3](_ => 0.0);
    ghost var expected := Samples16(Decode(data));
    for i := 0 to buffer.Length
      invariant forall k :: 0 <= k < i ==> buffer[k] == expected[k]
    {
      var v := ResampleAt16k(data, i);
      buffer[i] := v;
    }
    out := buffer[..];
  }

  // ---------------------------------------------------------------- bounds

  lemma QuantisedIsMonotone(x: real, y: real)
    requires x <= y
    ensures Quantised(x) <= Quantised(y)
  {
  }

  // An interpolation lies between its two neighbours, so a 24 kHz sample lies between their
  // quantised values.
  lemma Sample24IsBetween(frame: seq<real>, i: nat)
    requires i < 3 * |frame| / 2
    ensures var left := 2 * i / 3;
            var right := if left + 1 < |frame| then left + 1 else left;
            Quantised(frame[left]) <= Sample24(frame, i) <= Quantised(frame[right])
            || Quantised(frame[right]) <= Sample24(frame, i) <= Quantised(frame[left])
  {
    var left, frac := 2 * i / 3, (2 * i % 3) as real / 3.0;
    var right := if left + 1 < |frame| then left + 1 else left;
    var v := Between(frame, left, frac);
    assert frac == 0.0 || frac == 1.0 / 3.0 || frac == 2.0 / 3.0;
    if frame[left] <= frame[right] {
      assert frame[left] <= v <= frame[right];
      QuantisedIsMonotone(frame[left], v);
      QuantisedIsMonotone(v, frame[right]);
    } else {
      assert frame[right] <= v <= frame[left];
      QuantisedIsMonotone(frame[right], v);
      QuantisedIsMonotone(v, frame[left]);
    }
  }

  lemma Sample16IsBetween(samples: seq<Int16>, i: nat)
    requires i < 2 * |samples| / 3
    ensures var left := 3 * i / 2;
            var a, b := samples[left] as real / 32768.0, samples[left + 1] as real / 32768.0;
            (a <= Sample16(samples, i) <= b || b <= Sample16(samples, i) <= a) && -1.0 <= Sample16(samples, i) < 1.0
  {
    RightNeighbourExists(|samples|, i);
  }

  // Quantising to PCM16 and reading it back loses less than 2/32768 of a sample in range.
  lemma QuantisationError(x: real)
    requires -1.0 <= x <= 1.0
    ensures Near(Quantised(x) as real / 32768.0, x)
  {
    var scaled := x * 32767.0;
    assert -1.0 < Truncate(scaled) as real - scaled < 1.0;
  }

  // What one sample becomes after going up to 24 kHz and back: itself at an even index, a smoothing
  // with its neighbours at an odd one.
  function Smoothed(frame: seq<real>, i: nat): real
    requires i < |frame|
  {
    if i % 2 == 0 then frame[i]
    else if i + 1 < |frame| then frame[i - 1] / 6.0 + frame[i] * 2.0 / 3.0 + frame[i + 1] / 6.0
    else frame[i - 1] / 6.0 + frame[i] * 5.0 / 6.0
  }

  predicate Near(x: real, y: real) {
    -2.0 / 32768.0 < x - y < 2.0 / 32768.0
  }

  // Resampling an even frame up and down again keeps its length and, within 2/32768, its even
  // samples and the smoothing of its odd ones.
  lemma ResamplingRoundTrip(frame: seq<real>, i: nat)
    requires |frame| % 2 == 0 && i < |frame|
    requires forall k :: 0 <= k < |frame| ==> -1.0 <= frame[k] <= 1.0
    ensures |Samples16(Samples24(frame))| == |frame|
    ensures Near(Samples16(Samples24(frame))[i], Smoothed(frame, i))
  {
    if i % 2 == 0 {
      EvenSource(frame, i / 2);
    } else {
      OddSources(frame, i / 2);
    }
  }

  // The 24 kHz sample at i lies r thirds of the way from its left source sample to the next.
  lemma Sample24At(frame: seq<real>, i: nat, left: nat, r: nat)
    requires i < 3 * |frame| / 2 && 2 * i == 3 * left + r && r < 3
    ensures left < |frame| && Samples24(frame)[i] == Quantised(Between(frame, left, r as real / 3.0))
  {
    assert 2 * i / 3 == left && 2 * i % 3 == r;
    assert Samples24(frame)[i] == Sample24(frame, i);
  }

  // The 16 kHz samples at 2j and 2j + 1 are taken from the 24 kHz samples from 3j on.
  lemma BackAt(up: seq<Int16>, j: nat)
    requires 3 * j + 2 < |up|
    ensures 2 * j + 1 < |Samples16(up)|
    ensures Samples16(up)[2 * j] == up[3 * j] as real / 32768.0
    ensures Samples16(up)[2 * j + 1] == Mean(up[3 * j + 1], up[3 * j + 2])
  {
    HalfOf(j);
    assert Samples16(up)[2 * j] == Sample16(up, 2 * j);
    assert Samples16(up)[2 * j + 1] == Sample16(up, 2 * j + 1);
  }

  function Mean(a: Int16, b: Int16): real {
    (a as real + b as real) / 65536.0
  }

  lemma LengthsUpAndBack(frame: seq<real>)
    requires |frame| % 2 == 0
    ensures |Samples24(frame)| == 3 * (|frame| / 2) && |Samples16(Samples24(frame))| == |frame|
  {
    Halves(|frame|);
  }

  // The 24 kHz sample that an even 16 kHz sample is taken from.
  lemma EvenSource(frame: seq<real>, j: nat)
    requires 2 * j < |frame| && |frame| % 2 == 0 && -1.0 <= frame[2 * j] <= 1.0
    ensures |Samples16(Samples24(frame))| == |frame|
    ensures Near(Samples16(Samples24(frame))[2 * j], frame[2 * j])
  {
    LengthsUpAndBack(frame);
    BackAt(Samples24(frame), j);
    EvenSampleKept(frame, j);
    QuantisationError(frame[2 * j]);
  }

  lemma EvenSampleKept(frame: seq<real>, j: nat)
    requires 2 * j < |frame| && 3 * j < 3 * |frame| / 2
    ensures Samples24(frame)[3 * j] == Quantised(frame[2 * j])
  {
    Sample24At(frame, 3 * j, 2 * j, 0);
    assert Between(frame, 2 * j, 0 as real / 3.0) == frame[2 * j];
  }

  // The two 24 kHz samples that an odd 16 kHz sample is averaged from.
  lemma OddSources(frame: seq<real>, j: nat)
    requires 2 * j + 1 < |frame| && |frame| % 2 == 0
    requires forall k :: 0 <= k < |frame| ==> -1.0 <= frame[k] <= 1.0
    ensures |Samples16(Samples24(frame))| == |frame|
    ensures Near(Samples16(Samples24(frame))[2 * j + 1], Smoothed(frame, 2 * j + 1))
  {
    LengthsUpAndBack(frame);
    BackAt(Samples24(frame), j);
    var next := if 2 * j + 2 < |frame| then frame[2 * j + 2] else frame[2 * j + 1];
    OddInterpolations(frame, j, next);
    MeanOfQuantised(frame[2 * j], frame[2 * j + 1], next);
    SmoothedOdd(frame, j, next);
  }

  lemma OddInterpolations(frame: seq<real>, j: nat, next: real)
    requires 2 * j + 1 < |frame| && |frame| % 2 == 0
    requires next == if 2 * j + 2 < |frame| then frame[2 * j + 2] else frame[2 * j + 1]
    ensures 3 * j + 2 < |Samples24(frame)|
    ensures Samples24(frame)[3 * j + 1] == Quantised(Lerp(frame[2 * j], frame[2 * j + 1], 2.0 / 3.0))
    ensures Samples24(frame)[3 * j + 2] == Quantised(Lerp(frame[2 * j + 1], next, 1.0 / 3.0))
  {
    LengthsUpAndBack(frame);
    Sample24At(frame, 3 * j + 1, 2 * j, 2);
    Sample24At(frame, 3 * j + 2, 2 * j + 1, 1);
    assert next == frame[2 * j + 1] ==> Lerp(frame[2 * j + 1], next, 1.0 / 3.0) == next;
  }

  lemma SmoothedOdd(frame: seq<real>, j: nat, next: real)
    requires 2 * j + 1 < |frame|
    requires next == if 2 * j + 2 < |frame| then frame[2 * j + 2] else frame[2 * j + 1]
    ensures Smoothed(frame, 2 * j + 1) == frame[2 * j] / 6.0 + frame[2 * j + 1] * 2.0 / 3.0 + next / 6.0
  {
  }

  // Averaging two neighbouring interpolations smooths the sample between them.
  lemma MeanOfQuantised(a: real, b: real, c: real)
    requires -1.0 <= a <= 1.0 && -1.0 <= b <= 1.0 && -1.0 <= c <= 1.0
    ensures Near(Mean(Quantised(Lerp(a, b, 2.0 / 3.0)), Quantised(Lerp(b, c, 1.0 / 3.0))),
                 a / 6.0 + b * 2.0 / 3.0 + c / 6.0)
  {
    var x, y := Lerp(a, b, 2.0 / 3.0), Lerp(b, c, 1.0 / 3.0);
    assert x == a / 3.0 + b * 2.0 / 3.0 && y == b * 2.0 / 3.0 + c / 3.0;
    QuantisationError(x);
    QuantisationError(y);
  }
}
