/** The two loops that move call audio: `InboundPump` re-chunks converted frames for the realtime
    provider, `OutboundPump` re-frames the provider's audio for the player.  The outbound loop hands
    out sub-slices of a growing buffer, so its slices are modelled with their backing arrays. */
module AudioPumps {
  import opened Pcm

  // ---------------------------------------------------------------- sequences of pieces

  function Concat<T>(pieces: seq<seq<T>>): seq<T> {
    if pieces == [] then [] else Concat(pieces[..|pieces| - 1]) + pieces[|pieces| - 1]
  }

  lemma ConcatAppend<T>(pieces: seq<seq<T>>, piece: seq<T>)
    ensures Concat(pieces + [piece]) == Concat(pieces) + piece
  {
    assert (pieces + [piece])[..|pieces|] == pieces;
  }

  lemma Reassociate<T>(a: seq<T>, b: seq<T>, c: seq<T>)
    ensures a + (b + c) == (a + b) + c
  {
  }

  ghost predicate AllOfLength<T>(pieces: seq<seq<T>>, n: nat) {
    forall i :: 0 <= i < |pieces| ==> |pieces[i]| == n
  }

  // Pieces of one length are the consecutive slices of their concatenation, so they are determined
  // by the stream alone, however it arrived.
  lemma {:induction false} PiecesAreSlices<T>(pieces: seq<seq<T>>, n: nat)
    requires AllOfLength(pieces, n)
    ensures |Concat(pieces)| == n * |pieces|
    ensures forall i :: 0 <= i < |pieces| ==> 0 <= n * i <= n * i + n <= |Concat(pieces)|
    ensures forall i :: 0 <= i < |pieces| ==> pieces[i] == Concat(pieces)[n * i..n * i + n]
  {
    if pieces != [] {
      var init, last := pieces[..|pieces| - 1], pieces[|pieces| - 1];
      PiecesAreSlices(init, n);
      assert n * |pieces| == n * |init| + n;
      forall i | 0 <= i < |pieces|
        ensures 0 <= n * i <= n * i + n <= |Concat(pieces)| && pieces[i] == Concat(pieces)[n * i..n * i + n]
      {
        if i < |init| {
          assert init[i] == Concat(init)[n * i..n * i + n];
        } else {
          assert i == |init|;
        }
      }
    }
  }

  lemma PieceOfStream<T>(pieces: seq<seq<T>>, rest: seq<T>, n: nat, m: nat)
    requires AllOfLength(pieces, n) && m < |pieces|
    ensures 0 <= n * m <= n * m + n <= |Concat(pieces) + rest|
    ensures pieces[m] == (Concat(pieces) + rest)[n * m..n * m + n]
  {
    PiecesAreSlices(pieces, n);
    assert pieces[m] == Concat(pieces)[n * m..n * m + n];
  }

  // ---------------------------------------------------------------- inbound

  // 20 ms of mono PCM16 at 24 kHz.
  const CHUNK_BYTES: nat := 960
  const INPUT_GAIN := 2.0

  // The bytes a frame becomes: its 24 kHz samples doubled and clamped, and a zero byte if it is odd.
  function Encode(samples: seq<Int16>): (data: seq<Byte>)
    ensures |data| == 2 * |samples|
  {
    if samples == [] then []
    else Encode(samples[..|samples| - 1]) + [LowByte(samples[|samples| - 1]), HighByte(samples[|samples| - 1])]
  }

  function Converted(frame: seq<real>): (data: seq<Byte>)
    ensures |data| == 3 * |frame|
  {
    OutputSizes(|frame|);
    Encode(AmplifiedAll(Samples24(frame), INPUT_GAIN)) + (if |frame| % 2 == 1 then [0] else [])
  }

  lemma {:induction false} EncodeIsDecoded(samples: seq<Int16>)
    ensures Decode(Encode(samples)) == samples
  {
    if samples != [] {
      var init, last := samples[..|samples| - 1], samples[|samples| - 1];
      EncodeIsDecoded(init);
      Int16RoundTrip(last);
      var data := Encode(samples);
      forall i | 0 <= i < |samples| ensures Decode(data)[i] == samples[i] {
        if i < |init| {
          assert data[2 * i] == Encode(init)[2 * i] && data[2 * i + 1] == Encode(init)[2 * i + 1];
          assert Decode(Encode(init))[i] == samples[i];
        }
      }
    }
  }

  lemma Int16AtIsInjective(a: Byte, b: Byte, c: Byte, d: Byte)
    requires Int16At(a, b) == Int16At(c, d)
    ensures a == c && b == d
  {
  }

  // A byte slice is determined by its samples and its last odd byte.
  lemma DecodeDetermines(a: seq<Byte>, b: seq<Byte>)
    requires |a| == |b| && Decode(a) == Decode(b)
    requires |a| % 2 == 1 ==> a[|a| - 1] == b[|b| - 1]
    ensures a == b
  {
    forall i | 0 <= i < |a| ensures a[i] == b[i] {
      if i / 2 < |a| / 2 {
        var k := i / 2;
        assert Decode(a)[k] == Decode(b)[k];
        Int16AtIsInjective(a[2 * k], a[2 * k + 1], b[2 * k], b[2 * k + 1]);
      }
    }
  }

  // The converted bytes, and the converted samples, of all frames heard.
  function ConvertedStream(frames: seq<seq<real>>): seq<Byte> {
    if frames == [] then [] else ConvertedStream(frames[..|frames| - 1]) + Converted(frames[|frames| - 1])
  }

  function SampleStream(frames: seq<seq<real>>): seq<Int16> {
    if frames == [] then []
    else SampleStream(frames[..|frames| - 1]) + AmplifiedAll(Samples24(frames[|frames| - 1]), INPUT_GAIN)
  }

  // Resamples and amplifies a frame for the realtime provider.
  method Convert(frame: seq<real>) returns (amplified: seq<Byte>)
    ensures amplified == Converted(frame)
  {
    var pcm24 := PCM16At24k(frame);
    amplified := AmplifyPCM16(pcm24, INPUT_GAIN);
    ConversionIsExact(frame, pcm24, amplified);
  }

  class InboundPump {
    var pending: seq<Byte>
    // The chunks submitted to SendRealtimeAudio, in order; each is a copy.
    var sent: seq<seq<Byte>>
    // The frames received from the call.
    ghost var heard: seq<seq<real>>

    constructor ()
      ensures Valid() && heard == []
    {
      pending, sent, heard := [], [], [];
    }

    // Everything converted so far is either submitted, in chunks of exactly 960 bytes, or pending,
    // fewer than 960 bytes.
    ghost predicate Valid()
      reads this
    {
      |pending| < CHUNK_BYTES && AllOfLength(sent, CHUNK_BYTES) && Concat(sent) + pending == ConvertedStream(heard)
    }

    method SubmitChunk()
      requires |pending| >= CHUNK_BYTES && AllOfLength(sent, CHUNK_BYTES)
      modifies this`pending, this`sent
      ensures |pending| == old(|pending|) - CHUNK_BYTES && AllOfLength(sent, CHUNK_BYTES)
      ensures Concat(sent) + pending == old(Concat(sent) + pending) && old(sent) <= sent
    {
      var chunk := pending[..CHUNK_BYTES];
      ConcatAppend(sent, chunk);
      assert pending == chunk + pending[CHUNK_BYTES..];
      pending := pending[CHUNK_BYTES..];
      sent := sent + [chunk];
    }

    // The sink of the incoming call audio.
    method Receive(frame: seq<real>)
      requires Valid()
      modifies this
      ensures Valid() && heard == old(heard) + [frame] && old(sent) <= sent
      ensures AllEven(heard) ==> forall m :: 0 <= m < |sent| ==> IsDoubledFrom(sent[m], heard, 480 * m)
    {
      var amplified := Convert(frame);
      heard := heard + [frame];
      assert heard[..|heard| - 1] == old(heard);
      Reassociate(Concat(sent), pending, amplified);
      pending := pending + amplified;
      while |pending| >= CHUNK_BYTES
        invariant AllOfLength(sent, CHUNK_BYTES) && old(sent) <= sent && heard == old(heard) + [frame]
        invariant Concat(sent) + pending == ConvertedStream(heard)
        decreases |pending|
      {
        SubmitChunk();
      }
      forall m | AllEven(heard) && 0 <= m < |sent| ensures IsDoubledFrom(sent[m], heard, 480 * m) {
        ChunkIsDoubled(heard, sent, pending, m);
      }
    }
  }

  // ---------------------------------------------------------------- inbound alignment

  ghost predicate AllEven(frames: seq<seq<real>>) {
    forall i :: 0 <= i < |frames| ==> |frames[i]| % 2 == 0
  }

  lemma DecodeConcat(a: seq<Byte>, b: seq<Byte>)
    requires |a| % 2 == 0
    ensures Decode(a + b) == Decode(a) + Decode(b)
  {
  }

  lemma {:induction false} EvenFramesDecode(frames: seq<seq<real>>)
    requires AllEven(frames)
    ensures |ConvertedStream(frames)| % 2 == 0 && Decode(ConvertedStream(frames)) == SampleStream(frames)
  {
    if frames != [] {
      var init, last := frames[..|frames| - 1], frames[|frames| - 1];
      EvenFramesDecode(init);
      EncodeIsDecoded(AmplifiedAll(Samples24(last), INPUT_GAIN));
      assert Converted(last) == Encode(AmplifiedAll(Samples24(last), INPUT_GAIN));
      DecodeConcat(ConvertedStream(init), Converted(last));
    }
  }

  lemma DecodeSlice(data: seq<Byte>, from: nat, to: nat)
    requires from <= to && 2 * to <= |data|
    ensures Decode(data[2 * from..2 * to]) == Decode(data)[from..to]
  {
  }

  // With even-length frames every chunk is 480 whole samples: the chunks cut the sample stream into
  // consecutive pieces.
  lemma ChunksAreSamples(frames: seq<seq<real>>, sent: seq<seq<Byte>>, pending: seq<Byte>, m: nat)
    requires AllEven(frames) && AllOfLength(sent, CHUNK_BYTES) && m < |sent|
    requires Concat(sent) + pending == ConvertedStream(frames)
    ensures 480 * m + 480 <= |SampleStream(frames)|
    ensures Decode(sent[m]) == SampleStream(frames)[480 * m..480 * m + 480]
  {
    EvenFramesDecode(frames);
    PieceOfStream(sent, pending, CHUNK_BYTES, m);
    DecodeSlice(ConvertedStream(frames), 480 * m, 480 * m + 480);
  }

  // The 24 kHz samples of all frames, before the gain.
  function Upsampled(frames: seq<seq<real>>): seq<Int16> {
    if frames == [] then [] else Upsampled(frames[..|frames| - 1]) + Samples24(frames[|frames| - 1])
  }

  // A sample doubled, up to the ends of the range.
  predicate IsDoubled(amplified: Int16, v: Int16) {
    amplified == if v > 16383 then 32767 else if v < -16384 then -32768 else 2 * v
  }

  lemma {:induction false} StreamIsDoubled(frames: seq<seq<real>>)
    ensures |SampleStream(frames)| == |Upsampled(frames)|
    ensures forall i :: 0 <= i < |SampleStream(frames)| ==> IsDoubled(SampleStream(frames)[i], Upsampled(frames)[i])
  {
    if frames != [] {
      StreamIsDoubled(frames[..|frames| - 1]);
      FrameIsDoubled(Samples24(frames[|frames| - 1]));
    }
  }

  lemma FrameIsDoubled(samples: seq<Int16>)
    ensures forall i :: 0 <= i < |samples| ==> IsDoubled(AmplifiedAll(samples, INPUT_GAIN)[i], samples[i])
  {
    forall i | 0 <= i < |samples| ensures IsDoubled(AmplifiedAll(samples, INPUT_GAIN)[i], samples[i]) {
      GainOfTwo(samples[i]);
    }
  }

  // So with even-length frames sample j of chunk m is sample 480m + j of the 24 kHz stream, doubled.
  lemma ChunksAreDoubled(frames: seq<seq<real>>, sent: seq<seq<Byte>>, pending: seq<Byte>, m: nat, j: nat)
    requires AllEven(frames) && AllOfLength(sent, CHUNK_BYTES) && m < |sent| && j < 480
    requires Concat(sent) + pending == ConvertedStream(frames)
    ensures |sent[m]| == 960 && |Decode(sent[m])| == 480 && 480 * m + j < |Upsampled(frames)|
    ensures IsDoubled(Decode(sent[m])[j], Upsampled(frames)[480 * m + j])
  {
    ChunksAreSamples(frames, sent, pending, m);
    StreamIsDoubled(frames);
    assert Decode(sent[m])[j] == SampleStream(frames)[480 * m + j];
  }

  // The chunk is 480 samples of the 24 kHz stream, from `start` on, doubled.
  ghost predicate IsDoubledFrom(chunk: seq<Byte>, frames: seq<seq<real>>, start: nat) {
    |Decode(chunk)| == 480 && start + 480 <= |Upsampled(frames)|
    && forall j :: 0 <= j < 480 ==> IsDoubled(Decode(chunk)[j], Upsampled(frames)[start + j])
  }

  lemma ChunkIsDoubled(frames: seq<seq<real>>, sent: seq<seq<Byte>>, pending: seq<Byte>, m: nat)
    requires AllEven(frames) && AllOfLength(sent, CHUNK_BYTES) && m < |sent|
    requires Concat(sent) + pending == ConvertedStream(frames)
    ensures IsDoubledFrom(sent[m], frames, 480 * m)
  {
    var start := 480 * m;
    ChunksAreDoubled(frames, sent, pending, m, 479);
    forall j | 0 <= j < 480 ensures IsDoubled(Decode(sent[m])[j], Upsampled(frames)[start + j]) {
      ChunksAreDoubled(frames, sent, pending, m, j);
    }
  }

  function OddFrames(frames: seq<seq<real>>): nat {
    if frames == [] then 0 else OddFrames(frames[..|frames| - 1]) + |frames[|frames| - 1]| % 2
  }

  // Frames of any length leave the stream on a sample boundary if and only if evenly many are odd.
  lemma {:induction false} AlignedIffEvenlyManyOdd(frames: seq<seq<real>>)
    ensures |ConvertedStream(frames)| % 2 == 0 <==> OddFrames(frames) % 2 == 0
  {
    var pairs := StreamInPairs(frames);
    SameParity(|ConvertedStream(frames)|, pairs, OddFrames(frames));
  }

  // Byte `offset` of a converted frame is where one of its samples starts.
  predicate StartsSample(frame: seq<real>, offset: nat) {
    offset % 2 == 0 && offset + 1 < 2 * |Samples24(frame)|
  }

  // Where chunk m starts: at byte `offset` of what frame k became.
  ghost predicate ChunkStartsIn(frames: seq<seq<real>>, m: nat, k: nat, offset: nat) {
    && k < |frames| && offset < |Converted(frames[k])|
    && CHUNK_BYTES * m == |ConvertedStream(frames[..k])| + offset
  }

  // With frames of any length, a submitted chunk starts with a whole sample if and only if evenly
  // many of the frames before the one it starts in are odd.
  lemma ChunkStartsOnSampleIff(frames: seq<seq<real>>, m: nat, k: nat, offset: nat)
    requires ChunkStartsIn(frames, m, k, offset)
    ensures StartsSample(frames[k], offset) <==> OddFrames(frames[..k]) % 2 == 0
  {
    var before := frames[..k];
    AlignedIffEvenlyManyOdd(before);
    var triples := StreamInThrees(before);
    EvenSum(offset, |ConvertedStream(before)|, 480 * m);
    OffsetOfChunk(triples, m, offset, |frames[k]|);
  }

  lemma {:induction false} StreamInThrees(frames: seq<seq<real>>) returns (triples: nat)
    ensures |ConvertedStream(frames)| == 3 * triples
  {
    if frames == [] {
      triples := 0;
    } else {
      triples := StreamInThrees(frames[..|frames| - 1]);
      triples := triples + |frames[|frames| - 1]|;
    }
  }

  lemma EvenSum(a: nat, b: nat, half: nat)
    requires a + b == 2 * half
    ensures a % 2 == 0 <==> b % 2 == 0
  {
  }

  // 960 and the lengths of converted frames are multiples of 3, so no chunk starts at the zero byte
  // that ends an odd frame.
  lemma OffsetOfChunk(triples: nat, m: nat, offset: nat, n: nat)
    requires 960 * m == 3 * triples + offset && offset < 3 * n
    ensures offset + 1 < 2 * (3 * n / 2)
  {
    OutputSizes(n);
    assert offset == 3 * (320 * m - triples);
  }

  // Every submitted chunk starts somewhere, and from there on it is the converted stream.
  lemma ChunkStarts(frames: seq<seq<real>>, sent: seq<seq<Byte>>, pending: seq<Byte>, m: nat)
    returns (k: nat, offset: nat)
    requires AllOfLength(sent, CHUNK_BYTES) && m < |sent| && Concat(sent) + pending == ConvertedStream(frames)
    ensures ChunkStartsIn(frames, m, k, offset)
    ensures CHUNK_BYTES * m + CHUNK_BYTES <= |ConvertedStream(frames)|
    ensures sent[m] == ConvertedStream(frames)[CHUNK_BYTES * m..CHUNK_BYTES * m + CHUNK_BYTES]
  {
    PieceOfStream(sent, pending, CHUNK_BYTES, m);
    k, offset := FrameOfByte(frames, CHUNK_BYTES * m);
  }

  lemma {:induction false} FrameOfByte(frames: seq<seq<real>>, at: nat) returns (k: nat, offset: nat)
    requires at < |ConvertedStream(frames)|
    ensures k < |frames| && offset < |Converted(frames[k])| && at == |ConvertedStream(frames[..k])| + offset
  {
    var init := frames[..|frames| - 1];
    if at < |ConvertedStream(init)| {
      k, offset := FrameOfByte(init, at);
      assert init[..k] == frames[..k];
    } else {
      k, offset := |frames| - 1, at - |ConvertedStream(init)|;
    }
  }

  // A frame of one sample followed by one of 640: the second chunk starts in the middle of a sample.
  lemma OddFrameMisaligns(first: seq<real>, second: seq<real>)
    requires |first| == 1 && |second| == 640
    ensures |ConvertedStream([first, second])| >= 2 * CHUNK_BYTES
    ensures ChunkStartsIn([first, second], 1, 1, 957) && !StartsSample(second, 957)
  {
    assert [first, second][..1] == [first] && [first][..0] == [];
    assert ConvertedStream([]) == [];
  }

  // Every odd frame adds one byte that is not part of a pair.
  lemma {:induction false} StreamInPairs(frames: seq<seq<real>>) returns (pairs: nat)
    ensures |ConvertedStream(frames)| == 2 * pairs + OddFrames(frames)
  {
    if frames == [] {
      pairs := 0;
    } else {
      var n := |frames[|frames| - 1]|;
      pairs := StreamInPairs(frames[..|frames| - 1]);
      FrameInPairs(n);
      pairs := pairs + n + n / 2;
    }
  }

  lemma FrameInPairs(n: nat)
    ensures 3 * n == 2 * (n + n / 2) + n % 2
  {
  }

  lemma SameParity(whole: nat, pairs: nat, rest: nat)
    requires whole == 2 * pairs + rest
    ensures whole % 2 == rest % 2
  {
  }

  lemma ConversionIsExact(frame: seq<real>, pcm24: seq<Byte>, amplified: seq<Byte>)
    requires |pcm24| == 3 * |frame| == |amplified| && Decode(pcm24) == Samples24(frame)
    requires |pcm24| < 2 ==> amplified == pcm24
    requires |pcm24| >= 2 ==>
               Decode(amplified) == AmplifiedAll(Decode(pcm24), INPUT_GAIN)
               && (|amplified| % 2 == 1 ==> amplified[|amplified| - 1] == 0)
    ensures amplified == Converted(frame)
  {
    if frame != [] {
      ConvertedDecodes(frame);
      SameParityOfTriple(|frame|);
      DecodeDetermines(amplified, Converted(frame));
    }
  }

  lemma ConvertedDecodes(frame: seq<real>)
    ensures Decode(Converted(frame)) == AmplifiedAll(Samples24(frame), INPUT_GAIN)
    ensures |frame| % 2 == 1 ==> Converted(frame)[3 * |frame| - 1] == 0
  {
    EncodeThenByte(AmplifiedAll(Samples24(frame), INPUT_GAIN), if |frame| % 2 == 1 then [0] else []);
  }

  lemma EncodeThenByte(samples: seq<Int16>, last: seq<Byte>)
    requires |last| <= 1
    ensures Decode(Encode(samples) + last) == samples
  {
    EncodeIsDecoded(samples);
    DecodeConcat(Encode(samples), last);
  }

  lemma SameParityOfTriple(n: nat)
    ensures 3 * n % 2 == n % 2
  {
    FrameInPairs(n);
    SameParity(3 * n, n + n / 2, n % 2);
  }

  // ---------------------------------------------------------------- outbound

  // A Go slice: `len` samples of a backing array from `start`.  Its capacity runs to the end of the
  // array, and another slice may share it.
  datatype Slice = Slice(backing: array<real>, start: nat, len: nat) {
    ghost predicate InBounds() {
      start + len <= backing.Length
    }

    function Capacity(): int {
      backing.Length - start
    }

    ghost function Contents(): seq<real>
      requires InBounds()
      reads backing
    {
      backing[start..start + len]
    }

    // s[:n] and s[n:] share the array.
    function Take(n: nat): Slice
      requires n <= len
    {
      Slice(backing, start, n)
    }

    function Drop(n: nat): Slice
      requires n <= len
    {
      Slice(backing, start + n, len - n)
    }
  }

  // Go's append: in place when the capacity allows it, otherwise a copy into a larger new array,
  // whose spare room `growth` is up to the runtime.
  method Append(s: Slice, xs: seq<real>, growth: nat) returns (r: Slice)
    requires s.InBounds()
    modifies s.backing
    ensures r.InBounds() && r.Contents() == old(s.Contents()) + xs
    ensures fresh(r.backing) || (r.backing == s.backing && r.start == s.start)
    ensures forall i :: 0 <= i < s.backing.Length && !(s.start + s.len <= i < s.start + s.len + |xs|) ==>
              s.backing[i] == old(s.backing[i])
    ensures fresh(r.backing) ==> forall i :: 0 <= i < s.backing.Length ==> s.backing[i] == old(s.backing[i])
  {
    ghost var before := s.Contents();
    if s.len + |xs| <= s.Capacity() {
      r := Slice(s.backing, s.start, s.len + |xs|);
    } else {
      var larger := new real[s.len + |xs| + growth](_ => 0.0);
      r := Slice(larger, 0, s.len + |xs|);
      forall i | 0 <= i < s.len {
        r.backing[i] := s.backing[s.start + i];
      }
    }
    ghost var kept := r.backing[..];
    assert forall i :: 0 <= i < s.len ==> kept[r.start + i] == before[i];
    forall i | 0 <= i < |xs| {
      r.backing[r.start + s.len + i] := xs[i];
    }
    forall i | 0 <= i < s.len ensures r.backing[r.start + i] == before[i] {
      assert kept[r.start + i] == before[i];
    }
    assert r.Contents() == before + xs;
  }

  function ResampledStream(fed: seq<seq<Byte>>): seq<real> {
    if fed == [] then [] else ResampledStream(fed[..|fed| - 1]) + Samples16(Decode(fed[|fed| - 1]))
  }

  function Silence(n: nat): seq<real> {
    seq(n, _ => 0.0)
  }

  class OutboundPump {
    const frameSamples: nat
    var pending: Slice
    // The frames offered to the audio source, as the slices handed over and as their contents then.
    ghost var frames: seq<Slice>
    ghost var offered: seq<seq<real>>
    // The data received from the realtime provider.
    ghost var fed: seq<seq<Byte>>
    // The arrays these slices live in.
    ghost var arrays: set<array<real>>

    constructor (frameSamples: nat)
      requires frameSamples > 0
      ensures Valid() && this.frameSamples == frameSamples && frames == [] && fed == [] && fresh(pending.backing)
    {
      this.frameSamples := frameSamples;
      var buffer := new real[frameSamples * 2](_ => 0.0);
      pending := Slice(buffer, 0, 0);
      frames, offered, fed, arrays := [], [], [], {buffer};
    }

    // A frame that shares the pending slice's array lies wholly before it, out of reach of append.
    ghost predicate Untouchable(f: Slice)
      reads this
    {
      f.InBounds() && f.len == frameSamples && (f.backing == pending.backing ==> f.start + f.len <= pending.start)
    }

    // Every frame handed over still holds what it held then.
    ghost predicate Intact()
      reads this, arrays
    {
      && frameSamples > 0 && pending.InBounds() && pending.backing in arrays
      && |frames| == |offered| && AllOfLength(offered, frameSamples)
      && (forall i :: 0 <= i < |frames| ==>
            frames[i].backing in arrays && Untouchable(frames[i]) && frames[i].Contents() == offered[i])
    }

    ghost function Stream(): seq<real>
      requires pending.InBounds()
      reads this, pending.backing
    {
      Concat(offered) + pending.Contents()
    }

    // Less than a frame is pending, and offered frames and pending samples are the resampled stream.
    ghost predicate Valid()
      reads this, arrays
    {
      Intact() && pending.len < frameSamples && Stream() == ResampledStream(fed)
    }

    method PushFrame(frame: Slice)
      requires Intact() && Untouchable(frame)
      modifies this`frames, this`offered, this`arrays
      ensures Intact() && frames == old(frames) + [frame] && offered == old(offered) + [frame.Contents()]
      ensures Concat(offered) == old(Concat(offered)) + frame.Contents()
    {
      ConcatAppend(offered, frame.Contents());
      frames := frames + [frame];
      offered := offered + [frame.Contents()];
      arrays := arrays + {frame.backing};
    }

    // Hands over the next whole frame without copying it.
    method CutFrame()
      requires Intact() && pending.len >= frameSamples
      modifies this`pending, this`frames, this`offered, this`arrays
      ensures Intact() && pending == old(pending).Drop(frameSamples) && Stream() == old(Stream())
      ensures old(frames) <= frames && old(offered) <= offered
    {
      var frame := pending.Take(frameSamples);
      pending := pending.Drop(frameSamples);
      assert old(pending.Contents()) == frame.Contents() + pending.Contents();
      Reassociate(Concat(offered), frame.Contents(), pending.Contents());
      PushFrame(frame);
    }

    method Grow(xs: seq<real>, growth: nat)
      requires Intact()
      modifies this`pending, this`arrays, pending.backing
      ensures Intact() && Stream() == old(Stream()) + xs
      ensures fresh(pending.backing) || pending.backing == old(pending.backing)
    {
      var grown := Append(pending, xs, growth);
      forall i | 0 <= i < |frames| ensures frames[i].Contents() == old(frames[i].Contents()) {
        assert Untouchable(frames[i]);
      }
      Reassociate(Concat(offered), old(pending.Contents()), xs);
      pending := grown;
      arrays := arrays + {grown.backing};
    }

    // Data from the realtime provider: the converted samples join the stream, every whole frame is
    // offered, and no frame offered earlier is disturbed, whether append grew in place or not.
    method Feed(data: seq<Byte>, growth: nat)
      requires Valid()
      modifies this, pending.backing
      ensures Valid() && fed == old(fed) + [data] && old(frames) <= frames && old(offered) <= offered
      ensures forall i :: 0 <= i < |old(frames)| ==> frames[i].Contents() == old(frames[i].Contents())
    {
      Absorb(data, growth);
      CutFrames();
    }

    // Converts data and appends it to what is pending.
    method Absorb(data: seq<Byte>, growth: nat)
      requires Valid()
      modifies this`pending, this`arrays, this`fed, pending.backing
      ensures Intact() && Stream() == ResampledStream(fed) && fed == old(fed) + [data]
      ensures fresh(pending.backing) || pending.backing == old(pending.backing)
    {
      var samples := PCM16At16k(data);
      Grow(samples, growth);
      fed := fed + [data];
      assert fed[..|fed| - 1] == old(fed);
    }

    method CutFrames()
      requires Intact()
      modifies this`pending, this`frames, this`offered, this`arrays
      ensures Intact() && pending.len < frameSamples && pending.backing == old(pending).backing
      ensures Stream() == old(Stream()) && old(frames) <= frames && old(offered) <= offered
    {
      while pending.len >= frameSamples
        invariant Intact() && Stream() == old(Stream()) && pending.backing == old(pending).backing
        invariant old(frames) <= frames && old(offered) <= offered
        decreases pending.len
      {
        CutFrame();
      }
    }

    // The input channel closed: what is pending goes out in one last frame, padded with silence, so
    // that the frames offered are the whole stream padded to the next multiple of the frame length.
    method Finish()
      requires Valid()
      modifies this`frames, this`offered, this`arrays
      ensures Intact() && old(frames) <= frames && old(offered) <= offered
      ensures |offered| == |old(offered)| + (if pending.len > 0 then 1 else 0)
      ensures var stream, total := ResampledStream(fed), frameSamples * |offered|;
              |stream| <= total < |stream| + frameSamples && Concat(offered) == stream + Silence(total - |stream|)
    {
      PushRest();
      PiecesAreSlices(offered, frameSamples);
    }

    method PushRest()
      requires Intact() && pending.len < frameSamples
      modifies this`frames, this`offered, this`arrays
      ensures Intact() && old(frames) <= frames && old(offered) <= offered
      ensures |offered| == |old(offered)| + (if pending.len > 0 then 1 else 0)
      ensures Concat(offered) == old(Stream()) + Silence(if pending.len > 0 then frameSamples - pending.len else 0)
    {
      PaddingFits(Concat(offered), pending.Contents(), frameSamples);
      if pending.len > 0 {
        var frame := PaddedFrame();
        PushFrame(frame);
      }
    }

    // A new frame holding what is pending, followed by silence.
    method PaddedFrame() returns (frame: Slice)
      requires Intact() && pending.len < frameSamples
      ensures frame.InBounds() && frame.len == frameSamples && fresh(frame.backing)
      ensures frame.Contents() == pending.Contents() + Silence(frameSamples - pending.len)
    {
      var samples := new real[frameSamples](_ => 0.0);
      forall i | 0 <= i < pending.len {
        samples[i] := pending.backing[pending.start + i];
      }
      frame := Slice(samples, 0, frameSamples);
    }
  }

  lemma PaddingFits(whole: seq<real>, rest: seq<real>, n: nat)
    requires |rest| < n
    ensures whole + (rest + Silence(n - |rest|)) == (whole + rest) + Silence(n - |rest|)
    ensures whole + [] == whole && (rest == [] ==> whole + rest + Silence(0) == whole)
  {
  }
}
