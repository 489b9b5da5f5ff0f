/** The outbound audio path as it interleaves: the producer loop cuts frames and pushes them into a
    bounded queue, the player reads a frame or silence on every media tick, and the call may be
    cancelled and its source closed at any moment. */
module OutboundPipeline {
  import opened Pcm
  import opened AudioPumps

  type Frame = seq<real>

  const QUEUE_CAPACITY: nat := 8

  // `cancelled` is the call's context; Close sets `done` and then `closed`.
  datatype Queue = Queue(frames: seq<Frame>, cancelled: bool, done: bool, closed: bool)

  // What ReadFrame returns: the end of the stream, a queued frame, or inserted silence.
  datatype Read = Eof | Got(frame: Frame) | Inserted

  // The cases of ReadFrame's select that are ready; with none ready the default inserts silence.
  predicate MayRead(q: Queue, read: Read) {
    match read
    case Eof => q.cancelled || q.done
    case Got(frame) => q.frames != [] && frame == q.frames[0]
    case Inserted => !q.cancelled && !q.done && q.frames == []
  }

  // A read never waits.  While the call is live and the source open it can turn out in one way only: the
  // oldest frame if there is one, silence if there is none.
  lemma NextRead(q: Queue)
    ensures exists read :: MayRead(q, read)
    ensures !q.cancelled && !q.done ==>
              forall read :: MayRead(q, read) <==> read == if q.frames == [] then Inserted else Got(q.frames[0])
  {
    if q.cancelled || q.done {
      assert MayRead(q, Eof);
    } else if q.frames == [] {
      assert MayRead(q, Inserted);
    } else {
      assert MayRead(q, Got(q.frames[0]));
    }
  }

  function AfterRead(q: Queue, read: Read): Queue
    requires MayRead(q, read)
  {
    if read.Got? then q.(frames := q.frames[1..]) else q
  }

  // The audio source as an object; `pick` settles which ready case a select takes.
  class RealtimeAudioSource {
    var frames: seq<Frame>
    var cancelled: bool
    var done: bool
    var closed: bool

    constructor ()
      ensures State() == Queue([], false, false, false)
    {
      frames, cancelled, done, closed := [], false, false, false;
    }

    ghost function State(): Queue
      reads this
    {
      Queue(frames, cancelled, done, closed)
    }

    // Never blocks, and returns silence only when there is nothing else to return.
    method ReadFrame(pick: bool) returns (read: Read)
      modifies this`frames
      ensures MayRead(old(State()), read) && State() == AfterRead(old(State()), read)
      ensures read.Eof? ==> (cancelled || done) && frames == old(frames)
      ensures read.Got? ==> old(frames) == [read.frame] + frames
      ensures read.Inserted? ==> !cancelled && !done && frames == [] == old(frames)
    {
      if (cancelled || done) && (frames == [] || pick) {
        return Eof;
      }
      if frames != [] {
        read := Got(frames[0]);
        frames := frames[1..];
      } else {
        read := Inserted;
      }
    }

    method Close()
      modifies this`done, this`closed
      ensures State() == old(State()).(done := true, closed := true)
    {
      if !done {
        done := true;
      }
      closed := true;
    }

    // Push when its select can proceed: the frame is queued, or refused because the call is over;
    // after a Close it is refused whether or not it was queued.
    method Push(frame: Frame, pick: bool) returns (ok: bool)
      requires closed || cancelled || done || |frames| < 8
      modifies this`frames
      ensures State() == old(State())
              || (|old(frames)| < QUEUE_CAPACITY && State() == old(State()).(frames := old(frames) + [frame]))
      ensures ok ==> frames == old(frames) + [frame]
      ensures State() == old(State()) ==> !ok && (closed || cancelled || done)
      ensures closed ==> !ok
    {
      if closed {
        return false;
      }
      if (cancelled || done) && (|frames| >= QUEUE_CAPACITY || pick) {
        return false;
      }
      frames := frames + [frame];
      ok := !closed;
    }
  }

  // ---------------------------------------------------------------- the whole path

  datatype Producer = Cutting | Pushing(frame: Frame) | Stopped

  datatype System = System(
    received: seq<seq<Byte>>,
    inputClosed: bool,
    padding: nat,             // the silence that filled the last frame of a closed input
    pending: seq<real>,
    producer: Producer,
    abandoned: seq<real>,     // what a producer that stopped early left behind
    queue: Queue,
    played: seq<Read>)

  datatype Action =
    | Data(data: seq<Byte>)
    | CloseInput
    | Cut
    | Accept
    | Refuse
    | Stop
    | Play(read: Read)
    | Cancel
    | CloseDone
    | MarkClosed

  const START := System([], false, 0, [], Cutting, [], Queue([], false, false, false), [])

  predicate Enabled(s: System, action: Action, n: nat) {
    match action
    case Data(_) => s.producer.Cutting? && |s.pending| < n && !s.inputClosed
    case CloseInput => s.producer.Cutting? && |s.pending| < n && !s.inputClosed
    case Cut => s.producer.Cutting? && |s.pending| >= n
    case Accept => s.producer.Pushing? && |s.queue.frames| < QUEUE_CAPACITY
    case Refuse => s.producer.Pushing? && (s.queue.cancelled || s.queue.done || s.queue.closed)
    case Stop => s.producer.Cutting? && s.queue.cancelled
    case Play(read) => MayRead(s.queue, read)
    case Cancel => true
    case CloseDone => true
    case MarkClosed => s.queue.done
  }

  // Everything the producer has not yet put in the queue.
  function Upstream(s: System): seq<real> {
    (if s.producer.Pushing? then s.producer.frame else []) + s.pending
  }

  // A refused push ends the producer only if the call was cancelled; otherwise the frame is dropped
  // and the producer goes on.  An action that is not enabled changes nothing.
  function Step(s: System, action: Action, n: nat): System {
    if !Enabled(s, action, n) then s
    else
      match action
      case Data(data) => s.(received := s.received + [data], pending := s.pending + Samples16(Decode(data)))
      case CloseInput =>
        if s.pending == [] then s.(inputClosed := true, producer := Stopped)
        else
          s.(inputClosed := true, padding := n - |s.pending|, pending := [],
             producer := Pushing(s.pending + Silence(n - |s.pending|)))
      case Cut => s.(pending := s.pending[n..], producer := Pushing(s.pending[..n]))
      case Accept =>
        s.(queue := s.queue.(frames := s.queue.frames + [s.producer.frame]),
           producer := if s.inputClosed then Stopped else Cutting)
      case Refuse =>
        if s.queue.cancelled || s.inputClosed then s.(producer := Stopped, abandoned := Upstream(s), pending := [])
        else s.(producer := Cutting)
      case Stop => s.(producer := Stopped, abandoned := s.pending, pending := [])
      case Play(read) => s.(queue := AfterRead(s.queue, read), played := s.played + [read])
      case Cancel => s.(queue := s.queue.(cancelled := true))
      case CloseDone => s.(queue := s.queue.(done := true))
      case MarkClosed => s.(queue := s.queue.(closed := true))
  }

  function State(run: seq<Action>, n: nat): System {
    if run == [] then START else Step(State(run[..|run| - 1], n), run[|run| - 1], n)
  }

  // What was played, without the inserted silence.
  function Heard(played: seq<Read>): seq<real> {
    if played == [] then []
    else Heard(played[..|played| - 1]) + (if played[|played| - 1].Got? then played[|played| - 1].frame else [])
  }

  // The stream the player is owed: what was received, then the silence that fills its last frame.
  function Owed(s: System): seq<real> {
    ResampledStream(s.received) + Silence(s.padding)
  }

  // ---------------------------------------------------------------- conservation

  function Downstream(s: System): seq<real> {
    Heard(s.played) + Concat(s.queue.frames)
  }

  // Nothing is lost, repeated or reordered: what was heard, what is queued, what is on its way and
  // what a stopped producer left behind are the stream.
  ghost predicate Conserved(s: System) {
    && (!s.inputClosed ==> s.padding == 0)
    && (s.producer.Cutting? ==> !s.inputClosed)
    && (!s.producer.Stopped? ==> s.abandoned == [])
    && (s.inputClosed || s.producer.Stopped? ==> s.pending == [])
    && Downstream(s) + (Upstream(s) + s.abandoned) == Owed(s)
  }

  // A refused frame is not followed by another: the call was cancelled, or it was the last frame.
  ghost predicate NoFrameSkipped(run: seq<Action>, n: nat) {
    run == [] ||
    (var before, action := run[..|run| - 1], run[|run| - 1];
     && NoFrameSkipped(before, n)
     && (action.Refuse? && Enabled(State(before, n), action, n) ==>
           State(before, n).queue.cancelled || State(before, n).inputClosed))
  }

  lemma ConcatDropFirst<T>(pieces: seq<seq<T>>)
    requires pieces != []
    ensures Concat(pieces) == pieces[0] + Concat(pieces[1..])
  {
    if |pieces| == 1 {
      assert pieces[..0] == [] && Concat(pieces[..0]) == [];
    } else {
      var init := pieces[..|pieces| - 1];
      ConcatDropFirst(init);
      var rest := pieces[1..];
      assert rest[..|rest| - 1] == init[1..] && rest[|rest| - 1] == pieces[|pieces| - 1];
      Reassociate(pieces[0], Concat(init[1..]), pieces[|pieces| - 1]);
    }
  }

  lemma HeardAppend(played: seq<Read>, read: Read)
    ensures Heard(played + [read]) == Heard(played) + (if read.Got? then read.frame else [])
  {
    assert (played + [read])[..|played|] == played;
  }

  lemma PlayConserves(s: System, read: Read, n: nat)
    requires MayRead(s.queue, read)
    ensures Downstream(Step(s, Play(read), n)) == Downstream(s)
  {
    HeardAppend(s.played, read);
    if read.Got? {
      ConcatDropFirst(s.queue.frames);
      Reassociate(Heard(s.played), read.frame, Concat(s.queue.frames[1..]));
    }
  }

  lemma NoSilence(a: seq<real>)
    ensures a + Silence(0) == a && a + [] == a && [] + a == a
  {
  }

  lemma DataConserves(s: System, data: seq<Byte>, n: nat)
    requires Conserved(s) && Enabled(s, Data(data), n)
    ensures Conserved(Step(s, Data(data), n))
  {
    var samples := Samples16(Decode(data));
    assert (s.received + [data])[..|s.received|] == s.received;
    NoSilence(ResampledStream(s.received));
    NoSilence(ResampledStream(s.received) + samples);
    NoSilence(s.pending);
    NoSilence(s.pending + samples);
    Reassociate(Downstream(s), s.pending, samples);
  }

  lemma CutConserves(s: System, n: nat)
    requires Conserved(s) && Enabled(s, Cut, n)
    ensures Conserved(Step(s, Cut, n))
  {
    NoSilence(s.pending);
    assert s.pending[..n] + s.pending[n..] == s.pending;
  }

  lemma CloseInputConserves(s: System, n: nat)
    requires Conserved(s) && Enabled(s, CloseInput, n)
    ensures Conserved(Step(s, CloseInput, n))
  {
    var fill := Silence(n - |s.pending|);
    NoSilence(ResampledStream(s.received));
    NoSilence(s.pending);
    NoSilence(s.pending + fill);
    Reassociate(Downstream(s), s.pending, fill);
  }

  lemma AcceptConserves(s: System, n: nat)
    requires Conserved(s) && Enabled(s, Accept, n)
    ensures Conserved(Step(s, Accept, n))
  {
    var frame := s.producer.frame;
    ConcatAppend(s.queue.frames, frame);
    NoSilence(s.pending);
    NoSilence(frame + s.pending);
    Reassociate(Heard(s.played), Concat(s.queue.frames), frame);
    Reassociate(Downstream(s), frame, s.pending);
  }

  lemma EndConserves(s: System, action: Action, n: nat)
    requires Conserved(s) && Enabled(s, action, n)
    requires action.Stop? || (action.Refuse? && (s.queue.cancelled || s.inputClosed))
    ensures Conserved(Step(s, action, n))
  {
    NoSilence(s.pending);
    NoSilence(Upstream(s));
  }

  lemma StepConserves(s: System, action: Action, n: nat)
    requires Conserved(s)
    requires action.Refuse? && Enabled(s, action, n) ==> s.queue.cancelled || s.inputClosed
    ensures Conserved(Step(s, action, n))
  {
    if Enabled(s, action, n) {
      match action
      case Data(data) => DataConserves(s, data, n);
      case CloseInput => CloseInputConserves(s, n);
      case Cut => CutConserves(s, n);
      case Accept => AcceptConserves(s, n);
      case Refuse => EndConserves(s, action, n);
      case Stop => EndConserves(s, action, n);
      case Play(read) => PlayConserves(s, read, n);
      case _ =>
    }
  }

  lemma {:induction false} RunConserves(run: seq<Action>, n: nat)
    requires NoFrameSkipped(run, n)
    ensures Conserved(State(run, n))
  {
    if run != [] {
      RunConserves(run[..|run| - 1], n);
      StepConserves(State(run[..|run| - 1], n), run[|run| - 1], n);
    }
  }

  // ---------------------------------------------------------------- what the player hears

  // The source is open and the call is live.
  predicate Live(s: System) {
    !s.queue.cancelled && !s.queue.done && !s.queue.closed
  }

  // While the source is open and the call live, whatever the data chunks and however producer and
  // player interleave: the frames played, without the inserted silence, are a prefix of the stream
  // received so far, and what is missing is in the queue or on its way there.
  lemma HeardIsPrefixWhileLive(run: seq<Action>, n: nat)
    requires Live(State(run, n))
    ensures Heard(State(run, n).played) <= Owed(State(run, n))
    ensures Downstream(State(run, n)) + Upstream(State(run, n)) == Owed(State(run, n))
  {
    LiveSkipsNothing(run, n);
    RunConserves(run, n);
    NoSilence(Upstream(State(run, n)));
  }

  lemma {:induction false} LiveSkipsNothing(run: seq<Action>, n: nat)
    requires Live(State(run, n))
    ensures NoFrameSkipped(run, n) && State(run, n).abandoned == []
  {
    if run != [] {
      LiveSkipsNothing(run[..|run| - 1], n);
    }
  }

  // Progress: from any live state, with no more data, producer and player can go on until everything
  // owed has been heard but for less than a frame, and all of it once the input is closed.
  lemma PlaysOut(run: seq<Action>, n: nat) returns (longer: seq<Action>)
    requires n > 0 && Live(State(run, n))
    ensures run <= longer && Live(State(longer, n)) && Owed(State(longer, n)) == Owed(State(run, n))
    ensures Heard(State(longer, n).played) + State(longer, n).pending == Owed(State(longer, n))
    ensures |State(longer, n).pending| < n && (State(run, n).inputClosed ==> State(longer, n).pending == [])
    ensures State(longer, n).received == State(run, n).received
            && State(longer, n).inputClosed == State(run, n).inputClosed
  {
    longer := WorkOff(run, n);
    HeardIsPrefixWhileLive(longer, n);
    RunConserves(longer, n);
    NoSilence(Heard(State(longer, n).played));
    NoSilence(State(longer, n).pending);
  }

  lemma {:induction false} WorkOff(run: seq<Action>, n: nat) returns (longer: seq<Action>)
    requires n > 0 && Live(State(run, n))
    ensures run <= longer && Live(State(longer, n)) && Owed(State(longer, n)) == Owed(State(run, n))
    ensures NoFrameSkipped(longer, n)
    ensures var s := State(longer, n);
            && s.queue.frames == [] && !s.producer.Pushing? && |s.pending| < n
            && s.received == State(run, n).received && s.inputClosed == State(run, n).inputClosed
    decreases |State(run, n).pending|, if State(run, n).producer.Pushing? then 1 else 0, |State(run, n).queue.frames|
  {
    LiveSkipsNothing(run, n);
    RunConserves(run, n);
    var s := State(run, n);
    if s.queue.frames == [] && !s.producer.Pushing? && |s.pending| < n {
      longer := run;
    } else {
      var action :=
        if s.queue.frames != [] then Play(Got(s.queue.frames[0])) else if s.producer.Pushing? then Accept else Cut;
      StateAfter(run, action, n);
      longer := WorkOff(run + [action], n);
    }
  }

  // Close comes after the call's context is cancelled, as cleanup does it.
  ghost predicate ClosedAfterCancel(run: seq<Action>, n: nat) {
    run == [] ||
    (var before, action := run[..|run| - 1], run[|run| - 1];
     && ClosedAfterCancel(before, n)
     && ((action.CloseDone? || action.MarkClosed?) && Enabled(State(before, n), action, n) ==>
           State(before, n).queue.cancelled))
  }

  // With that order the player never hears a gap, not even while the call is being torn down.
  lemma HeardIsPrefixInCleanupOrder(run: seq<Action>, n: nat)
    requires ClosedAfterCancel(run, n)
    ensures Heard(State(run, n).played) <= Owed(State(run, n))
  {
    CleanupOrderSkipsNothing(run, n);
    RunConserves(run, n);
    var s := State(run, n);
    Reassociate(Heard(s.played), Concat(s.queue.frames), Upstream(s) + s.abandoned);
  }

  lemma {:induction false} CleanupOrderSkipsNothing(run: seq<Action>, n: nat)
    requires ClosedAfterCancel(run, n)
    ensures NoFrameSkipped(run, n)
    ensures State(run, n).queue.cancelled || Live(State(run, n))
  {
    if run != [] {
      CleanupOrderSkipsNothing(run[..|run| - 1], n);
      OrderedStep(State(run[..|run| - 1], n), run[|run| - 1], n);
    }
  }

  lemma OrderedStep(s: System, action: Action, n: nat)
    requires s.queue.cancelled || Live(s)
    requires (action.CloseDone? || action.MarkClosed?) && Enabled(s, action, n) ==> s.queue.cancelled
    ensures Step(s, action, n).queue.cancelled || Live(Step(s, action, n))
    ensures action.Refuse? && Enabled(s, action, n) ==> s.queue.cancelled
  {
  }

  // ---------------------------------------------------------------- frames and the queue

  ghost predicate WholeFrames(s: System, n: nat) {
    && (forall i :: 0 <= i < |s.queue.frames| ==> |s.queue.frames[i]| == n)
    && (s.producer.Pushing? ==> |s.producer.frame| == n)
    && (forall i :: 0 <= i < |s.played| && s.played[i].Got? ==> |s.played[i].frame| == n)
    && (s.padding == 0 || s.padding < n)
    && |s.queue.frames| <= 8
  }

  // Every frame on its way and every frame played has exactly n samples, the padding of a closed input
  // is less than a frame, and the queue never holds more than eight frames.
  lemma {:induction false} FramesAreWhole(run: seq<Action>, n: nat)
    ensures WholeFrames(State(run, n), n)
  {
    if run != [] {
      FramesAreWhole(run[..|run| - 1], n);
      StepKeepsWhole(State(run[..|run| - 1], n), run[|run| - 1], n);
    }
  }

  lemma StepKeepsWhole(s: System, action: Action, n: nat)
    requires WholeFrames(s, n)
    ensures WholeFrames(Step(s, action, n), n)
  {
    if action.Play? && Enabled(s, action, n) {
      var played := s.played + [action.read];
      assert forall i :: 0 <= i < |s.played| ==> played[i] == s.played[i];
    }
  }

  lemma QueueOne(run: seq<Action>, n: nat) returns (longer: seq<Action>)
    requires var s := State(run, n);
             Live(s) && s.producer.Cutting? && !s.inputClosed && |s.queue.frames| < 8 && |s.pending| >= n
    ensures var s, s' := State(run, n), State(longer, n);
            && Live(s') && s'.producer.Cutting? && !s'.inputClosed
            && |s'.queue.frames| == |s.queue.frames| + 1 && |s'.pending| == |s.pending| - n
  {
    StateAfter(run, Cut, n);
    StateAfter(run + [Cut], Accept, n);
    longer := run + [Cut] + [Accept];
  }

  lemma QueueTwo(run: seq<Action>, n: nat) returns (longer: seq<Action>)
    requires var s := State(run, n);
             Live(s) && s.producer.Cutting? && !s.inputClosed && |s.queue.frames| < 7 && |s.pending| >= 2 * n
    ensures var s, s' := State(run, n), State(longer, n);
            && Live(s') && s'.producer.Cutting? && !s'.inputClosed
            && |s'.queue.frames| == |s.queue.frames| + 2 && |s'.pending| == |s.pending| - 2 * n
  {
    longer := QueueOne(run, n);
    longer := QueueOne(longer, n);
  }

  // With eight frames queued the producer waits: until the player reads, or the call ends, its next
  // frame is neither accepted nor refused.
  lemma ProducerWaitsAtEight(data: seq<Byte>, n: nat) returns (run: seq<Action>)
    requires n > 0 && |Samples16(Decode(data))| >= 9 * n
    ensures var s := State(run, n);
            && Live(s) && s.producer.Pushing? && |s.queue.frames| == 8
            && !Enabled(s, Accept, n) && !Enabled(s, Refuse, n) && !Enabled(s, Stop, n)
  {
    var filled := [] + [Data(data)];
    StateAfter([], Data(data), n);
    filled := QueueTwo(filled, n);
    filled := QueueTwo(filled, n);
    filled := QueueTwo(filled, n);
    filled := QueueTwo(filled, n);
    StateAfter(filled, Cut, n);
    run := filled + [Cut];
  }

  // ---------------------------------------------------------------- why the order matters

  lemma StateAfter(run: seq<Action>, action: Action, n: nat)
    ensures State(run + [action], n) == Step(State(run, n), action, n)
  {
    assert (run + [action])[..|run|] == run;
  }

  // The two steps of Close do what Close does.
  lemma CloseInTwoSteps(run: seq<Action>, n: nat)
    ensures State(run + [CloseDone] + [MarkClosed], n) ==
            State(run, n).(queue := State(run, n).queue.(done := true, closed := true))
  {
    StateAfter(run, CloseDone, n);
    StateAfter(run + [CloseDone], MarkClosed, n);
  }

  // Were the source closed while the call is still live, a refused frame would be skipped and the
  // next one played: two different frames of data are enough.
  lemma ClosingFirstSkipsAFrame(data: seq<Byte>, n: nat) returns (run: seq<Action>)
    requires n > 0 && |Samples16(Decode(data))| >= 2 * n
    requires Samples16(Decode(data))[..n] != Samples16(Decode(data))[n..2 * n]
    ensures !State(run, n).queue.cancelled
    ensures Heard(State(run, n).played) == Samples16(Decode(data))[n..2 * n]
    ensures !(Heard(State(run, n).played) <= Owed(State(run, n)))
  {
    var samples := Samples16(Decode(data));
    var refused := FirstFrameRefused(data, n);
    run := SecondFramePlayed(refused, samples[n..], n);
    NoSilence(samples);
    NotAPrefix(samples, n);
  }

  lemma PrefixIsTake(a: seq<real>, b: seq<real>)
    requires a <= b
    ensures b[..|a|] == a
  {
  }

  lemma NotAPrefix(samples: seq<real>, n: nat)
    requires |samples| >= 2 * n && samples[..n] != samples[n..2 * n]
    ensures !(samples[n..2 * n] <= samples) && samples[n..][..n] == samples[n..2 * n]
  {
    assert samples[n..][..n] == samples[n..2 * n];
    if samples[n..2 * n] <= samples {
      PrefixIsTake(samples[n..2 * n], samples);
      assert false;
    }
  }

  lemma SecondFramePlayed(run: seq<Action>, pending: seq<real>, n: nat) returns (longer: seq<Action>)
    requires n > 0 && |pending| >= n
    requires var s := State(run, n);
             s.producer.Cutting? && !s.inputClosed && s.pending == pending && s.queue.frames == [] && s.played == []
    ensures Heard(State(longer, n).played) == pending[..n]
    ensures Owed(State(longer, n)) == Owed(State(run, n))
            && State(longer, n).queue.cancelled == State(run, n).queue.cancelled
  {
    var frame := pending[..n];
    StateAfter(run, Cut, n);
    StateAfter(run + [Cut], Accept, n);
    NoSilence(frame);
    longer := FramePlayed(run + [Cut] + [Accept], frame, n);
  }

  // The only frame in the queue of a player that has played nothing.
  lemma FramePlayed(run: seq<Action>, frame: Frame, n: nat) returns (longer: seq<Action>)
    requires State(run, n).queue.frames == [frame] && State(run, n).played == []
    ensures Heard(State(longer, n).played) == frame
    ensures Owed(State(longer, n)) == Owed(State(run, n))
            && State(longer, n).queue.cancelled == State(run, n).queue.cancelled
  {
    StateAfter(run, Play(Got(frame)), n);
    longer := run + [Play(Got(frame))];
    HeardAppend([], Got(frame));
    NoSilence(frame);
  }

  lemma FirstFrameRefused(data: seq<Byte>, n: nat) returns (run: seq<Action>)
    requires n > 0 && |Samples16(Decode(data))| >= n
    ensures State(run, n) ==
            START.(received := [data], pending := Samples16(Decode(data))[n..], queue := START.queue.(done := true))
    ensures ResampledStream([data]) == Samples16(Decode(data))
  {
    var samples := Samples16(Decode(data));
    run := [Data(data)] + [Cut] + [CloseDone] + [Refuse];
    StateAfter([], Data(data), n);
    StateAfter([Data(data)], Cut, n);
    StateAfter([Data(data)] + [Cut], CloseDone, n);
    StateAfter([Data(data)] + [Cut] + [CloseDone], Refuse, n);
    NoSilence(samples);
    assert [] + [data] == [data] && [] + [Data(data)] == [Data(data)];
  }
}
