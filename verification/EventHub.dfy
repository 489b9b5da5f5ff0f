/** The per-call event hub: a bounded, numbered replay log with many bounded subscribers.
    `Hub` and `Step` say what one critical section does; the class below does it with the
    hub's own loops.  Every function and method here is one section under the hub's mutex,
    except `Receive`, which is a reader taking from its channel. */
module EventHub {

  // Both the replay log and every subscriber channel hold at most this many events.
  const REPLAY_LIMIT: nat := 128

  // `body` stands for the delta, text, response id, error, data and files of an event.
  datatype CallEvent = CallEvent(callID: string, kind: string, body: string, sequence: nat, timestamp: int)

  // A buffered Go channel of capacity REPLAY_LIMIT.
  datatype Channel = Channel(buffer: seq<CallEvent>, closed: bool)

  // `channels` is the runtime's table of all channels ever made; a channel is its index.
  datatype Hub = Hub(
    sequence: nat,
    replay: seq<CallEvent>,
    subscribers: set<nat>,
    closed: bool,
    channels: seq<Channel>)

  datatype Op =
    | Publish(event: CallEvent, now: int)
    | Subscribe(after: nat)
    | Unsubscribe(chan: nat)
    | Close
    | Receive(chan: nat)

  // What the Go runtime makes of a step: sends on and closes of a closed channel panic, and a
  // send to a full channel while the mutex is held blocks for ever.
  datatype Outcome = Ok(hub: Hub) | SendOnClosed | CloseOfClosed | Deadlock

  const NEW_HUB := Hub(0, [], {}, false, [])

  // Subscribers are channels that exist.
  ghost predicate Allocated(h: Hub) {
    forall c :: c in h.subscribers ==> c < |h.channels|
  }

  function Stamped(event: CallEvent, number: nat, now: int): CallEvent {
    event.(sequence := number, timestamp := now)
  }

  function LastOf(events: seq<CallEvent>): seq<CallEvent> {
    if |events| > REPLAY_LIMIT then events[|events| - REPLAY_LIMIT..] else events
  }

  // A send that gives up when the buffer is full.
  function Offered(ch: Channel, event: CallEvent): Channel {
    if |ch.buffer| < REPLAY_LIMIT then ch.(buffer := ch.buffer + [event]) else ch
  }

  // Every subscriber's channel is offered the event; the other channels are left alone.
  function Broadcast(channels: seq<Channel>, subscribers: set<nat>, event: CallEvent): (after: seq<Channel>)
    ensures |after| == |channels|
    ensures forall i :: 0 <= i < |after| ==>
              after[i] == if i in subscribers then Offered(channels[i], event) else channels[i]
  {
    seq(|channels|, i requires 0 <= i < |channels| =>
      if i in subscribers then Offered(channels[i], event) else channels[i])
  }

  function CloseAll(channels: seq<Channel>, subscribers: set<nat>): (after: seq<Channel>)
    ensures |after| == |channels|
    ensures forall i :: 0 <= i < |after| ==>
              after[i] == if i in subscribers then channels[i].(closed := true) else channels[i]
  {
    seq(|channels|, i requires 0 <= i < |channels| =>
      if i in subscribers then channels[i].(closed := true) else channels[i])
  }

  // The events of the log numbered above `after`, in order.
  function Newer(events: seq<CallEvent>, after: nat): seq<CallEvent> {
    if events == [] then []
    else
      Newer(events[..|events| - 1], after)
      + (if events[|events| - 1].sequence > after then [events[|events| - 1]] else [])
  }

  function Published(h: Hub, stamped: CallEvent): Hub {
    h.(sequence := h.sequence + 1,
       replay := LastOf(h.replay + [stamped]),
       channels := Broadcast(h.channels, h.subscribers, stamped))
  }

  function Subscribed(h: Hub, after: nat): Hub {
    h.(subscribers := h.subscribers + {|h.channels|},
       channels := h.channels + [Channel(Newer(h.replay, after), false)])
  }

  ghost function Step(h: Hub, op: Op): Outcome
    requires Allocated(h)
  {
    match op
    case Publish(event, now) =>
      if h.closed then Ok(h)
      else if exists c :: c in h.subscribers && h.channels[c].closed then SendOnClosed
      else
        Ok(Published(h, Stamped(event, h.sequence + 1, now)))
    case Subscribe(after) =>
      if h.closed then Ok(h)
      else if |Newer(h.replay, after)| > REPLAY_LIMIT then Deadlock
      else
        Ok(Subscribed(h, after))
    case Unsubscribe(c) =>
      if c !in h.subscribers then Ok(h)
      else if h.channels[c].closed then CloseOfClosed
      else Ok(h.(subscribers := h.subscribers - {c}, channels := h.channels[c := h.channels[c].(closed := true)]))
    case Close =>
      if h.closed then Ok(h)
      else if exists c :: c in h.subscribers && h.channels[c].closed then CloseOfClosed
      else
        Ok(h.(
          closed := true,
          subscribers := {},
          channels := CloseAll(h.channels, h.subscribers)))
    case Receive(c) =>
      if c < |h.channels| && h.channels[c].buffer != []
      then Ok(h.(channels := h.channels[c := h.channels[c].(buffer := h.channels[c].buffer[1..])]))
      else Ok(h)
  }

  // What every critical section keeps: the subscribers are exactly the open channels, none is
  // left once the hub is closed, no channel is overfull, and the replay log holds the last
  // min(sequence, REPLAY_LIMIT) numbers.
  ghost predicate Inv(h: Hub) {
    && Allocated(h)
    && (forall c :: 0 <= c < |h.channels| ==> (c in h.subscribers <==> !h.channels[c].closed))
    && (h.closed ==> h.subscribers == {})
    && (forall c :: 0 <= c < |h.channels| ==> |h.channels[c].buffer| <= REPLAY_LIMIT)
    && |h.replay| == (if h.sequence < REPLAY_LIMIT then h.sequence else REPLAY_LIMIT)
    && (forall i :: 0 <= i < |h.replay| ==> h.replay[i].sequence == h.sequence - |h.replay| + 1 + i)
  }

  // Newer never returns more events than it is given, so a replay always fits a new channel.
  lemma {:induction false} NewerFits(events: seq<CallEvent>, after: nat)
    ensures |Newer(events, after)| <= |events|
  {
    if events != [] {
      NewerFits(events[..|events| - 1], after);
    }
  }

  // From a hub that satisfies the invariant no step panics or deadlocks, and the result
  // satisfies it again.
  lemma StepIsSafe(h: Hub, op: Op)
    requires Inv(h)
    ensures Step(h, op).Ok? && Inv(Step(h, op).hub)
  {
    if op.Subscribe? {
      NewerFits(h.replay, op.after);
    }
  }

  ghost predicate HasRoom(h: Hub, c: nat)
    requires c < |h.channels|
  {
    c in h.subscribers && |h.channels[c].buffer| < REPLAY_LIMIT
  }

  // What a step does to a channel that already exists.
  lemma StepOnChannel(h: Hub, op: Op, c: nat)
    requires Inv(h) && c < |h.channels|
    ensures Step(h, op).Ok? && c < |Step(h, op).hub.channels|
    ensures c in Step(h, op).hub.subscribers <==> c in h.subscribers && op != Op.Unsubscribe(c) && op != Op.Close
    ensures c in h.subscribers ==> !h.closed
    ensures Step(h, op).hub.channels[c].buffer ==
            if op == Op.Receive(c) && h.channels[c].buffer != [] then h.channels[c].buffer[1..]
            else if op.Publish? && !h.closed && HasRoom(h, c)
            then h.channels[c].buffer + [Stamped(op.event, h.sequence + 1, op.now)]
            else h.channels[c].buffer
  {
    StepIsSafe(h, op);
  }

  class CallEventHub {
    var sequence: nat
    var replay: seq<CallEvent>
    var subscribers: set<nat>
    var closed: bool
    var channels: seq<Channel>

    ghost function State(): Hub
      reads this
    {
      Hub(sequence, replay, subscribers, closed, channels)
    }

    ghost predicate Valid()
      reads this
    {
      Inv(State())
    }

    constructor ()
      ensures Valid() && State() == NEW_HUB
    {
      sequence, replay, subscribers, closed, channels := 0, [], {}, false, [];
    }

    // A select with a default branch: the event is lost when the buffer is full.
    method TrySend(c: nat, event: CallEvent)
      requires c < |channels| && !channels[c].closed
      modifies this`channels
      ensures channels == old(channels)[c := Offered(old(channels)[c], event)]
    {
      if |channels[c].buffer| < REPLAY_LIMIT {
        channels := channels[c := channels[c].(buffer := channels[c].buffer + [event])];
      }
    }

    // A plain send: it needs room, or it would block with the mutex held.
    method Send(c: nat, event: CallEvent)
      requires c < |channels| && !channels[c].closed && |channels[c].buffer| < REPLAY_LIMIT
      modifies this`channels
      ensures channels == old(channels)[c := old(channels)[c].(buffer := old(channels)[c].buffer + [event])]
    {
      channels := channels[c := channels[c].(buffer := channels[c].buffer + [event])];
    }

    method CloseChannel(c: nat)
      requires c < |channels| && !channels[c].closed
      modifies this`channels
      ensures channels == old(channels)[c := old(channels)[c].(closed := true)]
    {
      channels := channels[c := channels[c].(closed := true)];
    }

    method Publish(event: CallEvent, now: int)
      requires Valid()
      modifies this
      ensures Valid() && Ok(State()) == Step(old(State()), Op.Publish(event, now))
      ensures !old(closed) ==>
                && sequence == old(sequence) + 1 && |replay| > 0
                && replay[|replay| - 1] == CallEvent(event.callID, event.kind, event.body, sequence, now)
    {
      StepIsSafe(State(), Op.Publish(event, now));
      if closed {
        return;
      }
      sequence := sequence + 1;
      var stamped := Stamped(event, sequence, now);
      replay := replay + [stamped];
      if |replay| > REPLAY_LIMIT {
        replay := replay[|replay| - REPLAY_LIMIT..];
      }
      SendToAll(stamped);
      assert State() == Published(old(State()), stamped);
    }

    // The loop of Publish: every subscriber is offered the event once, in any order.
    method SendToAll(event: CallEvent)
      requires forall c :: c in subscribers ==> c < |channels| && !channels[c].closed
      modifies this`channels
      ensures channels == Broadcast(old(channels), subscribers, event)
    {
      var todo := subscribers;
      while todo != {}
        invariant todo <= subscribers
        invariant |channels| == old(|channels|)
        invariant forall i :: 0 <= i < |channels| ==>
          channels[i] == if i in subscribers && i !in todo then Offered(old(channels)[i], event) else old(channels)[i]
      {
        var c :| c in todo;
        TrySend(c, event);
        todo := todo - {c};
      }
    }

    // Returns the new channel, or None when the stream is closed.
    method Subscribe(after: nat) returns (ok: bool, c: nat)
      requires Valid()
      modifies this
      ensures Valid() && Ok(State()) == Step(old(State()), Op.Subscribe(after))
      ensures ok == !old(closed)
      ensures ok ==>
                && c == old(|channels|) && |channels| == c + 1 && channels[..c] == old(channels)
                && subscribers == old(subscribers) + {c}
    {
      StepIsSafe(State(), Op.Subscribe(after));
      if closed {
        return false, 0;
      }
      c := |channels|;
      ghost var before := channels;
      channels := channels + [Channel([], false)];
      for i := 0 to |replay|
        invariant |channels| == c + 1 && channels[..c] == before
        invariant channels[c] == Channel(Newer(replay[..i], after), false)
        modifies this`channels
      {
        ghost var seen := replay[..i + 1];
        assert seen[..|seen| - 1] == replay[..i];
        NewerFits(replay[..i], after);
        if replay[i].sequence > after {
          Send(c, replay[i]);
        }
      }
      assert replay[..|replay|] == replay;
      subscribers := subscribers + {c};
      assert State() == Subscribed(old(State()), after);
      ok := true;
    }

    method Unsubscribe(c: nat)
      requires Valid()
      modifies this
      ensures Valid() && Ok(State()) == Step(old(State()), Op.Unsubscribe(c))
      ensures subscribers == old(subscribers) - {c} && |channels| == old(|channels|)
      ensures forall d :: 0 <= d < |channels| && d != c ==> channels[d] == old(channels)[d]
    {
      if c in subscribers {
        subscribers := subscribers - {c};
        CloseChannel(c);
      }
    }

    // A reader's receive that finds something: closing a channel leaves its buffer readable.
    method Receive(c: nat) returns (event: CallEvent)
      requires Valid() && c < |channels| && channels[c].buffer != []
      modifies this
      ensures Valid() && Ok(State()) == Step(old(State()), Op.Receive(c))
      ensures event == old(channels[c].buffer[0])
    {
      event := channels[c].buffer[0];
      channels := channels[c := channels[c].(buffer := channels[c].buffer[1..])];
    }

    method Close()
      requires Valid()
      modifies this
      ensures Valid() && Ok(State()) == Step(old(State()), Op.Close)
      ensures closed && subscribers == {} && |channels| == old(|channels|)
      ensures forall d :: 0 <= d < |channels| ==> channels[d].closed && channels[d].buffer == old(channels)[d].buffer
    {
      StepIsSafe(State(), Op.Close);
      if closed {
        return;
      }
      closed := true;
      var todo := subscribers;
      while todo != {}
        invariant todo <= subscribers
        invariant |channels| == old(|channels|)
        invariant forall i :: 0 <= i < |channels| ==>
          channels[i] == if i in subscribers && i !in todo then old(channels)[i].(closed := true) else old(channels)[i]
        modifies this`channels
      {
        var c :| c in todo;
        CloseChannel(c);
        todo := todo - {c};
      }
      assert channels == CloseAll(old(channels), subscribers);
      subscribers := {};
    }
  }
}
