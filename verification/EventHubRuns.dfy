/** What a subscriber sees over a whole run of the hub, and what resuming a stream promises. */
module EventHubRuns {
  import opened EventHub

  // ---------------------------------------------------------------- runs and their history

  // The hub after a run, computed step by step with the faults of the Go runtime.
  ghost function Run(ops: seq<Op>): (r: Outcome)
    ensures r.Ok? ==> Allocated(r.hub)
  {
    if ops == [] then Ok(NEW_HUB)
    else
      var before := Run(ops[..|ops| - 1]);
      if before.Ok? then Step(before.hub, ops[|ops| - 1]) else before
  }

  // No run of the hub sends on a closed channel, closes one twice, or blocks inside Subscribe.
  lemma {:induction false} RunIsSafe(ops: seq<Op>)
    ensures Run(ops).Ok? && Inv(Run(ops).hub)
  {
    if ops != [] {
      RunIsSafe(ops[..|ops| - 1]);
      StepIsSafe(Run(ops[..|ops| - 1]).hub, ops[|ops| - 1]);
    }
  }

  ghost function State(ops: seq<Op>): (h: Hub)
    ensures Allocated(h)
  {
    if Run(ops).Ok? then Run(ops).hub else NEW_HUB
  }

  // Every event the hub ever accepted, as it was stamped.
  ghost function Log(ops: seq<Op>): seq<CallEvent> {
    if ops == [] then []
    else
      var before, op := ops[..|ops| - 1], ops[|ops| - 1];
      if op.Publish? && !State(before).closed
      then Log(before) + [Stamped(op.event, |Log(before)| + 1, op.now)]
      else Log(before)
  }

  // Everything the reader of channel c has taken.
  ghost function Received(ops: seq<Op>, c: nat): seq<CallEvent> {
    if ops == [] then []
    else
      var before, op := ops[..|ops| - 1], ops[|ops| - 1];
      var h := State(before);
      if op == Op.Receive(c) && c < |h.channels| && h.channels[c].buffer != []
      then Received(before, c) + [h.channels[c].buffer[0]]
      else Received(before, c)
  }

  // What channel c's subscription asked for, and how many events there were at that moment.
  datatype Joining = Joining(after: nat, sequence: nat) {
    // The stream starts after this number: `after`, but not more than 128 events back;
    // and an `after` from the future filters nothing, since live events are not filtered.
    function Start(): (start: nat)
      ensures start <= sequence
    {
      if after >= sequence then sequence
      else if after + 128 < sequence then sequence - 128
      else after
    }
  }

  ghost function Join(ops: seq<Op>, c: nat): Joining {
    if ops == [] then Joining(0, 0)
    else
      var before, op := ops[..|ops| - 1], ops[|ops| - 1];
      if op.Subscribe? && !State(before).closed && c == |State(before).channels|
      then Joining(op.after, |Log(before)|)
      else Join(before, c)
  }

  // The numbers of the events published when channel c existed but was full, or had left.
  ghost function Missed(ops: seq<Op>, c: nat): set<nat> {
    if ops == [] then {}
    else
      var before, op := ops[..|ops| - 1], ops[|ops| - 1];
      var h := State(before);
      if op.Publish? && !h.closed && c < |h.channels| && !HasRoom(h, c)
      then Missed(before, c) + {|Log(before)| + 1}
      else Missed(before, c)
  }

  // A log numbered from 1, restricted to the numbers above `start` that are not in `missed`.
  function Select(log: seq<CallEvent>, start: nat, missed: set<nat>): seq<CallEvent> {
    if log == [] then []
    else
      Select(log[..|log| - 1], start, missed)
      + (if |log| > start && |log| !in missed then [log[|log| - 1]] else [])
  }

  // ---------------------------------------------------------------- one step

  lemma StateStep(ops: seq<Op>)
    requires ops != []
    ensures Step(State(ops[..|ops| - 1]), ops[|ops| - 1]) == Ok(State(ops))
  {
    RunIsSafe(ops[..|ops| - 1]);
    RunIsSafe(ops);
  }

  // What one op does to the hub apart from its channels' contents.
  lemma CountersStep(ops: seq<Op>)
    requires ops != []
    ensures var before, op := ops[..|ops| - 1], ops[|ops| - 1];
            var h, h' := State(before), State(ops);
            var accepted := op.Publish? && !h.closed;
            && h'.closed == (h.closed || op.Close?)
            && h'.sequence == h.sequence + (if accepted then 1 else 0)
            && h'.replay ==
               (if accepted then LastOf(h.replay + [Stamped(op.event, h.sequence + 1, op.now)]) else h.replay)
            && |h'.channels| == |h.channels| + (if op.Subscribe? && !h.closed then 1 else 0)
            && (op.Subscribe? && !h.closed ==>
                  h'.channels[|h.channels|] == Channel(Newer(h.replay, op.after), false))
  {
    StateStep(ops);
  }

  // What one op does to a channel that already exists.
  lemma ChannelStep(ops: seq<Op>, c: nat)
    requires ops != [] && c < |State(ops[..|ops| - 1]).channels|
    ensures var before, op := ops[..|ops| - 1], ops[|ops| - 1];
            var h, h' := State(before), State(ops);
            && c < |h'.channels|
            && (c in h'.subscribers <==> c in h.subscribers && op != Op.Unsubscribe(c) && op != Op.Close)
            && (c in h.subscribers ==> !h.closed)
            && h'.channels[c].buffer ==
               if op == Op.Receive(c) && h.channels[c].buffer != [] then h.channels[c].buffer[1..]
               else if op.Publish? && !h.closed && HasRoom(h, c)
               then h.channels[c].buffer + [Stamped(op.event, h.sequence + 1, op.now)]
               else h.channels[c].buffer
  {
    RunIsSafe(ops[..|ops| - 1]);
    StateStep(ops);
    StepOnChannel(State(ops[..|ops| - 1]), ops[|ops| - 1], c);
  }

  // ---------------------------------------------------------------- the log

  // The sequence counter counts the log, and the log is numbered from 1.
  lemma {:induction false} LogNumbered(ops: seq<Op>)
    ensures |Log(ops)| == State(ops).sequence
    ensures forall i :: 0 <= i < |Log(ops)| ==> Log(ops)[i].sequence == i + 1
  {
    if ops != [] {
      LogNumbered(ops[..|ops| - 1]);
      CountersStep(ops);
    }
  }

  lemma LastOfAppend(events: seq<CallEvent>, event: CallEvent)
    ensures LastOf(LastOf(events) + [event]) == LastOf(events + [event])
  {
  }

  // The replay is the tail of the log: its last min(sequence, 128) events.
  lemma {:induction false} ReplayIsTail(ops: seq<Op>)
    ensures State(ops).replay == LastOf(Log(ops))
    ensures |State(ops).replay| == if |Log(ops)| < 128 then |Log(ops)| else 128
  {
    if ops != [] {
      var before, op := ops[..|ops| - 1], ops[|ops| - 1];
      ReplayIsTail(before);
      LogNumbered(before);
      CountersStep(ops);
      if op.Publish? {
        LastOfAppend(Log(before), Stamped(op.event, |Log(before)| + 1, op.now));
      }
    }
  }

  // The log only grows, and a closed hub neither logs nor admits a subscriber again.
  lemma {:induction false} LogGrows(ops: seq<Op>, k: nat)
    requires k <= |ops|
    ensures Log(ops[..k]) <= Log(ops)
    ensures |State(ops[..k]).channels| <= |State(ops).channels|
    ensures State(ops[..k]).closed ==> State(ops).closed && Log(ops[..k]) == Log(ops)
    ensures State(ops[..k]).closed ==> |State(ops[..k]).channels| == |State(ops).channels|
  {
    if k == |ops| {
      assert ops[..k] == ops;
    } else {
      var before := ops[..|ops| - 1];
      LogGrows(before, k);
      CountersStep(ops);
      assert before[..k] == ops[..k];
    }
  }

  // ---------------------------------------------------------------- what was published

  // The positions in the run of the publishes that an open hub accepted.
  ghost function Accepted(ops: seq<Op>): seq<nat> {
    if ops == [] then []
    else
      Accepted(ops[..|ops| - 1])
      + (if ops[|ops| - 1].Publish? && Op.Close !in ops[..|ops| - 1] then [|ops| - 1] else [])
  }

  // They are all the publishes before the first close, in order.
  lemma {:induction false} AcceptedInOrder(ops: seq<Op>)
    ensures forall k :: 0 <= k < |Accepted(ops)| ==>
              Accepted(ops)[k] < |ops| && ops[Accepted(ops)[k]].Publish? && Op.Close !in ops[..Accepted(ops)[k]]
    ensures forall j, k :: 0 <= j < k < |Accepted(ops)| ==> Accepted(ops)[j] < Accepted(ops)[k]
    ensures forall i :: 0 <= i < |ops| && ops[i].Publish? && Op.Close !in ops[..i] ==> i in Accepted(ops)
  {
    if ops != [] {
      var before := ops[..|ops| - 1];
      AcceptedInOrder(before);
      assert forall i :: 0 <= i < |before| ==> before[i] == ops[i] && before[..i] == ops[..i];
    }
  }

  lemma {:induction false} ClosedByClose(ops: seq<Op>)
    ensures State(ops).closed <==> Op.Close in ops
  {
    if ops != [] {
      var before := ops[..|ops| - 1];
      ClosedByClose(before);
      CountersStep(ops);
      assert ops == before + [ops[|ops| - 1]];
    }
  }

  // What the caller of a publish gave, with its number and the time.
  function AsGiven(publish: Op, number: nat): CallEvent
    requires publish.Publish?
  {
    var event := publish.event;
    CallEvent(event.callID, event.kind, event.body, number, publish.now)
  }

  // The history is what was published before the hub closed: call, type and payload as given, and
  // numbered from 1.
  lemma {:induction false} LogIsWhatWasPublished(ops: seq<Op>)
    ensures |Log(ops)| == |Accepted(ops)|
    ensures forall k :: 0 <= k < |Log(ops)| ==>
              && Accepted(ops)[k] < |ops| && ops[Accepted(ops)[k]].Publish?
              && Log(ops)[k] == AsGiven(ops[Accepted(ops)[k]], k + 1)
  {
    if ops != [] {
      var before := ops[..|ops| - 1];
      LogIsWhatWasPublished(before);
      ClosedByClose(before);
      forall k | 0 <= k < |Log(ops)|
        ensures Accepted(ops)[k] < |ops| && ops[Accepted(ops)[k]].Publish?
        ensures Log(ops)[k] == AsGiven(ops[Accepted(ops)[k]], k + 1)
      {
        if k < |Log(before)| {
          assert Accepted(ops)[k] == Accepted(before)[k] && before[Accepted(before)[k]] == ops[Accepted(before)[k]];
        }
      }
    }
  }

  // ---------------------------------------------------------------- who is subscribed

  // Since channel c was made there has been no Unsubscribe of it and no Close.
  ghost predicate NeverLeft(ops: seq<Op>, c: nat)
    requires c < |State(ops).channels|
  {
    var before, op := ops[..|ops| - 1], ops[|ops| - 1];
    c >= |State(before).channels| || (NeverLeft(before, c) && op != Op.Unsubscribe(c) && op != Op.Close)
  }

  // A channel is subscribed exactly until its own Unsubscribe or the hub's Close: nobody else's coming
  // or going, and nothing published or read, ends a subscription.
  lemma {:induction false} SubscribedIffNeverLeft(ops: seq<Op>, c: nat)
    requires c < |State(ops).channels|
    ensures c in State(ops).subscribers <==> NeverLeft(ops, c)
  {
    var before := ops[..|ops| - 1];
    if c < |State(before).channels| {
      SubscribedIffNeverLeft(before, c);
      ChannelStep(ops, c);
    } else {
      StateStep(ops);
      CountersStep(ops);
    }
  }

  // ---------------------------------------------------------------- selections

  lemma {:induction false} SelectIgnoresFuture(log: seq<CallEvent>, start: nat, missed: set<nat>, n: nat)
    requires n > |log|
    ensures Select(log, start, missed + {n}) == Select(log, start, missed)
  {
    if log != [] {
      SelectIgnoresFuture(log[..|log| - 1], start, missed, n);
    }
  }

  lemma SelectAppend(log: seq<CallEvent>, event: CallEvent, start: nat, missed: set<nat>)
    ensures Select(log + [event], start, missed) ==
            Select(log, start, missed) + (if |log| + 1 > start && |log| + 1 !in missed then [event] else [])
  {
    assert (log + [event])[..|log|] == log;
  }

  lemma {:induction false} SelectAllAbove(log: seq<CallEvent>, start: nat)
    requires start <= |log|
    ensures Select(log, start, {}) == log[start..]
  {
    if start < |log| {
      SelectAllAbove(log[..|log| - 1], start);
    } else {
      SelectNone(log, start, {});
    }
  }

  lemma {:induction false} SelectNone(log: seq<CallEvent>, start: nat, missed: set<nat>)
    requires |log| <= start
    ensures Select(log, start, missed) == []
  {
    if log != [] {
      SelectNone(log[..|log| - 1], start, missed);
    }
  }

  // Replaying a numbered run of events selects a suffix of it.
  lemma {:induction false} NewerIsSuffix(events: seq<CallEvent>, first: nat, after: nat)
    requires forall i :: 0 <= i < |events| ==> events[i].sequence == first + 1 + i
    ensures Newer(events, after) ==
            if after <= first then events else if after >= first + |events| then [] else events[after - first..]
  {
    if events != [] {
      NewerIsSuffix(events[..|events| - 1], first, after);
    }
  }

  lemma TailAbove(log: seq<CallEvent>, after: nat)
    requires forall i :: 0 <= i < |log| ==> log[i].sequence == i + 1
    ensures Newer(LastOf(log), after) == log[Joining(after, |log|).Start()..]
  {
    NewerIsSuffix(LastOf(log), |log| - |LastOf(log)|, after);
  }

  // A selection from a numbered log is strictly increasing and above its start.
  lemma {:induction false} SelectIncreases(log: seq<CallEvent>, start: nat, missed: set<nat>)
    requires forall i :: 0 <= i < |log| ==> log[i].sequence == i + 1
    ensures forall i :: 0 <= i < |Select(log, start, missed)| ==>
              && start < Select(log, start, missed)[i].sequence <= |log|
              && Select(log, start, missed)[i].sequence !in missed
    ensures forall i, j :: 0 <= i < j < |Select(log, start, missed)| ==>
              Select(log, start, missed)[i].sequence < Select(log, start, missed)[j].sequence
  {
    if log != [] {
      SelectIncreases(log[..|log| - 1], start, missed);
    }
  }

  // A selection is the whole log above its start exactly when nothing above it is missed.
  lemma {:induction false} SelectInFull(log: seq<CallEvent>, start: nat, missed: set<nat>)
    requires start <= |log|
    ensures |Select(log, start, missed)| <= |log| - start
    ensures var full := forall n :: start < n <= |log| ==> n !in missed;
            && (full ==> Select(log, start, missed) == log[start..])
            && (|Select(log, start, missed)| == |log| - start ==> full)
  {
    if start == |log| {
      SelectNone(log, start, missed);
    } else {
      SelectInFull(log[..|log| - 1], start, missed);
    }
  }

  // ---------------------------------------------------------------- what a subscriber sees

  lemma {:induction false} NothingBeforeJoin(ops: seq<Op>, c: nat)
    requires c >= |State(ops).channels|
    ensures Received(ops, c) == [] && Missed(ops, c) == {}
  {
    if ops != [] {
      CountersStep(ops);
      NothingBeforeJoin(ops[..|ops| - 1], c);
    }
  }

  lemma JustJoined(ops: seq<Op>, c: nat)
    requires ops != [] && |State(ops[..|ops| - 1]).channels| <= c < |State(ops).channels|
    ensures var before, op := ops[..|ops| - 1], ops[|ops| - 1];
            && op.Subscribe? && !State(before).closed && c == |State(before).channels|
            && Log(ops) == Log(before) && Join(ops, c) == Joining(op.after, |Log(before)|)
            && Received(ops, c) == [] && Missed(ops, c) == {}
            && State(ops).channels[c].buffer == Log(ops)[Join(ops, c).Start()..]
  {
    var before := ops[..|ops| - 1];
    CountersStep(ops);
    NothingBeforeJoin(before, c);
    LogNumbered(before);
    ReplayIsTail(before);
    TailAbove(Log(before), ops[|ops| - 1].after);
  }

  // One op moves an event from buffer to reader, or adds the published event to the buffer.
  lemma FlowStep(ops: seq<Op>, c: nat)
    requires ops != [] && c < |State(ops[..|ops| - 1]).channels|
    ensures c < |State(ops).channels| && Join(ops, c) == Join(ops[..|ops| - 1], c)
    ensures var before, op := ops[..|ops| - 1], ops[|ops| - 1];
            var h := State(before);
            Received(ops, c) + State(ops).channels[c].buffer ==
            Received(before, c) + h.channels[c].buffer
            + (if op.Publish? && !h.closed && HasRoom(h, c) then [Stamped(op.event, h.sequence + 1, op.now)] else [])
  {
    var before, op := ops[..|ops| - 1], ops[|ops| - 1];
    ChannelStep(ops, c);
    var buffer := State(before).channels[c].buffer;
    if op == Op.Receive(c) && buffer != [] {
      HeadMoves(Received(before, c), buffer);
    }
  }

  lemma HeadMoves(a: seq<CallEvent>, b: seq<CallEvent>)
    requires b != []
    ensures (a + [b[0]]) + b[1..] == a + b
  {
  }

  // What is delivered and missed is among the numbers published so far, after the join.
  lemma {:induction false} HistoryBounds(ops: seq<Op>, c: nat)
    ensures Join(ops, c).sequence <= |Log(ops)|
    ensures forall n :: n in Missed(ops, c) ==> n <= |Log(ops)|
  {
    if ops != [] {
      HistoryBounds(ops[..|ops| - 1], c);
    }
  }

  // What one op adds to the selection a channel is owed: the published event, unless it is missed.
  lemma OwedStep(ops: seq<Op>, c: nat)
    requires ops != [] && c < |State(ops[..|ops| - 1]).channels|
    ensures var before, op, start := ops[..|ops| - 1], ops[|ops| - 1], Join(ops[..|ops| - 1], c).Start();
            var h := State(before);
            Select(Log(ops), start, Missed(ops, c)) ==
            Select(Log(before), start, Missed(before, c))
            + (if op.Publish? && !h.closed && HasRoom(h, c) then [Stamped(op.event, h.sequence + 1, op.now)] else [])
  {
    var before, op := ops[..|ops| - 1], ops[|ops| - 1];
    HistoryBounds(before, c);
    LogNumbered(before);
    if op.Publish? && !State(before).closed {
      var event := Stamped(op.event, |Log(before)| + 1, op.now);
      SelectOfPublished(Log(before), event, Join(before, c).Start(), Missed(before, c), HasRoom(State(before), c));
    }
  }

  lemma SelectOfPublished(log: seq<CallEvent>, event: CallEvent, start: nat, missed: set<nat>, received: bool)
    requires start <= |log| && forall n :: n in missed ==> n <= |log|
    ensures Select(log + [event], start, if received then missed else missed + {|log| + 1}) ==
            Select(log, start, missed) + (if received then [event] else [])
  {
    if received {
      SelectAppend(log, event, start, missed);
    } else {
      SelectAppend(log, event, start, missed + {|log| + 1});
      SelectIgnoresFuture(log, start, missed, |log| + 1);
    }
  }

  // Over every run and for every channel: what its reader has received followed by what is still
  // buffered is the log from where the channel starts, minus exactly the events published while
  // it was full or no longer subscribed.
  lemma {:induction false} Delivery(ops: seq<Op>, c: nat)
    requires c < |State(ops).channels|
    ensures Received(ops, c) + State(ops).channels[c].buffer ==
            Select(Log(ops), Join(ops, c).Start(), Missed(ops, c))
  {
    if c >= |State(ops[..|ops| - 1]).channels| {
      JustJoined(ops, c);
      SelectAllAbove(Log(ops), Join(ops, c).Start());
    } else {
      Delivery(ops[..|ops| - 1], c);
      FlowStep(ops, c);
      OwedStep(ops, c);
    }
  }

  // So every stream is strictly increasing, starts above Start() and repeats nothing.
  lemma DeliveryIncreases(ops: seq<Op>, c: nat)
    requires c < |State(ops).channels|
    ensures var got := Received(ops, c) + State(ops).channels[c].buffer;
            && (forall i :: 0 <= i < |got| ==> got[i].sequence > Join(ops, c).Start())
            && (forall i, j :: 0 <= i < j < |got| ==> got[i].sequence < got[j].sequence)
  {
    Delivery(ops, c);
    LogNumbered(ops);
    SelectIncreases(Log(ops), Join(ops, c).Start(), Missed(ops, c));
  }

  lemma {:induction false} SelectsFromLog(log: seq<CallEvent>, start: nat, missed: set<nat>)
    ensures forall event :: event in Select(log, start, missed) ==> event in log
  {
    if log != [] {
      SelectsFromLog(log[..|log| - 1], start, missed);
    }
  }

  // Whatever a subscriber gets was published, with that payload, and carries its position among the
  // accepted publishes.
  lemma DeliveredWasPublished(ops: seq<Op>, c: nat, i: nat) returns (k: nat)
    requires c < |State(ops).channels| && i < |Received(ops, c) + State(ops).channels[c].buffer|
    ensures k < |Accepted(ops)| && Accepted(ops)[k] < |ops| && ops[Accepted(ops)[k]].Publish?
    ensures (Received(ops, c) + State(ops).channels[c].buffer)[i] ==
            AsGiven(ops[Accepted(ops)[k]], k + 1)
  {
    Delivery(ops, c);
    SelectsFromLog(Log(ops), Join(ops, c).Start(), Missed(ops, c));
    LogIsWhatWasPublished(ops);
    var event := (Received(ops, c) + State(ops).channels[c].buffer)[i];
    assert event in Select(Log(ops), Join(ops, c).Start(), Missed(ops, c));
    k :| 0 <= k < |Log(ops)| && Log(ops)[k] == event;
  }

  // ---------------------------------------------------------------- loss

  // How far behind the log the reader of c is, counting from where c starts.
  ghost function Lag(ops: seq<Op>, c: nat): int {
    |Log(ops)| - Join(ops, c).Start() - |Received(ops, c)|
  }

  // At every moment since c joined, its reader was at most a full buffer behind.
  ghost predicate NeverBehind(ops: seq<Op>, c: nat)
    requires c < |State(ops).channels|
  {
    && Lag(ops, c) <= 128
    && (c < |State(ops[..|ops| - 1]).channels| ==> NeverBehind(ops[..|ops| - 1], c))
  }

  // A reader that missed nothing is behind the log by exactly what its buffer holds.
  lemma LagIsBuffer(ops: seq<Op>, c: nat)
    requires c < |State(ops).channels| && Missed(ops, c) == {}
    ensures Lag(ops, c) == |State(ops).channels[c].buffer| <= 128
  {
    HistoryBounds(ops, c);
    RunIsSafe(ops);
    Delivery(ops, c);
    SelectAllAbove(Log(ops), Join(ops, c).Start());
  }

  // For a subscriber that has missed nothing so far, the next op loses nothing exactly when it
  // leaves the lag within one buffer.
  lemma StepKeepsLag(ops: seq<Op>, c: nat)
    requires ops != [] && c in State(ops).subscribers && c < |State(ops[..|ops| - 1]).channels|
    requires Missed(ops[..|ops| - 1], c) == {}
    ensures Missed(ops, c) == {} <==> Lag(ops, c) <= 128
  {
    ChannelStep(ops, c);
    LagIsBuffer(ops[..|ops| - 1], c);
    if Missed(ops, c) == {} {
      LagIsBuffer(ops, c);
    }
  }

  // A subscriber that never leaves loses nothing if and only if it is never more than 128 events
  // behind the log.
  lemma {:induction false} LosslessIffNeverBehind(ops: seq<Op>, c: nat)
    requires c in State(ops).subscribers
    ensures Missed(ops, c) == {} <==> NeverBehind(ops, c)
  {
    var before := ops[..|ops| - 1];
    if c < |State(before).channels| {
      ChannelStep(ops, c);
      LosslessIffNeverBehind(before, c);
      if Missed(before, c) == {} {
        StepKeepsLag(ops, c);
      }
    } else {
      JustJoined(ops, c);
    }
  }

  // Channel c was never unsubscribed: if it is closed, it was closed with the hub.
  ghost predicate Stayed(ops: seq<Op>, c: nat) {
    c < |State(ops).channels| && (c in State(ops).subscribers || State(ops).closed)
    && (c < |State(ops[..|ops| - 1]).channels| ==> Stayed(ops[..|ops| - 1], c))
  }

  // The same for a subscriber that stays until the hub closes, and goes on reading.
  lemma {:induction false} LosslessUntilClosed(ops: seq<Op>, c: nat)
    requires Stayed(ops, c)
    ensures Missed(ops, c) == {} <==> NeverBehind(ops, c)
  {
    if c in State(ops).subscribers {
      LosslessIffNeverBehind(ops, c);
    } else {
      var before := ops[..|ops| - 1];
      CountersStep(ops);
      if c < |State(before).channels| {
        ChannelStep(ops, c);
        FlowStep(ops, c);
        LosslessUntilClosed(before, c);
      } else {
        NewcomerSubscribes(ops, c);
      }
    }
  }

  lemma NewcomerSubscribes(ops: seq<Op>, c: nat)
    requires ops != [] && |State(ops[..|ops| - 1]).channels| <= c < |State(ops).channels|
    ensures c in State(ops).subscribers
  {
    JustJoined(ops, c);
    StateStep(ops);
  }

  // ---------------------------------------------------------------- resuming

  // A client that holds the log from a to k and subscribes again with after = k ends up with the
  // log from a, with no gap and no repeat, if and only if at most 128 events were published since
  // k and nothing was missed afterwards.
  lemma Resume(ops: seq<Op>, c: nat, a: nat)
    requires c < |State(ops).channels| && a <= Join(ops, c).after <= Join(ops, c).sequence
    ensures Join(ops, c).sequence <= |Log(ops)|
    ensures var k := Join(ops, c).after;
            Log(ops)[a..k] + (Received(ops, c) + State(ops).channels[c].buffer) == Log(ops)[a..]
            <==> Join(ops, c).sequence - k <= 128 && Missed(ops, c) == {}
  {
    var k, log, start := Join(ops, c).after, Log(ops), Join(ops, c).Start();
    var missed := Missed(ops, c);
    HistoryBounds(ops, c);
    MissedAfterJoin(ops, c);
    Delivery(ops, c);
    SelectInFull(log, start, missed);
    ResumeSplices(log, a, k, start, Select(log, start, missed));
  }

  // Splicing a selection after log[a..k] gives log[a..] only if it has all the missing events.
  lemma ResumeSplices(log: seq<CallEvent>, a: nat, k: nat, start: nat, got: seq<CallEvent>)
    requires a <= k <= start <= |log| && |got| <= |log| - start
    ensures log[a..k] + got == log[a..] ==> k == start && |got| == |log| - start
    ensures k == start && got == log[start..] ==> log[a..k] + got == log[a..]
  {
    if log[a..k] + got == log[a..] {
      assert |log[a..k] + got| == |log[a..]|;
    }
  }

  // Only events published after c joined can be missed.
  lemma {:induction false} MissedAfterJoin(ops: seq<Op>, c: nat)
    requires c < |State(ops).channels|
    ensures forall n :: n in Missed(ops, c) ==> Join(ops, c).sequence < n <= |Log(ops)|
  {
    var before := ops[..|ops| - 1];
    if c < |State(before).channels| {
      FlowStep(ops, c);
      MissedAfterJoin(before, c);
      HistoryBounds(before, c);
    } else {
      JustJoined(ops, c);
    }
  }

  // Joining is settled for every later run.
  lemma {:induction false} JoinInExtension(ops: seq<Op>, k: nat, c: nat)
    requires k <= |ops| && c < |State(ops[..k]).channels|
    ensures c < |State(ops).channels| && Join(ops, c) == Join(ops[..k], c)
  {
    if k == |ops| {
      assert ops[..k] == ops;
    } else {
      assert ops[..|ops| - 1][..k] == ops[..k];
      JoinInExtension(ops[..|ops| - 1], k, c);
      FlowStep(ops, c);
    }
  }

  // Everything channel c delivers over the run is numbered above `after`.
  ghost predicate DeliversOnlyAbove(ops: seq<Op>, c: nat, after: nat) {
    c < |State(ops).channels| ==>
      var got := Received(ops, c) + State(ops).channels[c].buffer;
      forall i :: 0 <= i < |got| ==> got[i].sequence > after
  }

  // The `after` of a subscription is a filter on everything it will ever deliver if and only if
  // it is not ahead of the log: live events are sent without looking at `after`.
  lemma AfterIsRespected(ops: seq<Op>, after: nat)
    requires !State(ops).closed
    ensures var c := |State(ops).channels|;
            (forall more :: DeliversOnlyAbove(ops + [Subscribe(after)] + more, c, after))
            <==> after <= |Log(ops)|
  {
    var joined, c := ops + [Subscribe(after)], |State(ops).channels|;
    assert joined[..|joined| - 1] == ops;
    CountersStep(joined);
    JustJoined(joined, c);
    if after <= |Log(ops)| {
      forall more ensures DeliversOnlyAbove(joined + more, c, after) {
        assert (joined + more)[..|joined|] == joined;
        JoinInExtension(joined + more, |joined|, c);
        DeliveryIncreases(joined + more, c);
      }
    } else {
      FutureAfterDelivers(ops, after, CallEvent("call", "response_done", "", 0, 0));
    }
  }

  // Asking for events after a number that does not exist yet: the next event is delivered although
  // its number is not above `after`.
  lemma FutureAfterDelivers(ops: seq<Op>, after: nat, event: CallEvent)
    requires !State(ops).closed && after > |Log(ops)|
    ensures !DeliversOnlyAbove(ops + [Subscribe(after)] + [Op.Publish(event, 0)], |State(ops).channels|, after)
  {
    var joined, c := ops + [Subscribe(after)], |State(ops).channels|;
    var run := joined + [Op.Publish(event, 0)];
    assert joined[..|joined| - 1] == ops && run[..|run| - 1] == joined;
    FreshSubscriber(ops, after);
    FlowStep(run, c);
    var got := Received(run, c) + State(run).channels[c].buffer;
    assert got[|got| - 1] == Stamped(event, |Log(ops)| + 1, 0);
  }

  // A subscriber asking from the future starts with an empty channel.
  lemma FreshSubscriber(ops: seq<Op>, after: nat)
    requires !State(ops).closed && after > |Log(ops)|
    ensures var h, c := State(ops + [Subscribe(after)]), |State(ops).channels|;
            && !h.closed && c < |h.channels| && HasRoom(h, c) && h.sequence == |Log(ops)|
  {
    var joined := ops + [Subscribe(after)];
    assert joined[..|joined| - 1] == ops;
    CountersStep(joined);
    StateStep(joined);
    LogNumbered(ops);
    JustJoined(joined, |State(ops).channels|);
  }
}
