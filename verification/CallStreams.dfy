/** The events of a call as its subscribers see them: the event hub of EventHubRuns, driven by a call of
    CallProtocol. */
module CallStreams {
  import opened EventHub
  import opened EventHubRuns
  import opened CallRuns
  import Protocol = CallProtocol

  // What is done to a hub, apart from subscribing and reading.
  datatype Deed = Said(kind: string) | Closed

  function KindOf(entry: Protocol.Entry): string {
    if entry.Ended? then "call_ended" else entry.kind
  }

  function EntryKinds(log: seq<Protocol.Entry>): (kinds: seq<string>)
    ensures |kinds| == |log| && forall i :: 0 <= i < |log| ==> kinds[i] == KindOf(log[i])
  {
    seq(|log|, i requires 0 <= i < |log| => KindOf(log[i]))
  }

  function EventKinds(events: seq<CallEvent>): (kinds: seq<string>)
    ensures |kinds| == |events| && forall i :: 0 <= i < |events| ==> kinds[i] == events[i].kind
  {
    seq(|events|, i requires 0 <= i < |events| => events[i].kind)
  }

  // What call c does to its hub: emitEvent and the body of cleanup publish, the body then closes.
  ghost function CallDeeds(run: seq<Protocol.Action>, c: nat): seq<Deed> {
    if run == [] then []
    else
      var before, action := run[..|run| - 1], run[|run| - 1];
      CallDeeds(before, c)
      + (if !Exists(before, c) || !Exists(run, c) then []
         else
           var once, once' := SessionOf(before, c).once, SessionOf(run, c).once;
           if action.Emit? && action.call == c && SessionOf(before, c).emitting then [Said(action.kind)]
           else if !once.Past(Protocol.PublishEnded) && once'.Past(Protocol.PublishEnded) then [Said("call_ended")]
           else if !once.Past(Protocol.CloseHub) && once'.Past(Protocol.CloseHub) then [Closed]
           else [])
  }

  // What a run of the hub had done to it.
  function HubDeeds(ops: seq<Op>): seq<Deed> {
    if ops == [] then []
    else
      HubDeeds(ops[..|ops| - 1])
      + (match ops[|ops| - 1]
         case Publish(event, _) => [Said(event.kind)]
         case Close => [Closed]
         case _ => [])
  }

  // What the deeds leave in the log, and whether they close the hub.
  function Kept(deeds: seq<Deed>): seq<string> {
    if deeds == [] then []
    else
      var before := deeds[..|deeds| - 1];
      Kept(before) + (if deeds[|deeds| - 1].Said? && Closed !in before then [deeds[|deeds| - 1].kind] else [])
  }

  lemma KeptAppend(deeds: seq<Deed>, more: seq<Deed>)
    requires |more| <= 1
    ensures Kept(deeds + more) ==
            Kept(deeds) + (if more != [] && more[0].Said? && Closed !in deeds then [more[0].kind] else [])
    ensures Closed in deeds + more <==> Closed in deeds || Closed in more
  {
    if more == [] {
      assert deeds + more == deeds;
    } else {
      assert (deeds + more)[..|deeds|] == deeds;
    }
  }

  lemma {:induction false} HubKeeps(ops: seq<Op>)
    ensures EventKinds(Log(ops)) == Kept(HubDeeds(ops))
    ensures State(ops).closed <==> Closed in HubDeeds(ops)
  {
    if ops != [] {
      var before, op := ops[..|ops| - 1], ops[|ops| - 1];
      HubKeeps(before);
      CountersStep(ops);
      var more := if op.Publish? then [Said(op.event.kind)] else if op.Close? then [Closed] else [];
      KeptAppend(HubDeeds(before), more);
    }
  }

  // One action of the protocol does to the session's log and closed flag what its deed does to a hub.
  lemma CallStep(run: seq<Protocol.Action>, c: nat) returns (more: seq<Deed>)
    requires run != [] && Exists(run[..|run| - 1], c)
    ensures Exists(run, c) && |more| <= 1 && CallDeeds(run, c) == CallDeeds(run[..|run| - 1], c) + more
    ensures var s, s' := SessionOf(run[..|run| - 1], c), SessionOf(run, c);
            && EntryKinds(s'.log) ==
               EntryKinds(s.log) + (if more != [] && more[0].Said? && !s.hubClosed then [more[0].kind] else [])
            && (s'.hubClosed <==> s.hubClosed || Closed in more)
  {
    var before := run[..|run| - 1];
    LogStep(run, c);
    HubClosedStep(run, c);
    more := CallDeeds(run, c)[|CallDeeds(before, c)|..];
  }

  // The hub is closed exactly when the body has got past closing it, and by then call_ended is out.
  lemma HubClosedStep(run: seq<Protocol.Action>, c: nat)
    requires run != [] && Exists(run[..|run| - 1], c)
    ensures Exists(run, c)
    ensures var s, s', action := SessionOf(run[..|run| - 1], c), SessionOf(run, c), run[|run| - 1];
            && (s.hubClosed <==> s.once.Past(Protocol.CloseHub))
            && (s'.hubClosed <==> s'.once.Past(Protocol.CloseHub))
            && (s.hubClosed ==> s'.hubClosed && s.once.Past(Protocol.PublishEnded))
            && (action.Emit? ==> s'.once == s.once)
            && (!s.once.Past(Protocol.PublishEnded) ==> !s'.once.Past(Protocol.CloseHub))
  {
    var before := run[..|run| - 1];
    Protocol.RunKeepsInv(before);
    Protocol.RunKeepsInv(run);
    LogStep(run, c);
    StepEvolves(Protocol.State(before), run[|run| - 1], c);
    assert Protocol.CallInv(Protocol.State(before), c) && Protocol.CallInv(Protocol.State(run), c);
    if !SessionOf(before, c).once.Past(Protocol.PublishEnded) {
      PublishedBeforeClosed(Protocol.State(before), run[|run| - 1], c);
    }
  }

  lemma PublishedBeforeClosed(s: Protocol.System, action: Protocol.Action, c: nat)
    requires Protocol.Inv(s) && c < |s.sessions| && !s.sessions[c].once.Past(Protocol.PublishEnded)
    ensures !Protocol.Step(s, action).sessions[c].once.Past(Protocol.CloseHub)
  {
    if action.Act? && action.cleanup < |s.cleanups| {
      assert Protocol.CleanupInv(s, action.cleanup);
    }
  }

  lemma {:induction false} CallKeeps(run: seq<Protocol.Action>, c: nat)
    requires Exists(run, c)
    ensures EntryKinds(SessionOf(run, c).log) == Kept(CallDeeds(run, c))
    ensures SessionOf(run, c).hubClosed <==> Closed in CallDeeds(run, c)
  {
    var before := run[..|run| - 1];
    SessionsGrow(run);
    if Exists(before, c) {
      CallKeeps(before, c);
      var more := CallStep(run, c);
      KeptAppend(CallDeeds(before, c), more);
    } else {
      NoDeedsBeforeRegister(before, c);
    }
  }

  lemma {:induction false} NoDeedsBeforeRegister(run: seq<Protocol.Action>, c: nat)
    requires !Exists(run, c)
    ensures CallDeeds(run, c) == []
  {
    if run != [] {
      SessionsGrow(run);
      NoDeedsBeforeRegister(run[..|run| - 1], c);
    }
  }

  // A hub that has had done to it what a call does holds that call's log and is closed when the
  // call's is, whoever else subscribes, reads and leaves in between.
  lemma HubFollowsCall(run: seq<Protocol.Action>, c: nat, ops: seq<Op>)
    requires Exists(run, c) && HubDeeds(ops) == CallDeeds(run, c)
    ensures EventKinds(Log(ops)) == EntryKinds(SessionOf(run, c).log)
    ensures State(ops).closed <==> SessionOf(run, c).hubClosed
  {
    HubKeeps(ops);
    CallKeeps(run, c);
  }

  // End to end: a subscriber of a call that is not unsubscribed before the hub closes and never falls
  // more than 128 events behind gets the call's log from where it joined, without a gap.  If it ended
  // with no emit landing after call_ended, that is the last thing such a subscriber gets.
  lemma SubscriberSeesCall(run: seq<Protocol.Action>, c: nat, ops: seq<Op>, ch: nat)
    requires Exists(run, c) && HubDeeds(ops) == CallDeeds(run, c)
    requires Stayed(ops, ch) && NeverBehind(ops, ch)
    ensures Join(ops, ch).Start() <= |SessionOf(run, c).log|
    ensures EventKinds(Received(ops, ch) + State(ops).channels[ch].buffer) ==
            EntryKinds(SessionOf(run, c).log)[Join(ops, ch).Start()..]
    ensures SessionOf(run, c).once == Protocol.Done && LoggedEvents(run, c, true) == []
            && Join(ops, ch).Start() < |SessionOf(run, c).log| ==>
              var got := Received(ops, ch) + State(ops).channels[ch].buffer;
              |got| > 0 && got[|got| - 1].kind == "call_ended"
  {
    HubFollowsCall(run, c, ops);
    LosslessStream(ops, ch);
    var log, start := SessionOf(run, c).log, Join(ops, ch).Start();
    assert EventKinds(Log(ops)[start..]) == EventKinds(Log(ops))[start..];
    if SessionOf(run, c).once == Protocol.Done && LoggedEvents(run, c, true) == [] && start < |log| {
      EndedIsLastIff(run, c);
      assert EntryKinds(log)[|log| - 1] == "call_ended";
    }
  }

  lemma LosslessStream(ops: seq<Op>, ch: nat)
    requires Stayed(ops, ch) && NeverBehind(ops, ch)
    ensures Join(ops, ch).Start() <= |Log(ops)|
    ensures Received(ops, ch) + State(ops).channels[ch].buffer == Log(ops)[Join(ops, ch).Start()..]
  {
    LosslessUntilClosed(ops, ch);
    HistoryBounds(ops, ch);
    Delivery(ops, ch);
    SelectAllAbove(Log(ops), Join(ops, ch).Start());
  }

  // ---------------------------------------------------------------- a reader that keeps up

  // The first subscriber of a hub with these deeds has stayed, missed nothing and read everything.
  ghost predicate KeptUp(ops: seq<Op>, deeds: seq<Deed>) {
    && HubDeeds(ops) == deeds && Stayed(ops, 0) && Missed(ops, 0) == {}
    && State(ops).channels[0].buffer == [] && Join(ops, 0) == Joining(0, 0)
  }

  lemma {:induction false} ReadAll(deeds: seq<Deed>) returns (ops: seq<Op>)
    ensures KeptUp(ops, deeds)
  {
    if deeds == [] {
      ops := JoinAtStart();
    } else {
      var before := ReadAll(deeds[..|deeds| - 1]);
      ops := FollowDeed(before, deeds);
    }
  }

  lemma JoinAtStart() returns (ops: seq<Op>)
    ensures KeptUp(ops, [])
  {
    ops := [Subscribe(0)];
    assert ops[..|ops| - 1] == [];
    CountersStep(ops);
    JustJoined(ops, 0);
    NewcomerSubscribes(ops, 0);
  }

  lemma StaysAfter(ops: seq<Op>, op: Op)
    requires Stayed(ops, 0) && (op.Publish? || op.Close? || op == Op.Receive(0))
    ensures (ops + [op])[..|ops|] == ops && Stayed(ops + [op], 0)
  {
    var longer := ops + [op];
    assert longer[..|longer| - 1] == ops;
    ChannelStep(longer, 0);
    RunIsSafe(ops);
    StateStep(longer);
  }

  lemma PublishAndRead(ops: seq<Op>, deeds: seq<Deed>, kind: string) returns (longer: seq<Op>)
    requires KeptUp(ops, deeds)
    ensures KeptUp(longer, deeds + [Said(kind)])
  {
    var publish := Op.Publish(CallEvent("", kind, "", 0, 0), 0);
    var published := ops + [publish];
    StaysAfter(ops, publish);
    FlowStep(published, 0);
    ChannelStep(published, 0);
    assert Missed(published, 0) == {};
    longer := published + [Op.Receive(0)];
    StaysAfter(published, Op.Receive(0));
    FlowStep(longer, 0);
    ChannelStep(longer, 0);
  }

  lemma CloseHubOf(ops: seq<Op>, deeds: seq<Deed>) returns (longer: seq<Op>)
    requires KeptUp(ops, deeds)
    ensures KeptUp(longer, deeds + [Closed])
  {
    longer := ops + [Op.Close];
    StaysAfter(ops, Op.Close);
    FlowStep(longer, 0);
    ChannelStep(longer, 0);
  }

  lemma FollowDeed(ops: seq<Op>, deeds: seq<Deed>) returns (longer: seq<Op>)
    requires deeds != [] && KeptUp(ops, deeds[..|deeds| - 1])
    ensures KeptUp(longer, deeds)
  {
    var before, deed := deeds[..|deeds| - 1], deeds[|deeds| - 1];
    match deed {
      case Said(kind) => longer := PublishAndRead(ops, before, kind);
      case Closed => longer := CloseHubOf(ops, before);
    }
    assert before + [deed] == deeds;
  }

  // Every call, however it went, can be followed from its first event to its last: a subscriber that
  // joins at the start and reads after every publish has received the call's whole log.
  lemma EveryCallCanBeFollowed(run: seq<Protocol.Action>, c: nat) returns (ops: seq<Op>)
    requires Exists(run, c)
    ensures HubDeeds(ops) == CallDeeds(run, c) && Stayed(ops, 0) && NeverBehind(ops, 0)
    ensures EventKinds(Received(ops, 0)) == EntryKinds(SessionOf(run, c).log)
  {
    ops := ReadAll(CallDeeds(run, c));
    LosslessUntilClosed(ops, 0);
    SubscriberSeesCall(run, c, ops, 0);
    assert Received(ops, 0) + [] == Received(ops, 0);
  }
}
