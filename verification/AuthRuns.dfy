/** What the client of an authorisation is told in every interleaving, and how that relates to how its
    flow ends. */
module AuthRuns {
  import opened AuthRegistry
  import opened QrFlow
  import opened AuthProtocol
  import Bots
  import AuthSocket

  // The client was sent a state of this kind.
  ghost predicate Tells(run: seq<Action>, kind: string) {
    kind in KindsOf(After(run).socket.written)
  }

  ghost predicate NothingDropped(run: seq<Action>) {
    KindsOf(After(run).socket.accepted) == After(run).offered
  }

  // No write failed, and nothing that the client is to get is still in the channel.
  ghost predicate Delivered(run: seq<Action>) {
    var socket := After(run).socket;
    socket.status.Finished? || (socket.status.Serving? && socket.buffer == [])
  }

  // The socket of an authorisation is the socket of a run of the forwarding loop.
  lemma {:induction false} SocketRuns(run: seq<Action>) returns (actions: seq<AuthSocket.Action>)
    ensures After(run).socket == AuthSocket.Run(AuthSocket.OPENED, actions)
  {
    if run == [] {
      actions := [];
    } else {
      var before, action := After(run[..|run| - 1]), run[|run| - 1];
      actions := SocketRuns(run[..|run| - 1]);
      StepSays(before, action);
      if action.Forward? {
        actions := SocketSteps(actions, AuthSocket.Forward(action.writes));
      } else if Says(before, action) != [] {
        actions := SocketSteps(actions, AuthSocket.Offer(State(Says(before, action)[0], "")));
      }
    }
  }

  lemma SocketSteps(actions: seq<AuthSocket.Action>, action: AuthSocket.Action) returns (longer: seq<AuthSocket.Action>)
    ensures AuthSocket.Run(AuthSocket.OPENED, longer) ==
            AuthSocket.Step(AuthSocket.Run(AuthSocket.OPENED, actions), action)
  {
    longer := actions + [action];
    assert longer[..|actions|] == actions;
  }

  // ---------------------------------------------------------------- what the client can trust

  lemma WrittenIsOffered(run: seq<Action>, kind: string)
    requires Tells(run, kind)
    ensures kind in After(run).offered
  {
    RunKeepsInv(run);
    var socket := After(run).socket;
    var i :| 0 <= i < |socket.written| && socket.written[i].kind == kind;
    assert socket.written[i] == socket.accepted[i];
  }

  // In every interleaving: a client told of an error has a flow that failed, one told of a success has
  // had a code scanned, and a flow that succeeded has followed a scan and never shows an error.
  lemma ToldTheTruth(run: seq<Action>)
    ensures Tells(run, "error") ==> After(run).flow.Failed?
    ensures Tells(run, "success") || After(run).flow.Succeeded? ==> After(run).goroutines != []
    ensures After(run).flow.Succeeded? ==> "success" in After(run).offered && !Tells(run, "error")
  {
    RunKeepsInv(run);
    if Tells(run, "error") {
      WrittenIsOffered(run, "error");
    }
    if Tells(run, "success") {
      WrittenIsOffered(run, "success");
    }
  }

  // ---------------------------------------------------------------- when the client is told success

  // A success comes before any error.
  ghost predicate SuccessFirst(kinds: seq<string>) {
    exists k :: 0 <= k < |kinds| && kinds[k] == "success" && "error" !in kinds[..k]
  }

  lemma FirstTerminalDecides(states: seq<State>)
    ensures "success" in KindsOf(AuthSocket.UpToTerminal(states)) <==> SuccessFirst(KindsOf(states))
    ensures SuccessFirst(KindsOf(states)) ==> "error" !in KindsOf(AuthSocket.UpToTerminal(states))
  {
    var n, kinds := AuthSocket.Ends(states), KindsOf(states);
    var shown := AuthSocket.UpToTerminal(states);
    assert forall i :: 0 <= i < n ==> KindsOf(shown)[i] == kinds[i];
    if k :| 0 <= k < |kinds| && kinds[k] == "success" && "error" !in kinds[..k] {
      assert forall i :: 0 <= i < k ==> kinds[..k][i] == kinds[i];
      assert AuthSocket.Terminal(states[k]);
      assert n - 1 <= k;
      assert n - 1 < k ==> kinds[..k][n - 1] == "error" || kinds[n - 1] == "success";
      assert kinds[n - 1] == "success";
      assert KindsOf(shown)[n - 1] == "success";
    }
    if i :| 0 <= i < n && kinds[i] == "success" {
      assert i == n - 1;
      assert "error" !in kinds[..i];
    }
  }

  // A goroutine reported the success before the flow gave up.
  ghost predicate ReportedInTime(run: seq<Action>) {
    run != [] &&
    (var before, action := run[..|run| - 1], run[|run| - 1];
     || ReportedInTime(before)
     || (action.Report? && Enabled(After(before), action) && !After(before).flow.Failed?))
  }

  lemma SuccessFirstOfMore(kinds: seq<string>, more: string)
    ensures SuccessFirst(kinds + [more]) <==> SuccessFirst(kinds) || (more == "success" && "error" !in kinds)
  {
    var all := kinds + [more];
    if k :| 0 <= k < |all| && all[k] == "success" && "error" !in all[..k] {
      assert k < |kinds| ==> all[..k] == kinds[..k] && kinds[k] == "success";
      assert k == |kinds| ==> all[..k] == kinds;
    }
    if k :| 0 <= k < |kinds| && kinds[k] == "success" && "error" !in kinds[..k] {
      assert all[..k] == kinds[..k] && all[k] == "success";
    }
    if more == "success" && "error" !in kinds {
      assert all[..|kinds|] == kinds && all[|kinds|] == "success";
    }
  }

  lemma SuccessWithoutErrorIsFirst(kinds: seq<string>)
    requires "success" in kinds && "error" !in kinds
    ensures SuccessFirst(kinds)
  {
    var k :| 0 <= k < |kinds| && kinds[k] == "success";
    assert "error" !in kinds[..k];
  }

  lemma {:induction false} SuccessFirstIffReportedInTime(run: seq<Action>)
    ensures SuccessFirst(After(run).offered) <==> ReportedInTime(run)
  {
    if run != [] {
      var before, action := run[..|run| - 1], run[|run| - 1];
      SuccessFirstIffReportedInTime(before);
      RunKeepsInv(before);
      StepSays(After(before), action);
      var said := Says(After(before), action);
      if said == [] {
        assert After(before).offered + said == After(before).offered;
      } else {
        SuccessFirstOfMore(After(before).offered, said[0]);
        if said[0] == "success" && After(before).flow.Failed? && "error" !in After(before).offered {
          SuccessWithoutErrorIsFirst(After(before).offered);
        }
      }
    }
  }

  // The flow took a signal, found the client still logged in, and its bot started.
  ghost predicate TookConfirmation(run: seq<Action>) {
    run != [] &&
    (var before, action := run[..|run| - 1], run[|run| - 1];
     TookConfirmation(before) || (action == Confirm(true, true) && Enabled(After(before), action)))
  }

  lemma {:induction false} SucceedsIffConfirmed(run: seq<Action>)
    ensures After(run).flow.Succeeded? <==> TookConfirmation(run)
  {
    if run != [] {
      SucceedsIffConfirmed(run[..|run| - 1]);
    }
  }

  // Once everything accepted is delivered, the client has been told of a success if and only if one was
  // accepted before any error; if no offer was dropped, that is if and only if a goroutine reported it
  // before the flow gave up.  Whether the flow failed all the same is another matter: it did unless it
  // was confirmed with a bot that starts.
  lemma ToldSuccessIff(run: seq<Action>)
    requires Delivered(run) && (After(run).flow.Failed? || After(run).flow.Succeeded?)
    ensures Tells(run, "success") <==> SuccessFirst(KindsOf(After(run).socket.accepted))
    ensures NothingDropped(run) ==> (Tells(run, "success") <==> ReportedInTime(run))
    ensures Tells(run, "success") ==> !Tells(run, "error") && (After(run).flow.Failed? <==> !TookConfirmation(run))
    ensures NothingDropped(run) && After(run).flow.Succeeded? ==> Tells(run, "success")
  {
    RunKeepsInv(run);
    var a := After(run);
    SuccessFirstIffReportedInTime(run);
    SucceedsIffConfirmed(run);
    DeliveredUpToTerminal(a.socket);
    FirstTerminalDecides(a.socket.accepted);
    if a.flow.Succeeded? {
      SuccessWithoutErrorIsFirst(a.offered);
    }
  }

  lemma DeliveredUpToTerminal(socket: AuthSocket.Socket)
    requires AuthSocket.Inv(socket)
    requires socket.status.Finished? || (socket.status.Serving? && socket.buffer == [])
    ensures socket.written == AuthSocket.UpToTerminal(socket.accepted)
  {
    if socket.status.Serving? {
      assert socket.written + [] == socket.written;
      AuthSocket.NeverEnds(socket.accepted);
    }
  }

  // ---------------------------------------------------------------- extending a run

  lemma Extend(run: seq<Action>, action: Action) returns (longer: seq<Action>)
    ensures longer == run + [action] && After(longer) == Step(After(run), action)
  {
    longer := run + [action];
    assert longer[..|run|] == run;
  }

  // The loop empties the channel, or stops at the first terminal state.
  lemma {:induction false} Drain(run: seq<Action>) returns (longer: seq<Action>)
    requires After(run).socket.status.Serving?
    ensures run <= longer && Delivered(longer)
    ensures After(longer) == After(run).(socket := After(longer).socket)
    ensures After(longer).socket.accepted == After(run).socket.accepted
    decreases |After(run).socket.buffer|
  {
    if After(run).socket.buffer == [] {
      longer := run;
    } else {
      var forwarded := Extend(run, Forward(true));
      if After(forwarded).socket.status.Serving? {
        longer := Drain(forwarded);
      } else {
        longer := forwarded;
      }
    }
  }

  // ---------------------------------------------------------------- what is not guaranteed

  // From every state in which a reported success waits for the flow and was accepted, the bot can
  // fail to start: then the flow fails, and its client has been told of a success and of no error.
  lemma SuccessCanHideFailure(run: seq<Action>) returns (longer: seq<Action>)
    requires After(run).flow.Waiting? && After(run).done && After(run).socket.status.Serving?
    requires "success" in KindsOf(After(run).socket.accepted)
    ensures run <= longer && After(longer).flow.Failed? && After(longer).handlerReported
    ensures Tells(longer, "success") && !Tells(longer, "error")
  {
    RunKeepsInv(run);
    NoErrorAccepted(run);
    var failed := Extend(run, Confirm(true, false));
    var reported := Extend(failed, HandlerReports);
    ErrorComesLater(After(failed), reported);
    longer := Drain(reported);
    RunKeepsInv(longer);
    DeliveredUpToTerminal(After(longer).socket);
    FirstTerminalDecides(After(longer).socket.accepted);
  }

  lemma NoErrorAccepted(run: seq<Action>)
    requires !After(run).flow.Failed?
    ensures "error" !in KindsOf(After(run).socket.accepted)
  {
    RunKeepsInv(run);
  }

  lemma ErrorComesLater(a: Auth, reported: seq<Action>)
    requires "success" in KindsOf(a.socket.accepted) && "error" !in KindsOf(a.socket.accepted)
    requires a.socket.status.Serving? && After(reported) == Step(a, HandlerReports) && Enabled(a, HandlerReports)
    ensures SuccessFirst(KindsOf(After(reported).socket.accepted)) && After(reported).socket.status.Serving?
  {
    var before, now := a.socket.accepted, After(reported).socket.accepted;
    SuccessWithoutErrorIsFirst(KindsOf(before));
    if now != before {
      assert KindsOf(now) == KindsOf(before) + ["error"];
      SuccessFirstOfMore(KindsOf(before), "error");
    }
  }

  // A session that was replaced is told so, but its loop goes on: as long as its flow has not failed
  // and no success was reported, its loop has not finished, replaced or not.
  lemma ReplacementEndsNothing(run: seq<Action>)
    requires !After(run).flow.Failed? && "success" !in After(run).offered
    ensures !After(run).socket.status.Finished?
  {
    RunKeepsInv(run);
    assert AuthSocket.NoTerminal(After(run).socket.accepted);
  }

  // From every state in which its session is still registered and served, such a client can be sent
  // "cancelled" as the last state so far, with its socket open and its flow where it was.
  lemma CancelledSocketStaysOpen(run: seq<Action>) returns (longer: seq<Action>)
    requires !After(run).flow.Failed? && "success" !in After(run).offered
    requires After(run).registered
    requires After(run).socket.status.Serving? && |After(run).socket.buffer| < AuthSocket.CAPACITY
    ensures run <= longer && After(longer).flow == After(run).flow && After(longer).socket.status.Serving?
    ensures var written := After(longer).socket.written; |written| > 0 && written[|written| - 1].kind == "cancelled"
  {
    RunKeepsInv(run);
    var replaced := Extend(run, Replaced);
    longer := Drain(replaced);
    RunKeepsInv(longer);
    ReplacementEndsNothing(longer);
    DeliveredUpToTerminal(After(longer).socket);
    AuthSocket.NeverEnds(After(longer).socket.accepted);
  }

  // A session is replaced, and told so, at most once: CancelUser drops it.
  lemma {:induction false} CancelledAtMostOnce(run: seq<Action>)
    ensures "cancelled" in After(run).offered ==> !After(run).registered
    ensures forall i, j :: 0 <= i < j < |After(run).offered| ==>
              !(After(run).offered[i] == "cancelled" && After(run).offered[j] == "cancelled")
  {
    if run != [] {
      var before, action := After(run[..|run| - 1]), run[|run| - 1];
      CancelledAtMostOnce(run[..|run| - 1]);
      StepSays(before, action);
      StaysUnregistered(before, action);
      OnceMore(before.offered, Says(before, action));
    }
  }

  lemma StaysUnregistered(a: Auth, action: Action)
    ensures !a.registered ==> !Step(a, action).registered && Says(a, action) != ["cancelled"]
    ensures Says(a, action) == ["cancelled"] ==> !Step(a, action).registered
  {
  }

  lemma OnceMore(kinds: seq<string>, more: seq<string>)
    requires |more| <= 1 && (more == ["cancelled"] ==> "cancelled" !in kinds)
    requires forall i, j :: 0 <= i < j < |kinds| ==> !(kinds[i] == "cancelled" && kinds[j] == "cancelled")
    ensures var all := kinds + more;
            forall i, j :: 0 <= i < j < |all| ==> !(all[i] == "cancelled" && all[j] == "cancelled")
    ensures "cancelled" in kinds + more <==> "cancelled" in kinds || more == ["cancelled"]
  {
    if more != [] {
      assert more == [more[0]];
    }
  }

  // ---------------------------------------------------------------- the flow run serially

  // Nothing was dropped, and the loop keeps up: only what nobody will read is still in the channel.
  ghost predicate Calm(run: seq<Action>, n: nat) {
    var socket := After(run).socket;
    && NothingDropped(run)
    && ((socket.status.Serving? && socket.buffer == []) || (socket.status.Finished? && |socket.buffer| <= n))
  }

  // An action, and the forwarding of what it offered.
  lemma Do(run: seq<Action>, action: Action, n: nat) returns (longer: seq<Action>)
    requires Calm(run, n) && n < AuthSocket.CAPACITY && !action.Forward?
    ensures Calm(longer, n + |Says(After(run), action)|)
    ensures After(run).socket.status.Serving? ==> Calm(longer, 0)
    ensures After(longer) == Step(After(run), action).(socket := After(longer).socket)
    ensures After(longer).offered == After(run).offered + Says(After(run), action)
  {
    longer := Act(run, action);
    if After(longer).socket.status.Serving? && After(longer).socket.buffer != [] {
      longer := ForwardOne(longer);
    }
  }

  lemma ForwardOne(run: seq<Action>) returns (longer: seq<Action>)
    requires NothingDropped(run) && After(run).socket.status.Serving? && |After(run).socket.buffer| == 1
    ensures Calm(longer, 0) && After(longer) == After(run).(socket := After(longer).socket)
  {
    longer := Extend(run, Forward(true));
  }

  lemma Act(run: seq<Action>, action: Action) returns (longer: seq<Action>)
    requires NothingDropped(run) && |After(run).socket.buffer| < AuthSocket.CAPACITY && !action.Forward?
    ensures NothingDropped(longer) && After(longer) == Step(After(run), action)
    ensures After(longer).offered == After(run).offered + Says(After(run), action)
    ensures After(longer).socket.status == After(run).socket.status
    ensures |After(longer).socket.buffer| == |After(run).socket.buffer| + |Says(After(run), action)|
  {
    StepSays(After(run), action);
    longer := Extend(run, action);
    var said := Says(After(run), action);
    if said != [] {
      assert KindsOf(After(longer).socket.accepted) == KindsOf(After(run).socket.accepted) + said;
    }
  }

  function Scans(events: seq<QREvent>): nat {
    if events == [] then 0
    else Scans(events[..|events| - 1]) + (if events[|events| - 1].Success? then 1 else 0)
  }

  lemma {:induction false} ScannedIfSuccess(events: seq<QREvent>)
    ensures QREvent.Success in events ==> Scans(events) > 0
  {
    if events != [] {
      ScannedIfSuccess(events[..|events| - 1]);
      assert events == events[..|events| - 1] + [events[|events| - 1]];
    }
  }

  // The flow after reading these events, with a sleeping goroutine for every Success event.
  ghost predicate HasRead(run: seq<Action>, events: seq<QREvent>) {
    var a := After(run);
    && Calm(run, 0) && a.flow.Reading? && !a.done && !a.refused && !a.handlerReported
    && a.offered == Offers(events)
    && |a.goroutines| == Scans(events) && (forall k :: 0 <= k < |a.goroutines| ==> a.goroutines[k].Asleep?)
  }

  lemma {:induction false} ReadEvents(events: seq<QREvent>) returns (run: seq<Action>)
    requires forall i :: 0 <= i < |events| ==> !EndsFlow(events[i])
    ensures HasRead(run, events)
  {
    if events == [] {
      run := Do([], Open(true), 0);
    } else {
      var init, last := events[..|events| - 1], events[|events| - 1];
      run := ReadEvents(init);
      EventsOfferNoTerminal(init);
      ReplacementEndsNothing(run);
      run := Do(run, Receive(last), 0);
    }
  }

  // The first goroutine finds the client logged in and offers the success.
  lemma ReportSuccess(run: seq<Action>) returns (longer: seq<Action>)
    requires Calm(run, 0) && After(run).flow.Waiting? && After(run).goroutines != [] && After(run).goroutines[0].Asleep?
    ensures Calm(longer, 1) && After(longer).offered == After(run).offered + ["success"]
    ensures After(longer) == After(run).(goroutines := After(longer).goroutines, offered := After(longer).offered,
                                         socket := After(longer).socket)
    ensures |After(longer).goroutines| > 0 && After(longer).goroutines[0].Reported?
  {
    longer := Do(run, Look(0, true), 0);
    longer := Do(longer, Report(0), 0);
  }

  // A reported success is signalled to the flow, which looks again and starts the bot.
  lemma TakeSuccess(run: seq<Action>, stillLoggedIn: bool, starts: bool) returns (longer: seq<Action>)
    requires Calm(run, 1) && After(run).flow.Waiting? && !After(run).done
    requires After(run).goroutines != [] && After(run).goroutines[0].Reported?
    ensures Calm(longer, 2) && After(longer).handlerReported == After(run).handlerReported
    ensures After(longer).offered == After(run).offered + (if stillLoggedIn then [] else ["error"])
    ensures After(longer).flow == if stillLoggedIn && starts then Succeeded else Failed
  {
    longer := Do(run, Signal(0), 1);
    longer := Do(longer, Confirm(stillLoggedIn, starts), 1);
  }

  lemma TakeFailure(run: seq<Action>) returns (longer: seq<Action>)
    requires Calm(run, 0) && After(run).flow.Waiting? && !After(run).refused
    requires After(run).goroutines != [] && After(run).goroutines[0].Asleep?
    ensures Calm(longer, 2) && After(longer).handlerReported == After(run).handlerReported
    ensures After(longer).offered == After(run).offered + ["error"] && After(longer).flow.Failed?
  {
    longer := Do(run, Look(0, false), 0);
    longer := Do(longer, Signal(0), 0);
    longer := Do(longer, TakeRefusal, 0);
  }

  // The wait for the verdict: first the goroutine, then the flow.
  lemma ReachVerdict(run: seq<Action>, world: World) returns (longer: seq<Action>)
    requires Calm(run, 0) && After(run).flow.Waiting? && !After(run).done && !After(run).refused
    requires world.StreamEnds()
    requires QREvent.Success in world.events ==> After(run).goroutines != [] && After(run).goroutines[0].Asleep?
    ensures Calm(longer, 2) && After(longer).handlerReported == After(run).handlerReported
    ensures After(longer).offered == After(run).offered + LastOffers(world)
    ensures After(longer).flow == if world.Confirms() && world.profile.CanStart() then Succeeded else Failed
  {
    assert world.events[..|world.events|] == world.events;
    match world.Outcome() {
      case Confirmed(stillLoggedIn) =>
        longer := ReportSuccess(run);
        longer := TakeSuccess(longer, stillLoggedIn, world.profile.CanStart());
      case LoginFailed =>
        longer := TakeFailure(run);
      case OutOfTime(found) =>
        longer := run;
        if found {
          longer := ReportSuccess(longer);
        }
        longer := Do(longer, TimeOut, if found then 1 else 0);
    }
  }

  // The serial flow, with its goroutines and its handler, is a run of the protocol: it offers the
  // same states in the same order and ends the same way.
  lemma SerialRun(botFound: bool, world: World) returns (run: seq<Action>)
    ensures Calm(run, 3) && After(run).offered == AllOffers(botFound, world)
    ensures After(run).flow == if Succeeds(botFound, world) then Succeeded else Failed
    ensures After(run).handlerReported <==> After(run).flow.Failed?
  {
    run := SerialFlow(botFound, world);
    if After(run).flow.Failed? {
      run := Do(run, HandlerReports, 2);
    }
  }

  lemma SerialFlow(botFound: bool, world: World) returns (run: seq<Action>)
    ensures Calm(run, 2) && After(run).offered == FlowOffers(botFound, world) && !After(run).handlerReported
    ensures After(run).flow == if Succeeds(botFound, world) then Succeeded else Failed
  {
    var n := Handled(world.events);
    if !botFound || !world.ReachesEvents() {
      run := Do([], Open(false), 0);
    } else {
      var handled := world.events[..n];
      run := ReadEvents(handled);
      ScannedIfSuccess(handled);
      if n < |world.events| {
        run := Do(run, Receive(world.events[n]), 0);
      } else {
        assert handled == world.events;
        run := Do(run, StreamCloses, 0);
        run := ReachVerdict(run, world);
      }
    }
  }

  // The flow has ended, and its handler has reported a failure.
  ghost predicate Decided(run: seq<Action>) {
    After(run).flow.Succeeded? || (After(run).flow.Failed? && After(run).handlerReported)
  }

  // Every run that offers what the serial flow offers, in its order, without a drop: once decided and
  // delivered, the flow has ended as the serial flow does, and the client has been told of a success if
  // and only if the stream ended and a goroutine reported before the wait was over.  And then the flow
  // has failed all the same unless the client was still logged in and its bot started.
  lemma ToldSuccessInSerialRun(run: seq<Action>, botFound: bool, world: World)
    requires After(run).offered == AllOffers(botFound, world) && NothingDropped(run) && Delivered(run) && Decided(run)
    ensures After(run).flow.Succeeded? <==> Succeeds(botFound, world)
    ensures Tells(run, "success") <==> botFound && world.ReachesEvents() && world.Reported()
    ensures Tells(run, "success") ==>
              !Tells(run, "error")
              && (After(run).flow.Failed? <==> !(world.Outcome() == Confirmed(true) && world.profile.CanStart()))
  {
    ToldSuccessIff(run);
    SuccessFirstIffReportedInTime(run);
    SerialSuccessFirst(botFound, world);
    RunKeepsInv(run);
    ErrorOfferedIff(botFound, world);
  }

  lemma ErrorOfferedIff(botFound: bool, world: World)
    ensures "error" in AllOffers(botFound, world) <==> !Succeeds(botFound, world)
  {
    FailureIsOfferedOnceAndLast(botFound, world);
    if !Succeeds(botFound, world) {
      var all := AllOffers(botFound, world);
      assert all[|all| - 1] == "error";
    }
  }

  lemma SerialSuccessFirst(botFound: bool, world: World)
    ensures SuccessFirst(AllOffers(botFound, world)) <==> botFound && world.ReachesEvents() && world.Reported()
  {
    FailureIsOfferedOnceAndLast(botFound, world);
    var flow, all := FlowOffers(botFound, world), AllOffers(botFound, world);
    if !Succeeds(botFound, world) {
      SuccessFirstOfMore(flow, "error");
    } else {
      assert flow + [] == flow;
    }
    if "success" in flow {
      if "error" in flow {
        var init := flow[..|flow| - 1];
        assert flow == init + [flow[|flow| - 1]];
        SuccessWithoutErrorIsFirst(init);
        SuccessFirstOfMore(init, flow[|flow| - 1]);
      } else {
        SuccessWithoutErrorIsFirst(flow);
      }
    }
  }

  // One scan, a confirmed login and a bot that does not start: the client is sent "qr-success" and
  // "success", and nothing else, while the flow has failed.
  lemma ToldSuccessButNoBot(profile: Bots.Profile) returns (run: seq<Action>)
    requires !profile.CanStart()
    ensures After(run).flow.Failed? && After(run).handlerReported
    ensures KindsOf(After(run).socket.written) == ["qr-success", "success"]
  {
    var world := World(true, true, Connected, [QREvent.Success], Confirmed(true), profile);
    assert world.events[..1] == [QREvent.Success] && world.events[..0] == [];
    assert Handled(world.events) == 1;
    run := SerialRun(true, world);
    ScanThenSuccess(world);
    RunKeepsInv(run);
    DeliveredUpToTerminal(After(run).socket);
    var accepted := After(run).socket.accepted;
    assert KindsOf(accepted)[0] == "qr-success" && KindsOf(accepted)[1] == "success";
    AuthSocket.EndsAt(accepted, 1);
  }

  lemma ScanThenSuccess(world: World)
    requires world.ReachesEvents() && world.events == [QREvent.Success] && world.ending == Confirmed(true)
    requires !world.profile.CanStart()
    ensures AllOffers(true, world) == ["qr-success", "success", "error"]
  {
    assert world.events[..1] == [QREvent.Success] && world.events[..0] == [];
    assert Handled(world.events) == 1;
    assert Offers([]) == [] && Offers(world.events) == ["qr-success"];
  }
}
