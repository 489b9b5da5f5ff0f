/** What every interleaving of the call protocol guarantees, and what it does not. */
module CallRuns {
  import opened CallProtocol

  ghost predicate Exists(run: seq<Action>, c: nat) {
    c < |State(run).sessions|
  }

  function SessionOf(run: seq<Action>, c: nat): Session
    requires Exists(run, c)
  {
    State(run).sessions[c]
  }

  // ---------------------------------------------------------------- evolution of one session

  // What never goes back: the Once, the closed hub's log, the CloseSession calls.
  ghost predicate Evolves(s: Session, s': Session) {
    && (forall step :: s.once.Past(step) ==> s'.once.Past(step))
    && (s.once == Done ==> s'.once == Done)
    && (!s.once.Fresh? ==> !s'.once.Fresh?)
    && s.log <= s'.log
    && (s.hubClosed ==> s'.hubClosed && s'.log == s.log)
    && (s.once.Past(CloseRealtime) ==> s'.realtimeClosed == s.realtimeClosed)
    && (!s.start.Pending? ==> !s'.start.Pending? && s'.respID == s.respID)
    && (!s.emitting ==> !s'.emitting)
  }

  lemma StepEvolves(s: System, action: Action, c: nat)
    requires Inv(s) && c < |s.sessions|
    ensures c < |Step(s, action).sessions| && Evolves(s.sessions[c], Step(s, action).sessions[c])
  {
    assert CallInv(s, c);
    if action.Act? && action.cleanup < |s.cleanups| {
      assert CleanupInv(s, action.cleanup);
      if s.cleanups[action.cleanup].call == c {
        ActedEvolves(s, action.cleanup);
      }
    }
  }

  lemma ActedEvolves(s: System, t: nat)
    requires t < |s.cleanups| && s.cleanups[t].call < |s.sessions|
    requires SessionInv(s.sessions[s.cleanups[t].call]) && CleanupInv(s, t)
    ensures var c := s.cleanups[t].call; Evolves(s.sessions[c], Acted(s, t).sessions[c])
  {
  }

  lemma {:induction false} RunEvolves(run: seq<Action>, k: nat, c: nat)
    requires k <= |run| && Exists(run[..k], c)
    ensures Exists(run, c) && Evolves(SessionOf(run[..k], c), SessionOf(run, c))
  {
    if k == |run| {
      assert run[..k] == run;
    } else {
      assert run[..|run| - 1][..k] == run[..k];
      RunEvolves(run[..|run| - 1], k, c);
      RunKeepsInv(run[..|run| - 1]);
      StepEvolves(State(run[..|run| - 1]), run[|run| - 1], c);
    }
  }

  // ---------------------------------------------------------------- at most once

  // How often the body under the Once of call c was entered.
  ghost function BodyStarts(run: seq<Action>, c: nat): nat {
    if run == [] then 0
    else
      var before := run[..|run| - 1];
      BodyStarts(before, c)
      + (if Exists(before, c) && Exists(run, c)
            && SessionOf(before, c).once.Fresh? && SessionOf(run, c).once.Running? then 1 else 0)
  }

  // In every interleaving, however many cleanups of whatever cause are in flight: the body is
  // entered at most once, call_ended is published at most once and CloseSession is called at
  // most once.
  lemma {:induction false} EndsAtMostOnce(run: seq<Action>, c: nat)
    requires Exists(run, c)
    ensures BodyStarts(run, c) == (if SessionOf(run, c).once.Fresh? then 0 else 1)
    ensures EndedCount(SessionOf(run, c).log) <= 1
    ensures |SessionOf(run, c).realtimeClosed| <= 1
  {
    var before := run[..|run| - 1];
    AtMostOnePublished(run, c);
    if Exists(before, c) {
      EndsAtMostOnce(before, c);
      RunKeepsInv(before);
      StepEvolves(State(before), run[|run| - 1], c);
      if SessionOf(before, c).once.Fresh? {
        FreshRunsFirst(State(before), run[|run| - 1], c);
      }
    } else {
      NoBodyBeforeRegister(before, c);
    }
  }

  lemma AtMostOnePublished(run: seq<Action>, c: nat)
    requires Exists(run, c)
    ensures EndedCount(SessionOf(run, c).log) <= 1 && |SessionOf(run, c).realtimeClosed| <= 1
  {
    RunKeepsInv(run);
    assert CallInv(State(run), c);
  }

  // A Once that is no longer fresh after a step was entered by it or before it.
  lemma FreshRunsFirst(s: System, action: Action, c: nat)
    requires c < |s.sessions| && s.sessions[c].once.Fresh?
    ensures !Step(s, action).sessions[c].once.Done?
  {
  }

  lemma {:induction false} NoBodyBeforeRegister(run: seq<Action>, c: nat)
    requires !Exists(run, c)
    ensures BodyStarts(run, c) == 0 && LoggedEvents(run, c, false) == LoggedEvents(run, c, true) == []
    ensures RespIDAtClose(run, c) == 0
  {
    if run != [] {
      SessionsGrow(run);
      NoBodyBeforeRegister(run[..|run| - 1], c);
    }
  }

  lemma SessionsGrow(run: seq<Action>)
    requires run != []
    ensures |State(run[..|run| - 1]).sessions| <= |State(run).sessions| <= |State(run[..|run| - 1]).sessions| + 1
    ensures |State(run).sessions| > |State(run[..|run| - 1]).sessions| ==>
              State(run).sessions[|State(run[..|run| - 1]).sessions|] == NEW_SESSION
  {
  }

  // ---------------------------------------------------------------- gone means gone

  // Once any cleanup of a call has returned, the call is out of `active` for ever after, its hub
  // is closed, and its hub's log never changes again.
  lemma ReturnedMeansGone(run: seq<Action>, k: nat, t: nat)
    requires k <= |run| && t < |State(run[..k]).cleanups| && State(run[..k]).cleanups[t].pc == Returned
    ensures var c := State(run[..k]).cleanups[t].call;
            && Exists(run[..k], c) && Exists(run, c)
            && c !in State(run[..k]).active && c !in State(run).active
            && SessionOf(run[..k], c).hubClosed
            && SessionOf(run, c).log == SessionOf(run[..k], c).log
  {
    var c := State(run[..k]).cleanups[t].call;
    RunKeepsInv(run[..k]);
    RunKeepsInv(run);
    assert CleanupInv(State(run[..k]), t) && CallInv(State(run[..k]), c);
    RunEvolves(run, k, c);
    assert CallInv(State(run), c);
  }

  // Nothing enters a hub's log after the hub has closed.
  lemma ClosedHubIsSilent(run: seq<Action>, k: nat, c: nat)
    requires k <= |run| && Exists(run[..k], c) && SessionOf(run[..k], c).hubClosed
    ensures Exists(run, c) && SessionOf(run, c).hubClosed && SessionOf(run, c).log == SessionOf(run[..k], c).log
  {
    RunEvolves(run, k, c);
  }

  // ---------------------------------------------------------------- what the log holds

  // The events emitted on c's open hub: those before call_ended, or those after it.
  ghost function LoggedEvents(run: seq<Action>, c: nat, afterEnded: bool): seq<Entry> {
    if run == [] then []
    else
      var before, action := run[..|run| - 1], run[|run| - 1];
      if action.Emit? && action.call == c && Exists(before, c)
         && SessionOf(before, c).emitting && !SessionOf(before, c).hubClosed
         && SessionOf(before, c).once.Past(PublishEnded) == afterEnded
      then LoggedEvents(before, c, afterEnded) + [Event(action.kind)]
      else LoggedEvents(before, c, afterEnded)
  }

  // The log is exactly the events emitted while the hub was open, in order, with call_ended
  // between those emitted before and after cleanup published it.
  lemma {:induction false} LogIsExact(run: seq<Action>, c: nat)
    requires Exists(run, c)
    ensures SessionOf(run, c).log ==
            LoggedEvents(run, c, false)
            + (if SessionOf(run, c).once.Past(PublishEnded) then [Ended] else [])
            + LoggedEvents(run, c, true)
    ensures !SessionOf(run, c).once.Past(PublishEnded) ==> LoggedEvents(run, c, true) == []
  {
    var before := run[..|run| - 1];
    SessionsGrow(run);
    if Exists(before, c) {
      LogIsExact(before, c);
      LogStep(run, c);
    } else {
      NoBodyBeforeRegister(before, c);
    }
  }

  // One action adds to a log an event emitted on the open hub, or cleanup's call_ended.
  lemma LogStep(run: seq<Action>, c: nat)
    requires run != [] && Exists(run[..|run| - 1], c)
    ensures Exists(run, c)
    ensures var s, s', action := SessionOf(run[..|run| - 1], c), SessionOf(run, c), run[|run| - 1];
            s'.log == s.log +
            (if action.Emit? && action.call == c && s.emitting && !s.hubClosed then [Event(action.kind)]
                               else if s'.once.Past(PublishEnded) && !s.once.Past(PublishEnded) then [Ended]
                               else [])
            && (s.once.Past(PublishEnded) ==> s'.once.Past(PublishEnded))
            && (action.Emit? ==> s'.once == s.once)
  {
    var s, action := State(run[..|run| - 1]), run[|run| - 1];
    RunKeepsInv(run[..|run| - 1]);
    assert CallInv(s, c);
    if action.Act? && action.cleanup < |s.cleanups| {
      assert CleanupInv(s, action.cleanup);
      if s.cleanups[action.cleanup].call == c {
        ActedLog(s, action.cleanup);
      }
    }
  }

  lemma ActedLog(s: System, t: nat)
    requires t < |s.cleanups| && s.cleanups[t].call < |s.sessions|
    requires SessionInv(s.sessions[s.cleanups[t].call]) && CleanupInv(s, t)
    ensures var c := s.cleanups[t].call;
            var s0, s1 := s.sessions[c], Acted(s, t).sessions[c];
            && s1.log == s0.log + (if s1.once.Past(PublishEnded) && !s0.once.Past(PublishEnded) then [Ended] else [])
            && (s0.once.Past(PublishEnded) ==> s1.once.Past(PublishEnded))
  {
  }

  // call_ended is the last entry of an ended call's log if and only if no emitEvent landed between
  // publishing it and closing the hub.
  lemma EndedIsLastIff(run: seq<Action>, c: nat)
    requires Exists(run, c) && SessionOf(run, c).once == Done
    ensures var log := SessionOf(run, c).log;
            |log| > 0 && (log[|log| - 1] == Ended <==> LoggedEvents(run, c, true) == [])
  {
    LogIsExact(run, c);
    OnlyEvents(run, c);
  }

  lemma {:induction false} OnlyEvents(run: seq<Action>, c: nat)
    ensures forall i :: 0 <= i < |LoggedEvents(run, c, true)| ==> LoggedEvents(run, c, true)[i] != Ended
  {
    if run != [] {
      OnlyEvents(run[..|run| - 1], c);
    }
  }

  // ---------------------------------------------------------------- the realtime session

  // The respID recorded at the moment cleanup decided whether to close a realtime session.
  ghost function RespIDAtClose(run: seq<Action>, c: nat): nat {
    if run == [] then 0
    else
      var before := run[..|run| - 1];
      if Exists(before, c) && Exists(run, c)
         && !SessionOf(before, c).once.Past(CloseRealtime) && SessionOf(run, c).once.Past(CloseRealtime)
      then SessionOf(before, c).respID
      else RespIDAtClose(before, c)
  }

  // One step calls CloseSession only when it is the CloseRealtime step of a recorded session.
  lemma RealtimeStep(s: System, action: Action, c: nat)
    requires Inv(s) && c < |s.sessions|
    ensures var s0, s1 := s.sessions[c], Step(s, action).sessions[c];
            && (s0.once.Past(CloseRealtime) ==> s1.once.Past(CloseRealtime))
            && s1.realtimeClosed ==
               s0.realtimeClosed
               + (if s1.once.Past(CloseRealtime) && !s0.once.Past(CloseRealtime) && s0.respID != 0
                  then [s0.respID] else [])
  {
    assert CallInv(s, c);
    if action.Act? && action.cleanup < |s.cleanups| {
      assert CleanupInv(s, action.cleanup);
    }
  }

  // CloseSession is called for the respID recorded at that moment, or not at all if none was.
  lemma {:induction false} RealtimeClosedIsExact(run: seq<Action>, c: nat)
    requires Exists(run, c)
    ensures SessionOf(run, c).realtimeClosed ==
            if SessionOf(run, c).once.Past(CloseRealtime) && RespIDAtClose(run, c) != 0
            then [RespIDAtClose(run, c)] else []
  {
    var before := run[..|run| - 1];
    SessionsGrow(run);
    if Exists(before, c) {
      RunKeepsInv(before);
      RealtimeStep(State(before), run[|run| - 1], c);
      RealtimeClosedIsExact(before, c);
    } else {
      NoBodyBeforeRegister(before, c);
    }
  }

  // startRealtime recorded a realtime session before cleanup looked for one.
  ghost predicate RecordedInTime(run: seq<Action>, c: nat) {
    run != [] &&
    (var before, action := run[..|run| - 1], run[|run| - 1];
     || RecordedInTime(before, c)
     || (action.RecordRespID? && action.call == c && action.respID != 0 && Exists(before, c)
         && SessionOf(before, c).start.Pending? && !SessionOf(before, c).once.Past(CloseRealtime)))
  }

  // The realtime session recorded for a call, once cleanup has looked for one, was closed, once, if and
  // only if it was recorded before that; otherwise nothing was closed.
  lemma RecordedIsClosedIff(run: seq<Action>, c: nat)
    requires Exists(run, c) && SessionOf(run, c).once.Past(CloseRealtime)
    ensures SessionOf(run, c).realtimeClosed == if RecordedInTime(run, c) then [SessionOf(run, c).respID] else []
    ensures RecordedInTime(run, c) ==> SessionOf(run, c).respID != 0
  {
    InTimeIffClosed(run, c);
    RunKeepsInv(run);
    assert CallInv(State(run), c);
  }

  lemma {:induction false} InTimeIffClosed(run: seq<Action>, c: nat)
    requires Exists(run, c)
    ensures RecordedInTime(run, c) <==>
            if SessionOf(run, c).once.Past(CloseRealtime) then SessionOf(run, c).realtimeClosed != []
            else SessionOf(run, c).respID != 0
  {
    var before := run[..|run| - 1];
    SessionsGrow(run);
    if Exists(before, c) {
      InTimeIffClosed(before, c);
      RunKeepsInv(before);
      assert CallInv(State(before), c);
      RealtimeStep(State(before), run[|run| - 1], c);
      RespIDStep(State(before), run[|run| - 1], c);
    } else {
      NotInTimeBeforeRegister(before, c);
    }
  }

  lemma {:induction false} NotInTimeBeforeRegister(run: seq<Action>, c: nat)
    requires !Exists(run, c)
    ensures !RecordedInTime(run, c)
  {
    if run != [] {
      SessionsGrow(run);
      NotInTimeBeforeRegister(run[..|run| - 1], c);
    }
  }

  // A respID is written by a recording only, which changes nothing else that cleanup looks at.
  lemma RespIDStep(s: System, action: Action, c: nat)
    requires Inv(s) && c < |s.sessions|
    ensures var s0, s1 := s.sessions[c], Step(s, action).sessions[c];
            if action.RecordRespID? && action.call == c && s0.start.Pending?
            then s1.respID == action.respID && s1.once == s0.once else s1.respID == s0.respID
  {
  }

  // ---------------------------------------------------------------- the audio source

  // startRealtime recorded the audio source before cleanup got past closing one.
  ghost predicate SourceInTime(run: seq<Action>, c: nat) {
    run != [] &&
    (var before, action := run[..|run| - 1], run[|run| - 1];
     || SourceInTime(before, c)
     || (action.RecordSource? && action.call == c && Exists(before, c)
         && SessionOf(before, c).start.HasRespID? && !SessionOf(before, c).once.Past(CloseSource)))
  }

  // Once cleanup has got past closing the audio source, it is closed if and only if it was recorded
  // before that; one recorded later plays on.
  lemma SourceIsClosedIff(run: seq<Action>, c: nat)
    requires Exists(run, c) && SessionOf(run, c).once.Past(CloseSource)
    ensures SessionOf(run, c).source.ClosedSource? <==> SourceInTime(run, c)
  {
    SourceInTimeIff(run, c);
  }

  lemma {:induction false} SourceInTimeIff(run: seq<Action>, c: nat)
    requires Exists(run, c)
    ensures SourceInTime(run, c) <==>
            if SessionOf(run, c).once.Past(CloseSource) then SessionOf(run, c).source.ClosedSource?
            else SessionOf(run, c).source.Playing?
  {
    var before := run[..|run| - 1];
    SessionsGrow(run);
    if Exists(before, c) {
      SourceInTimeIff(before, c);
      RunKeepsInv(before);
      SourceStep(State(before), run[|run| - 1], c);
    } else {
      NoSourceBeforeRegister(before, c);
    }
  }

  lemma {:induction false} NoSourceBeforeRegister(run: seq<Action>, c: nat)
    requires !Exists(run, c)
    ensures !SourceInTime(run, c)
  {
    if run != [] {
      SessionsGrow(run);
      NoSourceBeforeRegister(run[..|run| - 1], c);
    }
  }

  // A recording sets the source playing; the CloseSource step closes one that plays; nothing else
  // changes it.
  lemma SourceStep(s: System, action: Action, c: nat)
    requires Inv(s) && c < |s.sessions|
    ensures var s0, s1 := s.sessions[c], Step(s, action).sessions[c];
            var records := action.RecordSource? && action.call == c && s0.start.HasRespID?;
            var closes := s1.once.Past(CloseSource) && !s0.once.Past(CloseSource);
            && (s0.once.Past(CloseSource) ==> s1.once.Past(CloseSource))
            && (records ==> s0.source.NoSource? && s1.source.Playing? && s1.once == s0.once)
            && (!records ==> s1.source == if closes && s0.source.Playing? then ClosedSource else s0.source)
            && (!s0.once.Past(CloseSource) ==> !s0.source.ClosedSource?)
  {
    assert CallInv(s, c);
    if action.Act? && action.cleanup < |s.cleanups| {
      assert CleanupInv(s, action.cleanup);
    }
  }

  // The steps of cleanup take effect in their order: whatever one has left behind, the earlier ones
  // have left behind theirs.
  lemma CleanupInOrder(run: seq<Action>, c: nat)
    requires Exists(run, c)
    ensures var session := SessionOf(run, c);
            && (Ended in session.log ==> session.cancelled)
            && (session.hubClosed ==> Ended in session.log)
            && (session.realtimeClosed != [] ==> session.hubClosed)
            && (session.source.ClosedSource? ==>
                  session.hubClosed && (RecordedInTime(run, c) ==> session.realtimeClosed != []))
            && (c !in State(run).active ==>
                  session.hubClosed && (SourceInTime(run, c) ==> session.source.ClosedSource?))
  {
    RunKeepsInv(run);
    assert CallInv(State(run), c);
    EndedIffCounted(SessionOf(run, c).log);
    InTimeIffClosed(run, c);
    SourceInTimeIff(run, c);
  }

  lemma {:induction false} EndedIffCounted(log: seq<Entry>)
    ensures Ended in log <==> EndedCount(log) > 0
  {
    if log != [] {
      EndedIffCounted(log[..|log| - 1]);
      assert log == log[..|log| - 1] + [log[|log| - 1]];
    }
  }

  lemma StateAfter(run: seq<Action>, action: Action)
    ensures State(run + [action]) == Step(State(run), action)
  {
    assert (run + [action])[..|run|] == run;
  }

  // ---------------------------------------------------------------- no cleanup is stuck

  // The cleanup that has to move next so that cleanup t can return.
  function NextMover(s: System, t: nat): nat
    requires t < |s.cleanups| && s.cleanups[t].call < |s.sessions|
  {
    var once := s.sessions[s.cleanups[t].call].once;
    if s.cleanups[t].pc == AtOnce && once.Running? then once.winner else t
  }

  function StepsLeft(s: System, t: nat): nat
    requires t < |s.cleanups| && s.cleanups[t].call < |s.sessions|
  {
    var once := s.sessions[s.cleanups[t].call].once;
    match s.cleanups[t].pc
    case Returned => 0
    case Inside => if once.Running? then 7 - Rank(once.at) else 0
    case AtOnce => if once.Fresh? then 8 else if once.Running? then 8 - Rank(once.at) else 1
    case Load => if once.Fresh? then 9 else if once.Running? then 9 - Rank(once.at) else 2
  }

  lemma MoverMakesProgress(s: System, t: nat)
    requires Inv(s) && t < |s.cleanups| && s.cleanups[t].call < |s.sessions| && s.cleanups[t].pc != Returned
    ensures var s' := Step(s, Act(NextMover(s, t)));
            && t < |s'.cleanups| && s'.cleanups[t].call < |s'.sessions|
            && StepsLeft(s', t) < StepsLeft(s, t)
  {
    assert CleanupInv(s, t) && WinnerInv(s, s.cleanups[t].call) && CallInv(s, s.cleanups[t].call);
  }

  // A cleanup of a call that is not active, or not any more, returns at its first step and does nothing.
  lemma GoneCallIsLeftAlone(run: seq<Action>, t: nat)
    requires t < |State(run).cleanups| && State(run).cleanups[t].pc == Load
    requires State(run).cleanups[t].call !in State(run).active
    ensures State(run + [Act(t)]).sessions == State(run).sessions && State(run + [Act(t)]).active == State(run).active
    ensures t < |State(run + [Act(t)]).cleanups| && State(run + [Act(t)]).cleanups[t].pc == Returned
  {
    RunKeepsInv(run);
    assert CleanupInv(State(run), t);
    StateAfter(run, Act(t));
  }

  // From every reachable state every cleanup can return within nine steps of cleanups alone: a
  // waiter never waits for a Once that nobody is running.
  lemma {:induction false} EveryCleanupCanReturn(run: seq<Action>, t: nat) returns (more: seq<Action>)
    requires t < |State(run).cleanups|
    ensures |more| <= 9 && (forall i :: 0 <= i < |more| ==> more[i].Act?)
    ensures t < |State(run + more).cleanups| && State(run + more).cleanups[t].pc == Returned
  {
    RunKeepsInv(run);
    assert CleanupInv(State(run), t);
    more := FinishFrom(run, t);
  }

  lemma {:induction false} FinishFrom(run: seq<Action>, t: nat) returns (more: seq<Action>)
    requires t < |State(run).cleanups| && State(run).cleanups[t].call < |State(run).sessions|
    ensures |more| <= StepsLeft(State(run), t) && (forall i :: 0 <= i < |more| ==> more[i].Act?)
    ensures t < |State(run + more).cleanups| && State(run + more).cleanups[t].pc == Returned
    decreases StepsLeft(State(run), t)
  {
    RunKeepsInv(run);
    if State(run).cleanups[t].pc == Returned {
      more := [];
      assert run + more == run;
    } else {
      var mover := Act(NextMover(State(run), t));
      MoverMakesProgress(State(run), t);
      StateAfter(run, mover);
      var rest := FinishFrom(run + [mover], t);
      more := [mover] + rest;
      assert run + more == run + [mover] + rest;
    }
  }

  // ---------------------------------------------------------------- what is not guaranteed

  // A cleanup of a fresh call that nobody else is ending enters the body.
  lemma CleanupStarts(run: seq<Action>, c: nat) returns (more: seq<Action>)
    requires Exists(run, c) && SessionOf(run, c).once.Fresh?
    ensures Exists(run + more, c) && SessionOf(run + more, c).once.Running?
            && SessionOf(run + more, c).once.at == Cancel
    ensures forall i :: 0 <= i < |more| ==> more[i].Act? || more[i].Invoke?
  {
    var t := |State(run).cleanups|;
    RunKeepsInv(run);
    assert CallInv(State(run), c);
    StateAfter(run, Invoke(c, LocalHangup));
    StateAfter(run + [Invoke(c, LocalHangup)], Act(t));
    StateAfter(run + [Invoke(c, LocalHangup)] + [Act(t)], Act(t));
    more := [Invoke(c, LocalHangup), Act(t), Act(t)];
    assert run + more == run + [Invoke(c, LocalHangup)] + [Act(t)] + [Act(t)];
  }

  // A body that is running and not at its last step moves on.
  lemma BodyMoves(run: seq<Action>, c: nat) returns (more: seq<Action>)
    requires Exists(run, c) && SessionOf(run, c).once.Running? && !SessionOf(run, c).once.at.UpdateGauge?
    ensures Exists(run + more, c) && SessionOf(run + more, c).once.Running?
    ensures SessionOf(run + more, c).once.at == NextStep(SessionOf(run, c).once.at)
    ensures forall i :: 0 <= i < |more| ==> more[i].Act?
  {
    RunKeepsInv(run);
    assert WinnerInv(State(run), c);
    more := [Act(SessionOf(run, c).once.winner)];
    StateAfter(run, more[0]);
  }

  lemma BodyEnds(run: seq<Action>, c: nat) returns (more: seq<Action>)
    requires Exists(run, c) && SessionOf(run, c).once.Running? && SessionOf(run, c).once.at.UpdateGauge?
    ensures (forall i :: 0 <= i < |more| ==> more[i].Act?) && Exists(run + more, c)
            && SessionOf(run + more, c).once == Done
  {
    RunKeepsInv(run);
    assert WinnerInv(State(run), c);
    more := [Act(SessionOf(run, c).once.winner)];
    StateAfter(run, more[0]);
  }

  // A call that has not got past a body step can be brought to the point just before it.
  lemma {:induction false} CanReach(run: seq<Action>, c: nat, step: BodyStep) returns (more: seq<Action>)
    requires Exists(run, c) && !SessionOf(run, c).once.Past(step)
    ensures Exists(run + more, c) && SessionOf(run + more, c).once.Running? && SessionOf(run + more, c).once.at == step
    ensures forall i :: 0 <= i < |more| ==> more[i].Act? || more[i].Invoke?
    decreases Rank(step) + 1 - (if SessionOf(run, c).once.Running? then Rank(SessionOf(run, c).once.at) + 1 else 0)
  {
    var once := SessionOf(run, c).once;
    if once.Running? && once.at == step {
      more := [];
      assert run + more == run;
    } else {
      var first;
      if once.Fresh? {
        first := CleanupStarts(run, c);
      } else {
        first := BodyMoves(run, c);
      }
      var rest := CanReach(run + first, c, step);
      more := first + rest;
      assert run + more == run + first + rest;
    }
  }

  // Steps of cleanups log nothing once call_ended is out.
  lemma {:induction false} ActsOnlyEnd(run: seq<Action>, more: seq<Action>, c: nat)
    requires Exists(run, c) && SessionOf(run, c).once.Past(PublishEnded)
    requires forall i :: 0 <= i < |more| ==> more[i].Act?
    ensures Exists(run + more, c)
    ensures SessionOf(run + more, c).log == SessionOf(run, c).log
    ensures SessionOf(run + more, c).once.Past(PublishEnded)
  {
    if more == [] {
      assert run + more == run;
    } else {
      var before := run + more[..|more| - 1];
      ActsOnlyEnd(run, more[..|more| - 1], c);
      var longer := before + [more[|more| - 1]];
      assert run + more == longer && longer[..|longer| - 1] == before;
      LogStep(longer, c);
    }
  }

  // The body of a running Once can be run to its end by cleanup steps alone.
  lemma {:induction false} BodyCanFinish(run: seq<Action>, c: nat) returns (more: seq<Action>)
    requires Exists(run, c) && SessionOf(run, c).once.Running?
    ensures (forall i :: 0 <= i < |more| ==> more[i].Act?) && Exists(run + more, c)
            && SessionOf(run + more, c).once == Done
    decreases 6 - Rank(SessionOf(run, c).once.at)
  {
    if SessionOf(run, c).once.at.UpdateGauge? {
      more := BodyEnds(run, c);
    } else {
      var first := BodyMoves(run, c);
      var rest := BodyCanFinish(run + first, c);
      more := first + rest;
      assert run + more == run + first + rest;
    }
  }

  // Steps of cleanups change neither what startRealtime has done nor whether someone may emit.
  lemma {:induction false} CleanupsKeep(run: seq<Action>, more: seq<Action>, c: nat)
    requires Exists(run, c) && (forall i :: 0 <= i < |more| ==> more[i].Act? || more[i].Invoke?)
    ensures Exists(run + more, c)
    ensures SessionOf(run + more, c).start == SessionOf(run, c).start
    ensures SessionOf(run + more, c).emitting == SessionOf(run, c).emitting
    ensures SessionOf(run + more, c).respID == SessionOf(run, c).respID
  {
    if more == [] {
      assert run + more == run;
    } else {
      var before, action := run + more[..|more| - 1], more[|more| - 1];
      CleanupsKeep(run, more[..|more| - 1], c);
      assert run + more == before + [action];
      StateAfter(before, action);
      CleanupStepKeeps(State(before), action, c);
    }
  }

  lemma CleanupStepKeeps(s: System, action: Action, c: nat)
    requires c < |s.sessions| && (action.Act? || action.Invoke?)
    ensures var s0, s1 := s.sessions[c], Step(s, action).sessions[c]; s1.start == s0.start && s1.emitting == s0.emitting
    ensures s.sessions[c].respID == Step(s, action).sessions[c].respID
  {
  }

  // call_ended need not be the last event: as long as a call's hub is open and someone may still emit,
  // an emitEvent can still land after it.
  lemma EventCanFollowEnded(run: seq<Action>, c: nat, kind: string) returns (more: seq<Action>)
    requires Exists(run, c) && !SessionOf(run, c).hubClosed && SessionOf(run, c).emitting
    ensures Exists(run + more, c) && SessionOf(run + more, c).once == Done
    ensures var log := SessionOf(run + more, c).log; |log| > 1 && log[|log| - 1] == Event(kind)
  {
    RunKeepsInv(run);
    assert CallInv(State(run), c);
    var reach := CanReach(run, c, CloseHub);
    CleanupsKeep(run, reach, c);
    EmitLands(run + reach, c, kind);
    var emitted := run + reach + [Emit(c, kind)];
    var finish := BodyCanFinish(emitted, c);
    ActsOnlyEnd(emitted, finish, c);
    more := reach + [Emit(c, kind)] + finish;
    assert run + more == emitted + finish;
  }

  // An event emitted just before the hub closes is logged after call_ended.
  lemma EmitLands(run: seq<Action>, c: nat, kind: string)
    requires Exists(run, c) && SessionOf(run, c).once.Running? && SessionOf(run, c).once.at == CloseHub
    requires SessionOf(run, c).emitting
    ensures Exists(run + [Emit(c, kind)], c) && SessionOf(run + [Emit(c, kind)], c).once == SessionOf(run, c).once
    ensures var log := SessionOf(run + [Emit(c, kind)], c).log; |log| > 1 && log[|log| - 1] == Event(kind)
  {
    RunKeepsInv(run);
    assert CallInv(State(run), c);
    StateAfter(run, Emit(c, kind));
  }

  ghost predicate EndsWithEnded(run: seq<Action>, c: nat) {
    Exists(run, c) && SessionOf(run, c).once == Done ==>
      var log := SessionOf(run, c).log; |log| > 0 && log[|log| - 1] == Ended
  }

  // From a call that has not published call_ended yet, however it goes on, call_ended is the last event
  // of the ended call if and only if nobody may emit any more.
  lemma EndedIsLastForSureIff(run: seq<Action>, c: nat)
    requires Exists(run, c) && !SessionOf(run, c).once.Past(PublishEnded)
    ensures (forall more :: EndsWithEnded(run + more, c)) <==> !SessionOf(run, c).emitting
  {
    RunKeepsInv(run);
    assert CallInv(State(run), c);
    if SessionOf(run, c).emitting {
      var more := EventCanFollowEnded(run, c, "response_done");
      assert !EndsWithEnded(run + more, c);
    } else {
      forall more ensures EndsWithEnded(run + more, c) {
        assert (run + more)[..|run|] == run;
        NothingLandsLate(run + more, |run|, c);
        if Exists(run + more, c) && SessionOf(run + more, c).once == Done {
          EndedIsLastIff(run + more, c);
        }
      }
    }
  }

  // Once nobody may emit, nothing lands after a call_ended that is still to come.
  lemma {:induction false} NothingLandsLate(run: seq<Action>, k: nat, c: nat)
    requires k <= |run| && Exists(run[..k], c)
    requires !SessionOf(run[..k], c).emitting && !SessionOf(run[..k], c).once.Past(PublishEnded)
    ensures LoggedEvents(run, c, true) == []
  {
    if k == |run| {
      assert run[..k] == run;
      LogIsExact(run, c);
    } else {
      var before := run[..|run| - 1];
      assert before[..k] == run[..k];
      NothingLandsLate(before, k, c);
      RunEvolves(before, k, c);
    }
  }

  // A realtime session can outlive its call: as long as startRealtime has not recorded it, it can do so
  // after cleanup has looked, be the call over already or not.
  lemma RealtimeCanOutliveCall(run: seq<Action>, c: nat, respID: nat) returns (more: seq<Action>)
    requires Exists(run, c) && SessionOf(run, c).start.Pending? && respID != 0
    ensures Exists(run + more, c) && SessionOf(run + more, c).once == Done
    ensures SessionOf(run + more, c).respID == respID && SessionOf(run + more, c).realtimeClosed == []
  {
    var finish := CallCanEnd(run, c);
    CleanupsKeep(run, finish, c);
    RecordAfterEnd(run + finish, c, respID);
    more := finish + [RecordRespID(c, respID)];
    assert run + more == run + finish + [RecordRespID(c, respID)];
  }

  // Cleanups alone can end a call.
  lemma CallCanEnd(run: seq<Action>, c: nat) returns (more: seq<Action>)
    requires Exists(run, c)
    ensures Exists(run + more, c) && SessionOf(run + more, c).once == Done
    ensures forall i :: 0 <= i < |more| ==> more[i].Act? || more[i].Invoke?
  {
    if SessionOf(run, c).once == Done {
      more := [];
      assert run + more == run;
    } else {
      var reach := CanReach(run, c, UpdateGauge);
      var last := BodyEnds(run + reach, c);
      more := reach + last;
      assert run + more == run + reach + last;
    }
  }

  lemma RecordAfterEnd(run: seq<Action>, c: nat, respID: nat)
    requires Exists(run, c) && SessionOf(run, c).once == Done && SessionOf(run, c).start.Pending?
    ensures var recorded := run + [RecordRespID(c, respID)];
            && Exists(recorded, c) && SessionOf(recorded, c).once == Done
            && SessionOf(recorded, c).respID == respID && SessionOf(recorded, c).realtimeClosed == []
  {
    RunKeepsInv(run);
    assert CallInv(State(run), c);
    StateAfter(run, RecordRespID(c, respID));
  }

  // Whatever cleanup left open stays open.
  lemma OpenForGood(run: seq<Action>, k: nat, c: nat)
    requires k <= |run| && Exists(run[..k], c) && SessionOf(run[..k], c).once.Past(CloseRealtime)
    ensures Exists(run, c) && SessionOf(run, c).realtimeClosed == SessionOf(run[..k], c).realtimeClosed
  {
    RunEvolves(run, k, c);
  }

  // An ended call has no realtime session that nobody closed.
  ghost predicate NothingLeftOpen(run: seq<Action>, c: nat) {
    Exists(run, c) && SessionOf(run, c).once == Done && SessionOf(run, c).respID != 0 ==>
      SessionOf(run, c).realtimeClosed == [SessionOf(run, c).respID]
  }

  // From a call whose cleanup has not looked for a realtime session yet, however it goes on, the ended
  // call leaves none open if and only if startRealtime has recorded one already or has failed.
  lemma NothingLeftOpenForSureIff(run: seq<Action>, c: nat)
    requires Exists(run, c) && !SessionOf(run, c).once.Past(CloseRealtime)
    ensures (forall more :: NothingLeftOpen(run + more, c)) <==> !SessionOf(run, c).start.Pending?
  {
    if SessionOf(run, c).start.Pending? {
      var more := RealtimeCanOutliveCall(run, c, 1);
      assert !NothingLeftOpen(run + more, c);
    } else {
      forall more ensures NothingLeftOpen(run + more, c) {
        assert (run + more)[..|run|] == run;
        ClosedIfRecordedBefore(run + more, |run|, c);
      }
    }
  }

  lemma ClosedIfRecordedBefore(run: seq<Action>, k: nat, c: nat)
    requires k <= |run| && Exists(run[..k], c)
    requires !SessionOf(run[..k], c).once.Past(CloseRealtime) && !SessionOf(run[..k], c).start.Pending?
    ensures NothingLeftOpen(run, c)
  {
    RunEvolves(run, k, c);
    InTimeIffClosed(run[..k], c);
    InTimeStays(run, k, c);
    if SessionOf(run, c).once == Done && SessionOf(run, c).respID != 0 {
      RecordedIsClosedIff(run, c);
    }
  }

  lemma {:induction false} InTimeStays(run: seq<Action>, k: nat, c: nat)
    requires k <= |run|
    ensures RecordedInTime(run[..k], c) ==> RecordedInTime(run, c)
  {
    if k == |run| {
      assert run[..k] == run;
    } else {
      assert run[..|run| - 1][..k] == run[..k];
      InTimeStays(run[..|run| - 1], k, c);
    }
  }

  // The audio source of a call is closed only after its context is cancelled.
  lemma SourceClosesAfterCancel(run: seq<Action>, c: nat)
    requires Exists(run, c) && SessionOf(run, c).source.ClosedSource?
    ensures SessionOf(run, c).cancelled
  {
    RunKeepsInv(run);
    assert CallInv(State(run), c);
  }
}
