/** The call manager run serially: one operation at a time, each finishing before the next.  As in
    CallProtocol, a call's event hub is seen as the log it keeps and whether it is closed. */
module CallManager {
  import opened CallProtocol
  import opened Options

  const STARTED := Event("call_started")
  const CONNECTED := Event("call_connected")

  class CallSession {
    const id: string
    var cancelled: bool
    var log: seq<Entry>
    var hubClosed: bool
    var ready: bool
    var respID: nat
    var source: Source
    // The body of cleanup has run: the session's sync.Once is used up.
    var ended: bool

    constructor (id: string)
      ensures this.id == id && Live() && log == [] && !ready && respID == 0 && source == NoSource
    {
      this.id := id;
      cancelled, log, hubClosed, ready, respID, source, ended := false, [], false, false, 0, NoSource, false;
    }

    // A live session has not been cleaned up and its event stream is open.
    ghost predicate Live()
      reads this
    {
      !hubClosed && !cancelled && !ended && source != ClosedSource
    }

    // An ended session: cancelled, its stream closed with call_ended last, its audio source closed.
    ghost predicate HasEnded()
      reads this
    {
      ended && cancelled && source != Playing && hubClosed && log != [] && log[|log| - 1] == Ended
    }

    method EmitEvent(entry: Entry)
      modifies this`log
      ensures log == if hubClosed then old(log) else old(log) + [entry]
    {
      if !hubClosed {
        log := log + [entry];
      }
    }

    // The body of cleanup, as far as it concerns the session.
    method End()
      requires Live()
      modifies this
      ensures HasEnded() && log == old(log) + [Ended] && respID == old(respID) && ready == old(ready)
    {
      ended := true;
      cancelled := true;
      EmitEvent(Ended);
      hubClosed := true;
      if source != NoSource {
        source := ClosedSource;
      }
    }
  }

  // What the outside world does during one InitiateOutgoing, in the order it is consulted.
  datatype OutgoingWorld = OutgoingWorld(
    hasCallClient: bool,
    loggedIn: bool,
    stopped: bool,
    voiceEnabled: bool,         // for this bot
    voiceMode: bool,            // for the service
    target: string,
    contextDone: bool,
    call: Option<string>,       // the id of the placed call
    peer: Option<nat>,          // resolvePeer's respID
    realtimeStarts: bool)
  {
    predicate PassesChecks() {
      hasCallClient && loggedIn && !stopped && voiceEnabled && voiceMode && target != "" && !contextDone
    }
  }

  datatype Outcome = Rejected | CallFailed | RealtimeFailed | Started

  // What happens to an incoming call: not allowed, not answered, or answered, after which the media
  // may become ready.
  datatype Readiness = NotReady | PeerUnknown | RealtimeFails(peer: nat) | Connects(peer: nat)
  datatype IncomingWorld = IncomingWorld(voiceEnabled: bool, voiceMode: bool, callerAllowed: bool,
      id: string, answered: bool, readiness: Readiness)

  class Manager {
    var active: map<string, CallSession>
    var gauge: nat
    // The arguments of the CloseSession calls made so far.
    var closedSessions: seq<nat>
    // Every session ever registered.
    ghost var sessions: set<CallSession>

    constructor ()
      ensures Valid() && active == map[] && closedSessions == [] && sessions == {}
    {
      active, gauge, closedSessions, sessions := map[], 0, [], {};
    }

    ghost predicate IsActive(s: CallSession)
      reads this
    {
      s.id in active && active[s.id] == s
    }

    // Every session ever registered is active and live, or has ended; the gauge counts the active.
    ghost predicate Valid()
      reads this, sessions
    {
      && gauge == |active|
      && (forall id :: id in active ==> active[id] in sessions && active[id].id == id)
      && (forall s :: s in sessions ==> if IsActive(s) then s.Live() else s.HasEnded())
    }

    // Collects the ids of the active calls one by one, in any order: each once, and no others.
    method ActiveCallIDs() returns (ids: seq<string>)
      ensures forall id :: id in ids <==> id in active
      ensures forall i, j :: 0 <= i < j < |ids| ==> ids[i] != ids[j]
      ensures |ids| == |active|
    {
      ids := [];
      var rest := active.Keys;
      while rest != {}
        invariant rest <= active.Keys && |ids| + |rest| == |active.Keys|
        invariant forall id :: id in ids <==> id in active && id !in rest
        invariant forall i, j :: 0 <= i < j < |ids| ==> ids[i] != ids[j]
        decreases |rest|
      {
        var id :| id in rest;
        ids := ids + [id];
        rest := rest - {id};
      }
    }

    method UpdateGauge()
      modifies this`gauge
      ensures gauge == |active|
    {
      var ids := ActiveCallIDs();
      gauge := |ids|;
    }

    // Call ids are unique, so a call that is registered is not active yet.
    method RegisterSession(session: CallSession)
      requires Valid() && session.id !in active && session.Live() && session !in sessions
      modifies this
      ensures Valid() && active == old(active)[session.id := session] && closedSessions == old(closedSessions)
      ensures sessions == old(sessions) + {session}
    {
      active := active[session.id := session];
      sessions := sessions + {session};
      UpdateGauge();
    }

    // The session of a new call.
    method NewCall(id: string) returns (session: CallSession)
      requires Valid() && id !in active
      modifies this
      ensures Valid() && fresh(session) && session.id == id && IsActive(session)
      ensures active == old(active)[id := session] && sessions == old(sessions) + {session}
      ensures closedSessions == old(closedSessions) && session.log == [] && session.respID == 0
      ensures !session.ready && session.source == NoSource
    {
      session := new CallSession(id);
      RegisterSession(session);
    }

    // Ends call `id` if it is active; every other session is left as it was.
    method Cleanup(id: string)
      requires Valid()
      modifies this, if id in active then {active[id]} else {}
      ensures Valid() && sessions == old(sessions) && active == old(active) - {id}
      ensures id in old(active) ==>
                old(active)[id].log == old(active[id].log) + [Ended] && old(active)[id].ready == old(active[id].ready)
      ensures closedSessions ==
              old(closedSessions)
              + (if id in old(active) && old(active[id].respID) != 0 then [old(active[id].respID)] else [])
    {
      if id !in active {
        return;
      }
      var session := active[id];
      session.End();
      if session.respID != 0 {
        closedSessions := closedSessions + [session.respID];
      }
      Forget(session);
    }

    // Everything is as it should be but for a session that has ended and is still active.
    ghost predicate ValidBut(ended: CallSession)
      reads this, sessions
    {
      && IsActive(ended) && ended in sessions && ended.HasEnded()
      && (forall id :: id in active ==> active[id] in sessions && active[id].id == id)
      && (forall s :: s in sessions && s != ended ==> if IsActive(s) then s.Live() else s.HasEnded())
    }

    // The last steps of cleanup.
    method Forget(session: CallSession)
      requires ValidBut(session)
      modifies this`active, this`gauge
      ensures Valid() && active == old(active) - {session.id}
    {
      active := active - {session.id};
      UpdateGauge();
    }

    // Cleaning up an active call moves its recorded realtime session, if any, to the closed ones.
    method CleanupOne(id: string)
      requires Valid() && id in active
      modifies this, active[id]
      ensures Valid() && sessions == old(sessions) && active == old(active) - {id}
      ensures old(active)[id].log == old(active[id].log) + [Ended]
      ensures old(closedSessions) <= closedSessions
      ensures forall r :: r in closedSessions || IsRecorded(r) <==> r in old(closedSessions) || old(IsRecorded(r))
    {
      ghost var respID := active[id].respID;
      Cleanup(id);
      forall r: nat
        ensures r in closedSessions || IsRecorded(r) <==> r in old(closedSessions) || old(IsRecorded(r))
      {
        if r != 0 && r != respID && old(IsRecorded(r)) {
          var i :| i in old(active) && old(active[i].respID) == r;
          assert i in active && active[i].respID == r;
        }
      }
    }

    // A realtime session that is recorded for an active call.
    ghost predicate IsRecorded(respID: nat)
      reads this, sessions
      requires Valid()
    {
      respID != 0 && exists id :: id in active && active[id].respID == respID
    }

    // Ends every active call: no session is left that has not ended with call_ended last, and exactly
    // the recorded realtime sessions have been closed.
    method Stop()
      requires Valid()
      modifies this, set s | s in sessions && IsActive(s)
      ensures old(closedSessions) <= closedSessions
      ensures forall r :: r in closedSessions <==> r in old(closedSessions) || old(IsRecorded(r))
      ensures Valid() && sessions == old(sessions) && active == map[]
      ensures forall s :: s in sessions ==> s.HasEnded()
      ensures forall s :: s in sessions && old(IsActive(s)) ==> s.log == old(s.log) + [Ended]
      ensures forall s :: s in sessions && !old(IsActive(s)) ==> unchanged(s)
    {
      ghost var calls := set s | s in sessions && IsActive(s);
      var todo := active.Keys;
      while todo != {}
        invariant Valid() && sessions == old(sessions)
        invariant active.Keys == todo && (forall id :: id in todo ==> active[id] in calls)
        invariant forall s :: s in calls ==> s.log == if IsActive(s) then old(s.log) else old(s.log) + [Ended]
        invariant old(closedSessions) <= closedSessions
        invariant forall r :: r in closedSessions || IsRecorded(r) <==> r in old(closedSessions) || old(IsRecorded(r))
      {
        var id :| id in todo;
        CleanupOne(id);
        todo := todo - {id};
      }
      assert forall s :: s in sessions && old(IsActive(s)) ==> s in calls;
    }

    // Hangs up a call.  `hungUp` is whether the peer connection could be hung up.
    method Hangup(id: string, hungUp: bool) returns (ok: bool)
      requires Valid()
      modifies this, sessions
      ensures Valid() && sessions == old(sessions)
      ensures ok == (id != "" && id in old(active) && hungUp)
      ensures active == if ok then old(active) - {id} else old(active)
      ensures closedSessions ==
              old(closedSessions) + (if ok && old(active[id].respID) != 0 then [old(active[id].respID)] else [])
      ensures forall s :: s in sessions && !(ok && old(IsActive(s)) && s.id == id) ==> unchanged(s)
    {
      if id == "" || id !in active || !hungUp {
        return false;
      }
      Cleanup(id);
      ok := true;
    }

    // Ends a call for which no realtime session was recorded.
    method Abandon(session: CallSession)
      requires Valid() && IsActive(session) && session.respID == 0
      modifies this, session
      ensures Valid() && sessions == old(sessions)
      ensures active == old(active) - {session.id} && closedSessions == old(closedSessions)
      ensures session.log == old(session.log) + [Ended] && session.ready == old(session.ready)
    {
      Cleanup(session.id);
    }

    // Takes an incoming call.  It never ends another call, and it is active afterwards exactly when
    // it was allowed, was answered and did not fail.
    method HandleIncoming(world: IncomingWorld)
      requires Valid() && world.id !in active
      modifies this
      ensures Valid() && old(sessions) <= sessions && fresh(sessions - old(sessions))
      ensures closedSessions == old(closedSessions) && active - {world.id} == old(active)
      ensures world.id in active <==>
                && world.voiceEnabled && world.voiceMode && world.callerAllowed && world.answered
                && (world.readiness.NotReady? || world.readiness.Connects?)
      ensures world.id in active ==>
                && fresh(active[world.id]) && active[world.id].log == []
                && active[world.id].ready == world.readiness.Connects?
                && active[world.id].respID == (if world.readiness.Connects? then world.readiness.peer else 0)
                && active[world.id].source == (if world.readiness.Connects? then Playing else NoSource)
    {
      if !world.voiceEnabled || !world.voiceMode || !world.callerAllowed {
        return;
      }
      var session := NewCall(world.id);
      assert active - {world.id} == old(active);
      Answer(session, world.answered, world.readiness);
    }

    // Answers a registered call, whose media may then become ready.
    method Answer(session: CallSession, answered: bool, readiness: Readiness)
      requires Valid() && IsActive(session) && session.respID == 0 && !session.ready && session.source == NoSource
      modifies this, session
      ensures Valid() && sessions == old(sessions) && closedSessions == old(closedSessions)
      ensures active == if answered && !readiness.PeerUnknown? && !readiness.RealtimeFails?
                        then old(active) else old(active) - {session.id}
      ensures session.id in active ==>
                && session.log == old(session.log) && session.ready == readiness.Connects?
                && session.respID == (if readiness.Connects? then readiness.peer else 0)
                && session.source == (if readiness.Connects? then Playing else NoSource)
    {
      if !answered {
        Abandon(session);
      } else if !readiness.NotReady? {
        OnReady(session, readiness);
      }
    }

    // The media of an answered call is ready: start realtime, or give the call up.
    method OnReady(session: CallSession, readiness: Readiness)
      requires Valid() && IsActive(session) && session.respID == 0 && !readiness.NotReady?
      modifies this, session
      ensures Valid() && sessions == old(sessions) && closedSessions == old(closedSessions)
      ensures active == if readiness.Connects? then old(active) else old(active) - {session.id}
      ensures session.ready
      ensures readiness.Connects? ==>
                session.respID == readiness.peer && session.source == Playing && session.log == old(session.log)
    {
      session.ready := true;
      if readiness.Connects? {
        session.respID, session.source := readiness.peer, Playing;
      } else {
        Abandon(session);
      }
    }

    // Places an outgoing call.  Run serially it has three outcomes: a failed check changes nothing;
    // success leaves exactly the new call active; any later failure leaves no call active.  In the
    // last two every earlier session has ended with call_ended last in its log.
    method InitiateOutgoing(world: OutgoingWorld) returns (outcome: Outcome)
      requires Valid()
      modifies this, sessions
      ensures Valid() && old(sessions) <= sessions && fresh(sessions - old(sessions))
      ensures outcome ==
              if !world.PassesChecks() then Rejected
              else if world.call.None? then CallFailed
              else if world.peer.None? || !world.realtimeStarts then RealtimeFailed
              else Started
      ensures outcome.Rejected? ==>
                active == old(active) && sessions == old(sessions) && closedSessions == old(closedSessions)
                && forall s :: s in sessions ==> unchanged(s)
      ensures !outcome.Rejected? ==> forall s :: s in old(sessions) ==> s.HasEnded()
      ensures !outcome.Rejected? ==>
              forall r :: r in closedSessions <==> r in old(closedSessions) || old(IsRecorded(r))
      ensures outcome.CallFailed? || outcome.RealtimeFailed? ==>
              active == map[] && forall s :: s in sessions ==> s.HasEnded()
      ensures outcome.CallFailed? ==> sessions == old(sessions)
      ensures outcome.RealtimeFailed? ==> FailedCall(world.call.value, sessions - old(sessions))
      ensures outcome.Started? ==>
                && active.Keys == {world.call.value}
                && var s := active[world.call.value];
                   fresh(s) && s.Live() && s.ready && s.source == Playing
                   && s.respID == world.peer.value && s.log == [Event("call_started"), Event("call_connected")]
    {
      if !world.hasCallClient || !world.loggedIn || world.stopped {
        return Rejected;
      }
      if !world.voiceEnabled || !world.voiceMode || world.target == "" || world.contextDone {
        return Rejected;
      }
      // The earlier calls are hung up one by one, whether or not that works, and each is cleaned up.
      Stop();
      outcome := PlaceCall(world);
    }

    // The rest of InitiateOutgoing, once no call is active.
    method PlaceCall(world: OutgoingWorld) returns (outcome: Outcome)
      requires Valid() && active == map[]
      modifies this
      ensures Valid() && old(sessions) <= sessions && fresh(sessions - old(sessions))
      ensures outcome ==
              if world.call.None? then CallFailed
              else if world.peer.None? || !world.realtimeStarts then RealtimeFailed
              else Started
      ensures closedSessions == old(closedSessions)
      ensures !outcome.Started? ==> active == map[]
      ensures outcome.CallFailed? ==> sessions == old(sessions)
      ensures outcome.RealtimeFailed? ==> FailedCall(world.call.value, sessions - old(sessions))
      ensures outcome.Started? ==>
                && active.Keys == {world.call.value}
                && var s := active[world.call.value];
                   fresh(s) && s.Live() && s.ready && s.source == Playing
                   && s.respID == world.peer.value && s.log == [Event("call_started"), Event("call_connected")]
    {
      if world.call.None? {
        return CallFailed;
      }
      var session := OpenCall(world.call.value);
      if world.peer.None? {
        Abandon(session);
        assert sessions - old(sessions) == {session};
        return RealtimeFailed;
      }
      session.ready := true;
      if !world.realtimeStarts {
        Abandon(session);
        assert sessions - old(sessions) == {session};
        return RealtimeFailed;
      }
      Connect(session, world.peer.value);
      outcome := Started;
    }

    // The only new session is that of a call that was announced and then ended.
    ghost predicate FailedCall(id: string, added: set<CallSession>)
      reads added
    {
      exists s :: s in added && added == {s} && s.id == id && s.log == [Event("call_started"), Ended]
    }

    // Makes and registers the session of a call that was placed.
    method OpenCall(id: string) returns (session: CallSession)
      requires Valid() && active == map[]
      modifies this
      ensures Valid() && fresh(session) && session.id == id && IsActive(session)
      ensures active == map[id := session] && sessions == old(sessions) + {session}
      ensures closedSessions == old(closedSessions)
      ensures session.log == [Event("call_started")] && session.respID == 0
    {
      session := NewCall(id);
      session.EmitEvent(STARTED);
    }

    // The realtime session of a call has started.
    method Connect(session: CallSession, peer: nat)
      requires Valid() && IsActive(session)
      modifies session
      ensures Valid() && session.Live() && session.ready == old(session.ready)
      ensures session.source == Playing && session.respID == peer
      ensures session.log == old(session.log) + [Event("call_connected")]
    {
      session.respID, session.source := peer, Playing;
      session.EmitEvent(CONNECTED);
    }
  }
}
