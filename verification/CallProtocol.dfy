/** How concurrent attempts to end the same call interleave.  A run is a sequence of actions;
    each is one atomic step of one goroutine.  The peer ending the call, a local hangup, a
    timeout, a realtime or answer failure, the bot stopping and a newer outgoing call all end it the
    same way, by invoking cleanup. */
module CallProtocol {

  // What made someone call cleanup: a label only, since cleanup does the same for every cause.
  datatype Cause = PeerEnd | LocalHangup | TimedOut | RealtimeFailure | AnswerFailure | BotStop | Replaced

  // `Ended` is the call_ended that cleanup publishes; everything else emitEvent publishes is `Event`.
  datatype Entry = Ended | Event(kind: string)

  // The body that cleanup runs under the session's sync.Once, in order.
  datatype BodyStep = Cancel | PublishEnded | CloseHub | CloseRealtime | CloseSource | Delete | UpdateGauge

  function Rank(step: BodyStep): nat {
    match step
    case Cancel => 0
    case PublishEnded => 1
    case CloseHub => 2
    case CloseRealtime => 3
    case CloseSource => 4
    case Delete => 5
    case UpdateGauge => 6
  }

  function NextStep(step: BodyStep): BodyStep
    requires !step.UpdateGauge?
  {
    match step
    case Cancel => PublishEnded
    case PublishEnded => CloseHub
    case CloseHub => CloseRealtime
    case CloseRealtime => CloseSource
    case CloseSource => Delete
    case Delete => UpdateGauge
  }

  // `winner` is the cleanup that won the Once; `at` is the step it takes next.
  datatype Once = Fresh | Running(winner: nat, at: BodyStep) | Done {
    predicate Past(step: BodyStep) {
      match this
      case Fresh => false
      case Running(_, at) => Rank(step) < Rank(at)
      case Done => true
    }
  }

  datatype Source = NoSource | Playing | ClosedSource

  // How far startRealtime has got, which runs at most once for a call: it records the respID, then
  // the audio source, or it fails before it records anything and nobody emits any more.
  datatype Start = Pending | HasRespID | Over

  // respID == 0 means that no realtime session has been recorded; `realtimeClosed` lists the
  // arguments of the CloseSession calls made for this call.  `emitting`: someone may still emit an
  // event, be it the caller of InitiateOutgoing or the goroutine that forwards realtime events.
  datatype Session = Session(
    cancelled: bool,
    log: seq<Entry>,
    hubClosed: bool,
    respID: nat,
    source: Source,
    realtimeClosed: seq<nat>,
    once: Once,
    start: Start,
    emitting: bool)

  const NEW_SESSION := Session(false, [], false, 0, NoSource, [], Fresh, Pending, true)

  // One invocation of cleanup, by how far it has got.
  datatype Pc = Load | AtOnce | Inside | Returned
  datatype Cleanup = Cleanup(call: nat, cause: Cause, pc: Pc)

  // A call id is the index of its session: ids are never reused.
  datatype System = System(sessions: seq<Session>, active: set<nat>, cleanups: seq<Cleanup>)

  datatype Action =
    | Register
    | Emit(call: nat, kind: string)
    | RecordRespID(call: nat, respID: nat)
    | RecordSource(call: nat)
    | GiveUpStart(call: nat)
    | FallSilent(call: nat)
    | Invoke(call: nat, cause: Cause)
    | Act(cleanup: nat)

  const IDLE := System([], {}, [])

  // publish drops the event when the hub is closed.
  function Logged(session: Session, entry: Entry): Session {
    if session.hubClosed then session else session.(log := session.log + [entry])
  }

  function Perform(session: Session, step: BodyStep): Session {
    match step
    case Cancel => session.(cancelled := true)
    case PublishEnded => Logged(session, Ended)
    case CloseHub => session.(hubClosed := true)
    case CloseRealtime =>
      if session.respID != 0 then session.(realtimeClosed := session.realtimeClosed + [session.respID]) else session
    case CloseSource => if session.source != NoSource then session.(source := ClosedSource) else session
    case Delete => session
    case UpdateGauge => session
  }

  // The next atomic action of cleanup number t; a cleanup waiting for a running Once cannot act.
  function Acted(s: System, t: nat): System
    requires t < |s.cleanups| && s.cleanups[t].call < |s.sessions|
  {
    var cleanup := s.cleanups[t];
    var session := s.sessions[cleanup.call];
    match cleanup.pc
    case Load =>
      s.(cleanups := s.cleanups[t := cleanup.(pc := if cleanup.call in s.active then AtOnce else Returned)])
    case AtOnce =>
      (match session.once
       case Fresh =>
         s.(sessions := s.sessions[cleanup.call := session.(once := Running(t, Cancel))],
            cleanups := s.cleanups[t := cleanup.(pc := Inside)])
       case Running(_, _) => s
       case Done => s.(cleanups := s.cleanups[t := cleanup.(pc := Returned)]))
    case Inside =>
      if !session.once.Running? then s
      else if session.once.at.UpdateGauge? then
        s.(sessions := s.sessions[cleanup.call := session.(once := Done)],
           cleanups := s.cleanups[t := cleanup.(pc := Returned)])
      else
        var performed := Perform(session, session.once.at);
        s.(sessions := s.sessions[cleanup.call := performed.(once := Running(t, NextStep(session.once.at)))],
           active := if session.once.at.Delete? then s.active - {cleanup.call} else s.active)
    case Returned => s
  }

  // What the goroutines other than cleanups do to a session, if they still can.
  function Updated(session: Session, action: Action): Session {
    match action
    case Emit(_, kind) => if session.emitting then Logged(session, Event(kind)) else session
    case RecordRespID(_, respID) =>
      if session.start.Pending? then session.(respID := respID, start := HasRespID) else session
    case RecordSource(_) =>
      if session.start.HasRespID? then session.(source := Playing, start := Over) else session
    case GiveUpStart(_) => if session.start.Pending? then session.(start := Over, emitting := false) else session
    case FallSilent(_) => if session.start.Over? then session.(emitting := false) else session
    case _ => session
  }

  // The call an action updates.
  function Target(action: Action): nat {
    match action
    case Emit(c, _) => c
    case RecordRespID(c, _) => c
    case RecordSource(c) => c
    case GiveUpStart(c) => c
    case FallSilent(c) => c
    case Invoke(c, _) => c
    case _ => 0
  }

  // An action that names a call or a cleanup that does not exist changes nothing.
  function Step(s: System, action: Action): System {
    match action
    case Register =>
      s.(sessions := s.sessions + [NEW_SESSION], active := s.active + {|s.sessions|})
    case Invoke(c, cause) =>
      if c < |s.sessions| then s.(cleanups := s.cleanups + [Cleanup(c, cause, Load)]) else s
    case Act(t) =>
      if t < |s.cleanups| && s.cleanups[t].call < |s.sessions| then Acted(s, t) else s
    case _ =>
      var c := Target(action);
      if c < |s.sessions| then s.(sessions := s.sessions[c := Updated(s.sessions[c], action)]) else s
  }

  function State(run: seq<Action>): System {
    if run == [] then IDLE else Step(State(run[..|run| - 1]), run[|run| - 1])
  }

  function EndedCount(log: seq<Entry>): nat {
    if log == [] then 0 else EndedCount(log[..|log| - 1]) + (if log[|log| - 1] == Ended then 1 else 0)
  }

  // ---------------------------------------------------------------- the invariant

  ghost predicate SessionInv(session: Session) {
    && (session.cancelled <==> session.once.Past(Cancel))
    && EndedCount(session.log) == (if session.once.Past(PublishEnded) then 1 else 0)
    && (session.hubClosed <==> session.once.Past(CloseHub))
    && (session.realtimeClosed != [] ==>
          session.realtimeClosed == [session.respID] && session.respID != 0 && session.once.Past(CloseRealtime))
    && (session.start.Pending? ==> session.respID == 0)
    && (session.source != NoSource ==> session.start.Over?)
    && (session.start.Over? && session.source == NoSource ==> !session.emitting)
    && (!session.emitting ==> session.start.Over?)
    && (session.source.ClosedSource? ==> session.once.Past(CloseSource))
  }

  ghost predicate CallInv(s: System, c: nat)
    requires c < |s.sessions|
  {
    && SessionInv(s.sessions[c])
    && (c in s.active <==> !s.sessions[c].once.Past(Delete))
  }

  ghost predicate CleanupInv(s: System, t: nat)
    requires t < |s.cleanups|
  {
    var cleanup := s.cleanups[t];
    && cleanup.call < |s.sessions|
    && (cleanup.pc == Inside <==> s.sessions[cleanup.call].once.Running? && s.sessions[cleanup.call].once.winner == t)
    && (cleanup.pc == Returned ==> s.sessions[cleanup.call].once.Past(Delete))
  }

  // The winner of a running Once exists and is cleaning up that call.
  ghost predicate WinnerInv(s: System, c: nat)
    requires c < |s.sessions|
  {
    s.sessions[c].once.Running? ==>
      var t := s.sessions[c].once.winner;
      t < |s.cleanups| && s.cleanups[t].call == c && s.cleanups[t].pc == Inside
  }

  ghost predicate Inv(s: System) {
    && (forall c :: 0 <= c < |s.sessions| ==> CallInv(s, c) && WinnerInv(s, c))
    && (forall t :: 0 <= t < |s.cleanups| ==> CleanupInv(s, t))
    && (forall c :: c in s.active ==> c < |s.sessions|)
  }

  lemma EndedCountAppend(log: seq<Entry>, entry: Entry)
    ensures EndedCount(log + [entry]) == EndedCount(log) + (if entry == Ended then 1 else 0)
  {
    assert (log + [entry])[..|log|] == log;
  }

  lemma UpdatedKeeps(session: Session, action: Action)
    requires SessionInv(session)
    ensures SessionInv(Updated(session, action)) && Updated(session, action).once == session.once
  {
    if action.Emit? {
      EndedCountAppend(session.log, Event(action.kind));
    }
  }

  lemma PerformKeeps(session: Session, t: nat)
    requires SessionInv(session) && session.once.Running? && !session.once.at.UpdateGauge?
    ensures SessionInv(Perform(session, session.once.at).(once := Running(t, NextStep(session.once.at))))
  {
    EndedCountAppend(session.log, Ended);
  }

  // A step of cleanup t touches its own progress and its own call only.
  lemma ActedLocally(s: System, t: nat)
    requires Inv(s) && t < |s.cleanups| && s.cleanups[t].call < |s.sessions|
    ensures var s', c := Acted(s, t), s.cleanups[t].call;
            CallInv(s', c) && WinnerInv(s', c) && CleanupInv(s', t)
  {
    var c := s.cleanups[t].call;
    assert CleanupInv(s, t) && CallInv(s, c) && WinnerInv(s, c);
    if s.cleanups[t].pc == Inside && !s.sessions[c].once.at.UpdateGauge? {
      PerformKeeps(s.sessions[c], t);
    }
  }

  lemma ActedKeepsInv(s: System, t: nat)
    requires Inv(s) && t < |s.cleanups| && s.cleanups[t].call < |s.sessions|
    ensures Inv(Acted(s, t))
  {
    var s', c := Acted(s, t), s.cleanups[t].call;
    ActedLocally(s, t);
    assert CleanupInv(s, t) && WinnerInv(s, c);
    forall u | 0 <= u < |s'.cleanups| ensures CleanupInv(s', u) {
      assert CleanupInv(s, u);
    }
    forall d | 0 <= d < |s'.sessions| ensures CallInv(s', d) && WinnerInv(s', d) {
      assert CallInv(s, d) && WinnerInv(s, d);
    }
  }

  // Changing a session's data, but not its Once, keeps the rest of the invariant.
  lemma UpdateKeepsInv(s: System, c: nat, session: Session)
    requires Inv(s) && c < |s.sessions|
    requires session.once == s.sessions[c].once && SessionInv(session)
    ensures Inv(s.(sessions := s.sessions[c := session]))
  {
    var s' := s.(sessions := s.sessions[c := session]);
    forall u | 0 <= u < |s'.cleanups| ensures CleanupInv(s', u) {
      assert CleanupInv(s, u);
    }
    forall d | 0 <= d < |s'.sessions| ensures CallInv(s', d) && WinnerInv(s', d) {
      assert CallInv(s, d) && WinnerInv(s, d);
    }
  }

  lemma GrowthKeepsInv(s: System, action: Action)
    requires Inv(s) && (action.Register? || action.Invoke?)
    ensures Inv(Step(s, action))
  {
    var s' := Step(s, action);
    forall u | 0 <= u < |s'.cleanups| ensures CleanupInv(s', u) {
      if u < |s.cleanups| {
        assert CleanupInv(s, u);
      } else {
        assert WinnerInv(s, action.call);
      }
    }
    forall d | 0 <= d < |s'.sessions| ensures CallInv(s', d) && WinnerInv(s', d) {
      if d < |s.sessions| {
        assert CallInv(s, d) && WinnerInv(s, d);
      }
    }
  }

  lemma StepKeepsInv(s: System, action: Action)
    requires Inv(s)
    ensures Inv(Step(s, action))
  {
    match action
    case Act(t) =>
      if t < |s.cleanups| && s.cleanups[t].call < |s.sessions| {
        ActedKeepsInv(s, t);
      }
    case Register => GrowthKeepsInv(s, action);
    case Invoke(_, _) => GrowthKeepsInv(s, action);
    case _ =>
      var c := Target(action);
      if c < |s.sessions| {
        assert CallInv(s, c);
        UpdatedKeeps(s.sessions[c], action);
        UpdateKeepsInv(s, c, Updated(s.sessions[c], action));
      }
  }

  lemma {:induction false} RunKeepsInv(run: seq<Action>)
    ensures Inv(State(run))
  {
    if run != [] {
      RunKeepsInv(run[..|run| - 1]);
      StepKeepsInv(State(run[..|run| - 1]), run[|run| - 1]);
    }
  }
}
