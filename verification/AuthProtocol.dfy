/** One authorisation as it interleaves: the flow reading QR events, the goroutine it starts for every
    Success event, the handler that reports a failed flow, newer connections that replace this one, and
    the loop that forwards states to the web socket.  A run is any sequence of actions. */
module AuthProtocol {
  import opened AuthRegistry
  import opened QrFlow
  import AuthSocket

  // A goroutine sleeps, looks whether the client is logged in, offers the success if so, and then
  // signals the flow; a signal waits while the one-slot channel it goes to is full.
  datatype Goroutine = Asleep | Looked(loggedIn: bool) | Reported | Ended

  datatype Flow = Opening | Reading | Waiting | Failed | Succeeded

  // `offered` is the history of all offers, `done` and `refused` are doneChan and errChan.  A session
  // is `registered` until a newer connection replaces it or its own loop has ended and removes it.
  datatype Auth = Auth(
    flow: Flow,
    goroutines: seq<Goroutine>,
    done: bool,
    refused: bool,
    handlerReported: bool,
    registered: bool,
    offered: seq<string>,
    socket: AuthSocket.Socket)

  datatype Action =
    | Open(ok: bool)
    | Receive(event: QREvent)
    | StreamCloses
    | Look(goroutine: nat, loggedIn: bool)
    | Report(goroutine: nat)
    | Signal(goroutine: nat)
    | Confirm(stillLoggedIn: bool, starts: bool)
    | TakeRefusal
    | TimeOut
    | HandlerReports
    | Replaced
    | Remove
    | Forward(writes: bool)

  const OPENED := Auth(Opening, [], false, false, false, true, [], AuthSocket.OPENED)

  predicate Enabled(a: Auth, action: Action) {
    match action
    case Open(_) => a.flow.Opening?
    case Receive(_) => a.flow.Reading?
    case StreamCloses => a.flow.Reading?
    case Look(k, _) => k < |a.goroutines| && a.goroutines[k].Asleep?
    case Report(k) => k < |a.goroutines| && a.goroutines[k] == Looked(true)
    case Signal(k) =>
      k < |a.goroutines| && ((a.goroutines[k].Reported? && !a.done) || (a.goroutines[k] == Looked(false) && !a.refused))
    case Confirm(_, _) => a.flow.Waiting? && a.done
    case TakeRefusal => a.flow.Waiting? && a.refused
    case TimeOut => a.flow.Waiting?
    case HandlerReports => a.flow.Failed? && !a.handlerReported
    case Replaced => a.registered
    case Remove => a.registered && !a.socket.status.Serving?
    case Forward(_) => true
  }

  // Everyone offers to the same channel and gives up when it is full.
  function Offered(a: Auth, kind: string): Auth {
    a.(offered := a.offered + [kind],
       socket := AuthSocket.Step(a.socket, AuthSocket.Offer(State(kind, ""))))
  }

  function GivenUp(a: Auth): Auth {
    Offered(a, "error").(flow := Failed)
  }

  function AfterEvent(a: Auth, event: QREvent): Auth {
    match event
    case Code(_) => Offered(a, "qr_code")
    case Success => Offered(a, "qr-success").(goroutines := a.goroutines + [Asleep])
    case Timeout => GivenUp(a)
    case Failure(_) => GivenUp(a)
    case Other => a
  }

  // A confirmed flow whose bot does not start fails without offering anything.  An action that is not
  // enabled changes nothing.
  function Step(a: Auth, action: Action): Auth {
    if !Enabled(a, action) then a
    else
      match action
      case Open(ok) => if ok then a.(flow := Reading) else GivenUp(a)
      case Receive(event) => AfterEvent(a, event)
      case StreamCloses => a.(flow := Waiting)
      case Look(k, loggedIn) => a.(goroutines := a.goroutines[k := Looked(loggedIn)])
      case Report(k) => Offered(a, "success").(goroutines := a.goroutines[k := Reported])
      case Signal(k) =>
        var signalled := a.(goroutines := a.goroutines[k := Ended]);
        if a.goroutines[k].Reported? then signalled.(done := true) else signalled.(refused := true)
      case Confirm(stillLoggedIn, starts) =>
        if !stillLoggedIn then GivenUp(a).(done := false)
        else a.(done := false, flow := if starts then Succeeded else Failed)
      case TakeRefusal => GivenUp(a).(refused := false)
      case TimeOut => GivenUp(a)
      case HandlerReports => Offered(a, "error").(handlerReported := true)
      case Replaced => Offered(a, "cancelled").(registered := false)
      case Remove => a.(registered := false)
      case Forward(writes) => a.(socket := AuthSocket.Step(a.socket, AuthSocket.Forward(writes)))
  }

  function After(run: seq<Action>): Auth {
    if run == [] then OPENED else Step(After(run[..|run| - 1]), run[|run| - 1])
  }

  // ---------------------------------------------------------------- the invariant

  // Only offered states are in the channel and on the socket.
  ghost predicate OnlyOffered(a: Auth) {
    forall i :: 0 <= i < |a.socket.accepted| ==> a.socket.accepted[i].kind in a.offered
  }

  // Only a failed flow, or its handler, offers an error; only a goroutine offers a success, and the flow
  // succeeds only on its signal.
  predicate FlowInv(a: Auth) {
    && ("error" in a.offered || a.handlerReported ==> a.flow.Failed?)
    && (a.flow.Failed? ==> "error" in a.offered || "success" in a.offered)
    && (a.handlerReported ==> "error" in a.offered)
    && ("success" in a.offered ==> a.goroutines != [])
    && (a.done || a.flow.Succeeded? ==> "success" in a.offered)
  }

  // A goroutine that is about to signal a success has offered it.
  ghost predicate GoroutinesInv(a: Auth) {
    forall k :: 0 <= k < |a.goroutines| && a.goroutines[k].Reported? ==> "success" in a.offered
  }

  ghost predicate Inv(a: Auth) {
    AuthSocket.Inv(a.socket) && OnlyOffered(a) && FlowInv(a) && GoroutinesInv(a)
  }

  // The kind of the state an action offers, if any.
  function Says(a: Auth, action: Action): seq<string> {
    if !Enabled(a, action) then []
    else
      match action
      case Open(ok) => if ok then [] else ["error"]
      case Receive(event) =>
        (match event
         case Code(_) => ["qr_code"]
         case Success => ["qr-success"]
         case Other => []
         case _ => ["error"])
      case Report(_) => ["success"]
      case Confirm(stillLoggedIn, _) => if stillLoggedIn then [] else ["error"]
      case TakeRefusal => ["error"]
      case TimeOut => ["error"]
      case HandlerReports => ["error"]
      case Replaced => ["cancelled"]
      case _ => []
  }

  // What an action does to the channel, the socket and the history.
  lemma StepSays(a: Auth, action: Action)
    ensures |Says(a, action)| <= 1
    ensures Step(a, action).offered == a.offered + Says(a, action)
    ensures Step(a, action).socket ==
            if action.Forward? then AuthSocket.Step(a.socket, AuthSocket.Forward(action.writes))
            else if Says(a, action) == [] then a.socket
            else AuthSocket.Step(a.socket, AuthSocket.Offer(State(Says(a, action)[0], "")))
  {
  }

  lemma StepKeepsChannel(a: Auth, action: Action)
    requires AuthSocket.Inv(a.socket) && OnlyOffered(a)
    ensures AuthSocket.Inv(Step(a, action).socket) && OnlyOffered(Step(a, action))
  {
    StepSays(a, action);
    if action.Forward? {
      AuthSocket.StepKeepsInv(a.socket, AuthSocket.Forward(action.writes));
    } else if Says(a, action) != [] {
      AuthSocket.StepKeepsInv(a.socket, AuthSocket.Offer(State(Says(a, action)[0], "")));
    }
  }

  predicate OfGoroutine(action: Action) {
    action.Look? || action.Report? || action.Signal?
  }

  predicate OfOutside(action: Action) {
    action.Replaced? || action.Remove? || action.Forward?
  }

  lemma GoroutineKeepsFlow(a: Auth, action: Action)
    requires FlowInv(a) && GoroutinesInv(a) && OfGoroutine(action)
    ensures FlowInv(Step(a, action))
  {
    StepSays(a, action);
  }

  lemma OutsideKeepsFlow(a: Auth, action: Action)
    requires FlowInv(a) && OfOutside(action)
    ensures FlowInv(Step(a, action))
  {
    StepSays(a, action);
  }

  lemma FlowKeepsFlow(a: Auth, action: Action)
    requires FlowInv(a) && !OfGoroutine(action) && !OfOutside(action)
    ensures FlowInv(Step(a, action))
  {
    StepSays(a, action);
  }

  lemma StepKeepsFlow(a: Auth, action: Action)
    requires FlowInv(a) && GoroutinesInv(a)
    ensures FlowInv(Step(a, action))
  {
    if OfGoroutine(action) {
      GoroutineKeepsFlow(a, action);
    } else if OfOutside(action) {
      OutsideKeepsFlow(a, action);
    } else {
      FlowKeepsFlow(a, action);
    }
  }

  // Goroutines are only added, asleep, and only a report makes one reported.
  lemma StepOnGoroutines(a: Auth, action: Action)
    ensures |a.goroutines| <= |Step(a, action).goroutines|
    ensures forall k :: 0 <= k < |Step(a, action).goroutines| && Step(a, action).goroutines[k].Reported? ==>
              (k < |a.goroutines| && a.goroutines[k].Reported?)
              || (action == Report(k) && Says(a, action) == ["success"])
  {
  }

  lemma StepKeepsGoroutines(a: Auth, action: Action)
    requires GoroutinesInv(a)
    ensures GoroutinesInv(Step(a, action))
  {
    StepSays(a, action);
    StepOnGoroutines(a, action);
  }

  lemma {:induction false} RunKeepsInv(run: seq<Action>)
    ensures Inv(After(run))
  {
    if run != [] {
      RunKeepsInv(run[..|run| - 1]);
      StepKeepsChannel(After(run[..|run| - 1]), run[|run| - 1]);
      StepKeepsFlow(After(run[..|run| - 1]), run[|run| - 1]);
      StepKeepsGoroutines(After(run[..|run| - 1]), run[|run| - 1]);
    }
  }
}
