/** The QR authorisation of a user, over any stream of QR events, and any run of the commands that
    create and retire bots. */
module QrFlow {
  import opened AuthRegistry
  import opened Bots

  // Other stands for login events the flow ignores.
  datatype QREvent = Code(code: string) | Timeout | Failure(message: string) | Success | Other

  datatype Connection = Connected | NotLoggedInYet | Refused

  // Which case of the final select is taken.  A goroutine started by a Success event found the client
  // logged in (and it still is or not when the flow looks again), it did not, or five minutes passed,
  // possibly after a goroutine `found` the client logged in.
  datatype Ending = Confirmed(stillLoggedIn: bool) | LoginFailed | OutOfTime(found: bool)

  datatype World = World(
    storeOpens: bool,
    qrChannel: bool,
    connection: Connection,
    events: seq<QREvent>,
    ending: Ending,
    profile: Profile)
  {
    predicate ReachesEvents() {
      qrChannel && !connection.Refused?
    }

    // The stream closed without an event that ends the flow.
    predicate StreamEnds() {
      Handled(events) == |events|
    }

    // Only goroutines of Success events that were handled can report anything.
    function Outcome(): Ending {
      if QREvent.Success in events[..Handled(events)] then ending else OutOfTime(false)
    }

    // A goroutine reports the success before the flow's wait is over.
    predicate Reported() {
      StreamEnds() && (Outcome().Confirmed? || Outcome() == OutOfTime(true))
    }

    // The client proved to be logged in, twice.
    predicate Confirms() {
      StreamEnds() && Outcome() == Confirmed(true)
    }
  }

  predicate EndsFlow(event: QREvent) {
    event.Timeout? || event.Failure?
  }

  // How many events the flow handles before one ends it.
  function Handled(events: seq<QREvent>): (n: nat)
    ensures n <= |events|
    ensures forall i :: 0 <= i < n ==> !EndsFlow(events[i])
    ensures n < |events| ==> EndsFlow(events[n])
  {
    if events == [] || EndsFlow(events[0]) then 0 else 1 + Handled(events[1..])
  }

  // The kinds of the states offered for events that do not end the flow.
  function Offers(events: seq<QREvent>): seq<string> {
    if events == [] then []
    else
      Offers(events[..|events| - 1])
      + (match events[|events| - 1]
         case Code(_) => ["qr_code"]
         case Success => ["qr-success"]
         case _ => [])
  }

  // What is offered after the events: the goroutine's report, then the flow's error if it has one.
  function LastOffers(world: World): seq<string> {
    (if world.Reported() then ["success"] else []) + (if world.Confirms() then [] else ["error"])
  }

  // The kinds of all states the flow and its goroutines offer to the state channel, in order.
  function FlowOffers(botFound: bool, world: World): seq<string> {
    if !botFound || !world.ReachesEvents() then ["error"]
    else Offers(world.events[..Handled(world.events)]) + LastOffers(world)
  }

  // The flow gets through: it is confirmed and the user's bot can be started afterwards.
  predicate Succeeds(botFound: bool, world: World) {
    botFound && world.ReachesEvents() && world.Confirms() && world.profile.CanStart()
  }

  // What the handler adds: an error of its own exactly when the flow fails.
  function AllOffers(botFound: bool, world: World): seq<string> {
    FlowOffers(botFound, world) + (if Succeeds(botFound, world) then [] else ["error"])
  }

  lemma {:induction false} EventsOfferNoTerminal(events: seq<QREvent>)
    ensures forall i :: 0 <= i < |Offers(events)| ==>
              Offers(events)[i] == "qr_code" || Offers(events)[i] == "qr-success"
  {
    if events != [] {
      EventsOfferNoTerminal(events[..|events| - 1]);
    }
  }

  // The flow itself reports a failure exactly once, last, unless it was confirmed: then it reports
  // none, not even that the bot did not start.  A success is offered at most once, just before that.
  lemma FailureIsOfferedOnceAndLast(botFound: bool, world: World)
    ensures var offers := FlowOffers(botFound, world);
            && (forall i :: 0 <= i < |offers| - 1 ==> offers[i] != "error")
            && (forall i :: 0 <= i < |offers| - 2 ==> offers[i] != "success")
            && ("error" in offers <==> !(botFound && world.ReachesEvents() && world.Confirms()))
            && ("success" in offers <==> botFound && world.ReachesEvents() && world.Reported())
  {
    if botFound && world.ReachesEvents() {
      var offers := Offers(world.events[..Handled(world.events)]);
      EventsOfferNoTerminal(world.events[..Handled(world.events)]);
      var last := LastOffers(world);
      assert |last| > 0 ==> (offers + last)[|offers|] == last[0];
      assert |last| > 1 ==> (offers + last)[|offers| + 1] == last[1];
    }
  }

  // ---------------------------------------------------------------- the states themselves

  function KindsOf(states: seq<State>): (kinds: seq<string>)
    ensures |kinds| == |states| && forall i :: 0 <= i < |states| ==> kinds[i] == states[i].kind
  {
    seq(|states|, i requires 0 <= i < |states| => states[i].kind)
  }

  // The codes a client is shown.
  function CodesIn(states: seq<State>): seq<string> {
    if states == [] then []
    else
      CodesIn(states[..|states| - 1])
      + (if states[|states| - 1].kind == "qr_code" then [states[|states| - 1].payload] else [])
  }

  // The codes of the Code events, in order.
  function Codes(events: seq<QREvent>): seq<string> {
    if events == [] then []
    else
      Codes(events[..|events| - 1]) + (if events[|events| - 1].Code? then [events[|events| - 1].code] else [])
  }

  // What the event that ends the flow is reported as.
  function EndingText(events: seq<QREvent>): string
    requires Handled(events) < |events|
  {
    match events[Handled(events)]
    case Failure(message) => message
    case _ => if Codes(events[..Handled(events)]) == [] then NO_CODE else EXPIRED
  }

  const NO_CODE := "no QR code was received from the server"
  const EXPIRED := "the time to scan the QR code is over"
  const NO_BOT := "the bot could not be initialised"
  const NO_CHANNEL := "no QR channel"
  const NO_CONNECTION := "no connection to the server"
  const OUT_OF_TIME := "the time to log in is over"
  const NOT_LOGGED_IN := "the client is not logged in after the scan"

  // The states offered for events that do not end the flow.
  function StatesOf(event: QREvent): seq<State> {
    match event
    case Code(code) => [State("qr_code", code)]
    case Success => [State("qr-success", "")]
    case _ => []
  }

  function EventStates(events: seq<QREvent>): seq<State> {
    if events == [] then [] else EventStates(events[..|events| - 1]) + StatesOf(events[|events| - 1])
  }

  // One more event.
  lemma EventsUpTo(events: seq<QREvent>, i: nat)
    requires i < |events|
    ensures EventStates(events[..i + 1]) == EventStates(events[..i]) + StatesOf(events[i])
    ensures Codes(events[..i + 1]) != [] <==> Codes(events[..i]) != [] || events[i].Code?
    ensures QREvent.Success in events[..i + 1] <==> QREvent.Success in events[..i] || events[i].Success?
  {
    assert events[..i + 1] == events[..i] + [events[i]] && events[..i + 1][..i] == events[..i];
  }

  function LastStates(world: World): seq<State> {
    if !world.StreamEnds() then [State("error", EndingText(world.events))]
    else
      (if world.Reported() then [State("success", "")] else [])
      + (if world.Confirms() then []
         else [State("error", if world.Outcome().OutOfTime? then OUT_OF_TIME else NOT_LOGGED_IN)])
  }

  // All states the flow and its goroutines offer, in order.
  function FlowStates(botFound: bool, world: World): seq<State> {
    if !botFound then [State("error", NO_BOT)]
    else if !world.qrChannel then [State("error", NO_CHANNEL)]
    else if world.connection.Refused? then [State("error", NO_CONNECTION)]
    else EventStates(world.events[..Handled(world.events)]) + LastStates(world)
  }

  lemma {:induction false} EventStatesShowCodes(events: seq<QREvent>)
    ensures CodesIn(EventStates(events)) == Codes(events)
  {
    if events != [] {
      var init, last := events[..|events| - 1], events[|events| - 1];
      EventStatesShowCodes(init);
      CodesInMore(EventStates(init), StatesOf(last));
      CodesOfOne(last);
    }
  }

  lemma HandledShowCodes(before: seq<State>, events: seq<QREvent>, text: string)
    ensures CodesIn(before + EventStates(events)) == CodesIn(before) + Codes(events)
    ensures CodesIn(before + EventStates(events) + [State("error", text)]) == CodesIn(before) + Codes(events)
  {
    CodesInMore(before, EventStates(events));
    EventStatesShowCodes(events);
    CodesInMore(before + EventStates(events), [State("error", text)]);
    NoCodesIn([State("error", text)]);
  }

  lemma CodesOfOne(event: QREvent)
    ensures CodesIn(StatesOf(event)) == if event.Code? then [event.code] else []
  {
    assert StatesOf(event) != [] ==> StatesOf(event)[..0] == [];
  }

  lemma {:induction false} EventStatesAreOffers(events: seq<QREvent>)
    ensures KindsOf(EventStates(events)) == Offers(events)
  {
    if events != [] {
      var init := events[..|events| - 1];
      EventStatesAreOffers(init);
      KindsOfMore(EventStates(init), StatesOf(events[|events| - 1]));
    }
  }

  lemma KindsOfMore(a: seq<State>, b: seq<State>)
    ensures KindsOf(a + b) == KindsOf(a) + KindsOf(b)
  {
  }

  lemma NoCodesInLastStates(world: World)
    ensures KindsOf(LastStates(world)) == LastOffers(world) && CodesIn(LastStates(world)) == []
  {
    KindsOfLastStates(world);
    var states := LastStates(world);
    forall i | 0 <= i < |states| ensures states[i].kind != "qr_code" {
      assert KindsOf(states)[i] == states[i].kind;
    }
    NoCodesIn(states);
  }

  lemma KindsOfLastStates(world: World)
    ensures KindsOf(LastStates(world)) == LastOffers(world)
    ensures forall kind :: kind in LastOffers(world) ==> kind == "success" || kind == "error"
  {
  }

  lemma {:induction false} NoCodesIn(states: seq<State>)
    requires forall i :: 0 <= i < |states| ==> states[i].kind != "qr_code"
    ensures CodesIn(states) == []
  {
    if states != [] {
      NoCodesIn(states[..|states| - 1]);
    }
  }

  // The codes of the Code events that are handled.
  function CodesShown(botFound: bool, world: World): seq<string> {
    if botFound && world.ReachesEvents() then Codes(world.events[..Handled(world.events)]) else []
  }

  // The states offered are of the kinds given above, and those that show a code show exactly the codes
  // of the Code events handled, in order.
  lemma FlowShowsCodes(botFound: bool, world: World)
    ensures KindsOf(FlowStates(botFound, world)) == FlowOffers(botFound, world)
    ensures CodesIn(FlowStates(botFound, world)) == CodesShown(botFound, world)
  {
    var states := FlowStates(botFound, world);
    if botFound && world.ReachesEvents() {
      var handled := world.events[..Handled(world.events)];
      EventStatesShowCodes(handled);
      EventStatesAreOffers(handled);
      KindsOfMore(EventStates(handled), LastStates(world));
      NoCodesInLastStates(world);
      CodesInMore(EventStates(handled), LastStates(world));
    } else {
      assert states[..0] == [];
    }
  }

  lemma OffersShowCodes(before: seq<State>, botFound: bool, world: World)
    ensures CodesIn(before + FlowStates(botFound, world)) == CodesIn(before) + CodesShown(botFound, world)
  {
    CodesInMore(before, FlowStates(botFound, world));
    FlowShowsCodes(botFound, world);
  }

  // What a buffer holds after these offers: as many of them as there is room for.
  function Fitted(buffer: seq<State>, offers: seq<State>, capacity: nat): seq<State> {
    if |buffer| + |offers| <= capacity then buffer + offers
    else if |buffer| < capacity then buffer + offers[..capacity - |buffer|]
    else buffer
  }

  lemma FitMore(buffer: seq<State>, offers: seq<State>, state: State, capacity: nat)
    ensures Fitted(buffer, offers + [state], capacity) ==
            var held := Fitted(buffer, offers, capacity);
            if |held| < capacity then held + [state] else held
  {
  }

  lemma {:induction false} CodesInMore(a: seq<State>, b: seq<State>)
    ensures CodesIn(a + b) == CodesIn(a) + CodesIn(b)
  {
    if b == [] {
      assert a + b == a;
    } else {
      CodesInMore(a, b[..|b| - 1]);
      assert (a + b)[..|a + b| - 1] == a + b[..|b| - 1];
    }
  }

  // ---------------------------------------------------------------- the flow

  // Offers states to a channel; `offered` are the states offered so far, dropped or not.
  class Reporter {
    const states: StateChannel
    ghost const initial: seq<State>
    ghost var offered: seq<State>

    constructor (states: StateChannel)
      ensures Valid() && this.states == states && initial == states.buffer && offered == []
    {
      this.states := states;
      this.initial := states.buffer;
      offered := [];
    }

    // The channel holds what it held at first and, as far as they fit, the states offered since.
    ghost predicate Valid()
      reads this, states
    {
      states.buffer == Fitted(initial, offered, states.capacity)
    }

    method SafeStateSend(state: State)
      requires Valid()
      modifies this, states
      ensures Valid() && offered == old(offered) + [state]
      ensures states.buffer ==
              if |old(states.buffer)| < states.capacity then old(states.buffer) + [state] else old(states.buffer)
    {
      FitMore(initial, offered, state, states.capacity);
      var _ := states.TrySend(state);
      offered := offered + [state];
    }
  }

  // Handles QR events until one ends the flow or the stream closes; `scanned` is whether one of them
  // was a Success.
  method HandleEvents(events: seq<QREvent>, out: Reporter) returns (ended: bool, scanned: bool)
    requires out.Valid()
    modifies out, out.states
    ensures out.Valid() && ended == (Handled(events) < |events|)
    ensures scanned <==> QREvent.Success in events[..Handled(events)]
    ensures out.offered ==
            old(out.offered) + EventStates(events[..Handled(events)])
            + (if ended then [State("error", EndingText(events))] else [])
    ensures CodesIn(out.offered) == old(CodesIn(out.offered)) + Codes(events[..Handled(events)])
  {
    ghost var n := Handled(events);
    HandledShowCodes(out.offered, events[..n], if n < |events| then EndingText(events) else "");
    ghost var offers := out.offered + EventStates(events[..n]);
    assert offers + [] == offers;
    ended, scanned := EventLoop(events, out);
  }

  // The loop over the events.
  method EventLoop(events: seq<QREvent>, out: Reporter) returns (ended: bool, scanned: bool)
    requires out.Valid()
    modifies out, out.states
    ensures out.Valid() && ended == (Handled(events) < |events|)
    ensures scanned <==> QREvent.Success in events[..Handled(events)]
    ensures out.offered ==
            old(out.offered) + EventStates(events[..Handled(events)])
            + (if ended then [State("error", EndingText(events))] else [])
  {
    ghost var n := Handled(events);
    var displayed := false;
    scanned := false;
    for i := 0 to |events|
      invariant i <= n && out.Valid() && out.offered == old(out.offered) + EventStates(events[..i])
      invariant (scanned <==> QREvent.Success in events[..i]) && (displayed <==> Codes(events[..i]) != [])
    {
      ended := HandleEvent(events[i], displayed, out);
      if ended {
        assert i == n;
        return;
      }
      EventsUpTo(events, i);
      displayed := displayed || events[i].Code?;
      scanned := scanned || events[i].Success?;
    }
    ended := false;
  }

  method HandleEvent(event: QREvent, displayed: bool, out: Reporter) returns (ends: bool)
    requires out.Valid()
    modifies out, out.states
    ensures out.Valid() && ends == EndsFlow(event)
    ensures !ends ==> out.offered == old(out.offered) + StatesOf(event)
    ensures ends ==> out.offered == old(out.offered) + [State("error",
              if event.Failure? then event.message else if displayed then EXPIRED else NO_CODE)]
  {
    ends := false;
    match event {
      case Code(code) =>
        out.SafeStateSend(State("qr_code", code));
      case Timeout =>
        out.SafeStateSend(State("error", if displayed then EXPIRED else NO_CODE));
        ends := true;
      case Failure(message) =>
        out.SafeStateSend(State("error", message));
        ends := true;
      case Success =>
        out.SafeStateSend(State("qr-success", ""));
      case Other =>
    }
  }

  // The whole flow.  Whatever the events and the outcome, once the client was connected the flow
  // ends with it disconnected; on success the authorisation bot is replaced by a working one.
  method AuthenticateWithQR(host: User, user: nat, world: World, out: Reporter) returns (ok: bool, bot: Bot?)
    requires host.Valid() && out.Valid()
    modifies host, host.created, out, out.states
    ensures host.Valid() && old(host.created) <= host.created && fresh(host.created - old(host.created))
    ensures (bot != null) == (user in old(host.bots) || world.storeOpens)
    ensures bot != null ==> bot in host.created
    ensures bot != null && world.ReachesEvents() ==> !bot.connected
    ensures out.Valid() && out.offered == old(out.offered) + FlowStates(bot != null, world)
    ensures CodesIn(out.offered) == old(CodesIn(out.offered)) + CodesShown(bot != null, world)
    ensures ok == Succeeds(bot != null, world)
    ensures ok ==> user in host.bots && fresh(host.bots[user]) && host.bots[user] != bot && !host.bots[user].cancelled
    ensures !ok && bot != null && !(world.ReachesEvents() && world.Confirms()) ==>
              host.bots == old(host.bots)[user := bot]
    ensures !ok && bot != null && world.ReachesEvents() && world.Confirms() ==> host.bots == old(host.bots) - {user}
  {
    bot := host.EnsureAuthBot(user, world.storeOpens);
    OffersShowCodes(out.offered, bot != null, world);
    if bot == null {
      out.SafeStateSend(State("error", NO_BOT));
      return false, bot;
    }
    ok := Authorise(host, bot, world, out);
  }

  // The flow for a bot that was found.
  method Authorise(host: User, bot: Bot, world: World, out: Reporter) returns (ok: bool)
    requires host.Valid() && bot in host.created && host.IsCurrent(bot) && out.Valid()
    modifies host, bot, out, out.states
    ensures host.Valid() && old(host.created) <= host.created && fresh(host.created - old(host.created))
    ensures world.ReachesEvents() ==> !bot.connected
    ensures out.Valid() && out.offered == old(out.offered) + FlowStates(true, world)
    ensures ok == Succeeds(true, world)
    ensures ok ==> bot.user in host.bots && fresh(host.bots[bot.user]) && !host.bots[bot.user].cancelled
    ensures !ok && !(world.ReachesEvents() && world.Confirms()) ==> host.bots == old(host.bots)
    ensures !ok && world.ReachesEvents() && world.Confirms() ==> host.bots == old(host.bots) - {bot.user}
  {
    var reached := Connect(bot, world, out);
    if !reached {
      return false;
    }
    ok := AwaitLogin(host, bot, world, out);
  }

  // Drops an earlier session, then gets the QR channel and connects.
  method Connect(bot: Bot, world: World, out: Reporter) returns (reached: bool)
    requires out.Valid()
    modifies bot`connected, bot`hasSession, out, out.states
    ensures reached == world.ReachesEvents()
    ensures !bot.hasSession && bot.connected == (old(bot.connected) && !old(bot.hasSession))
    ensures out.Valid() && out.offered == old(out.offered) + (if reached then [] else FlowStates(true, world))
  {
    if bot.hasSession {
      bot.PrepareReauth();
    }
    if !world.qrChannel {
      out.SafeStateSend(State("error", NO_CHANNEL));
      return false;
    }
    if world.connection.Refused? {
      out.SafeStateSend(State("error", NO_CONNECTION));
      return false;
    }
    reached := true;
  }

  // The flow from the connection on.
  method AwaitLogin(host: User, bot: Bot, world: World, out: Reporter) returns (ok: bool)
    requires host.Valid() && bot in host.created && host.IsCurrent(bot) && out.Valid()
    modifies host, bot, out, out.states
    ensures host.Valid() && old(host.created) <= host.created && fresh(host.created - old(host.created))
    ensures !bot.connected
    ensures out.Valid()
    ensures out.offered == old(out.offered) + (EventStates(world.events[..Handled(world.events)]) + LastStates(world))
    ensures ok == (world.Confirms() && world.profile.CanStart())
    ensures ok ==> bot.user in host.bots && fresh(host.bots[bot.user]) && !host.bots[bot.user].cancelled
    ensures !ok ==> host.created == old(host.created)
    ensures !ok ==> host.bots == if world.Confirms() then old(host.bots) - {bot.user} else old(host.bots)
  {
    bot.connected := world.connection.Connected?;
    var confirmed := ReadAndWait(world, out);
    bot.connected := false;
    if !confirmed {
      return false;
    }
    ok := ReplaceAuthBot(host, bot, world.profile);
  }

  // The events, and the wait for the verdict if none of them ends the flow.
  method ReadAndWait(world: World, out: Reporter) returns (confirmed: bool)
    requires out.Valid()
    modifies out, out.states
    ensures out.Valid() && confirmed == world.Confirms()
    ensures out.offered == old(out.offered) + (EventStates(world.events[..Handled(world.events)]) + LastStates(world))
  {
    var ended, scanned := HandleEvents(world.events, out);
    if ended {
      return false;
    }
    confirmed := AwaitVerdict(world, scanned, out);
  }

  // The wait for the goroutines of the Success events, one of which may report the success.
  method AwaitVerdict(world: World, scanned: bool, out: Reporter) returns (confirmed: bool)
    requires out.Valid() && world.StreamEnds()
    requires scanned <==> QREvent.Success in world.events[..Handled(world.events)]
    modifies out, out.states
    ensures out.Valid() && confirmed == world.Confirms()
    ensures out.offered == old(out.offered) + LastStates(world)
  {
    var ending := if scanned then world.ending else OutOfTime(false);
    if ending.Confirmed? || (ending.OutOfTime? && ending.found) {
      out.SafeStateSend(State("success", ""));
    }
    confirmed := ending.Confirmed? && ending.stillLoggedIn;
    if !confirmed {
      out.SafeStateSend(State("error", if ending.OutOfTime? then OUT_OF_TIME else NOT_LOGGED_IN));
    }
  }

  // Drops the authorisation bot, which was disconnected, and starts a working one.
  method ReplaceAuthBot(host: User, bot: Bot, profile: Profile) returns (ok: bool)
    requires host.Valid() && bot in host.created && host.IsCurrent(bot) && !bot.connected
    modifies host
    ensures host.Valid() && old(host.created) <= host.created && fresh(host.created - old(host.created))
    ensures ok == profile.CanStart()
    ensures ok ==> bot.user in host.bots && fresh(host.bots[bot.user]) && !host.bots[bot.user].cancelled
    ensures !ok ==> host.created == old(host.created) && host.bots == old(host.bots) - {bot.user}
  {
    host.DeleteBot(bot.user);
    ok := host.StartUserBot(bot.user, profile);
  }

  // ---------------------------------------------------------------- runs of commands

  // Reset resets any bot ever created, however long ago it was replaced.
  datatype Command =
    | Start(user: nat, profile: Profile)
    | Stop(user: nat)
    | Restart(user: nat, profile: Profile)
    | Scan(rows: seq<Row>)
    | Reset
    | Authorise(user: nat, world: World)
    | Shutdown

  // After any run of commands, no user has two live bots among all the bots ever created.
  method RunCommands(commands: seq<Command>, states: StateChannel) returns (host: User)
    modifies states
    ensures fresh(host) && host.Valid()
    ensures forall a, b :: a in host.created && b in host.created && a.user == b.user && a.Live() && b.Live() ==> a == b
  {
    host := new User();
    var out := new Reporter(states);
    for i := 0 to |commands|
      invariant fresh(host) && fresh(out) && out.states == states && out.Valid() && host.Valid() && fresh(host.created)
    {
      match commands[i] {
        case Start(user, profile) => var _ := host.StartUserBot(user, profile);
        case Stop(user) => var _ := host.StopUserBot(user);
        case Restart(user, profile) => var _ := host.RestartUserBot(user, profile);
        case Scan(rows) => var _ := host.ProcessBotsState(rows);
        case Reset =>
          if host.created != {} {
            var bot :| bot in host.created;
            host.ResetSession(bot);
          }
        case Authorise(user, world) => var _, _ := AuthenticateWithQR(host, user, world, out);
        case Shutdown => host.StopAll();
      }
    }
    forall a, b | a in host.created && b in host.created && a.user == b.user && a.Live() && b.Live() ensures a == b {
      host.AtMostOneLiveBot(a, b);
    }
  }
}
