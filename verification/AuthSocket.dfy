/** The loop that forwards the states of an authorisation to its web socket, while the flow, the
    goroutines it starts, the registry and the handler all offer states to the same channel. */
module AuthSocket {
  import opened AuthRegistry

  const CAPACITY := 10

  // Serving: the loop runs.  Finished: it wrote a terminal state.  Broken: a write failed.
  datatype Status = Serving | Finished | Broken

  // accepted: every state the channel took, by whomever it was offered.
  datatype Socket = Socket(accepted: seq<State>, buffer: seq<State>, written: seq<State>, status: Status)

  const OPENED := Socket([], [], [], Serving)

  // An offer never waits.  A forward takes the oldest state of the channel and writes it.
  datatype Action = Offer(state: State) | Forward(writes: bool)

  // A cancelled session is told so, but this does not end its loop.
  predicate Terminal(state: State) {
    state.kind == "success" || state.kind == "error"
  }

  function Step(s: Socket, action: Action): Socket {
    match action
    case Offer(state) =>
      if |s.buffer| == CAPACITY then s
      else s.(accepted := s.accepted + [state], buffer := s.buffer + [state])
    case Forward(writes) =>
      if !s.status.Serving? || s.buffer == [] then s
      else
        var taken := s.(buffer := s.buffer[1..]);
        if !writes then taken.(status := Broken)
        else taken.(written := s.written + [s.buffer[0]],
                    status := if Terminal(s.buffer[0]) then Finished else Serving)
  }

  function Run(s: Socket, actions: seq<Action>): Socket {
    if actions == [] then s
    else Step(Run(s, actions[..|actions| - 1]), actions[|actions| - 1])
  }

  predicate NoTerminal(states: seq<State>) {
    forall i :: 0 <= i < |states| ==> !Terminal(states[i])
  }

  // The number of states up to and including the first terminal one.
  function Ends(states: seq<State>): (n: nat)
    ensures n <= |states| && (states != [] ==> n > 0)
    ensures forall i :: 0 <= i < n - 1 ==> !Terminal(states[i])
    ensures 0 < n < |states| ==> Terminal(states[n - 1])
  {
    if states == [] then 0 else if Terminal(states[0]) then 1 else 1 + Ends(states[1..])
  }

  function UpToTerminal(states: seq<State>): seq<State> {
    states[..Ends(states)]
  }

  lemma EndsAt(states: seq<State>, k: nat)
    requires k < |states| && Terminal(states[k]) && NoTerminal(states[..k])
    ensures Ends(states) == k + 1
  {
    assert forall i :: 0 <= i < k ==> states[i] == states[..k][i];
  }

  lemma NeverEnds(states: seq<State>)
    requires NoTerminal(states)
    ensures UpToTerminal(states) == states
  {
  }

  // What follows a terminal state does not matter.
  lemma UpToTerminalOfMore(states: seq<State>, more: State)
    requires !NoTerminal(states)
    ensures !NoTerminal(states + [more]) && UpToTerminal(states + [more]) == UpToTerminal(states)
  {
    var n := Ends(states);
    assert Terminal(states[n - 1]);
    assert forall i :: 0 <= i < |states| ==> (states + [more])[i] == states[i];
    EndsAt(states + [more], n - 1);
  }

  ghost predicate Inv(s: Socket) {
    && |s.buffer| <= CAPACITY
    && match s.status
       case Serving => NoTerminal(s.written) && s.written + s.buffer == s.accepted
       case Finished => !NoTerminal(s.accepted) && s.written == UpToTerminal(s.accepted)
       case Broken => NoTerminal(s.written) && s.written < s.accepted
  }

  lemma OfferKeepsInv(s: Socket, state: State)
    requires Inv(s)
    ensures Inv(Step(s, Offer(state)))
  {
    if |s.buffer| < CAPACITY {
      match s.status {
        case Serving => assert s.written + (s.buffer + [state]) == (s.written + s.buffer) + [state];
        case Finished =>
          UpToTerminalOfMore(s.accepted, state);
        case Broken =>
      }
    }
  }

  lemma ForwardKeepsInv(s: Socket, writes: bool)
    requires Inv(s)
    ensures Inv(Step(s, Forward(writes)))
  {
    if s.status.Serving? && s.buffer != [] {
      HeadMoves(s.written, s.buffer);
      if writes && Terminal(s.buffer[0]) {
        assert s.accepted[..|s.written|] == s.written && s.accepted[|s.written|] == s.buffer[0];
        EndsAt(s.accepted, |s.written|);
      }
    }
  }

  lemma HeadMoves(a: seq<State>, b: seq<State>)
    requires b != []
    ensures (a + [b[0]]) + b[1..] == a + b && a < a + b
  {
  }

  lemma StepKeepsInv(s: Socket, action: Action)
    requires Inv(s)
    ensures Inv(Step(s, action))
  {
    match action {
      case Offer(state) => OfferKeepsInv(s, state);
      case Forward(writes) => ForwardKeepsInv(s, writes);
    }
  }

  // Whatever the order of offers and writes: what the client gets is a prefix of the accepted
  // states that ends no later than the first terminal one, and it is exactly that once the loop
  // has finished, whatever is offered afterwards.
  lemma {:induction false} ClientSeesUpToFirstTerminal(actions: seq<Action>)
    ensures Inv(Run(OPENED, actions))
    ensures Run(OPENED, actions).written <= UpToTerminal(Run(OPENED, actions).accepted)
  {
    if actions != [] {
      ClientSeesUpToFirstTerminal(actions[..|actions| - 1]);
      StepKeepsInv(Run(OPENED, actions[..|actions| - 1]), actions[|actions| - 1]);
    }
    var s := Run(OPENED, actions);
    if !s.status.Finished? {
      PrefixBeforeTerminal(s.written, s.accepted);
    }
  }

  lemma PrefixBeforeTerminal(written: seq<State>, accepted: seq<State>)
    requires NoTerminal(written) && written <= accepted
    ensures written <= UpToTerminal(accepted)
  {
    var n := Ends(accepted);
    assert forall i :: 0 <= i < |written| ==> !Terminal(written[i]) && accepted[i] == written[i];
    assert |written| <= n;
  }

  function Forwards(n: nat): seq<Action> {
    if n == 0 then [] else Forwards(n - 1) + [Forward(true)]
  }

  lemma {:induction false} ForwardsOneByOne(s: Socket, n: nat)
    requires Inv(s) && s.status.Serving? && n <= |s.buffer|
    ensures Inv(Run(s, Forwards(n))) && Run(s, Forwards(n)).accepted == s.accepted
    ensures Run(s, Forwards(n)).status.Serving? ==> Run(s, Forwards(n)).buffer == s.buffer[n..]
    ensures !Run(s, Forwards(n)).status.Broken?
  {
    if n > 0 {
      var actions := Forwards(n);
      assert actions[..|actions| - 1] == Forwards(n - 1);
      ForwardsOneByOne(s, n - 1);
      StepKeepsInv(Run(s, Forwards(n - 1)), Forward(true));
    }
  }

  // From any point, if writes succeed and nothing more arrives, the loop writes all that was
  // accepted up to the first terminal state.
  lemma DrainingReachesFirstTerminal(s: Socket)
    requires Inv(s) && s.status.Serving?
    ensures Run(s, Forwards(|s.buffer|)).written == UpToTerminal(s.accepted)
    ensures Run(s, Forwards(|s.buffer|)).status == if NoTerminal(s.accepted) then Serving else Finished
  {
    ForwardsOneByOne(s, |s.buffer|);
    var end := Run(s, Forwards(|s.buffer|));
    if end.status.Serving? {
      assert end.buffer == [];
      assert end.written == end.accepted;
      NeverEnds(s.accepted);
    }
  }

  // The channel takes an offer exactly when it holds fewer than ten states, whoever makes it and whether
  // or not anybody still reads.
  lemma OfferIsTakenIff(actions: seq<Action>, state: State)
    ensures var s, s' := Run(OPENED, actions), Run(OPENED, actions + [Offer(state)]);
            && |s.buffer| <= 10 && s'.written == s.written && s'.status == s.status
            && (|s.buffer| < 10 ==> s'.accepted == s.accepted + [state] && s'.buffer == s.buffer + [state])
            && (|s.buffer| == 10 ==> s' == s)
  {
    ClientSeesUpToFirstTerminal(actions);
    assert (actions + [Offer(state)])[..|actions|] == actions;
  }

  // At most one terminal state is ever written, and nothing after it.  So a success that the
  // channel took first hides every later error, such as a bot that does not start.
  lemma SuccessHidesLaterErrors(actions: seq<Action>, k: nat, i: nat)
    requires var s := Run(OPENED, actions);
             k < |s.accepted| && s.accepted[k].kind == "success" && NoTerminal(s.accepted[..k])
    requires i < |Run(OPENED, actions).written|
    ensures i <= k && Run(OPENED, actions).written[i].kind != "error"
  {
    ClientSeesUpToFirstTerminal(actions);
    var s := Run(OPENED, actions);
    EndsAt(s.accepted, k);
    assert s.written[i] == UpToTerminal(s.accepted)[i] == s.accepted[i];
    assert i < k ==> s.accepted[..k][i] == s.accepted[i];
  }

  // The loop itself, on the channel it shares with those who offer.
  method Serve(states: StateChannel, actions: seq<Action>) returns (written: seq<State>, status: Status)
    requires states.capacity == 10 && states.buffer == []
    modifies states
    ensures states.buffer == Run(OPENED, actions).buffer
    ensures written == Run(OPENED, actions).written && status == Run(OPENED, actions).status
  {
    written, status := [], Serving;
    for i := 0 to |actions|
      invariant states.buffer == Run(OPENED, actions[..i]).buffer && |states.buffer| <= CAPACITY
      invariant written == Run(OPENED, actions[..i]).written && status == Run(OPENED, actions[..i]).status
    {
      assert actions[..i + 1][..i] == actions[..i];
      match actions[i] {
        case Offer(state) => var _ := states.TrySend(state);
        case Forward(writes) =>
          if status.Serving? && states.buffer != [] {
            var state := states.buffer[0];
            states.buffer := states.buffer[1..];
            if !writes {
              status := Broken;
            } else {
              written := written + [state];
              if Terminal(state) {
                status := Finished;
              }
            }
          }
      }
    }
    assert actions[..|actions|] == actions;
  }
}
