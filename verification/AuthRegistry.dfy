/** The registry of running QR authorisations, at most one per user. */
module AuthRegistry {

  datatype State = State(kind: string, payload: string)

  // A buffered channel of states, only ever sent to with a select that gives up when it is full.
  class StateChannel {
    const capacity: nat
    var buffer: seq<State>

    constructor (capacity: nat)
      ensures this.capacity == capacity && buffer == []
    {
      this.capacity := capacity;
      buffer := [];
    }

    method TrySend(state: State) returns (sent: bool)
      modifies this
      ensures sent == (|old(buffer)| < capacity)
      ensures buffer == if sent then old(buffer) + [state] else old(buffer)
    {
      sent := |buffer| < capacity;
      if sent {
        buffer := buffer + [state];
      }
    }
  }

  // A session's channel may be nil.
  class Session {
    const user: nat
    const states: StateChannel?

    constructor (user: nat, states: StateChannel?)
      ensures this.user == user && this.states == states
    {
      this.user, this.states := user, states;
    }
  }

  const REPLACED := "session replaced by a new authorisation"

  class Registry {
    var sessions: map<string, Session>

    constructor ()
      ensures Valid() && sessions == map[]
    {
      sessions := map[];
    }

    // At most one session exists per user.
    ghost predicate Valid()
      reads this
    {
      forall i, j :: i in sessions && j in sessions && sessions[i].user == sessions[j].user ==> i == j
    }

    ghost predicate HasUser(user: nat)
      reads this
    {
      exists id :: id in sessions && sessions[id].user == user
    }

    // Registers a session unless its user already has one.
    method Add(id: string, session: Session) returns (added: bool)
      requires Valid()
      modifies this
      ensures Valid()
      ensures added <==> !old(HasUser(session.user))
      ensures sessions == if added then old(sessions)[id := session] else old(sessions)
    {
      var todo := sessions.Keys;
      while todo != {}
        invariant todo <= sessions.Keys
        invariant forall k :: k in sessions && k !in todo ==> sessions[k].user != session.user
      {
        var k :| k in todo;
        if sessions[k].user == session.user {
          return false;
        }
        todo := todo - {k};
      }
      sessions := sessions[id := session];
      added := true;
    }

    method Remove(id: string)
      requires Valid()
      modifies this
      ensures Valid() && sessions == old(sessions) - {id}
    {
      sessions := sessions - {id};
    }

    // Drops the user's session and tells it so if it is listening; every other session stays, and
    // no other channel is touched.  A full or nil channel never blocks it.
    method CancelUser(user: nat)
      requires Valid()
      modifies this,
        set id | id in sessions && sessions[id].user == user && sessions[id].states != null :: sessions[id].states
      ensures Valid() && !HasUser(user)
      ensures sessions == map id | id in old(sessions) && old(sessions)[id].user != user :: old(sessions)[id]
      ensures forall id :: id in old(sessions) && old(sessions)[id].user == user && old(sessions)[id].states != null ==>
                var states := old(sessions)[id].states;
                states.buffer ==
                if |old(states.buffer)| < states.capacity then old(states.buffer) + [State("cancelled", REPLACED)]
                else old(states.buffer)
    {
      var todo := sessions.Keys;
      ghost var before := sessions;
      while todo != {}
        invariant todo <= sessions.Keys <= before.Keys
        invariant forall k :: k in before ==> (k in sessions <==> before[k].user != user || k in todo)
        invariant forall k :: k in sessions ==> sessions[k] == before[k]
        invariant forall k :: k in before && before[k].user == user && before[k].states != null ==>
          before[k].states.buffer ==
          if k !in todo && |old(before[k].states.buffer)| < before[k].states.capacity
          then old(before[k].states.buffer) + [State("cancelled", REPLACED)] else old(before[k].states.buffer)
      {
        var k :| k in todo;
        var session := sessions[k];
        todo := todo - {k};
        if session.user == user {
          if session.states != null {
            var _ := session.states.TrySend(State("cancelled", REPLACED));
          }
          sessions := sessions - {k};
        }
      }
    }

    // What a new connection does: replace the user's previous session.  Run without another
    // connection of that user in between, it always ends up registered.
    method Replace(id: string, session: Session) returns (added: bool)
      requires Valid()
      modifies this,
        set i | i in sessions && sessions[i].user == session.user && sessions[i].states != null :: sessions[i].states
      ensures Valid() && added
      ensures id in sessions && sessions[id] == session
      ensures forall i :: i in sessions && i != id ==> i in old(sessions) && sessions[i] == old(sessions)[i]
      ensures forall i :: i in old(sessions) && i != id && old(sessions)[i].user != session.user ==> i in sessions
    {
      CancelUser(session.user);
      added := Add(id, session);
    }
  }
}
