/** Starting, stopping and replacing the bots of users, one command at a time; each connection
    attempt finishes inside the command that makes it. */
module Bots {

  class Bot {
    const user: nat
    // The bot's context has been cancelled.
    var cancelled: bool
    // Its WhatsApp client is connected.
    var connected: bool
    var stopped: bool
    // Its device is logged in: the client's Store.ID is set.
    var hasSession: bool

    constructor (user: nat, hasSession: bool)
      ensures this.user == user && !cancelled && !connected && !stopped && this.hasSession == hasSession
    {
      this.user, this.hasSession := user, hasSession;
      cancelled, connected, stopped := false, false, false;
    }

    // Connects a new bot, which needs a session; a bot that cannot connect is marked as stopped.
    method Connect(reachable: bool)
      requires !connected && !stopped
      modifies this`connected, this`stopped
      ensures connected == (hasSession && reachable) && stopped == !connected
    {
      if hasSession {
        if reachable {
          connected := true;
          return;
        }
      }
      stopped := true;
    }

    ghost predicate Live()
      reads this
    {
      connected && !cancelled
    }

    // Stops the bot unless it is stopped already.
    method StopUserBot()
      modifies this
      ensures hasSession == old(hasSession)
      ensures if old(stopped) then cancelled == old(cancelled) && connected == old(connected) && stopped
              else stopped && cancelled && !connected
    {
      if stopped {
        return;
      }
      stopped, cancelled, connected := true, true, false;
    }

    // Drops the session, as a reauthorisation requires; the bot stays in the map.
    method ResetSession()
      modifies this
      ensures stopped && cancelled && !connected && hasSession == old(hasSession)
    {
      connected := false;
      stopped := true;
      cancelled := true;
    }

    // Disconnects the client and replaces it by a new one that is logged out.
    method PrepareReauth()
      modifies this`connected, this`hasSession
      ensures !connected && !hasSession
    {
      connected, hasSession := false, false;
    }
  }

  // What a user's stored data, subscription and WhatsApp connection turn out to be.
  // `loggedIn`: the stored device is logged in, so that its client has a session.
  datatype Profile = Profile(hasData: bool, enabled: bool,
      subscribed: bool, decrypts: bool, parses: bool, loggedIn: bool, reachable: bool)
  {
    predicate CanStart() {
      hasData && enabled && subscribed && decrypts && parses
    }

    predicate Connects() {
      loggedIn && reachable
    }
  }

  // One row of the startup scan.
  datatype Row = Row(user: nat, hasData: bool, subscribed: bool, decrypts: bool, parses: bool,
      loggedIn: bool, reachable: bool)
  {
    predicate Eligible() {
      hasData && subscribed && decrypts && parses
    }

    predicate Connects() {
      loggedIn && reachable
    }
  }

  // The rows a scan starts a bot for, and their users.
  function EligibleRows(rows: seq<Row>): seq<Row> {
    if rows == [] then []
    else EligibleRows(rows[..|rows| - 1]) + (if rows[|rows| - 1].Eligible() then [rows[|rows| - 1]] else [])
  }

  function Scanned(rows: seq<Row>): set<nat> {
    if rows == [] then {}
    else Scanned(rows[..|rows| - 1]) + (if rows[|rows| - 1].Eligible() then {rows[|rows| - 1].user} else {})
  }

  // A scan starts a bot for a user exactly if some row of that user is eligible.
  lemma {:induction false} ScannedIffEligible(rows: seq<Row>, user: nat)
    ensures user in Scanned(rows) <==> exists row :: row in rows && row.Eligible() && row.user == user
  {
    if rows != [] {
      var init, last := rows[..|rows| - 1], rows[|rows| - 1];
      ScannedIffEligible(init, user);
      assert rows == init + [last];
    }
  }

  predicate LastOfUser(rows: seq<Row>, i: nat)
    requires i < |rows|
  {
    forall j :: i < j < |rows| ==> rows[j].user != rows[i].user
  }

  lemma LastOfMore(rows: seq<Row>, row: Row, i: nat)
    requires i < |rows|
    ensures LastOfUser(rows + [row], i) <==> LastOfUser(rows, i) && row.user != rows[i].user
  {
    var all := rows + [row];
    assert all[|rows|] == row;
    assert forall j :: 0 <= j < |rows| ==> all[j] == rows[j];
  }

  class User {
    var bots: map<nat, Bot>
    // Every bot ever created; goroutines may still hold on to one that was replaced long ago.
    var created: set<Bot>

    constructor ()
      ensures Valid() && bots == map[] && created == {}
    {
      bots, created := map[], {};
    }

    ghost predicate IsCurrent(b: Bot)
      reads this
    {
      b.user in bots && bots[b.user] == b
    }

    // Any bot that is no longer its user's entry has its context cancelled or its client disconnected,
    // and a bot marked as stopped is disconnected.
    ghost predicate Valid()
      reads this, created
    {
      && (forall b :: b in created && b.stopped ==> !b.connected)
      && (forall u :: u in bots ==> bots[u] in created && bots[u].user == u)
      && (forall b :: b in created && !IsCurrent(b) ==> !b.Live())
    }

    // So a user never has two live bots.
    lemma AtMostOneLiveBot(a: Bot, b: Bot)
      requires Valid() && a in created && b in created && a.user == b.user && a.Live() && b.Live()
      ensures a == b
    {
      assert IsCurrent(a) && IsCurrent(b);
    }

    // initializeBot and the Store that follows it: the entry it replaces must not be live.
    method StoreNewBot(user: nat, autoConnect: bool, hasSession: bool, reachable: bool) returns (bot: Bot)
      requires Valid() && (user in bots ==> !bots[user].Live())
      modifies this
      ensures Valid() && fresh(bot) && created == old(created) + {bot} && bots == old(bots)[user := bot]
      ensures !bot.cancelled && bot.user == user && bot.hasSession == hasSession
      ensures bot.connected == (autoConnect && hasSession && reachable)
      ensures bot.stopped == (autoConnect && !bot.connected)
    {
      bot := new Bot(user, hasSession);
      if autoConnect {
        bot.Connect(reachable);
      }
      bots := bots[user := bot];
      created := created + {bot};
    }

    // Starts a user's bot unless the user has an entry, stopped or not.
    method StartUserBot(user: nat, profile: Profile) returns (ok: bool)
      requires Valid()
      modifies this
      ensures Valid() && ok == (user !in old(bots) && profile.CanStart())
      ensures !ok ==> bots == old(bots) && created == old(created)
      ensures ok ==>
                && user in bots && bots == old(bots)[user := bots[user]] && created == old(created) + {bots[user]}
                && fresh(bots[user]) && !bots[user].cancelled
                && bots[user].connected == profile.Connects() && bots[user].stopped == !profile.Connects()
                && bots[user].hasSession == profile.loggedIn
    {
      if user in bots || !profile.hasData || !profile.enabled || !profile.subscribed
          || !profile.decrypts || !profile.parses {
        return false;
      }
      var _ := StoreNewBot(user, true, profile.loggedIn, profile.reachable);
      ok := true;
    }

    // Stops a user's bot and drops its entry.  A bot that is already stopped keeps its entry, so it
    // can then be neither stopped nor started, only restarted.
    method StopUserBot(user: nat) returns (ok: bool)
      requires Valid()
      modifies this`bots, if user in bots then {bots[user]} else {}
      ensures Valid() && ok == (user in old(bots))
      ensures ok && !old(bots[user].stopped) ==>
                bots == old(bots) - {user} && var b := old(bots[user]); b.stopped && b.cancelled && !b.connected
      ensures ok && old(bots[user].stopped) ==> bots == old(bots) && unchanged(bots[user])
      ensures !ok ==> bots == old(bots)
    {
      if user !in bots {
        return false;
      }
      var bot := bots[user];
      if bot.stopped {
        return true;
      }
      bot.stopped, bot.cancelled, bot.connected := true, true, false;
      bots := bots - {user};
      ok := true;
    }

    // Cancels the context of the bot it replaces and creates a new one.
    method CreateOrUpdateBot(user: nat, loggedIn: bool, reachable: bool)
      requires Valid()
      modifies this, (if user in bots then {bots[user]} else {})`cancelled
      ensures Valid() && user in bots && bots == old(bots)[user := bots[user]] && fresh(bots[user])
      ensures created == old(created) + {bots[user]} && !bots[user].cancelled
      ensures bots[user].user == user && bots[user].hasSession == loggedIn
      ensures bots[user].connected == (loggedIn && reachable) && bots[user].stopped == !bots[user].connected
      ensures user in old(bots) ==>
                var b := old(bots[user]);
                b.cancelled && b.connected == old(b.connected) && b.stopped == old(b.stopped)
    {
      if user in bots {
        bots[user].cancelled := true;
      }
      var _ := StoreNewBot(user, true, loggedIn, reachable);
    }

    // Stops the current bot, if any, before checking whether a new one may be created.
    method RestartUserBot(user: nat, profile: Profile) returns (ok: bool)
      requires Valid()
      modifies this, if user in bots then {bots[user]} else {}
      ensures Valid() && old(created) <= created && fresh(created - old(created))
      ensures ok == profile.CanStart()
      ensures ok ==> user in bots && fresh(bots[user]) && !bots[user].cancelled
      ensures ok ==>
                && bots[user].connected == profile.Connects() && bots[user].stopped == !profile.Connects()
                && bots[user].hasSession == profile.loggedIn
      ensures bots - {user} == old(bots) - {user}
      ensures !profile.hasData || !profile.decrypts ==> bots == old(bots)
      ensures !ok ==> created == old(created)
      ensures !ok && profile.hasData && profile.decrypts ==>
                bots == if user in old(bots) && !old(bots[user].stopped) then old(bots) - {user} else old(bots)
      ensures user in old(bots) && profile.hasData && profile.decrypts && !old(bots[user].stopped) ==>
                !old(bots[user]).connected && old(bots[user]).cancelled
    {
      if !profile.hasData || !profile.decrypts {
        return false;
      }
      if user in bots {
        var _ := StopUserBot(user);
      }
      if !profile.enabled || !profile.subscribed || !profile.parses {
        return false;
      }
      CreateOrUpdateBot(user, profile.loggedIn, profile.reachable);
      ok := true;
    }

    // The startup scan: every eligible row gets a new bot.  A bot it replaces is cancelled, but its
    // client is left connected if it was.
    method ProcessBotsState(rows: seq<Row>) returns (ghost made: seq<Bot>)
      requires Valid()
      modifies this, created`cancelled
      ensures Valid() && old(created) <= created && fresh(created - old(created))
      ensures bots.Keys == old(bots.Keys) + Scanned(rows)
      ensures forall u :: u in bots ==> if u in Scanned(rows) then fresh(bots[u]) else bots[u] == old(bots)[u]
      ensures forall b :: b in old(created) && old(IsCurrent(b)) && !IsCurrent(b) ==> b.cancelled
      ensures Made(made, EligibleRows(rows)) && forall b :: b in made ==> fresh(b)
      ensures created == old(created) + (set b | b in made)
    {
      ghost var current := set b | b in created && IsCurrent(b);
      made := [];
      for i := 0 to |rows|
        invariant Valid() && old(created) <= created && fresh(created - old(created))
        invariant bots.Keys == old(bots.Keys) + Scanned(rows[..i])
        invariant forall u :: u in bots ==> if u in Scanned(rows[..i]) then fresh(bots[u]) else bots[u] == old(bots)[u]
        invariant forall b :: b in current && !IsCurrent(b) ==> b.cancelled
        invariant Made(made, EligibleRows(rows[..i])) && forall b :: b in made ==> fresh(b)
        invariant created == old(created) + (set b | b in made)
      {
        assert rows[..i + 1][..i] == rows[..i] && rows[..i] + [rows[i]] == rows[..i + 1];
        made := ProcessRow(rows[i], rows[..i], made);
      }
      assert rows[..|rows|] == rows;
    }

    // One row of the scan, after the given rows.
    method ProcessRow(row: Row, ghost before: seq<Row>, ghost sofar: seq<Bot>) returns (ghost made: seq<Bot>)
      requires Valid() && Made(sofar, EligibleRows(before))
      modifies this, (if row.user in bots then {bots[row.user]} else {})`cancelled
      ensures Valid() && Made(made, EligibleRows(before + [row]))
      ensures if row.Eligible()
              then row.user in bots && fresh(bots[row.user]) && bots == old(bots)[row.user := bots[row.user]]
                   && created == old(created) + {bots[row.user]} && made == sofar + [bots[row.user]]
              else bots == old(bots) && created == old(created) && made == sofar
      ensures row.Eligible() && row.user in old(bots) ==> old(bots[row.user]).cancelled
      ensures forall b :: b in old(created) && old(b.cancelled) ==> b.cancelled
    {
      assert (before + [row])[..|before|] == before;
      made := sofar;
      if !row.hasData {
        return;
      }
      if !row.subscribed || !row.decrypts {
        return;
      }
      if !row.parses {
        return;
      }
      made := ReplaceByNew(row, EligibleRows(before), sofar);
    }

    // An eligible row: the new bot replaces the current one, be it an old one or one of this scan.
    method ReplaceByNew(row: Row, ghost rows: seq<Row>, ghost sofar: seq<Bot>) returns (ghost made: seq<Bot>)
      requires Valid() && Made(sofar, rows)
      modifies this, (if row.user in bots then {bots[row.user]} else {})`cancelled
      ensures Valid() && Made(made, rows + [row]) && row.user in bots && made == sofar + [bots[row.user]]
      ensures fresh(bots[row.user]) && bots == old(bots)[row.user := bots[row.user]]
      ensures created == old(created) + {bots[row.user]}
      ensures row.user in old(bots) ==> old(bots[row.user]).cancelled
    {
      CreateOrUpdateBot(row.user, row.loggedIn, row.reachable);
      made := sofar + [bots[row.user]];
      forall i | 0 <= i < |sofar| ensures IsCurrent(sofar[i]) <==> LastOfUser(rows + [row], i) {
        LastOfMore(rows, row, i);
      }
    }

    // The bots made for these rows, one for each.  The last one of each user is current, the others are
    // cancelled.
    ghost predicate Made(made: seq<Bot>, rows: seq<Row>)
      reads this, made
    {
      && |made| == |rows|
      && (forall i, j :: 0 <= i < j < |made| ==> made[i] != made[j])
      && (forall i :: 0 <= i < |made| ==>
            && made[i] in created && made[i].user == rows[i].user && made[i].connected == rows[i].Connects()
            && (IsCurrent(made[i]) <==> LastOfUser(rows, i)) && (IsCurrent(made[i]) || made[i].cancelled))
    }

    // The shutdown: every current bot is stopped.  Afterwards no bot at all is live.
    method StopAll()
      requires Valid()
      modifies created
      ensures Valid() && forall b :: b in created ==> !b.Live()
      ensures forall u :: u in bots ==> bots[u].stopped
    {
      var todo := bots.Keys;
      while todo != {}
        invariant Valid() && todo <= bots.Keys
        invariant forall u :: u in bots && u !in todo ==> bots[u].stopped
      {
        var u :| u in todo;
        bots[u].StopUserBot();
        todo := todo - {u};
      }
    }

    // A bot asks for a new authorisation; it may long have been replaced.
    method ResetSession(bot: Bot)
      requires Valid() && bot in created
      modifies bot
      ensures Valid() && bot.stopped && bot.cancelled && !bot.connected
    {
      bot.ResetSession();
    }

    // The user's bot, or a new one that is not connected, for a QR authorisation.
    method EnsureAuthBot(user: nat, storeOpens: bool) returns (bot: Bot?)
      requires Valid()
      modifies this
      ensures Valid() && old(created) <= created && fresh(created - old(created))
      ensures (bot == null) == (user !in old(bots) && !storeOpens)
      ensures bot != null ==> bot in created && bot.user == user && bots == old(bots)[user := bot]
      ensures bot != null && user !in old(bots) ==> fresh(bot) && !bot.connected && !bot.cancelled && !bot.hasSession
      ensures user in old(bots) || bot == null ==> bots == old(bots) && created == old(created)
    {
      if user in bots {
        assert bots == bots[user := bots[user]];
        return bots[user];
      }
      if !storeOpens {
        return null;
      }
      bot := StoreNewBot(user, false, false, false);
    }

    // Drops the user's entry.  This is safe exactly when the bot is no longer live.
    method DeleteBot(user: nat)
      requires Valid()
      modifies this`bots
      ensures bots == old(bots) - {user}
      ensures Valid() <==> !(user in old(bots) && old(bots)[user].Live())
    {
      bots := bots - {user};
      assert user in old(bots) && old(bots)[user].Live() ==> !IsCurrent(old(bots)[user]);
    }
  }

  // A row whose bot connects is followed by another one of the same user.
  predicate ReplacesConnected(rows: seq<Row>) {
    exists i :: 0 <= i < |rows| && rows[i].Connects() && !LastOfUser(rows, i)
  }

  // The startup scan, which finds no bots, leaves the client of a bot it replaced connected if and only
  // if an eligible row whose bot connects is followed by another eligible one of the same user.
  method ScanAtStartup(rows: seq<Row>) returns (host: User)
    ensures host.Valid() && fresh(host)
    ensures (exists b :: b in host.created && !host.IsCurrent(b) && b.connected)
            <==> ReplacesConnected(EligibleRows(rows))
  {
    host := new User();
    ghost var made := host.ProcessBotsState(rows);
    ghost var eligible := EligibleRows(rows);
    if i :| 0 <= i < |eligible| && eligible[i].Connects() && !LastOfUser(eligible, i) {
      assert made[i] in host.created && !host.IsCurrent(made[i]) && made[i].connected;
    }
    if b :| b in host.created && !host.IsCurrent(b) && b.connected {
      var i :| 0 <= i < |made| && made[i] == b;
      assert eligible[i].Connects() && !LastOfUser(eligible, i);
    }
  }

  // Two eligible rows for one user are enough.  The replaced bot's context is cancelled all the same.
  method ScanLeavesClientConnected(row: Row) returns (host: User, ghost replaced: Bot)
    requires row.Eligible() && row.Connects()
    ensures host.Valid() && replaced in host.created && replaced.user == row.user && !host.IsCurrent(replaced)
    ensures replaced.connected && replaced.cancelled
  {
    host := new User();
    ghost var made := host.ProcessBotsState([row, row]);
    assert [row, row][..1] == [row] && [row][..0] == [];
    assert EligibleRows([]) == [] && EligibleRows([row]) == [row];
    replaced := if host.IsCurrent(made[0]) then made[1] else made[0];
  }

  // A stop followed by a start replaces a user's bot if and only if it was not stopped already and the
  // user may have one.  A bot that was stopped already stays as it is.
  method StopThenStart(host: User, user: nat, profile: Profile) returns (replaced: bool)
    requires host.Valid() && user in host.bots
    modifies host, host.bots[user]
    ensures host.Valid() && (replaced <==> !old(host.bots[user].stopped) && profile.CanStart())
    ensures if replaced then user in host.bots && fresh(host.bots[user])
            else host.bots == if old(host.bots[user].stopped) then old(host.bots) else old(host.bots) - {user}
    ensures old(host.bots[user].stopped) ==> unchanged(old(host.bots[user]))
  {
    var _ := host.StopUserBot(user);
    replaced := host.StartUserBot(user, profile);
  }

  // So a bot that could not connect cannot be replaced this way, whatever has become of its user.
  method UnconnectedBotStays(user: nat, first: Profile, again: Profile) returns (host: User, replaced: bool)
    requires first.CanStart() && !first.Connects()
    ensures !replaced && host.Valid() && user in host.bots && host.bots[user].stopped && !host.bots[user].connected
  {
    host := new User();
    var _ := host.StartUserBot(user, first);
    replaced := StopThenStart(host, user, again);
  }
}
