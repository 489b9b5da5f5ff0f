/** The senders a bot has already met: an in-memory store backed by an optional Redis cache, and how
    a restarted bot rebuilds the store from the cache.  No key expires and nobody else writes. */
module ResponderStore {
  import opened Options
  import opened ResponderKeys

  // A sender's details; the store shares these objects with the bot.
  class Info {
    var jidUser: string
    var realPhone: string
    var known: bool

    constructor (known: bool)
      ensures jidUser == "" && realPhone == "" && this.known == known
    {
      jidUser, realPhone, this.known := "", "", known;
    }
  }

  // The Redis keyspace.  `recorded` is the history: who was recorded for whom.
  class RedisCache {
    var keys: set<string>
    ghost var recorded: set<(UInt32, Int64)>

    constructor ()
      ensures Valid() && recorded == {}
    {
      keys, recorded := {}, {};
    }

    // The keys are exactly those of the recorded pairs.
    ghost predicate Valid()
      reads this
    {
      && (forall p :: p in recorded ==> KnownResponderKey(p.0, p.1) in keys)
      && (forall k :: k in keys ==> exists p :: p in recorded && k == KnownResponderKey(p.0, p.1))
    }

    method Has(user: UInt32, sender: Int64) returns (found: bool)
      requires Valid()
      ensures found <==> (user, sender) in recorded
    {
      found := KnownResponderKey(user, sender) in keys;
      forall p | p in recorded && KnownResponderKey(user, sender) == KnownResponderKey(p.0, p.1)
        ensures p == (user, sender)
      {
        KeyIsInjective(user, sender, p.0, p.1);
      }
    }

    method Set(user: UInt32, sender: Int64)
      requires Valid()
      modifies this
      ensures Valid() && recorded == old(recorded) + {(user, sender)}
    {
      keys := keys + {KnownResponderKey(user, sender)};
      recorded := recorded + {(user, sender)};
    }

    // A full scan returns every key with the prefix, in any order, possibly more than once.
    ghost predicate IsFullScan(scan: seq<string>, prefix: string)
      reads this
    {
      && (forall k :: k in scan ==> k in keys && prefix <= k)
      && (forall k :: k in keys && prefix <= k ==> k in scan)
    }

    lemma OwnerOf(key: string) returns (user: UInt32, sender: Int64)
      requires Valid() && key in keys
      ensures (user, sender) in recorded && key == KnownResponderKey(user, sender)
    {
      var p :| p in recorded && key == KnownResponderKey(p.0, p.1);
      user, sender := p.0, p.1;
    }

    // The ids of one user parsed from a part of a scan.
    ghost predicate Loaded(user: UInt32, scan: seq<string>, ids: seq<Int64>)
      reads this
    {
      forall id :: id in ids <==> (user, id) in recorded && KnownResponderKey(user, id) in scan
    }

    // Reads back the senders of one user: all of them, and nobody else's.
    method LoadUser(user: UInt32, scan: seq<string>) returns (ids: seq<Int64>)
      requires Valid() && IsFullScan(scan, UserPrefix(user))
      ensures forall id :: id in ids <==> (user, id) in recorded
    {
      ids := [];
      for i := 0 to |scan|
        invariant Loaded(user, scan[..i], ids)
      {
        var key := scan[i];
        assert key in scan && scan[..i + 1] == scan[..i] + [key];
        LoadedStep(user, scan[..i], key, ids);
        var parsed := ParseKnownResponderKey(user, key);
        if parsed.Some? {
          ids := ids + [parsed.value];
        }
      }
      assert scan[..|scan|] == scan;
      ScanFindsAll(user, scan);
    }

    lemma ScanFindsAll(user: UInt32, scan: seq<string>)
      requires Valid() && IsFullScan(scan, UserPrefix(user))
      ensures forall id :: (user, id) in recorded ==> KnownResponderKey(user, id) in scan
    {
      forall id | (user, id) in recorded ensures KnownResponderKey(user, id) in scan {
        PrefixOfKey(user, id);
      }
    }

    lemma LoadedStep(user: UInt32, scan: seq<string>, key: string, ids: seq<Int64>)
      requires Valid() && key in keys && Loaded(user, scan, ids)
      ensures var parsed := ParseKnownResponderKey(user, key);
              Loaded(user, scan + [key], if parsed.Some? then ids + [parsed.value] else ids)
    {
      var owner, sender := OwnerOf(key);
      ParseOfRecorded(user, owner, sender);
      forall id: Int64 ensures KnownResponderKey(user, id) == key <==> user == owner && id == sender {
        if KnownResponderKey(user, id) == key {
          KeyIsInjective(user, id, owner, sender);
        }
      }
    }
  }

  lemma ParseOfRecorded(user: UInt32, owner: UInt32, sender: Int64)
    ensures ParseKnownResponderKey(user, KnownResponderKey(owner, sender)) ==
            if user == owner then Some(sender) else None
  {
    if user == owner {
      KeyRoundTrip(owner, sender);
    } else {
      KeysOfOthersDoNotParse(owner, user, sender);
    }
  }

  lemma PrefixOfKey(user: UInt32, sender: Int64)
    ensures UserPrefix(user) <= KnownResponderKey(user, sender)
  {
    assert KnownResponderKey(user, sender) == UserPrefix(user) + FormatInt(sender);
  }

  // The in-memory store of one bot.  Its methods that reach Redis are told whether Redis fails.
  class Store {
    var items: map<UInt64, Info>
    const cache: RedisCache?

    constructor (cache: RedisCache?)
      ensures this.cache == cache && items == map[]
    {
      this.cache := cache;
      items := map[];
    }

    // The user's recorded senders, as the uint64 ids the bot uses.
    ghost predicate IsRecorded(user: UInt32, sender: UInt64)
      reads this, cache
    {
      cache != null && (user, Signed(sender)) in cache.recorded
    }

    method Count() returns (count: nat)
      ensures count == |items|
    {
      count := 0;
      var rest := items.Keys;
      while rest != {}
        invariant count + |rest| == |items.Keys|
        decreases |rest|
      {
        var id :| id in rest;
        rest := rest - {id};
        count := count + 1;
      }
    }

    method Known(user: UInt32, sender: UInt64, fails: bool) returns (known: bool)
      requires cache != null ==> cache.Valid()
      ensures known <==> IsRecorded(user, sender) && !fails
    {
      known := false;
      if cache != null && !fails {
        known := cache.Has(user, Signed(sender));
      }
    }

    method SetKnown(user: UInt32, sender: UInt64, fails: bool)
      requires cache != null ==> cache.Valid()
      modifies cache
      ensures cache != null ==>
                cache.Valid()
                && cache.recorded == old(cache.recorded) + (if fails then {} else {(user, Signed(sender))})
    {
      if cache != null && !fails {
        cache.Set(user, Signed(sender));
      }
    }

    // Fills the store with the recorded senders of `user`, whatever it held: their entries are new,
    // marked as known and otherwise blank.
    method PreloadFirstInteraction(user: UInt32, scan: seq<string>, fails: bool)
      requires cache != null ==> cache.Valid() && cache.IsFullScan(scan, UserPrefix(user))
      modifies this`items
      ensures forall k :: k in items <==> k in old(items) || (IsRecorded(user, k) && !fails)
      ensures forall k :: k in items ==>
                if IsRecorded(user, k) && !fails
                then fresh(items[k]) && items[k].known && items[k].jidUser == "" && items[k].realPhone == ""
                else items[k] == old(items)[k]
    {
      if cache == null || fails {
        return;
      }
      var ids := cache.LoadUser(user, scan);
      for i := 0 to |ids|
        invariant forall k :: k in items <==> k in old(items) || Signed(k) in ids[..i]
        invariant forall k :: k in items ==>
          if Signed(k) in ids[..i]
          then fresh(items[k]) && items[k].known && items[k].jidUser == "" && items[k].realPhone == ""
          else items[k] == old(items)[k]
        modifies this`items
      {
        var info := new Info(true);
        items := items[Unsigned(ids[i]) := info];
        assert ids[..i + 1] == ids[..i] + [ids[i]];
      }
      assert ids[..|ids|] == ids;
    }

    // Records a first contact.  `notify` is whether a dialogue-start notification is sent: it is when
    // the assistant has start events and neither the store nor the cache knows the sender.
    method SendFirstContactMessage(user: UInt32, sender: UInt64, startEvents: bool, hasFails: bool, setFails: bool)
      returns (notify: bool)
      requires cache != null ==> cache.Valid()
      modifies this, cache, if sender in items then {items[sender]} else {}
      ensures cache != null ==>
                cache.Valid()
                && cache.recorded == old(cache.recorded) + (if setFails then {} else {(user, Signed(sender))})
      ensures items.Keys == old(items).Keys + {sender} && items[sender].known
      ensures forall k :: k in old(items) ==> items[k] == old(items)[k]
      ensures notify <==>
                && startEvents
                && !(sender in old(items) && old(items[sender].known)) && !(old(IsRecorded(user, sender)) && !hasFails)
    {
      if sender in items && items[sender].known {
        SetKnown(user, sender, setFails);
        return false;
      }
      var met := Known(user, sender, hasFails);
      notify := !met && startEvents;
      SetKnown(user, sender, setFails);
      if sender !in items {
        var info := new Info(true);
        items := items[sender := info];
      } else {
        items[sender].known := true;
      }
    }
  }

  // Fills in what a preloaded entry lacks; says whether it had no phone.
  method RestoreResponderFields(info: Info?, senderJID: string, realPhone: string, sender: UInt64)
    returns (filled: bool)
    modifies info
    ensures info == null ==> !filled
    ensures info != null ==>
              && filled == (old(info.realPhone) == "")
              && info.jidUser == (if old(info.jidUser) == "" then senderJID else old(info.jidUser))
              && info.realPhone == (if old(info.realPhone) != "" then old(info.realPhone)
                                    else if realPhone != "" then realPhone
                                    else FormatInt(sender))
              && info.realPhone != "" && info.known == old(info.known)
  {
    if info == null {
      return false;
    }
    if info.jidUser == "" {
      info.jidUser := senderJID;
    }
    if info.realPhone != "" {
      return false;
    }
    DecimalIsDigits(sender);
    info.realPhone := if realPhone != "" then realPhone else FormatInt(sender);
    filled := true;
  }
}
