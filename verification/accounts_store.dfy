/**
 The account routes as they run: loops over devices and topics, one row at a time, proved to reach the closed forms.
 */
module AccountStores {
  import opened Common
  import opened Tiers
  import opened BillingView
  import opened AccountModel
  import opened AccountMerge
  import opened AccountPacks

  // ---------------------------------------------------------------- one round of each loop

  /** One device: its subscriptions go, it changes account, and it is swept into the topics there. */
  function MoveOne(db: Db, d: DeviceId, into: AccountId): Db {
    SweepDeviceIntoTopics(db.(subs := (set s | s in db.subs && s.0 != d), devices := db.devices[d := into]), into, d)
  }

  lemma MoveNext(db: Db, done: set<DeviceId>, d: DeviceId, into: AccountId)
    requires d in db.devices && d !in done
    ensures MoveOne(MoveSet(db, done, into), d, into) == MoveSet(db, done + {d}, into)
  {
    var moved, next := MoveOne(MoveSet(db, done, into), d, into), MoveSet(db, done + {d}, into);
    assert moved.devices == next.devices;
    forall s ensures s in moved.subs <==> s in next.subs {
    }
    assert moved.subs == next.subs;
  }

  /** One topic that nothing of the target takes. */
  function RepointTopic(db: Db, target: AccountId, t: TopicId): Db
    requires t in db.topics
  {
    SweepTopicIntoDevices(db.(topics := db.topics[t := db.topics[t].(account := target)]), target, db.topics[t].hash)
  }

  function MoveRows<Row>(rows: map<Row, TopicId>, t: TopicId, survivor: TopicId): map<Row, TopicId> {
    map r | r in rows :: if rows[r] == t then survivor else rows[r]
  }

  function MoveIncidents(incidents: map<IncidentId, Incident>, t: TopicId,
                         survivor: TopicId): map<IncidentId, Incident> {
    map i | i in incidents :: if incidents[i].topic == t then incidents[i].(topic := survivor) else incidents[i]
  }

  /** One topic that is folded into another. */
  function FoldTopic(db: Db, t: TopicId, survivor: TopicId): Db {
    db.(topics := db.topics - {t},
        tokens := MoveRows(db.tokens, t, survivor),
        incidents := MoveIncidents(db.incidents, t, survivor),
        messages := MoveRows(db.messages, t, survivor))
  }

  /** What the query for a survivor finds among the topics as they are by then. */
  lemma SurvivorIsTaker(topics: map<TopicId, Topic>, source: AccountId, target: AccountId, done: set<TopicId>,
                        t: TopicId, s: TopicId)
    requires TopicsOk(topics) && FoldsFrom(topics, source, target, done) && t in topics &&
             topics[t].account == source && t !in done
    ensures var now := FoldedTopics(topics, target, done);
            t in now && now[t] == topics[t] && (Takes(now, target, t, s) <==> Takes(topics, target, t, s))
  {
    var now := FoldedTopics(topics, target, done);
    if s in done && s in now && topics[s].hash == topics[t].hash {
      HashFixesName(topics[s].baseUrl, topics[s].name, topics[t].baseUrl, topics[t].name);
    }
  }

  lemma SurvivorNow(topics: map<TopicId, Topic>, source: AccountId, target: AccountId, done: set<TopicId>, t: TopicId)
    requires TopicsOk(topics) && ComesNext(topics, source, target, done, t)
    ensures var now := FoldedTopics(topics, target, done);
            && t in now && now[t] == topics[t]
            && (forall s :: Takes(now, target, t, s) <==> Takes(topics, target, t, s))
            && ((forall s :: s in now && now[s].account == target ==>
                 now[s].hash != now[t].hash && now[s].name != now[t].name)
                ==> !Folds(topics, target, t))
  {
    var now := FoldedTopics(topics, target, done);
    forall s ensures t in now && now[t] == topics[t] && (Takes(now, target, t, s) <==> Takes(topics, target, t, s)) {
      SurvivorIsTaker(topics, source, target, done, t, s);
    }
  }

  /** The topic comes next among the topics of the source that are left. */
  ghost predicate ComesNext(topics: map<TopicId, Topic>, source: AccountId, target: AccountId, done: set<TopicId>,
                            t: TopicId) {
    FoldsFrom(topics, source, target, done) && t in topics && topics[t].account == source && t !in done
  }

  lemma RepointSweep(topics: map<TopicId, Topic>, devices: map<DeviceId, AccountId>, source: AccountId,
                     target: AccountId, done: set<TopicId>, t: TopicId)
    requires ComesNext(topics, source, target, done, t) && !Folds(topics, target, t)
    ensures Swept(topics, devices, target, done) + (set d | d in devices && devices[d] == target :: (d, topics[t].hash))
         == Swept(topics, devices, target, done + {t})
  {
  }

  lemma RepointNext(db: Db, source: AccountId, target: AccountId, done: set<TopicId>, t: TopicId)
    requires ComesNext(db.topics, source, target, done, t) && !Folds(db.topics, target, t)
    ensures t in FoldedTopics(db.topics, target, done)
    ensures RepointTopic(FoldTopics(db, target, done), target, t) == FoldTopics(db, target, done + {t})
  {
    RepointSweep(db.topics, db.devices, source, target, done, t);
    assert FoldedRows(db.topics, target, done + {t}, db.tokens) == FoldedRows(db.topics, target, done, db.tokens);
    assert FoldedIncidents(db.topics, target, done + {t}, db.incidents) ==
           FoldedIncidents(db.topics, target, done, db.incidents);
    assert FoldedRows(db.topics, target, done + {t}, db.messages) == FoldedRows(db.topics, target, done, db.messages);
    RepointSubs(db, target, done, t);
  }

  lemma RepointSubs(db: Db, target: AccountId, done: set<TopicId>, t: TopicId)
    requires t in db.topics && t in FoldedTopics(db.topics, target, done) &&
             FoldedTopics(db.topics, target, done)[t] == db.topics[t]
    ensures RepointTopic(FoldTopics(db, target, done), target, t).subs
         == db.subs + (Swept(db.topics, db.devices, target, done)
                       + set d | d in db.devices && db.devices[d] == target :: (d, db.topics[t].hash))
  {
  }

  /** What the query for a survivor answers. */
  ghost predicate IsSurvivor(topics: map<TopicId, Topic>, target: AccountId, t: TopicId, survivor: Option<TopicId>)
    requires t in topics
  {
    match survivor
    case Some(s) => Takes(topics, target, t, s)
    case None => forall s :: s in topics && topics[s].account == target ==>
        topics[s].hash != topics[t].hash && topics[s].name != topics[t].name
  }

  function PlaceTopic(db: Db, target: AccountId, t: TopicId, survivor: Option<TopicId>): Db
    requires t in db.topics
  {
    if survivor.None? then RepointTopic(db, target, t) else FoldTopic(db, t, survivor.value)
  }

  /** The first half of a merge: tombstones, topics and devices. */
  ghost function RowsMoved(db: Db, source: AccountId, target: AccountId): (moved: Db)
    ensures moved.accounts.Keys == db.accounts.Keys
  {
    var repointed := RepointTombstones(db, source, target);
    MoveDevices(FoldTopics(repointed, target, TopicsOf(repointed, source)), source, target)
  }

  /** The second half: billing ids, grants, counts and the tombstone. */
  function Settled(db: Db, source: AccountId, target: AccountId): Db
    requires source in db.accounts && target in db.accounts
  {
    Tombstone(MoveHeld(MoveBilling(db, source, target), source, target), source, target)
  }

  /** One round of the loop, whichever way it goes. */
  lemma PlaceNext(db: Db, source: AccountId, target: AccountId, done: set<TopicId>, t: TopicId,
                  survivor: Option<TopicId>)
    requires TopicsOk(db.topics) && ComesNext(db.topics, source, target, done, t)
    requires t in FoldedTopics(db.topics, target, done) &&
             IsSurvivor(FoldedTopics(db.topics, target, done), target, t, survivor)
    ensures PlaceTopic(FoldTopics(db, target, done), target, t, survivor) == FoldTopics(db, target, done + {t})
  {
    SurvivorNow(db.topics, source, target, done, t);
    if survivor.None? {
      RepointNext(db, source, target, done, t);
    } else {
      FoldNext(db, source, target, done, t, survivor.value);
    }
  }

  lemma HeirNext(topics: map<TopicId, Topic>, source: AccountId, target: AccountId, done: set<TopicId>, t: TopicId,
                 survivor: TopicId, s: TopicId)
    requires TopicsOk(topics) && ComesNext(topics, source, target, done, t) && Takes(topics, target, t, survivor)
    ensures Heir(topics, target, done + {t}, s) == if Heir(topics, target, done, s) == t then survivor
            else Heir(topics, target, done, s)
  {
    var heir := Heir(topics, target, done, s);
    if s in topics && s in done && Folds(topics, target, s) {
      assert topics[heir].account == target;
    }
    if s == t {
      OneTaker(topics, target, t, survivor, Heir(topics, target, done + {t}, t));
    }
  }

  lemma RowsNext<Row>(topics: map<TopicId, Topic>, source: AccountId, target: AccountId, done: set<TopicId>,
                      t: TopicId, survivor: TopicId, rows: map<Row, TopicId>)
    requires TopicsOk(topics) && ComesNext(topics, source, target, done, t) && Takes(topics, target, t, survivor)
    ensures MoveRows(FoldedRows(topics, target, done, rows), t, survivor) ==
            FoldedRows(topics, target, done + {t}, rows)
  {
    forall r | r in rows
      ensures MoveRows(FoldedRows(topics, target, done, rows), t, survivor)[r] ==
              FoldedRows(topics, target, done + {t}, rows)[r] {
      HeirNext(topics, source, target, done, t, survivor, rows[r]);
    }
  }

  lemma IncidentsNext(topics: map<TopicId, Topic>, source: AccountId, target: AccountId, done: set<TopicId>,
                      t: TopicId, survivor: TopicId, incidents: map<IncidentId, Incident>)
    requires TopicsOk(topics) && ComesNext(topics, source, target, done, t) && Takes(topics, target, t, survivor)
    ensures MoveIncidents(FoldedIncidents(topics, target, done, incidents), t, survivor) ==
            FoldedIncidents(topics, target, done + {t}, incidents)
  {
    forall i | i in incidents
      ensures MoveIncidents(FoldedIncidents(topics, target, done, incidents), t, survivor)[i]
           == FoldedIncidents(topics, target, done + {t}, incidents)[i] {
      HeirNext(topics, source, target, done, t, survivor, incidents[i].topic);
    }
  }

  lemma FoldNext(db: Db, source: AccountId, target: AccountId, done: set<TopicId>, t: TopicId, survivor: TopicId)
    requires TopicsOk(db.topics) && ComesNext(db.topics, source, target, done, t) &&
             Takes(db.topics, target, t, survivor)
    ensures FoldTopic(FoldTopics(db, target, done), t, survivor) == FoldTopics(db, target, done + {t})
  {
    assert Folds(db.topics, target, t);
    assert FoldedTopics(db.topics, target, done) - {t} == FoldedTopics(db.topics, target, done + {t});
    RowsNext(db.topics, source, target, done, t, survivor, db.tokens);
    IncidentsNext(db.topics, source, target, done, t, survivor, db.incidents);
    RowsNext(db.topics, source, target, done, t, survivor, db.messages);
    assert Swept(db.topics, db.devices, target, done) == Swept(db.topics, db.devices, target, done + {t});
  }

  ghost predicate GivenBy(billing: map<CustomerId, BillingId>, among: set<CustomerId>, account: AccountId, pack: Pack,
                          end: Option<int>, now: int, storeReads: bool) {
    exists c :: c in among && c in billing && billing[c].account == account && pack in billing[c].packs
                && billing[c].packs[pack] == end && (storeReads || Unended(end, now))
  }

  /** The rows of one holder that count now. */
  method RowsThatCount(packs: Packs, now: int, always: bool) returns (rows: seq<Held>)
    ensures forall pack, end :: Held(pack, end) in rows <==>
            pack in packs && packs[pack] == end && (always || Unended(end, now))
  {
    rows := [];
    var left := packs.Keys;
    while left != {}
      invariant left <= packs.Keys
      invariant forall pack, end :: Held(pack, end) in rows <==>
                pack in packs && pack !in left && packs[pack] == end && (always || Unended(end, now))
      decreases left
    {
      var pack :| pack in left;
      left := left - {pack};
      if always || packs[pack].None? || packs[pack].value > now {
        rows := rows + [Held(pack, packs[pack])];
      }
    }
  }

  // ---------------------------------------------------------------- the tables and the routes

  class AccountStore {
    var accounts: map<AccountId, Account>
    var devices: map<DeviceId, AccountId>
    var identities: map<UserId, AccountId>
    var topics: map<TopicId, Topic>
    var tokens: map<TokenHash, TopicId>
    var incidents: map<IncidentId, Incident>
    var messages: map<MessageId, TopicId>
    var subs: set<(DeviceId, TopicHash)>
    var billing: map<CustomerId, BillingId>
    var grants: map<AccountId, Packs>
    var p4: map<AccountId, map<int, nat>>
    ghost var buried: map<AccountId, nat>
    ghost var burials: nat

    ghost function Tables(): Db
      reads this
    {
      Db(accounts, devices, identities, topics, tokens, incidents, messages, subs, billing, grants, p4, buried, burials)
    }

    constructor ()
      ensures Tables() == Db(map[], map[], map[], map[], map[], map[], map[], {}, map[], map[], map[], map[], 0)
    {
      accounts, devices, identities, topics, tokens := map[], map[], map[], map[], map[];
      incidents, messages, subs, billing, grants, p4 := map[], map[], {}, map[], map[], map[];
      buried, burials := map[], 0;
    }

    // ---------------------------------------------------------------- hops

    method FollowToLive(id: AccountId) returns (live: AccountId)
      ensures live == Live(Tables(), id)
    {
      live := id;
      var hop := 0;
      while hop < MAX_HOPS
        invariant 0 <= hop <= MAX_HOPS
        invariant Live(Tables(), id) == LiveAccount(accounts, live, MAX_HOPS - hop)
        decreases MAX_HOPS - hop
      {
        if live !in accounts || accounts[live].mergedInto.None? {
          return;
        }
        live := accounts[live].mergedInto.value;
        hop := hop + 1;
      }
    }

    method AccountFamily(account: AccountId) returns (family: set<AccountId>)
      ensures family == FamilyOf(Tables(), account)
    {
      family := {account};
      var hop := 0;
      while hop < MAX_HOPS
        invariant 0 <= hop <= MAX_HOPS
        invariant FamilyOf(Tables(), account) == Family(accounts, family, MAX_HOPS - hop)
        decreases MAX_HOPS - hop
      {
        var found := set a | a in accounts && accounts[a].mergedInto.Some? &&
            accounts[a].mergedInto.value in family && a !in family;
        if found == {} {
          return;
        }
        family := family + found;
        hop := hop + 1;
      }
    }

    // ---------------------------------------------------------------- devices

    method SweepDevice(account: AccountId, d: DeviceId)
      modifies this`subs
      ensures Tables() == SweepDeviceIntoTopics(old(Tables()), account, d)
    {
      subs := subs + set t | t in topics && topics[t].account == account :: (d, topics[t].hash);
    }

    method SweepTopic(account: AccountId, hash: TopicHash)
      modifies this`subs
      ensures Tables() == SweepTopicIntoDevices(old(Tables()), account, hash)
    {
      subs := subs + set d | d in devices && devices[d] == account :: (d, hash);
    }

    method MoveDevice(d: DeviceId, into: AccountId)
      modifies this`devices, this`subs
      ensures Tables() == MoveOne(old(Tables()), d, into)
    {
      subs := set s | s in subs && s.0 != d;
      devices := devices[d := into];
      SweepDevice(into, d);
    }

    method MoveDevicesOf(from: AccountId, into: AccountId)
      modifies this`devices, this`subs
      ensures Tables() == MoveDevices(old(Tables()), from, into)
    {
      var all, done := set d | d in devices && devices[d] == from, {};
      ghost var before := Tables();
      while all - done != {}
        invariant done <= all == DevicesOf(before, from)
        invariant Tables() == MoveSet(before, done, into)
        decreases all - done
      {
        var d :| d in all - done;
        MoveNext(before, done, d, into);
        MoveDevice(d, into);
        done := done + {d};
      }
      assert done == all;
    }

    method Bury(account: AccountId, into: AccountId)
      requires account in accounts
      modifies this`accounts, this`identities, this`buried, this`burials
      ensures Tables() == Tombstone(old(Tables()), account, into)
    {
      ghost var before := Tables();
      var row := accounts[account].(mergedInto := Some(into), joinHash := None);
      accounts := accounts[account := row];
      identities := MoveIdentities(identities, account, into);
      buried := buried[account := burials];
      burials := burials + 1;
      assert Tables() == before.(accounts := before.accounts[account := row],
                                 identities := MoveIdentities(before.identities, account, into),
                                 buried := before.buried[account := before.burials], burials := before.burials + 1);
    }

    method Insert(d: DeviceId, account: AccountId) returns (inserted: bool)
      modifies this`devices, this`subs
      ensures Tables() == InsertDevice(old(Tables()), d, account)
      ensures inserted == (|DevicesOf(old(Tables()), account)| < DEVICE_CAP)
    {
      var count := |set d | d in devices && devices[d] == account|;
      if count >= DEVICE_CAP {
        return false;
      }
      devices := devices[d := account];
      SweepDevice(account, d);
      return true;
    }

    // ---------------------------------------------------------------- topics

    method FindSurvivor(target: AccountId, hash: TopicHash, name: string) returns (survivor: Option<TopicId>)
      ensures survivor.Some? ==> survivor.value in topics && topics[survivor.value].account == target
                                 && (topics[survivor.value].hash == hash || topics[survivor.value].name == name)
      ensures survivor.None? ==> forall t :: t in topics && topics[t].account == target ==>
              topics[t].hash != hash && topics[t].name != name
    {
      var left := topics.Keys;
      while left != {}
        invariant left <= topics.Keys
        invariant forall t :: t in topics && t !in left && topics[t].account == target ==>
                  topics[t].hash != hash && topics[t].name != name
        decreases |left|
      {
        var t :| t in left;
        if topics[t].account == target && (topics[t].hash == hash || topics[t].name == name) {
          return Some(t);
        }
        left := left - {t};
      }
      return None;
    }

    method Repoint(t: TopicId, target: AccountId)
      requires t in topics
      modifies this`topics, this`subs
      ensures Tables() == RepointTopic(old(Tables()), target, t)
    {
      var hash := topics[t].hash;
      topics := topics[t := topics[t].(account := target)];
      SweepTopic(target, hash);
    }

    method FoldInto(t: TopicId, survivor: TopicId)
      modifies this`topics, this`tokens, this`incidents, this`messages
      ensures Tables() == FoldTopic(old(Tables()), t, survivor)
    {
      tokens := MoveRows(tokens, t, survivor);
      incidents := MoveIncidents(incidents, t, survivor);
      messages := MoveRows(messages, t, survivor);
      topics := topics - {t};
    }

    /** One topic of the loop: repointed if nothing of the target takes it, else folded into what does. */
    method FoldOne(target: AccountId, t: TopicId) returns (survivor: Option<TopicId>)
      requires t in topics
      modifies this`topics, this`tokens, this`incidents, this`messages, this`subs
      ensures IsSurvivor(old(topics), target, t, survivor)
      ensures Tables() == PlaceTopic(old(Tables()), target, t, survivor)
    {
      survivor := FindSurvivor(target, topics[t].hash, topics[t].name);
      if survivor.None? {
        Repoint(t, target);
      } else {
        FoldInto(t, survivor.value);
      }
    }

    method FoldStep(ghost before: Db, ghost source: AccountId, target: AccountId, ghost done: set<TopicId>, t: TopicId)
      requires source != target && TopicsOk(before.topics) && done <= TopicsOf(before, source) &&
               t in TopicsOf(before, source) - done
      requires Tables() == FoldTopics(before, target, done)
      modifies this`topics, this`tokens, this`incidents, this`messages, this`subs
      ensures Tables() == FoldTopics(before, target, done + {t})
    {
      var survivor := FoldOne(target, t);
      PlaceNext(before, source, target, done, t, survivor);
    }

    method FoldAll(ghost before: Db, source: AccountId, target: AccountId)
      requires source != target && TopicsOk(before.topics) && Tables() == before
      modifies this`topics, this`tokens, this`incidents, this`messages, this`subs
      ensures Tables() == FoldTopics(before, target, TopicsOf(before, source))
    {
      var all, done := set t | t in topics && topics[t].account == source, {};
      while all - done != {}
        invariant done <= all == TopicsOf(before, source)
        invariant Tables() == FoldTopics(before, target, done)
        decreases all - done
      {
        var t :| t in all - done;
        FoldStep(before, source, target, done, t);
        done := done + {t};
      }
      assert done == all;
    }

    // ---------------------------------------------------------------- tiers

    method HighestTier(account: AccountId) returns (highest: Tier)
      ensures highest == HighestBilled(Tables(), account)
    {
      highest := Free;
      var left := billing.Keys;
      while left != {}
        invariant left <= billing.Keys
        invariant forall c :: c in billing && c !in left && billing[c].account == account ==>
                  !IsHigherTier(billing[c].tier, highest)
        invariant highest == Free ||
                  exists c :: c in billing && billing[c].account == account && billing[c].tier == highest
        decreases |left|
      {
        var c :| c in left;
        left := left - {c};
        if billing[c].account == account && IsHigherTier(billing[c].tier, highest) {
          highest := billing[c].tier;
        }
      }
    }

    method MoveBillingIds(source: AccountId, target: AccountId)
      requires target in accounts
      modifies this`billing, this`accounts
      ensures Tables() == MoveBilling(old(Tables()), source, target)
    {
      billing := MoveIds(billing, source, target);
      ghost var moved := Tables();
      var before := accounts[target].tier;
      var recomputed := HighestTier(target);
      var after := if IsHigherTier(recomputed, before) then recomputed else before;
      accounts := accounts[target := accounts[target].(tier := after)];
    }

    // ---------------------------------------------------------------- packs

    method RowsGiven(account: AccountId, now: int, storeReads: bool) returns (rows: seq<Held>)
      ensures forall pack, end :: Held(pack, end) in rows <==> GivesPack(Tables(), account, pack, end, now, storeReads)
    {
      rows := [];
      var left := billing.Keys;
      while left != {}
        invariant left <= billing.Keys
        invariant forall pack, end :: Held(pack, end) in rows <==>
                  GivenBy(billing, billing.Keys - left, account, pack, end, now, storeReads)
        decreases left
      {
        var c :| c in left;
        left := left - {c};
        if billing[c].account == account {
          var more := RowsThatCount(billing[c].packs, now, storeReads);
          rows := rows + more;
        }
      }
      var granted := RowsThatCount(RowsOf(grants, account), now, false);
      rows := rows + granted;
      assert billing.Keys - left == billing.Keys;
    }

    /** `packsFor`: what customer ids hold, what was granted, and what the configuration attaches to the tier. */
    method PacksFor(account: AccountId, now: int, storeReads: bool, includes: map<Tier, seq<Pack>>)
        returns (best: Packs)
      ensures account !in accounts ==> best == map[]
      ensures account in accounts ==>
                forall pack :: IsPackId(pack) ==>
                  if accounts[account].tier in includes && pack in includes[accounts[account].tier]
                  then Answer(best, pack) == Some(None)
                  else Reports(Tables(), account, pack, now, storeReads, Answer(best, pack))
    {
      if account !in accounts {
        return map[];
      }
      var rows := RowsGiven(account, now, storeReads);
      var attached := if accounts[account].tier in includes then includes[accounts[account].tier] else [];
      var all := rows + seq(|attached|, i requires 0 <= i < |attached| => Held(attached[i], None));
      best := BestEnds(all);
      forall pack | IsPackId(pack)
        ensures if pack in attached then Answer(best, pack) == Some(None)
                else Reports(Tables(), account, pack, now, storeReads, Answer(best, pack)) {
        if pack in attached {
          var i :| 0 <= i < |attached| && attached[i] == pack;
          assert all[|rows| + i] == Held(pack, None);
        } else {
          BestIsReported(Tables(), account, pack, now, storeReads, all, best);
        }
      }
    }

    // ---------------------------------------------------------------- the routes

    method Link(sourceAccount: AccountId, identity: Option<UserId>, intent: Intent) returns (outcome: LinkOutcome)
      requires Referenced(Tables()) && sourceAccount in accounts
      modifies this
      ensures (Tables(), outcome) == LinkIdentity(old(Tables()), sourceAccount, identity, intent)
    {
      if identity.None? {
        return LinkUnauthorized;
      }
      var user := identity.value;
      var source := FollowToLive(sourceAccount);
      var target := None;
      if user in identities {
        var live := FollowToLive(identities[user]);
        target := Some(live);
      }
      if target == Some(source) {
        return AlreadyLinked(source);
      }
      var holders := set holder | holder in identities && identities[holder] == source;
      if target.None? {
        if holders != {} && intent.SignIn? {
          return AccountHasAnotherIdentity;
        }
        identities := identities[user := source];
        return if holders != {} then Linked(source) else Claimed(source);
      }
      if intent.SignIn? && holders != {} && user !in holders {
        return AccountHasAnotherIdentity;
      }
      outcome := LinkToKnown(source, target.value, intent);
    }

    /** The account goes to the person's own one when nothing is in it, and else they are asked. */
    method LinkToKnown(source: AccountId, target: AccountId, intent: Intent) returns (outcome: LinkOutcome)
      requires Referenced(Tables()) && source in accounts && source != target
      modifies this
      ensures (Tables(), outcome) ==
              if IsEmpty(old(Tables()), source) then
                (Tombstone(MoveDevices(old(Tables()), source, target), source, target), Attached(target))
              else if intent.LinkProvider? then (old(Tables()), IdentityHasAnotherAccount)
              else (old(Tables()), Choose(target, |TopicsOf(old(Tables()), source)|,
                                          |IncidentsOf(old(Tables()), source)|))
    {
      var owned := set t | t in topics && topics[t].account == source;
      var held := set i | i in incidents && incidents[i].topic in topics &&
          topics[incidents[i].topic].account == source;
      if |owned| == 0 && |held| == 0 {
        MoveDevicesOf(source, target);
        Bury(source, target);
        return Attached(target);
      }
      if intent.LinkProvider? {
        return IdentityHasAnotherAccount;
      }
      return Choose(target, |owned|, |held|);
    }

    method RevokeTokens(account: AccountId)
      modifies this`tokens
      ensures Tables() == RevokeTopicTokens(old(Tables()), account)
    {
      var owned := set t | t in topics && topics[t].account == account;
      tokens := map h | h in tokens && tokens[h] !in owned :: tokens[h];
    }

    method Switch(sourceAccount: AccountId, identity: Option<UserId>, intoAccount: AccountId)
        returns (outcome: SwitchOutcome)
      requires Referenced(Tables()) && sourceAccount in accounts
      modifies this
      ensures (Tables(), outcome) == SwitchAccount(old(Tables()), sourceAccount, identity, intoAccount)
    {
      if identity.None? {
        return SwitchUnauthorized;
      }
      var user := identity.value;
      if user !in identities {
        return SwitchUnauthorized;
      }
      var target := FollowToLive(identities[user]);
      var into := FollowToLive(intoAccount);
      if target != into {
        return SwitchUnauthorized;
      }
      var source := FollowToLive(sourceAccount);
      if source == target {
        return Switched(target);
      }
      var claimed := IsClaimedBySomebodyElse(source, user);
      if claimed {
        return SwitchHasAnotherIdentity;
      }
      MoveDevicesOf(source, target);
      RevokeTokens(source);
      Bury(source, target);
      return Switched(target);
    }

    method RepointOlder(source: AccountId, target: AccountId)
      modifies this`accounts
      ensures Tables() == RepointTombstones(old(Tables()), source, target)
    {
      accounts := map a | a in accounts :: if accounts[a].mergedInto == Some(source)
          then accounts[a].(mergedInto := Some(target)) else accounts[a];
    }

    method MoveRowsOver(source: AccountId, target: AccountId)
      requires source != target && TopicsOk(topics)
      modifies this`accounts, this`topics, this`tokens, this`incidents, this`messages, this`subs, this`devices
      ensures Tables() == RowsMoved(old(Tables()), source, target)
    {
      RepointOlder(source, target);
      ghost var repointed := Tables();
      FoldAll(repointed, source, target);
      MoveDevicesOf(source, target);
    }

    method MoveHeldRows(source: AccountId, target: AccountId)
      modifies this`grants, this`p4
      ensures Tables() == MoveHeld(old(Tables()), source, target)
    {
      grants := MoveGrants(grants, source, target);
      p4 := MoveP4(p4, source, target);
    }

    method Settle(source: AccountId, target: AccountId)
      requires source in accounts && target in accounts
      modifies this`accounts, this`billing, this`grants, this`p4, this`identities, this`buried, this`burials
      ensures Tables() == Settled(old(Tables()), source, target)
    {
      MoveBillingIds(source, target);
      MoveHeldRows(source, target);
      Bury(source, target);
    }

    /** The transaction of a merge. */
    method Fold(source: AccountId, target: AccountId)
      requires source in accounts && target in accounts && source != target && TopicsOk(topics)
      modifies this
      ensures Tables() == MergeInto(old(Tables()), source, target)
    {
      MoveRowsOver(source, target);
      Settle(source, target);
    }

    method ActiveIncident(families: set<AccountId>) returns (ringing: Option<IncidentId>)
      ensures ringing.Some? ==> ActiveOn(Tables(), ringing.value, families)
      ensures ringing.None? ==> forall i :: !ActiveOn(Tables(), i, families)
    {
      var left := incidents.Keys;
      while left != {}
        invariant left <= incidents.Keys
        invariant forall i :: i !in left ==> !ActiveOn(Tables(), i, families)
        decreases left
      {
        var i :| i in left;
        if incidents[i].active && incidents[i].topic in topics && topics[incidents[i].topic].account in families {
          return Some(i);
        }
        left := left - {i};
      }
      return None;
    }

    method IsClaimedBySomebodyElse(account: AccountId, user: UserId) returns (claimed: bool)
      ensures claimed == ClaimedBySomebodyElse(Tables(), account, user)
    {
      var holders := set holder | holder in identities && identities[holder] == account;
      assert holders == Holders(Tables(), account);
      claimed := holders != {} && user !in holders;
    }

    /** An incident still open or acknowledged in the family of either account. */
    method RingingOnEither(source: AccountId, target: AccountId) returns (ringing: Option<IncidentId>)
      ensures ringing.Some? <==>
              exists i :: ActiveOn(Tables(), i, FamilyOf(Tables(), source) + FamilyOf(Tables(), target))
      ensures ringing.Some? ==>
              ActiveOn(Tables(), ringing.value, FamilyOf(Tables(), source) + FamilyOf(Tables(), target))
    {
      var ours := AccountFamily(source);
      var theirs := AccountFamily(target);
      ringing := ActiveIncident(ours + theirs);
    }

    method RefuseMerge(sourceAccount: AccountId, identity: Option<UserId>, intoAccount: AccountId)
      returns (refusal: Option<MergeOutcome>, source: AccountId, target: AccountId)
      ensures exists ringing :: MergeRefusal(Tables(), sourceAccount, identity, intoAccount, ringing) == refusal
      ensures refusal.Some? && refusal.value.LiveIncident? ==>
              refusal.value.incident in incidents && incidents[refusal.value.incident].active
      ensures refusal.None? ==>
                && source == Live(Tables(), sourceAccount) && identity.Some? && identity.value in identities
                && target == Live(Tables(), identities[identity.value]) && source != target
    {
      source, target := "", "";
      if identity.None? || identity.value !in identities {
        refusal := Some(MergeUnauthorized);
        assert MergeRefusal(Tables(), sourceAccount, identity, intoAccount, "") == refusal;
        return;
      }
      var user := identity.value;
      target := FollowToLive(identities[user]);
      var into := FollowToLive(intoAccount);
      source := FollowToLive(sourceAccount);
      var claimed := IsClaimedBySomebodyElse(source, user);
      if target != into || claimed {
        refusal := Some(MergeUnauthorized);
        assert MergeRefusal(Tables(), sourceAccount, identity, intoAccount, "") == refusal;
        return;
      }
      if (sourceAccount in accounts && accounts[sourceAccount].mergedInto.Some?) ||
          (intoAccount in accounts && accounts[intoAccount].mergedInto.Some?) {
        refusal := Some(AlreadyMerged);
        assert MergeRefusal(Tables(), sourceAccount, identity, intoAccount, "") == refusal;
        return;
      }
      if source == target {
        refusal := Some(SameAccount);
        assert MergeRefusal(Tables(), sourceAccount, identity, intoAccount, "") == refusal;
        return;
      }
      var ringing := RingingOnEither(source, target);
      refusal := if ringing.Some? then Some(LiveIncident(ringing.value)) else None;
      assert MergeRefusal(Tables(), sourceAccount, identity, intoAccount, ringing.GetOr("")) == refusal;
    }

    method Merge(sourceAccount: AccountId, identity: Option<UserId>, intoAccount: AccountId)
        returns (outcome: MergeOutcome)
      requires Referenced(Tables()) && sourceAccount in accounts && TopicsOk(topics)
      modifies this
      ensures exists ringing ::
                MergeAccounts(old(Tables()), sourceAccount, identity, intoAccount, ringing) == (Tables(), outcome)
    {
      var refusal, source, target := RefuseMerge(sourceAccount, identity, intoAccount);
      ghost var before := Tables();
      ghost var ringing :| MergeRefusal(before, sourceAccount, identity, intoAccount, ringing) == refusal;
      if refusal.Some? {
        outcome := refusal.value;
      } else {
        Fold(source, target);
        outcome := Merged(target, source);
      }
      assert MergeAccounts(before, sourceAccount, identity, intoAccount, ringing) == (Tables(), outcome);
    }
  }
}
