/**
 What registering, making topics, linking, switching and merging answer and write, row by row: the outcome matrix of the
 contract, read off the tables before the request.
 */
module AccountAnswers {
  import opened Common
  import opened Tiers
  import opened AccountModel
  import opened AccountForest

  // ---------------------------------------------------------------- leaving an account

  ghost predicate Bare(db: Db, account: AccountId) {
    && (forall t :: t in db.topics ==> db.topics[t].account != account)
    && forall i :: i in db.incidents && db.incidents[i].topic in db.topics ==>
         db.topics[db.incidents[i].topic].account != account
  }

  ghost predicate HasHash(db: Db, account: AccountId, hash: TopicHash) {
    exists t :: t in db.topics && db.topics[t].account == account && db.topics[t].hash == hash
  }

  /** A device that moved rings for exactly the topics of its new account; the others ring as they did. */
  ghost predicate SubscriptionsMove(db: Db, db': Db, source: AccountId, target: AccountId) {
    forall d, hash :: d in db.devices ==>
      ((d, hash) in db'.subs <==>
        if db.devices[d] == source then HasHash(db, target, hash) else (d, hash) in db.subs)
  }

  /** The devices and identities of `source` go to `target`, and nobody else's. */
  ghost predicate PeopleMove(db: Db, db': Db, source: AccountId, target: AccountId) {
    && db'.devices.Keys == db.devices.Keys && db'.identities.Keys == db.identities.Keys
    && (forall d :: d in db.devices ==>
          db'.devices[d] == if db.devices[d] == source then target else db.devices[d])
    && forall user :: user in db.identities ==>
         db'.identities[user] == if db.identities[user] == source then target else db.identities[user]
  }

  /** `source` is a tombstone that points at `target` and opens to nobody; its tier and every other account stay. */
  ghost predicate Buries(db: Db, db': Db, source: AccountId, target: AccountId) {
    && source in db.accounts && db'.accounts.Keys == db.accounts.Keys
    && db'.accounts[source] == Account(db.accounts[source].tier, Some(target), None)
    && forall a :: a in db.accounts && a != source ==> db'.accounts[a] == db.accounts[a]
  }

  /** Everybody on `source` moves to `target`; what hangs on topics, and what is paid for, stays where it is. */
  ghost predicate Leaves(db: Db, db': Db, source: AccountId, target: AccountId) {
    && PeopleMove(db, db', source, target) && SubscriptionsMove(db, db', source, target)
    && Buries(db, db', source, target)
    && (db'.topics, db'.incidents, db'.messages) == (db.topics, db.incidents, db.messages)
    && (db'.billing, db'.grants, db'.p4) == (db.billing, db.grants, db.p4)
  }

  /** Exactly the tokens of the account's topics are gone. */
  ghost predicate RevokesTokensOf(db: Db, db': Db, account: AccountId) {
    && (forall h :: h in db'.tokens <==>
          h in db.tokens && !(db.tokens[h] in db.topics && db.topics[db.tokens[h]].account == account))
    && forall h :: h in db'.tokens ==> db'.tokens[h] == db.tokens[h]
  }

  lemma InAllSubs(db: Db, ds: set<DeviceId>, account: AccountId, d: DeviceId, hash: TopicHash)
    ensures (d, hash) in AllSubs(db.topics, ds, account) <==> d in ds && HasHash(db, account, hash)
  {
    if d in ds && HasHash(db, account, hash) {
      var t :| t in db.topics && db.topics[t].account == account && db.topics[t].hash == hash;
      assert (d, db.topics[t].hash) in AllSubs(db.topics, ds, account);
    }
  }

  /** A device in `moved` rings for the topics of `into` alone; any other rings as it did. */
  lemma MovedRings(db: Db, moved: set<DeviceId>, into: AccountId, d: DeviceId, hash: TopicHash)
    ensures (d, hash) in MoveSet(db, moved, into).subs <==>
            if d in moved then HasHash(db, into, hash) else (d, hash) in db.subs
  {
    InAllSubs(db, moved, into, d, hash);
  }

  lemma MovingSubscribes(db: Db, source: AccountId, target: AccountId)
    ensures SubscriptionsMove(db, MoveDevices(db, source, target), source, target)
  {
    forall d, hash | d in db.devices
      ensures (d, hash) in MoveDevices(db, source, target).subs <==>
                if db.devices[d] == source then HasHash(db, target, hash) else (d, hash) in db.subs {
      MovedRings(db, DevicesOf(db, source), target, d, hash);
    }
  }

  lemma TombstoneBuries(db: Db, moved: Db, source: AccountId, target: AccountId)
    requires source in db.accounts && moved.accounts == db.accounts && moved.identities == db.identities
    requires moved.devices == MoveDevices(db, source, target).devices
    ensures var db' := Tombstone(moved, source, target);
            PeopleMove(db, db', source, target) && Buries(db, db', source, target)
  {
  }

  lemma MovingLeaves(db: Db, source: AccountId, target: AccountId)
    requires source in db.accounts
    ensures var db' := Tombstone(MoveDevices(db, source, target), source, target);
            Leaves(db, db', source, target) && db'.tokens == db.tokens
  {
    MovingSubscribes(db, source, target);
    TombstoneBuries(db, MoveDevices(db, source, target), source, target);
  }

  lemma MovingRevokes(db: Db, source: AccountId, target: AccountId)
    requires source in db.accounts
    ensures var db' := Tombstone(RevokeTopicTokens(MoveDevices(db, source, target), source), source, target);
            Leaves(db, db', source, target) && RevokesTokensOf(db, db', source)
  {
    MovingSubscribes(db, source, target);
    var moved := MoveDevices(db, source, target);
    TombstoneBuries(db, RevokeTopicTokens(moved, source), source, target);
    assert TopicsOf(moved, source) == TopicsOf(db, source);
  }

  // ---------------------------------------------------------------- link

  ghost predicate SomebodyHolds(db: Db, account: AccountId) {
    exists user :: user in db.identities && db.identities[user] == account
  }

  /** The topics of the account, and the incidents on them, each counted once. */
  ghost predicate Counts(db: Db, account: AccountId, topics: nat, incidents: nat) {
    && (exists ts: set<TopicId> ::
          |ts| == topics && forall t :: t in ts <==> t in db.topics && db.topics[t].account == account)
    && exists some: set<IncidentId> ::
         |some| == incidents && forall i :: i in some <==>
           i in db.incidents && db.incidents[i].topic in db.topics
           && db.topics[db.incidents[i].topic].account == account
  }

  /** The outcome matrix of linking, its rows in the contract's numbering. `source` is the caller's live account. */
  ghost predicate LinkRow(db: Db, source: AccountId, identity: Option<UserId>, intent: Intent, db': Db,
                          outcome: LinkOutcome) {
    if identity.None? then outcome == LinkUnauthorized && db' == db
    else if identity.value !in db.identities then
      if SomebodyHolds(db, source) && intent.SignIn? then outcome == AccountHasAnotherIdentity && db' == db // row 2
      else
        && outcome == (if SomebodyHolds(db, source) then Linked(source) else Claimed(source)) // rows 3 and 1
        && db' == db.(identities := db.identities[identity.value := source])
    else
      var home := db.identities[identity.value];
      if home == source then outcome == AlreadyLinked(source) && db' == db // row 7
      else if SomebodyHolds(db, source) && intent.SignIn? then outcome == AccountHasAnotherIdentity && db' == db
      else if Bare(db, source) then // row 4
        outcome == Attached(home) && Leaves(db, db', source, home) && db'.tokens == db.tokens
      else if intent.LinkProvider? then outcome == IdentityHasAnotherAccount && db' == db // row 6
      else // row 5
        outcome.Choose? && outcome.into == home && Counts(db, source, outcome.topics, outcome.incidents) && db' == db
  }

  lemma EmptyIsBare(db: Db, account: AccountId)
    ensures IsEmpty(db, account) <==> Bare(db, account)
    ensures Counts(db, account, |TopicsOf(db, account)|, |IncidentsOf(db, account)|)
  {
    var ts, some := TopicsOf(db, account), IncidentsOf(db, account);
    assert forall t :: t in ts <==> t in db.topics && db.topics[t].account == account;
    assert forall i :: i in some <==> i in db.incidents && db.incidents[i].topic in db.topics
                                      && db.topics[db.incidents[i].topic].account == account;
  }

  lemma HoldersAre(db: Db, account: AccountId, user: UserId)
    ensures Holders(db, account) != {} <==> SomebodyHolds(db, account)
    ensures ClaimedBySomebodyElse(db, account, user) <==>
            SomebodyHolds(db, account) && !(user in db.identities && db.identities[user] == account)
  {
    if SomebodyHolds(db, account) {
      var other :| other in db.identities && db.identities[other] == account;
      assert other in Holders(db, account);
    }
  }

  /** A link answers and writes what its row of the matrix says. */
  lemma LinkAnswers(db: Db, source: AccountId, identity: Option<UserId>, intent: Intent)
    requires Inv(db) && IsLive(db, source)
    ensures var (db', outcome) := LinkIdentity(db, source, identity, intent);
            LinkRow(db, source, identity, intent, db', outcome)
  {
    if identity.Some? {
      EmptyIsBare(db, source);
      HoldersAre(db, source, identity.value);
      if identity.value in db.identities && db.identities[identity.value] != source {
        MovingLeaves(db, source, db.identities[identity.value]);
      }
    }
  }

  /** The account a token publishes to, if it opens a topic. */
  ghost predicate PublishesTo(db: Db, token: TokenHash, account: AccountId) {
    token in db.tokens && db.tokens[token] in db.topics && db.topics[db.tokens[token]].account == account
  }

  /**
   A link never strands a topic: each that stood on a live account still does, unchanged, and so does the topic of every
   token, so whoever publishes still rings somebody's account.
   */
  lemma LinkStrandsNothing(db: Db, source: AccountId, identity: Option<UserId>, intent: Intent)
    requires Inv(db) && IsLive(db, source)
    ensures var db' := LinkIdentity(db, source, identity, intent).0;
            && db'.topics == db.topics && db'.tokens == db.tokens
            && (forall t :: t in db.topics && IsLive(db, db.topics[t].account) ==> IsLive(db', db.topics[t].account))
            && forall token, account :: PublishesTo(db, token, account) && IsLive(db, account) ==>
                 PublishesTo(db', token, account) && IsLive(db', account)
  {
    LinkAnswers(db, source, identity, intent);
  }

  // ---------------------------------------------------------------- switch

  /** The identity owns the account named, wherever that one leads. */
  ghost predicate Owns(db: Db, identity: Option<UserId>, into: AccountId) {
    identity.Some? && identity.value in db.identities && db.identities[identity.value] == Live(db, into)
  }

  ghost predicate SwitchRow(db: Db, source: AccountId, identity: Option<UserId>, into: AccountId, db': Db,
                            outcome: SwitchOutcome) {
    if !Owns(db, identity, into) then outcome == SwitchUnauthorized && db' == db
    else
      var home := db.identities[identity.value];
      if home == source then outcome == Switched(source) && db' == db
      else if SomebodyHolds(db, source) then outcome == SwitchHasAnotherIdentity && db' == db
      else outcome == Switched(home) && Leaves(db, db', source, home) && RevokesTokensOf(db, db', source)
  }

  lemma SwitchAnswers(db: Db, source: AccountId, identity: Option<UserId>, into: AccountId)
    requires Inv(db) && IsLive(db, source)
    ensures var (db', outcome) := SwitchAccount(db, source, identity, into);
            SwitchRow(db, source, identity, into, db', outcome)
  {
    if Owns(db, identity, into) {
      HoldersAre(db, source, identity.value);
      MovingRevokes(db, source, db.identities[identity.value]);
    }
  }

  /**
   After a switch that leaves an account no token opens a topic of it, and every other token opens exactly what it did;
   a switch that does not leave changes nothing.
   */
  lemma SwitchSilences(db: Db, source: AccountId, identity: Option<UserId>, into: AccountId, token: TokenHash,
                       name: string)
    requires Inv(db) && IsLive(db, source)
    ensures var db' := SwitchAccount(db, source, identity, into).0;
            if IsLive(db', source) then db' == db
            else Authenticates(db', token, name) <==> Authenticates(db, token, name) && !PublishesTo(db, token, source)
  {
    SwitchAnswers(db, source, identity, into);
  }

  // ---------------------------------------------------------------- merge

  /** An incident is open or acknowledged on a topic of an account whose tombstones lead to `account`, or its own. */
  ghost predicate RingsWithin(db: Db, i: IncidentId, account: AccountId) {
    && i in db.incidents && db.incidents[i].active && db.incidents[i].topic in db.topics
    && db.topics[db.incidents[i].topic].account in FamilyOf(db, account)
  }

  ghost predicate MergeRow(db: Db, source: AccountId, identity: Option<UserId>, into: AccountId, ringing: IncidentId,
                           db': Db, outcome: MergeOutcome) {
    if !Owns(db, identity, into) then outcome == MergeUnauthorized && db' == db
    else
      var home := db.identities[identity.value];
      if home != source && SomebodyHolds(db, source) then outcome == MergeUnauthorized && db' == db
      else if into in db.accounts && !IsLive(db, into) then outcome == AlreadyMerged && db' == db
      else if home == source then outcome == SameAccount && db' == db
      else if exists i :: RingsWithin(db, i, source) || RingsWithin(db, i, home)
      then outcome == LiveIncident(ringing) && db' == db
      else outcome == Merged(home, source) && Buried(db, db', source, home)
  }

  /** The source is a tombstone, and every tombstone that pointed at it points past it. */
  ghost predicate AccountsFold(accounts: map<AccountId, Account>, accounts': map<AccountId, Account>,
                               source: AccountId, target: AccountId) {
    && accounts'.Keys == accounts.Keys && source in accounts
    && accounts'[source] == Account(accounts[source].tier, Some(target), None)
    && forall a :: a in accounts && a != source ==>
         && accounts'[a].joinHash == accounts[a].joinHash
         && accounts'[a].mergedInto ==
            (if accounts[a].mergedInto == Some(source) then Some(target) else accounts[a].mergedInto)
         && (a != target ==> accounts'[a].tier == accounts[a].tier)
  }

  /** What the source's customer ids paid for they pay the target for. */
  ghost predicate BillingMoves(db: Db, db': Db, source: AccountId, target: AccountId) {
    && db'.billing.Keys == db.billing.Keys
    && forall c :: c in db.billing ==>
         && (db'.billing[c].tier, db'.billing[c].packs) == (db.billing[c].tier, db.billing[c].packs)
         && db'.billing[c].account == if db.billing[c].account == source then target else db.billing[c].account
  }

  /** Everybody moves to the target, the customer ids too, and nothing is granted or counted on the source any more. */
  ghost predicate Buried(db: Db, db': Db, source: AccountId, target: AccountId) {
    && PeopleMove(db, db', source, target) && AccountsFold(db.accounts, db'.accounts, source, target)
    && BillingMoves(db, db', source, target)
    && source !in db'.grants && source !in db'.p4
  }

  lemma BillingFolds(db: Db, moved: Db, source: AccountId, target: AccountId)
    requires source in db.accounts && target in db.accounts && source != target
    requires db.accounts[source].mergedInto.None? && moved.accounts == RepointTombstones(db, source, target).accounts
    requires moved.billing == db.billing
    ensures var billed := MoveBilling(moved, source, target);
            && BillingMoves(db, billed, source, target)
            && source in billed.accounts
            && AccountsFold(db.accounts, Tombstone(billed, source, target).accounts, source, target)
  {
  }

  lemma HeldIsGone(db: Db, source: AccountId, target: AccountId)
    requires source != target
    ensures var held := MoveHeld(db, source, target);
            source !in held.grants && source !in held.p4 && held == db.(grants := held.grants, p4 := held.p4)
  {
  }

  lemma MovedPeople(db: Db, moved: Db, source: AccountId, target: AccountId)
    requires source in moved.accounts
    requires moved.devices == MoveDevices(db, source, target).devices && moved.identities == db.identities
    ensures PeopleMove(db, Tombstone(moved, source, target), source, target)
  {
  }

  lemma BuriedBy(db: Db, moved: Db, source: AccountId, target: AccountId)
    requires IsLive(db, source) && IsLive(db, target) && source != target
    requires moved.accounts == RepointTombstones(db, source, target).accounts && moved.billing == db.billing
    requires moved.devices == MoveDevices(db, source, target).devices && moved.identities == db.identities
    ensures Buried(db, Tombstone(MoveHeld(MoveBilling(moved, source, target), source, target), source, target),
                   source, target)
  {
    var billed := MoveBilling(moved, source, target);
    BillingFolds(db, moved, source, target);
    HeldIsGone(billed, source, target);
    MovedPeople(db, MoveHeld(billed, source, target), source, target);
  }

  lemma FoldedPeople(db: Db, source: AccountId, target: AccountId)
    ensures var moved := MoveDevices(FoldTopics(RepointTombstones(db, source, target), target, TopicsOf(db, source)),
                                     source, target);
            && moved.accounts == RepointTombstones(db, source, target).accounts && moved.billing == db.billing
            && moved.devices == MoveDevices(db, source, target).devices && moved.identities == db.identities
  {
    var folded := FoldTopics(RepointTombstones(db, source, target), target, TopicsOf(db, source));
    assert DevicesOf(folded, source) == DevicesOf(db, source);
  }

  lemma MergeBuries(db: Db, source: AccountId, target: AccountId)
    requires IsLive(db, source) && IsLive(db, target) && source != target
    ensures Buried(db, MergeInto(db, source, target), source, target)
  {
    var moved := MoveDevices(FoldTopics(RepointTombstones(db, source, target), target, TopicsOf(db, source)), source,
                             target);
    FoldedPeople(db, source, target);
    BuriedBy(db, moved, source, target);
  }

  lemma ActiveIsWithin(db: Db, source: AccountId, target: AccountId)
    ensures (exists i :: ActiveOn(db, i, FamilyOf(db, source) + FamilyOf(db, target))) <==>
            exists i :: RingsWithin(db, i, source) || RingsWithin(db, i, target)
  {
    forall i ensures ActiveOn(db, i, FamilyOf(db, source) + FamilyOf(db, target)) <==>
                     RingsWithin(db, i, source) || RingsWithin(db, i, target) {
    }
  }

  /** The checks before a merge, one after the other. */
  lemma RefusalIs(db: Db, source: AccountId, identity: Option<UserId>, into: AccountId, ringing: IncidentId)
    requires Inv(db) && IsLive(db, source)
    ensures var refusal := MergeRefusal(db, source, identity, into, ringing);
            if !Owns(db, identity, into) then refusal == Some(MergeUnauthorized)
            else
              var home := db.identities[identity.value];
              refusal ==
                if home != source && SomebodyHolds(db, source) then Some(MergeUnauthorized)
                else if into in db.accounts && !IsLive(db, into) then Some(AlreadyMerged)
                else if home == source then Some(SameAccount)
                else if exists i :: RingsWithin(db, i, source) || RingsWithin(db, i, home)
                    then Some(LiveIncident(ringing))
                else None
  {
    if Owns(db, identity, into) {
      HoldersAre(db, source, identity.value);
      ActiveIsWithin(db, source, db.identities[identity.value]);
    }
  }

  /** When the caller's account and the one the identity lives on are two, and nothing forbids it, they become one. */
  lemma MergeAnswers(db: Db, source: AccountId, identity: Option<UserId>, into: AccountId, ringing: IncidentId)
    requires Inv(db) && Referenced(db) && IsLive(db, source)
    ensures var (db', outcome) := MergeAccounts(db, source, identity, into, ringing);
            MergeRow(db, source, identity, into, ringing, db', outcome)
  {
    RefusalIs(db, source, identity, into, ringing);
    if MergeRefusal(db, source, identity, into, ringing).None? {
      var home := db.identities[identity.value];
      assert MergeAccounts(db, source, identity, into, ringing) == (MergeInto(db, source, home), Merged(home, source));
      MergeBuries(db, source, home);
    }
  }

  // ---------------------------------------------------------------- devices and topics

  /** A minted token opens the account its caller's leads to, instead of the one before, and nothing else moves. */
  lemma MintAnswers(db: Db, source: AccountId, joinHash: TokenHash)
    requires Inv(db) && IsLive(db, source)
    ensures var db' := MintJoinToken(db, source, joinHash);
            && db' == db.(accounts := db'.accounts) && db'.accounts.Keys == db.accounts.Keys
            && HoldsJoinHash(db', source, joinHash) && IsLive(db', source)
            && (forall other :: HoldsJoinHash(db', source, other) ==> other == joinHash)
            && db'.accounts[source].tier == db.accounts[source].tier
            && forall a :: a in db.accounts && a != source ==> db'.accounts[a] == db.accounts[a]
  {
  }

  /** A new account is free, live and open to its join token, and its first device is on it. */
  lemma RegisterAnswers(db: Db, account: AccountId, d: DeviceId, joinHash: TokenHash)
    requires account !in db.accounts && d !in db.devices && Referenced(db)
    ensures var db' := Register(db, account, d, joinHash);
            && db' == db.(accounts := db'.accounts, devices := db'.devices, subs := db'.subs)
            && db'.accounts == db.accounts[account := Account(Tier.Free, None, Some(joinHash))]
            && db'.devices == db.devices[d := account]
  {
    assert DevicesOf(db.(accounts := db.accounts[account := Account(Tier.Free, None, Some(joinHash))]), account) == {};
  }

  /** A device is taken in while the account has fewer than five, and rings for its topics from then on. */
  lemma InsertAnswers(db: Db, d: DeviceId, account: AccountId)
    requires d !in db.devices
    ensures var db' := InsertDevice(db, d, account);
            if |DevicesOf(db, account)| < 5 then
              && db' == db.(devices := db.devices[d := account], subs := db'.subs)
              && forall other, hash ::
                   (other, hash) in db'.subs <==>
                   (other, hash) in db.subs
                   || (other == d && HasHash(db, account, hash))
            else db' == db
  {
  }

  /** The names topics may have: 1 to 64 letters, digits, dashes and underscores. */
  predicate NamesTopic(name: string) {
    && 0 < |name| < 65
    && forall c :: c in name ==> c in "-_" || 'a' <= c <= 'z' || 'A' <= c <= 'Z' || c in "0123456789"
  }

  lemma NameIs(name: string)
    ensures IsTopicName(name) <==> NamesTopic(name)
  {
    forall i | 0 <= i < |name| ensures name[i] in name {
    }
  }

  ghost predicate HasTopic(db: Db, account: AccountId, name: string) {
    exists t :: t in db.topics && db.topics[t].account == account && db.topics[t].name == name
  }

  /**
   A topic is made if its name is one and its account has none of that name: its token opens it, every device rings.
   */
  lemma CreateAnswers(db: Db, account: AccountId, t: TopicId, baseUrl: string, name: string, token: TokenHash)
    requires t !in db.topics && token !in db.tokens
    ensures var db' := CreateTopic(db, account, t, baseUrl, name, token);
            if NamesTopic(name) && !HasTopic(db, account, name) then
              && db' == db.(topics := db'.topics, tokens := db'.tokens, subs := db'.subs)
              && db'.topics == db.topics[t := Topic(account, name, baseUrl, baseUrl + "/" + name)]
              && db'.tokens == db.tokens[token := t] && Authenticates(db', token, name)
              && forall d, hash ::
                   (d, hash) in db'.subs <==>
                   (d, hash) in db.subs
                   || (d in db.devices && db.devices[d] == account && hash == baseUrl + "/" + name)
            else db' == db
  {
    NameIs(name);
    assert HasTopic(db, account, name) <==> NameTaken(db, account, name);
  }
}
