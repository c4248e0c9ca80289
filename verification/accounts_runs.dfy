/**
 Runs of registering, joining, minting, linking, switching, merging, making topics and publishing, from an empty
 server.
 */
module AccountRuns {
  import opened Common
  import opened Tiers
  import opened AccountModel
  import opened AccountForest
  import opened AccountMerge

  /** Every device rings for every topic of the account it is on. */
  ghost predicate AllCovered(db: Db) {
    forall d, t :: d in db.devices && t in db.topics && db.topics[t].account == db.devices[d] ==>
        (d, db.topics[t].hash) in db.subs
  }

  ghost predicate Good(db: Db) {
    Inv(db) && RowsOk(HangingOf(db)) && AllCovered(db) && OneActive(db)
  }

  /** Callers are devices that showed their own token, so a caller is a device and its account is the one it is on. */
  datatype Step =
    | Registers(account: AccountId, d: DeviceId, joinHash: TokenHash)
    | RegistersBeside(caller: DeviceId, d: DeviceId)
    | Joins(account: AccountId, joinHash: TokenHash, d: DeviceId)
    | Mints(caller: DeviceId, joinHash: TokenHash)
    | Links(caller: DeviceId, identity: Option<UserId>, intent: Intent)
    | Switches(caller: DeviceId, identity: Option<UserId>, into: AccountId)
    | Merges(caller: DeviceId, identity: Option<UserId>, into: AccountId, ringing: IncidentId)
    | Creates(caller: DeviceId, t: TopicId, baseUrl: string, name: string, token: TokenHash)
    | Publishes(token: TokenHash, name: string, m: MessageId, critical: bool, i: IncidentId)
    | Ends(i: IncidentId)

  /** Ids are random, so a new one is new; a join token is some account's; a caller is known. Foreign keys hold. */
  ghost predicate CanStep(db: Db, step: Step) {
    && Referenced(db)
    && match step
       case Registers(account, d, _) => account !in db.accounts && account !in db.buried && d !in db.devices
       case RegistersBeside(caller, d) => caller in db.devices && d !in db.devices
       case Joins(account, joinHash, d) => HoldsJoinHash(db, account, joinHash) && d !in db.devices
       case Creates(caller, t, _, _, token) => caller in db.devices && t !in db.topics && token !in db.tokens
       case Publishes(token, name, m, _, i) => Authenticates(db, token, name) && m !in db.messages && i !in db.incidents
       case Ends(i) => i in db.incidents
       case _ => step.caller in db.devices
  }

  ghost predicate Rings(db: Db, t: TopicId) {
    exists i :: i in db.incidents && db.incidents[i].active && db.incidents[i].topic == t
  }

  /** A message, and an incident when it is critical and none is active on the topic. */
  ghost function Publish(db: Db, t: TopicId, m: MessageId, critical: bool, i: IncidentId): Db {
    db.(messages := db.messages[m := t],
        incidents := if critical && !Rings(db, t) then db.incidents[i := Incident(t, true)] else db.incidents)
  }

  /** An incident is closed or expires. */
  function End(db: Db, i: IncidentId): Db
    requires i in db.incidents
  {
    db.(incidents := db.incidents[i := db.incidents[i].(active := false)])
  }

  /** On every account a device, an identity or a join token names, `liveAccount` is the identity for any bound. */
  lemma HopsAreNeverFelt(db: Db, a: AccountId, hops: nat)
    requires Inv(db)
    requires (exists d :: d in db.devices && db.devices[d] == a) ||
             (exists user :: user in db.identities && db.identities[user] == a)
             || (exists joinHash :: HoldsJoinHash(db, a, joinHash))
    ensures IsLive(db, a) && LiveAccount(db.accounts, a, hops) == a
  {
  }

  ghost function Next(db: Db, step: Step): Db
    requires CanStep(db, step)
  {
    match step
    case Registers(account, d, joinHash) => Register(db, account, d, joinHash)
    case RegistersBeside(caller, d) => RegisterBeside(db, caller, d)
    case Joins(account, _, d) => Join(db, account, d)
    case Mints(caller, joinHash) => MintJoinToken(db, db.devices[caller], joinHash)
    case Links(caller, identity, intent) => LinkIdentity(db, db.devices[caller], identity, intent).0
    case Switches(caller, identity, into) => SwitchAccount(db, db.devices[caller], identity, into).0
    case Merges(caller, identity, into, ringing) => MergeAccounts(db, db.devices[caller], identity, into, ringing).0
    case Creates(caller, t, baseUrl, name, token) => CreateTopic(db, db.devices[caller], t, baseUrl, name, token)
    case Publishes(token, name, m, critical, i) => Publish(db, db.tokens[token], m, critical, i)
    case Ends(i) => End(db, i)
  }

  // ---------------------------------------------------------------- coverage and rows, step by step

  lemma InsertCovers(db: Db, d: DeviceId, account: AccountId)
    requires AllCovered(db) && d !in db.devices
    ensures AllCovered(InsertDevice(db, d, account))
    ensures HangingOf(InsertDevice(db, d, account)) == HangingOf(db)
  {
  }

  lemma InsertKeepsGood(db: Db, d: DeviceId, account: AccountId)
    requires Good(db) && IsLive(db, account) && d !in db.devices
    ensures Good(InsertDevice(db, d, account))
  {
    InsertKeepsInv(db, d, account);
    InsertCovers(db, d, account);
  }

  lemma RegisterKeepsGood(db: Db, account: AccountId, d: DeviceId, joinHash: TokenHash)
    requires Good(db) && account !in db.accounts && account !in db.buried && d !in db.devices
    ensures Good(Register(db, account, d, joinHash))
  {
    var opening := db.(accounts := db.accounts[account := Account(Free, None, Some(joinHash))]);
    SameForest(Stand(db), Stand(opening));
    InsertKeepsGood(opening, d, account);
  }

  lemma CreateKeepsGood(db: Db, account: AccountId, t: TopicId, baseUrl: string, name: string, token: TokenHash)
    requires Good(db) && t !in db.topics
    ensures Good(CreateTopic(db, account, t, baseUrl, name, token))
  {
    CreateKeepsInv(db, account, t, baseUrl, name, token);
    if IsTopicName(name) && !NameTaken(db, account, name) {
      CreateKeepsRows(db, account, t, baseUrl, name, token);
    }
  }

  lemma CreateKeepsRows(db: Db, account: AccountId, t: TopicId, baseUrl: string, name: string, token: TokenHash)
    requires RowsOk(HangingOf(db)) && t !in db.topics && IsTopicName(name) && !NameTaken(db, account, name)
    ensures RowsOk(HangingOf(CreateTopic(db, account, t, baseUrl, name, token)))
  {
  }

  lemma MoveCoversAll(db: Db, source: AccountId, target: AccountId)
    requires AllCovered(db)
    ensures AllCovered(MoveDevices(db, source, target))
  {
  }

  lemma LeaveKeepsGood(db: Db, source: AccountId, target: AccountId)
    requires Good(db) && IsLive(db, source) && IsLive(db, target) && source != target
    ensures Good(Tombstone(MoveDevices(db, source, target), source, target))
    ensures Good(Tombstone(RevokeTopicTokens(MoveDevices(db, source, target), source), source, target))
  {
    LeaveKeepsInv(db, source, target);
    MoveCoversAll(db, source, target);
    var moved := MoveDevices(db, source, target);
    assert HangingOf(moved) == HangingOf(db);
  }

  /** A link that moves anything moves a new identity, or the whole account to where a known identity lives. */
  lemma LinkRoute(db: Db, source: AccountId, identity: Option<UserId>, intent: Intent)
    requires Inv(db) && IsLive(db, source) && Live(db, source) == source
    ensures var after := LinkIdentity(db, source, identity, intent).0;
            || after == db
            || (identity.Some? && identity.value !in db.identities &&
                after == db.(identities := db.identities[identity.value := source]))
            || (identity.Some? && identity.value in db.identities
                && LeavesFor(db, source, db.identities[identity.value])
                && after == Tombstone(MoveDevices(db, source, db.identities[identity.value]), source,
                                      db.identities[identity.value]))
  {
  }

  ghost predicate LeavesFor(db: Db, source: AccountId, target: AccountId) {
    IsLive(db, source) && IsLive(db, target) && source != target
  }

  lemma SwitchRoute(db: Db, source: AccountId, identity: Option<UserId>, into: AccountId)
    requires Inv(db) && IsLive(db, source) && Live(db, source) == source
    ensures var after := SwitchAccount(db, source, identity, into).0;
            || after == db
            || (identity.Some? && identity.value in db.identities
                && LeavesFor(db, source, db.identities[identity.value])
                && after == Tombstone(RevokeTopicTokens(MoveDevices(db, source, db.identities[identity.value]), source),
                                      source, db.identities[identity.value]))
  {
  }

  lemma LinkKeepsGood(db: Db, source: AccountId, identity: Option<UserId>, intent: Intent)
    requires Good(db) && IsLive(db, source) && Live(db, source) == source
    ensures Good(LinkIdentity(db, source, identity, intent).0)
  {
    LinkRoute(db, source, identity, intent);
    LinkKeepsInv(db, source, identity, intent);
    if identity.Some? && identity.value in db.identities {
      if LeavesFor(db, source, db.identities[identity.value]) {
        LeaveKeepsGood(db, source, db.identities[identity.value]);
      }
    }
  }

  lemma SwitchKeepsGood(db: Db, source: AccountId, identity: Option<UserId>, into: AccountId)
    requires Good(db) && IsLive(db, source) && Live(db, source) == source
    ensures Good(SwitchAccount(db, source, identity, into).0)
  {
    SwitchRoute(db, source, identity, into);
    if identity.Some? && identity.value in db.identities && LeavesFor(db, source, db.identities[identity.value]) {
      LeaveKeepsGood(db, source, db.identities[identity.value]);
    }
  }

  lemma MergeCoversAll(db: Db, source: AccountId, target: AccountId)
    requires source in db.accounts && target in db.accounts && source != target && AllCovered(db)
    ensures AllCovered(MergeInto(db, source, target))
  {
    MoveCoversAll(FoldTopics(db, target, TopicsOf(db, source)), source, target);
  }

  lemma MergeKeepsGood(db: Db, source: AccountId, target: AccountId)
    requires Good(db) && IsLive(db, source) && IsLive(db, target) && source != target
    requires NoneActive(db, source) && NoneActive(db, target)
    ensures Good(MergeInto(db, source, target))
  {
    MergeKeepsInv(db, source, target);
    MergeLosesNothing(db, source, target);
    MergeCoversAll(db, source, target);
    MergeKeepsOneActive(db, source, target);
  }

  /** A merge that is not refused folds one live account into another, with nothing active on either. */
  lemma UnrefusedMerge(db: Db, source: AccountId, identity: Option<UserId>, into: AccountId, ringing: IncidentId)
    requires Inv(db) && Live(db, source) == source
    requires MergeRefusal(db, source, identity, into, ringing).None?
    ensures var target := Live(db, db.identities[identity.value]);
            IsLive(db, target) && target != source && NoneActive(db, source) && NoneActive(db, target)
  {
    RefusalCoversBoth(db, source, db.identities[identity.value]);
  }

  lemma MergeRouteKeepsGood(db: Db, source: AccountId, identity: Option<UserId>, into: AccountId, ringing: IncidentId)
    requires Good(db) && IsLive(db, source) && Live(db, source) == source && Referenced(db)
    ensures Good(MergeAccounts(db, source, identity, into, ringing).0)
  {
    if MergeRefusal(db, source, identity, into, ringing).None? {
      UnrefusedMerge(db, source, identity, into, ringing);
      MergeKeepsGood(db, source, Live(db, db.identities[identity.value]));
    }
  }

  /** Incidents and messages alone changed. */
  lemma HangingKeepsGood(db: Db, db': Db)
    requires Good(db) && db' == db.(incidents := db'.incidents, messages := db'.messages)
    requires RowsOk(HangingOf(db')) && OneActive(db')
    ensures Good(db')
  {
    assert Stand(db') == Stand(db);
  }

  lemma PublishKeepsRows(db: Db, t: TopicId, m: MessageId, critical: bool, i: IncidentId)
    requires RowsOk(HangingOf(db)) && OneActive(db) && t in db.topics && i !in db.incidents
    ensures RowsOk(HangingOf(Publish(db, t, m, critical, i))) && OneActive(Publish(db, t, m, critical, i))
  {
  }

  /** Publishing keeps one active incident a topic. */
  lemma PublishKeepsGood(db: Db, t: TopicId, m: MessageId, critical: bool, i: IncidentId)
    requires Good(db) && t in db.topics && i !in db.incidents
    ensures Good(Publish(db, t, m, critical, i))
  {
    PublishKeepsRows(db, t, m, critical, i);
    HangingKeepsGood(db, Publish(db, t, m, critical, i));
  }

  lemma EndKeepsGood(db: Db, i: IncidentId)
    requires Good(db) && i in db.incidents
    ensures Good(End(db, i))
  {
    HangingKeepsGood(db, End(db, i));
  }

  /** Every step keeps the forest, the rows, one active incident a topic, and every device ringing for its topics. */
  lemma StepKeepsGood(db: Db, step: Step)
    requires Good(db) && CanStep(db, step)
    ensures Good(Next(db, step))
  {
    match step
    case Registers(account, d, joinHash) => RegisterKeepsGood(db, account, d, joinHash);
    case RegistersBeside(caller, d) =>
      InsertKeepsGood(db, d, db.devices[caller]);
    case Joins(account, joinHash, d) =>
      JoinKeepsInv(db, account, d, joinHash);
      InsertKeepsGood(db, d, account);
    case Mints(caller, joinHash) =>
      MintKeepsInv(db, db.devices[caller], joinHash);
    case Links(caller, identity, intent) =>
      LinkKeepsGood(db, db.devices[caller], identity, intent);
    case Switches(caller, identity, into) =>
      SwitchKeepsGood(db, db.devices[caller], identity, into);
    case Merges(caller, identity, into, ringing) =>
      MergeRouteKeepsGood(db, db.devices[caller], identity, into, ringing);
    case Creates(caller, t, baseUrl, name, token) =>
      CreateKeepsGood(db, db.devices[caller], t, baseUrl, name, token);
    case Publishes(token, name, m, critical, i) => PublishKeepsGood(db, db.tokens[token], m, critical, i);
    case Ends(i) => EndKeepsGood(db, i);
  }

  const EMPTY: Db := Db(map[], map[], map[], map[], map[], map[], map[], {}, map[], map[], map[], map[], 0)

  ghost predicate IsRun(trace: seq<Db>, steps: seq<Step>) {
    && |trace| == |steps| + 1
    && trace[0] == EMPTY
    && forall i: nat {:trigger steps[i]} :: i < |steps| ==>
         CanStep(trace[i], steps[i]) && trace[i + 1] == Next(trace[i], steps[i])
  }

  lemma {:induction false} RunIsGood(trace: seq<Db>, steps: seq<Step>, k: nat)
    requires IsRun(trace, steps) && k < |trace|
    ensures Good(trace[k])
  {
    if k == 0 {
    } else {
      RunIsGood(trace, steps, k - 1);
      StepKeepsGood(trace[k - 1], steps[k - 1]);
    }
  }

  // ---------------------------------------------------------------- chains

  /** A merge leaves no tombstone pointing at the account it buries, so it lengthens no chain. */
  lemma MergeLengthensNoChain(db: Db, source: AccountId, target: AccountId)
    requires source in db.accounts && target in db.accounts && source != target
    ensures NobodyPointsAt(MergeInto(db, source, target).accounts, source)
  {
    MergeAccountsTable(db, source, target);
  }

  ghost predicate NobodyPointsAt(accounts: map<AccountId, Account>, source: AccountId) {
    forall a :: a in accounts ==> accounts[a].mergedInto != Some(source)
  }

  lemma MergeAccountsTable(db: Db, source: AccountId, target: AccountId)
    requires source in db.accounts && target in db.accounts && source != target
    ensures SameTombstonesBut(RepointTombstones(db, source, target).accounts, MergeInto(db, source, target).accounts,
                              source, target)
  {
    var repointed := RepointTombstones(db, source, target);
    var moved := MoveDevices(FoldTopics(repointed, target, TopicsOf(db, source)), source, target);
    assert moved.accounts == repointed.accounts;
    var billed := MoveBilling(moved, source, target);
    BillingKeepsTombstones(moved, source, target);
    var counted := MoveHeld(billed, source, target);
    TombstoneTable(counted, source, target);
    assert MergeInto(db, source, target) == Tombstone(counted, source, target);
  }

  ghost predicate SameTombstonesBut(before: map<AccountId, Account>, after: map<AccountId, Account>,
                                    source: AccountId, target: AccountId) {
    && after.Keys == before.Keys && source in after && after[source].mergedInto == Some(target)
    && forall a :: a in before && a != source ==> after[a].mergedInto == before[a].mergedInto
  }

  lemma TombstoneTable(db: Db, source: AccountId, target: AccountId)
    requires source in db.accounts
    ensures SameTombstonesBut(db.accounts, Tombstone(db, source, target).accounts, source, target)
  {
  }

  lemma BillingKeepsTombstones(db: Db, source: AccountId, target: AccountId)
    requires target in db.accounts
    ensures var after := MoveBilling(db, source, target).accounts;
            after.Keys == db.accounts.Keys &&
                forall a :: a in db.accounts ==> after[a].mergedInto == db.accounts[a].mergedInto
  {
  }
}
