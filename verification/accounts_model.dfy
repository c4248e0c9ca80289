/**
 The tables that linking, switching and merging accounts move rows across, and every step as a function on them
 (src/v1/accounts.ts, src/tier/devices.ts, src/tier/subscriptions.ts, src/v1/topics.ts, src/ingress/auth.ts).
 Functions that state what a loop comes to are closed forms; `AccountStore` in accounts_store.dfy runs the loops.
 */
module AccountModel {
  import opened Common
  import opened Tiers
  import opened BillingView

  type AccountId = string
  type DeviceId = string
  type UserId = string
  type CustomerId = string
  type TopicId = string
  type TokenHash = string
  type IncidentId = string
  type MessageId = string
  type TopicHash = string

  datatype Account = Account(tier: Tier, mergedInto: Option<AccountId>, joinHash: Option<TokenHash>)
  datatype Topic = Topic(account: AccountId, name: string, baseUrl: string, hash: TopicHash)
  /** `active` is a state of `open` or `acked`. */
  datatype Incident = Incident(topic: TopicId, active: bool)
  /** A row of `account_billing_ids` with its rows of `billing_packs`. */
  datatype BillingId = BillingId(account: AccountId, tier: Tier, packs: Packs)

  /** The tables. `buried` is history: when each account became a tombstone, and how many have. */
  datatype Db = Db(
    accounts: map<AccountId, Account>,
    devices: map<DeviceId, AccountId>,
    identities: map<UserId, AccountId>,
    topics: map<TopicId, Topic>,
    tokens: map<TokenHash, TopicId>,
    incidents: map<IncidentId, Incident>,
    messages: map<MessageId, TopicId>,
    subs: set<(DeviceId, TopicHash)>,
    billing: map<CustomerId, BillingId>,
    grants: map<AccountId, Packs>,
    p4: map<AccountId, map<int, nat>>,
    buried: map<AccountId, nat>,
    burials: nat)

  /** SHA-256 stands for its own input, so two hashes are equal only when their inputs are. */
  function HashOf(baseUrl: string, name: string): TopicHash {
    baseUrl + "/" + name
  }

  predicate IsNameChar(c: char) {
    c == '-' || c == '_' || 'A' <= c <= 'Z' || 'a' <= c <= 'z' || '0' <= c <= '9'
  }

  predicate IsTopicName(name: string) {
    1 <= |name| <= 64 && forall i :: 0 <= i < |name| ==> IsNameChar(name[i])
  }

  // ---------------------------------------------------------------- reading

  const MAX_HOPS: nat := 8

  /** Foreign keys: a tombstone points at a row. */
  ghost predicate Closed(accounts: map<AccountId, Account>) {
    forall a :: a in accounts && accounts[a].mergedInto.Some? ==> accounts[a].mergedInto.value in accounts
  }

  function LiveAccount(accounts: map<AccountId, Account>, id: AccountId, hops: nat): (live: AccountId)
    ensures Closed(accounts) && id in accounts ==> live in accounts
    decreases hops
  {
    if hops == 0 || id !in accounts || accounts[id].mergedInto.None? then id
    else LiveAccount(accounts, accounts[id].mergedInto.value, hops - 1)
  }

  function Live(db: Db, id: AccountId): AccountId {
    LiveAccount(db.accounts, id, MAX_HOPS)
  }

  /** Foreign keys of devices and identities. */
  ghost predicate Referenced(db: Db) {
    && Closed(db.accounts)
    && (forall d :: d in db.devices ==> db.devices[d] in db.accounts)
    && (forall user :: user in db.identities ==> db.identities[user] in db.accounts)
  }

  predicate IsLive(db: Db, id: AccountId) {
    id in db.accounts && db.accounts[id].mergedInto.None?
  }

  function IdentityAccount(db: Db, user: UserId): Option<AccountId> {
    if user in db.identities then Some(Live(db, db.identities[user])) else None
  }

  function Holders(db: Db, account: AccountId): set<UserId> {
    set user | user in db.identities && db.identities[user] == account
  }

  predicate ClaimedBySomebodyElse(db: Db, account: AccountId, user: UserId) {
    Holders(db, account) != {} && user !in Holders(db, account)
  }

  function DevicesOf(db: Db, account: AccountId): set<DeviceId> {
    set d | d in db.devices && db.devices[d] == account
  }

  function TopicsOf(db: Db, account: AccountId): set<TopicId> {
    set t | t in db.topics && db.topics[t].account == account
  }

  function IncidentsOf(db: Db, account: AccountId): set<IncidentId> {
    set i | i in db.incidents && db.incidents[i].topic in db.topics &&
        db.topics[db.incidents[i].topic].account == account
  }

  /** `authenticateTopic`: the token alone finds the topic, and the name must be the topic's. */
  predicate Authenticates(db: Db, token: TokenHash, name: string) {
    token in db.tokens && db.tokens[token] in db.topics && db.topics[db.tokens[token]].name == name
  }

  // ---------------------------------------------------------------- devices and subscriptions

  function SweepDeviceIntoTopics(db: Db, account: AccountId, d: DeviceId): (swept: Db)
    ensures swept == db.(subs := swept.subs)
  {
    db.(subs := db.subs + set t | t in db.topics && db.topics[t].account == account :: (d, db.topics[t].hash))
  }

  function SweepTopicIntoDevices(db: Db, account: AccountId, hash: TopicHash): (swept: Db)
    ensures swept == db.(subs := swept.subs)
  {
    db.(subs := db.subs + set d | d in db.devices && db.devices[d] == account :: (d, hash))
  }

  /** A subscription for each of the devices to each topic of the account. */
  function AllSubs(topics: map<TopicId, Topic>, ds: set<DeviceId>, account: AccountId): set<(DeviceId, TopicHash)> {
    set d, t | d in ds && t in topics && topics[t].account == account :: (d, topics[t].hash)
  }

  /** Every device of `from` joins `into`: its old subscriptions go and one per topic of `into` comes. */
  function MoveSet(db: Db, moved: set<DeviceId>, into: AccountId): Db {
    db.(devices := map d | d in db.devices :: if d in moved then into else db.devices[d],
        subs := (set s | s in db.subs && s.0 !in moved) + AllSubs(db.topics, moved, into))
  }

  function MoveDevices(db: Db, from: AccountId, into: AccountId): Db {
    MoveSet(db, DevicesOf(db, from), into)
  }

  function MoveIdentities(identities: map<UserId, AccountId>, account: AccountId,
                          into: AccountId): map<UserId, AccountId> {
    map user | user in identities :: if identities[user] == account then into else identities[user]
  }

  function Tombstone(db: Db, account: AccountId, into: AccountId): Db
    requires account in db.accounts
  {
    db.(accounts := db.accounts[account := db.accounts[account].(mergedInto := Some(into), joinHash := None)],
        identities := MoveIdentities(db.identities, account, into),
        buried := db.buried[account := db.burials],
        burials := db.burials + 1)
  }

  function RevokeTopicTokens(db: Db, account: AccountId): Db {
    db.(tokens := map h | h in db.tokens && db.tokens[h] !in TopicsOf(db, account) :: db.tokens[h])
  }

  // ---------------------------------------------------------------- registering

  const DEVICE_CAP: nat := 5

  function InsertDevice(db: Db, d: DeviceId, account: AccountId): Db {
    if |DevicesOf(db, account)| >= DEVICE_CAP then db
    else SweepDeviceIntoTopics(db.(devices := db.devices[d := account]), account, d)
  }

  /** A new account with its first device. Ids and join tokens are random, so they are new. */
  function Register(db: Db, account: AccountId, d: DeviceId, joinHash: TokenHash): Db {
    InsertDevice(db.(accounts := db.accounts[account := Account(Free, None, Some(joinHash))]), d, account)
  }

  /** A second device, on the word of the first. */
  function RegisterBeside(db: Db, caller: DeviceId, d: DeviceId): Db
    requires caller in db.devices
  {
    InsertDevice(db, d, db.devices[caller])
  }

  predicate HoldsJoinHash(db: Db, account: AccountId, joinHash: TokenHash) {
    account in db.accounts && db.accounts[account].joinHash == Some(joinHash)
  }

  /** Joining with a token; `account` is the one whose row carries its hash. */
  function Join(db: Db, account: AccountId, d: DeviceId): Db {
    InsertDevice(db, d, account)
  }

  function MintJoinToken(db: Db, source: AccountId, joinHash: TokenHash): Db
    requires Live(db, source) in db.accounts
  {
    var account := Live(db, source);
    db.(accounts := db.accounts[account := db.accounts[account].(joinHash := Some(joinHash))])
  }

  predicate NameTaken(db: Db, account: AccountId, name: string) {
    exists t <- db.topics.Keys :: db.topics[t].account == account && db.topics[t].name == name
  }

  function CreateTopic(db: Db, account: AccountId, t: TopicId, baseUrl: string, name: string, token: TokenHash): Db {
    if !IsTopicName(name) || NameTaken(db, account, name) then db
    else
      SweepTopicIntoDevices(db.(topics := db.topics[t := Topic(account, name, baseUrl, HashOf(baseUrl, name))],
                                tokens := db.tokens[token := t]), account, HashOf(baseUrl, name))
  }

  // ---------------------------------------------------------------- link and switch

  datatype Intent = SignIn | LinkProvider

  datatype LinkOutcome =
    | LinkUnauthorized
    | AlreadyLinked(account: AccountId)
    | AccountHasAnotherIdentity
    | Claimed(account: AccountId)
    | Linked(account: AccountId)
    | Attached(account: AccountId)
    | IdentityHasAnotherAccount
    | Choose(into: AccountId, topics: nat, incidents: nat)

  predicate IsEmpty(db: Db, account: AccountId) {
    TopicsOf(db, account) == {} && IncidentsOf(db, account) == {}
  }

  /** `linkIdentity`. `identity` is what the identity token resolves to. */
  function LinkIdentity(db: Db, sourceAccount: AccountId, identity: Option<UserId>, intent: Intent): (Db, LinkOutcome)
    requires Live(db, sourceAccount) in db.accounts
  {
    if identity.None? then (db, LinkUnauthorized)
    else
      var user, source, target := identity.value, Live(db, sourceAccount), IdentityAccount(db, identity.value);
      if target == Some(source) then (db, AlreadyLinked(source))
      else if target.None? then
        if Holders(db, source) != {} && intent.SignIn? then (db, AccountHasAnotherIdentity)
        else (db.(identities := db.identities[user := source]),
              if Holders(db, source) != {} then Linked(source) else Claimed(source))
      else if intent.SignIn? && ClaimedBySomebodyElse(db, source, user) then (db, AccountHasAnotherIdentity)
      else if IsEmpty(db, source) then
        (Tombstone(MoveDevices(db, source, target.value), source, target.value), Attached(target.value))
      else if intent.LinkProvider? then (db, IdentityHasAnotherAccount)
      else (db, Choose(target.value, |TopicsOf(db, source)|, |IncidentsOf(db, source)|))
  }

  datatype SwitchOutcome = Switched(account: AccountId) | SwitchUnauthorized | SwitchHasAnotherIdentity

  function SwitchAccount(db: Db, sourceAccount: AccountId, identity: Option<UserId>, intoAccount: AccountId)
    : (Db, SwitchOutcome)
    requires Live(db, sourceAccount) in db.accounts
  {
    if identity.None? then (db, SwitchUnauthorized)
    else
      var target, source := IdentityAccount(db, identity.value), Live(db, sourceAccount);
      if target != Some(Live(db, intoAccount)) then (db, SwitchUnauthorized)
      else if target == Some(source) then (db, Switched(source))
      else if ClaimedBySomebodyElse(db, source, identity.value) then (db, SwitchHasAnotherIdentity)
      else (Tombstone(RevokeTopicTokens(MoveDevices(db, source, target.value), source), source, target.value),
            Switched(target.value))
  }

  // ---------------------------------------------------------------- merge

  datatype MergeOutcome =
    | Merged(account: AccountId, from: AccountId)
    | MergeUnauthorized
    | AlreadyMerged
    | SameAccount
    | LiveIncident(incident: IncidentId)

  /** `accountFamily`: an account and the tombstones whose chains end at it, as far as eight rounds reach. */
  function Family(accounts: map<AccountId, Account>, family: set<AccountId>, rounds: nat): (all: set<AccountId>)
    ensures family <= all
    decreases rounds
  {
    var found := set a | a in accounts && accounts[a].mergedInto.Some? && accounts[a].mergedInto.value in family &&
        a !in family;
    if rounds == 0 || found == {} then family else Family(accounts, family + found, rounds - 1)
  }

  function FamilyOf(db: Db, account: AccountId): set<AccountId> {
    Family(db.accounts, {account}, MAX_HOPS)
  }

  predicate ActiveOn(db: Db, i: IncidentId, families: set<AccountId>) {
    && i in db.incidents && db.incidents[i].active
    && db.incidents[i].topic in db.topics && db.topics[db.incidents[i].topic].account in families
  }

  /** The topic of `target` that a topic of the source is folded into. */
  predicate Takes(topics: map<TopicId, Topic>, target: AccountId, t: TopicId, s: TopicId)
    requires t in topics
  {
    s in topics && topics[s].account == target && (topics[s].hash == topics[t].hash || topics[s].name == topics[t].name)
  }

  predicate Folds(topics: map<TopicId, Topic>, target: AccountId, t: TopicId)
    requires t in topics
  {
    exists s <- topics.Keys :: Takes(topics, target, t, s)
  }

  ghost function Heir(topics: map<TopicId, Topic>, target: AccountId, done: set<TopicId>, t: TopicId): (heir: TopicId)
    ensures t in topics ==> heir in topics
  {
    if t in topics && t in done && Folds(topics, target, t) then
      var s :| Takes(topics, target, t, s); s
    else t
  }

  ghost function FoldedTopics(topics: map<TopicId, Topic>, target: AccountId, done: set<TopicId>): map<TopicId, Topic> {
    map t | t in topics && !(t in done && Folds(topics, target, t)) :: if t in done then topics[t].(account := target)
        else topics[t]
  }

  ghost function FoldedRows<Row>(topics: map<TopicId, Topic>, target: AccountId, done: set<TopicId>,
                                 rows: map<Row, TopicId>): map<Row, TopicId> {
    map r | r in rows :: Heir(topics, target, done, rows[r])
  }

  ghost function FoldedIncidents(topics: map<TopicId, Topic>, target: AccountId, done: set<TopicId>,
                                 incidents: map<IncidentId, Incident>): map<IncidentId, Incident> {
    map i | i in incidents :: incidents[i].(topic := Heir(topics, target, done, incidents[i].topic))
  }

  /** The subscriptions the target's devices got for the topics that were repointed. */
  function Swept(topics: map<TopicId, Topic>, devices: map<DeviceId, AccountId>, target: AccountId,
                 done: set<TopicId>): set<(DeviceId, TopicHash)> {
    set d, t | d in devices && devices[d] == target && t in topics && t in done &&
        !Folds(topics, target, t) :: (d, topics[t].hash)
  }

  /** The tables once the topics in `done` have been repointed or folded. */
  ghost function FoldTopics(db: Db, target: AccountId, done: set<TopicId>): Db {
    db.(topics := FoldedTopics(db.topics, target, done),
        tokens := FoldedRows(db.topics, target, done, db.tokens),
        incidents := FoldedIncidents(db.topics, target, done, db.incidents),
        messages := FoldedRows(db.topics, target, done, db.messages),
        subs := db.subs + Swept(db.topics, db.devices, target, done))
  }

  function RepointTombstones(db: Db, source: AccountId, target: AccountId): Db {
    db.(accounts := map a | a in db.accounts ::
          if db.accounts[a].mergedInto == Some(source) then db.accounts[a].(mergedInto := Some(target))
              else db.accounts[a])
  }

  /** `highestEntitledTier` on the rows as they are kept here; `BillingAccounts` has it on customers. */
  function HighestBilled(db: Db, account: AccountId): (highest: Tier)
    ensures forall c :: c in db.billing && db.billing[c].account == account ==>
            !IsHigherTier(db.billing[c].tier, highest)
    ensures highest == Free ||
            exists c :: c in db.billing && db.billing[c].account == account && db.billing[c].tier == highest
  {
    var tiers := set c | c in db.billing && db.billing[c].account == account :: db.billing[c].tier;
    assert forall c :: c in db.billing && db.billing[c].account == account ==> db.billing[c].tier in tiers;
    Highest(tiers)
  }

  function MoveIds(billing: map<CustomerId, BillingId>, source: AccountId,
                   target: AccountId): map<CustomerId, BillingId> {
    map c | c in billing :: if billing[c].account == source then billing[c].(account := target) else billing[c]
  }

  /** Billing ids move, and the tier is raised to what they pay for, never lowered. */
  function MoveBilling(db: Db, source: AccountId, target: AccountId): Db
    requires target in db.accounts
  {
    var moved := db.(billing := MoveIds(db.billing, source, target));
    var account := moved.accounts[target];
    moved.(accounts := moved.accounts[target := account.(tier := HigherOf(HighestBilled(moved, target), account.tier))])
  }

  function RowsOf<Key, Value>(table: map<AccountId, map<Key, Value>>, account: AccountId): map<Key, Value> {
    if account in table then table[account] else map[]
  }

  /** Pack by pack the later end, where no end date is later than any. */
  function JoinPacks(a: Packs, b: Packs): Packs {
    map pack | pack in a.Keys + b.Keys ::
      if pack !in a then b[pack] else if pack !in b then a[pack] else LaterEnd(a[pack], b[pack])
  }

  /** Day by day the sum. */
  function AddCounts(a: map<int, nat>, b: map<int, nat>): map<int, nat> {
    map day | day in a.Keys + b.Keys ::
      if day !in a then b[day] else if day !in b then a[day] else a[day] + b[day]
  }

  function MoveGrants(grants: map<AccountId, Packs>, source: AccountId, target: AccountId): map<AccountId, Packs> {
    grants[target := JoinPacks(RowsOf(grants, target), RowsOf(grants, source))] - {source}
  }

  function MoveP4(p4: map<AccountId, map<int, nat>>, source: AccountId,
                  target: AccountId): map<AccountId, map<int, nat>> {
    p4[target := AddCounts(RowsOf(p4, target), RowsOf(p4, source))] - {source}
  }

  function MoveHeld(db: Db, source: AccountId, target: AccountId): Db {
    db.(grants := MoveGrants(db.grants, source, target), p4 := MoveP4(db.p4, source, target))
  }

  /** The whole fold of `source` into `target`. */
  ghost function MergeInto(db: Db, source: AccountId, target: AccountId): Db
    requires source in db.accounts && target in db.accounts
  {
    var folded := FoldTopics(RepointTombstones(db, source, target), target, TopicsOf(db, source));
    Tombstone(MoveHeld(MoveBilling(MoveDevices(folded, source, target), source, target), source, target), source,
              target)
  }

  /** The checks before a merge, in their order. `ringing` is the incident the last one happens to find. */
  ghost function MergeRefusal(db: Db, sourceAccount: AccountId, identity: Option<UserId>, intoAccount: AccountId,
                              ringing: IncidentId): (refusal: Option<MergeOutcome>)
    ensures refusal.None? ==> identity.Some? && identity.value in db.identities
    ensures refusal.Some? ==> !refusal.value.Merged?
  {
    if identity.None? then Some(MergeUnauthorized)
    else
      var target, source := IdentityAccount(db, identity.value), Live(db, sourceAccount);
      if target != Some(Live(db, intoAccount)) then Some(MergeUnauthorized)
      else if ClaimedBySomebodyElse(db, source, identity.value) then Some(MergeUnauthorized)
      else if IsTombstone(db, sourceAccount) || IsTombstone(db, intoAccount) then Some(AlreadyMerged)
      else if target == Some(source) then Some(SameAccount)
      else if exists i :: ActiveOn(db, i, FamilyOf(db, source) + FamilyOf(db, target.value))
          then Some(LiveIncident(ringing))
      else None
  }

  /** `mergeAccounts`. */
  ghost function MergeAccounts(db: Db, sourceAccount: AccountId, identity: Option<UserId>, intoAccount: AccountId,
                               ringing: IncidentId): (Db, MergeOutcome)
    requires Referenced(db) && sourceAccount in db.accounts
  {
    var refusal := MergeRefusal(db, sourceAccount, identity, intoAccount, ringing);
    if refusal.Some? then (db, refusal.value)
    else
      var target, source := Live(db, db.identities[identity.value]), Live(db, sourceAccount);
      (MergeInto(db, source, target), Merged(target, source))
  }

  predicate IsTombstone(db: Db, account: AccountId) {
    account in db.accounts && db.accounts[account].mergedInto.Some?
  }
}
