/** Over every run: tombstones form a forest, and devices, identities and join tokens stand on live accounts only. */
module AccountForest {
  import opened Common
  import opened Tiers
  import opened AccountModel

  /** What the forest is made of: the tombstones, and who stands on which account. */
  datatype Standing = Standing(
    accounts: map<AccountId, Account>,
    devices: map<DeviceId, AccountId>,
    identities: map<UserId, AccountId>,
    buried: map<AccountId, nat>,
    burials: nat)

  function Stand(db: Db): Standing {
    Standing(db.accounts, db.devices, db.identities, db.buried, db.burials)
  }

  /** A tombstone points at a row that is live or was buried later, so no chain comes back to itself. */
  ghost predicate PointsOn(s: Standing, a: AccountId)
    requires a in s.accounts
  {
    match s.accounts[a].mergedInto
    case None => a !in s.buried
    case Some(b) =>
      && a in s.buried && s.buried[a] < s.burials
      && s.accounts[a].joinHash.None?
      && b in s.accounts
      && (s.accounts[b].mergedInto.Some? ==> b in s.buried && s.buried[a] < s.buried[b])
  }

  ghost predicate Forest(s: Standing) {
    forall a :: a in s.accounts ==> PointsOn(s, a)
  }

  ghost predicate StandsLive(s: Standing, a: AccountId) {
    a in s.accounts && s.accounts[a].mergedInto.None?
  }

  ghost predicate OnLive(s: Standing) {
    && (forall d :: d in s.devices ==> StandsLive(s, s.devices[d]))
    && (forall user :: user in s.identities ==> StandsLive(s, s.identities[user]))
  }

  ghost predicate Inv(db: Db) {
    Forest(Stand(db)) && OnLive(Stand(db))
  }

  lemma InvReferenced(db: Db)
    requires Inv(db)
    ensures Referenced(db)
  {
  }

  // ---------------------------------------------------------------- chains

  /** `path` follows `merged_into` from its first account to its last. */
  ghost predicate Chain(s: Standing, path: seq<AccountId>) {
    && path != []
    && (forall i :: 0 <= i < |path| ==> path[i] in s.accounts)
    && forall i :: 0 <= i < |path| - 1 ==> s.accounts[path[i]].mergedInto == Some(path[i + 1])
  }

  lemma {:induction false} BuriedInOrder(s: Standing, path: seq<AccountId>, i: nat, j: nat)
    requires Forest(s) && Chain(s, path) && i < j < |path| && s.accounts[path[j]].mergedInto.Some?
    ensures path[i] in s.buried && path[j] in s.buried && s.buried[path[i]] < s.buried[path[j]]
    decreases j
  {
    assert PointsOn(s, path[j - 1]) && PointsOn(s, path[j]);
    if i < j - 1 {
      BuriedInOrder(s, path, i, j - 1);
    }
  }

  /** No chain of tombstones visits an account twice. */
  lemma ChainsAreAcyclic(s: Standing, path: seq<AccountId>, i: nat, j: nat)
    requires Forest(s) && Chain(s, path) && i < j < |path|
    ensures path[i] != path[j]
  {
    assert s.accounts[path[i]].mergedInto == Some(path[i + 1]);
    if s.accounts[path[j]].mergedInto.Some? {
      BuriedInOrder(s, path, i, j);
    }
  }

  // ---------------------------------------------------------------- single pieces

  function Buried(s: Standing, source: AccountId, target: AccountId): Standing
    requires source in s.accounts
  {
    Standing(s.accounts[source := s.accounts[source].(mergedInto := Some(target), joinHash := None)],
             s.devices,
             MoveIdentities(s.identities, source, target),
             s.buried[source := s.burials],
             s.burials + 1)
  }

  lemma TombstoneKeepsInv(db: Db, source: AccountId, target: AccountId)
    requires Inv(db) && IsLive(db, source) && IsLive(db, target) && source != target
    requires forall d :: d in db.devices ==> db.devices[d] != source
    ensures Inv(Tombstone(db, source, target))
  {
    assert Stand(Tombstone(db, source, target)) == Buried(Stand(db), source, target);
  }

  /** Accounts may change but for their tombstones; devices and identities may move to live accounts. */
  lemma SameForest(s: Standing, s': Standing)
    requires Forest(s) && s'.buried == s.buried && s'.burials == s.burials
    requires s.accounts.Keys <= s'.accounts.Keys
    requires forall a :: a in s.accounts ==> s'.accounts[a].mergedInto == s.accounts[a].mergedInto
    requires forall a :: a in s.accounts && s.accounts[a].mergedInto.Some? ==>
             s'.accounts[a].joinHash == s.accounts[a].joinHash
    requires forall a :: a in s'.accounts && a !in s.accounts ==> s'.accounts[a].mergedInto.None? && a !in s.buried
    ensures Forest(s')
  {
  }

  /** The devices of `source` join a live `target`. */
  lemma MoveKeepsInv(db: Db, source: AccountId, target: AccountId)
    requires Inv(db) && IsLive(db, target) && source != target
    ensures var moved := MoveDevices(db, source, target);
            Inv(moved) && (forall d :: d in moved.devices ==> moved.devices[d] != source)
            && moved.accounts == db.accounts
  {
  }

  // ---------------------------------------------------------------- the steps

  lemma InsertKeepsInv(db: Db, d: DeviceId, account: AccountId)
    requires Inv(db) && IsLive(db, account)
    ensures Inv(InsertDevice(db, d, account))
  {
    var placed := db.(devices := db.devices[d := account]);
    SameForest(Stand(db), Stand(placed));
    assert Stand(SweepDeviceIntoTopics(placed, account, d)) == Stand(placed);
  }

  lemma RegisterKeepsInv(db: Db, account: AccountId, d: DeviceId, joinHash: TokenHash)
    requires Inv(db) && account !in db.accounts && account !in db.buried
    ensures Inv(Register(db, account, d, joinHash))
  {
    var opening := db.(accounts := db.accounts[account := Account(Free, None, Some(joinHash))]);
    SameForest(Stand(db), Stand(opening));
    InsertKeepsInv(opening, d, account);
  }

  /** A join token opens a live account. */
  lemma JoinKeepsInv(db: Db, account: AccountId, d: DeviceId, joinHash: TokenHash)
    requires Inv(db) && HoldsJoinHash(db, account, joinHash)
    ensures IsLive(db, account) && Inv(Join(db, account, d))
  {
    assert PointsOn(Stand(db), account);
    InsertKeepsInv(db, d, account);
  }

  lemma MintKeepsInv(db: Db, source: AccountId, joinHash: TokenHash)
    requires Inv(db) && IsLive(db, source)
    ensures Inv(MintJoinToken(db, source, joinHash))
  {
  }

  lemma CreateKeepsInv(db: Db, account: AccountId, t: TopicId, baseUrl: string, name: string, token: TokenHash)
    requires Inv(db)
    ensures Inv(CreateTopic(db, account, t, baseUrl, name, token))
  {
    assert Stand(CreateTopic(db, account, t, baseUrl, name, token)) == Stand(db);
  }

  /** An account whose devices left becomes a tombstone, with its topic tokens revoked or not. */
  lemma LeaveKeepsInv(db: Db, source: AccountId, target: AccountId)
    requires Inv(db) && IsLive(db, source) && IsLive(db, target) && source != target
    ensures Inv(Tombstone(MoveDevices(db, source, target), source, target))
    ensures Inv(Tombstone(RevokeTopicTokens(MoveDevices(db, source, target), source), source, target))
  {
    var moved := MoveDevices(db, source, target);
    MoveKeepsInv(db, source, target);
    TombstoneKeepsInv(moved, source, target);
    assert Stand(RevokeTopicTokens(moved, source)) == Stand(moved);
    TombstoneKeepsInv(RevokeTopicTokens(moved, source), source, target);
  }

  lemma ClaimKeepsInv(db: Db, source: AccountId, user: UserId)
    requires Inv(db) && IsLive(db, source)
    ensures Inv(db.(identities := db.identities[user := source]))
  {
    SameForest(Stand(db), Stand(db.(identities := db.identities[user := source])));
  }

  lemma LinkKeepsInv(db: Db, source: AccountId, identity: Option<UserId>, intent: Intent)
    requires Inv(db) && IsLive(db, source)
    ensures Inv(LinkIdentity(db, source, identity, intent).0)
  {
    if identity.Some? {
      var user := identity.value;
      if user !in db.identities {
        ClaimKeepsInv(db, source, user);
      } else if db.identities[user] != source {
        LeaveKeepsInv(db, source, db.identities[user]);
      }
    }
  }

  lemma SwitchKeepsInv(db: Db, source: AccountId, identity: Option<UserId>, into: AccountId)
    requires Inv(db) && IsLive(db, source)
    ensures Inv(SwitchAccount(db, source, identity, into).0)
  {
    if identity.Some? {
      if identity.value in db.identities && db.identities[identity.value] != source {
        LeaveKeepsInv(db, source, db.identities[identity.value]);
      }
    }
  }

  lemma RepointKeepsInv(db: Db, source: AccountId, target: AccountId)
    requires Inv(db) && IsLive(db, source) && IsLive(db, target)
    ensures Inv(RepointTombstones(db, source, target))
  {
  }

  lemma BillingKeepsInv(db: Db, source: AccountId, target: AccountId)
    requires Inv(db) && target in db.accounts
    ensures Inv(MoveBilling(db, source, target))
    ensures forall a :: IsLive(MoveBilling(db, source, target), a) <==> IsLive(db, a)
    ensures MoveBilling(db, source, target).devices == db.devices
  {
    SameForest(Stand(db), Stand(MoveBilling(db, source, target)));
  }

  lemma MergeKeepsInv(db: Db, source: AccountId, target: AccountId)
    requires Inv(db) && IsLive(db, source) && IsLive(db, target) && source != target
    ensures Inv(MergeInto(db, source, target))
  {
    var repointed := RepointTombstones(db, source, target);
    RepointKeepsInv(db, source, target);
    var folded := FoldTopics(repointed, target, TopicsOf(db, source));
    assert Stand(folded) == Stand(repointed);
    var moved := MoveDevices(folded, source, target);
    MoveKeepsInv(folded, source, target);
    var billed := MoveBilling(moved, source, target);
    BillingKeepsInv(moved, source, target);
    var counted := MoveHeld(billed, source, target);
    assert Stand(counted) == Stand(billed);
    TombstoneKeepsInv(counted, source, target);
  }
}
