/**
 Chains of tombstones: what following one comes to (`liveAccount`, `accountFamily`), and that nothing bounds their
 length, so that the bound of eight hops is felt by an account id that no device, identity or join token names.
 */
module AccountChains {
  import opened Common
  import opened Tiers
  import opened AccountModel
  import opened AccountForest
  import opened AccountRuns

  /** A chain of tombstones from `first` to `last` with at most `hops` links. */
  ghost predicate Leads(db: Db, path: seq<AccountId>, first: AccountId, last: AccountId, hops: nat) {
    Chain(Stand(db), path) && path[0] == first && path[|path| - 1] == last && |path| <= hops + 1
  }

  lemma {:induction false} FollowingIsChain(db: Db, id: AccountId, hops: nat) returns (path: seq<AccountId>)
    requires Closed(db.accounts) && id in db.accounts
    ensures Leads(db, path, id, LiveAccount(db.accounts, id, hops), hops)
    ensures IsLive(db, path[|path| - 1]) || |path| == hops + 1
    decreases hops
  {
    if hops == 0 || db.accounts[id].mergedInto.None? {
      path := [id];
    } else {
      var rest := FollowingIsChain(db, db.accounts[id].mergedInto.value, hops - 1);
      path := [id] + rest;
      assert forall i :: 0 < i < |path| ==> path[i] == rest[i - 1];
    }
  }

  lemma {:induction false} ChainIsFollowed(db: Db, path: seq<AccountId>, hops: nat)
    requires Chain(Stand(db), path) && IsLive(db, path[|path| - 1]) && |path| <= hops + 1
    ensures LiveAccount(db.accounts, path[0], hops) == path[|path| - 1]
    decreases |path|
  {
    if |path| > 1 {
      assert db.accounts[path[0]].mergedInto == Some(path[1]);
      ChainIsFollowed(db, path[1..], hops - 1);
    }
  }

  /** `liveAccount` finds a live account exactly when a chain of at most `hops` tombstones ends at it. */
  lemma LiveAccountIff(db: Db, id: AccountId, hops: nat, live: AccountId)
    requires Closed(db.accounts) && id in db.accounts && IsLive(db, live)
    ensures LiveAccount(db.accounts, id, hops) == live <==> exists path :: Leads(db, path, id, live, hops)
  {
    if LiveAccount(db.accounts, id, hops) == live {
      var path := FollowingIsChain(db, id, hops);
      assert Leads(db, path, id, live, hops);
    }
    if path :| Leads(db, path, id, live, hops) {
      ChainIsFollowed(db, path, hops);
    }
  }

  /** With the bound the code has: at most eight tombstones. */
  lemma LiveIff(db: Db, id: AccountId, live: AccountId)
    requires Closed(db.accounts) && id in db.accounts && IsLive(db, live)
    ensures Live(db, id) == live <==> exists path :: Leads(db, path, id, live, 8)
  {
    LiveAccountIff(db, id, 8, live);
  }

  // ---------------------------------------------------------------- families

  /** The accounts that reach one of `family` by at most `rounds` links. */
  ghost predicate ReachesOne(db: Db, a: AccountId, family: set<AccountId>, rounds: nat) {
    exists path, f :: f in family && Leads(db, path, a, f, rounds)
  }

  /** The accounts one link away from `family` that are not in it. */
  function NextRound(db: Db, family: set<AccountId>): set<AccountId> {
    set a | a in db.accounts && db.accounts[a].mergedInto.Some? && db.accounts[a].mergedInto.value in family &&
        a !in family
  }

  lemma {:induction false} MembersReach(db: Db, family: set<AccountId>, rounds: nat, a: AccountId)
    requires family <= db.accounts.Keys && a in Family(db.accounts, family, rounds)
    ensures ReachesOne(db, a, family, rounds)
    decreases rounds
  {
    var found := NextRound(db, family);
    if rounds == 0 || found == {} {
      assert Leads(db, [a], a, a, rounds);
    } else {
      MembersReach(db, family + found, rounds - 1, a);
      var path, f :| f in family + found && Leads(db, path, a, f, rounds - 1);
      if f in family {
        assert Leads(db, path, a, f, rounds);
      } else {
        assert Leads(db, path + [db.accounts[f].mergedInto.value], a, db.accounts[f].mergedInto.value, rounds);
      }
    }
  }

  lemma {:induction false} ReachingAreMembers(db: Db, family: set<AccountId>, rounds: nat, path: seq<AccountId>)
    requires Chain(Stand(db), path) && path[|path| - 1] in family && |path| <= rounds + 1
    ensures path[0] in Family(db.accounts, family, rounds)
    decreases rounds, |path|
  {
    var found := NextRound(db, family);
    if |path| > 1 {
      var before := path[..|path| - 1];
      var last := before[|before| - 1];
      assert db.accounts[last].mergedInto == Some(path[|path| - 1]);
      assert Chain(Stand(db), before);
      assert last in family || last in found;
      if found == {} {
        ReachingAreMembers(db, family, rounds, before);
      } else {
        ReachingAreMembers(db, family + found, rounds - 1, before);
      }
    }
  }

  /** `accountFamily` is the account and every tombstone whose chain ends at it within eight links. */
  lemma FamilyIff(db: Db, account: AccountId, a: AccountId)
    requires account in db.accounts
    ensures a in FamilyOf(db, account) <==> exists path :: Leads(db, path, a, account, 8)
  {
    if a in FamilyOf(db, account) {
      MembersReach(db, {account}, MAX_HOPS, a);
      var path, f :| f in {account} && Leads(db, path, a, f, MAX_HOPS);
      assert Leads(db, path, a, account, MAX_HOPS);
    }
    if path :| Leads(db, path, a, account, MAX_HOPS) {
      ReachingAreMembers(db, {account}, MAX_HOPS, path);
    }
  }

  // ---------------------------------------------------------------- chains of any length

  ghost predicate Reached(db: Db) {
    exists trace: seq<Db>, steps: seq<Step> :: IsRun(trace, steps) && trace[|steps|] == db
  }

  lemma EmptyIsReached()
    ensures Reached(EMPTY)
  {
    var steps: seq<Step> := [];
    assert IsRun([EMPTY], steps) && [EMPTY][|steps|] == EMPTY;
  }

  lemma ExtendRun(trace: seq<Db>, steps: seq<Step>, step: Step, after: Db)
    requires IsRun(trace, steps) && CanStep(trace[|steps|], step) && after == Next(trace[|steps|], step)
    ensures IsRun(trace + [after], steps + [step])
  {
    var trace', steps' := trace + [after], steps + [step];
    forall i: nat | i < |steps'| ensures CanStep(trace'[i], steps'[i]) && trace'[i + 1] == Next(trace'[i], steps'[i]) {
      if i < |steps| {
        assert steps'[i] == steps[i] && trace'[i] == trace[i] && trace'[i + 1] == trace[i + 1];
      }
    }
  }

  lemma ReachNext(db: Db, step: Step)
    requires Reached(db) && CanStep(db, step)
    ensures Reached(Next(db, step))
  {
    var trace: seq<Db>, steps: seq<Step> :| IsRun(trace, steps) && trace[|steps|] == db;
    var after := Next(db, step);
    ExtendRun(trace, steps, step, after);
    assert (trace + [after])[|steps + [step]|] == after;
  }

  lemma ReachedIsGood(db: Db)
    requires Reached(db)
    ensures Good(db) && Referenced(db)
  {
    var trace: seq<Db>, steps: seq<Step> :| IsRun(trace, steps) && trace[|steps|] == db;
    RunIsGood(trace, steps, |steps|);
    InvReferenced(db);
  }

  /** A new name, longer than every id in the tables. */
  function Name(n: nat): string {
    seq(n, _ => 'a')
  }

  /** Ids are no longer than `n`. */
  ghost predicate Short(db: Db, n: nat) {
    && (forall a :: a in db.accounts || a in db.buried ==> |a| <= n)
    && (forall d :: d in db.devices ==> |d| <= n)
    && (forall user :: user in db.identities ==> |user| <= n)
  }

  /** No topic was ever made, the caller's account is live, and a chain of `path` ends at it. */
  ghost predicate Grown(db: Db, caller: DeviceId, path: seq<AccountId>) {
    && Reached(db) && Short(db, |path|) && db.topics == map[] && db.incidents == map[]
    && caller in db.devices && Chain(Stand(db), path) && path[|path| - 1] == db.devices[caller]
  }

  lemma FirstAccount() returns (db: Db)
    ensures Grown(db, Name(1), [Name(1)])
  {
    var step := Registers(Name(1), Name(1), "");
    EmptyIsReached();
    ReachNext(EMPTY, step);
    db := Next(EMPTY, step);
    assert DevicesOf(EMPTY.(accounts := map[Name(1) := Account(Free, None, Some(""))]), Name(1)) == {};
  }

  lemma RegisterIs(db: Db, x: AccountId, d: DeviceId)
    requires x !in db.accounts && forall other :: other in db.devices ==> db.devices[other] in db.accounts
    requires forall t :: t in db.topics ==> db.topics[t].account != x
    ensures Register(db, x, d, "") ==
            db.(accounts := db.accounts[x := Account(Free, None, Some(""))], devices := db.devices[d := x])
  {
    assert DevicesOf(db.(accounts := db.accounts[x := Account(Free, None, Some(""))]), x) == {};
    assert Register(db, x, d, "").subs == db.subs;
  }

  lemma ClaimIs(db: Db, x: AccountId, user: UserId)
    requires IsLive(db, x) && user !in db.identities &&
             forall other :: other in db.identities ==> db.identities[other] != x
    ensures LinkIdentity(db, x, Some(user), SignIn).0 == db.(identities := db.identities[user := x])
  {
    assert Live(db, x) == x && Holders(db, x) == {};
  }

  lemma AttachIs(db: Db, top: AccountId, x: AccountId)
    requires IsLive(db, top) && IsLive(db, x) && top != x && db.topics == map[] && db.incidents == map[]
    requires x in db.identities && db.identities[x] == x
    ensures LinkIdentity(db, top, Some(x), LinkProvider).0 == Tombstone(MoveDevices(db, top, x), top, x)
  {
    assert Live(db, top) == top && Live(db, x) == x && IsEmpty(db, top);
  }

  lemma ChainKept(db: Db, db': Db, path: seq<AccountId>)
    requires Chain(Stand(db), path) &&
             forall a :: a in db.accounts ==> a in db'.accounts && db'.accounts[a] == db.accounts[a]
    ensures Chain(Stand(db'), path)
  {
    assert forall i :: 0 <= i < |path| ==> path[i] in db.accounts;
  }

  lemma LinkIsReached(db: Db, caller: DeviceId, user: UserId, intent: Intent)
    requires Reached(db) && caller in db.devices
    ensures IsLive(db, db.devices[caller]) && Live(db, db.devices[caller]) in db.accounts
    ensures Reached(LinkIdentity(db, db.devices[caller], Some(user), intent).0)
  {
    ReachedIsGood(db);
    ReachNext(db, Links(caller, Some(user), intent));
  }

  /** A second account is registered, and the caller's account stays as it was. */
  lemma NewAccount(db: Db, caller: DeviceId, path: seq<AccountId>) returns (registered: Db)
    requires Grown(db, caller, path)
    ensures var x := Name(|path| + 1);
            && Reached(registered) && x !in db.accounts && x !in db.identities
            && registered == db.(accounts := db.accounts[x := Account(Free, None, Some(""))],
                                 devices := db.devices[x := x])
            && (forall user :: user in db.identities ==> db.identities[user] in db.accounts)
  {
    var x := Name(|path| + 1);
    ReachedIsGood(db);
    ReachNext(db, Registers(x, x, ""));
    RegisterIs(db, x, x);
    registered := Register(db, x, x, "");
  }

  /** The tables with a new account `x`, a device of it, and a person signed in on it. */
  function Claimed(db: Db, x: AccountId): Db {
    db.(accounts := db.accounts[x := Account(Free, None, Some(""))], devices := db.devices[x := x],
        identities := db.identities[x := x])
  }

  /** And a person signs in on it. */
  lemma ClaimIsReached(db: Db, caller: DeviceId, path: seq<AccountId>)
    requires Grown(db, caller, path)
    ensures Reached(Claimed(db, Name(|path| + 1)))
    ensures Name(|path| + 1) !in db.accounts
  {
    var x := Name(|path| + 1);
    var registered := NewAccount(db, caller, path);
    LinkIsReached(registered, x, x, SignIn);
    ClaimIs(registered, x, x);
  }

  lemma ClaimKeepsChain(db: Db, caller: DeviceId, path: seq<AccountId>)
    requires Grown(db, caller, path) && Name(|path| + 1) !in db.accounts
    ensures Short(Claimed(db, Name(|path| + 1)), |path| + 1) && Chain(Stand(Claimed(db, Name(|path| + 1))), path)
  {
    ChainKept(db, Claimed(db, Name(|path| + 1)), path);
  }

  /** Linking and switching bury an account without repointing: every chain that ended at it is one link longer. */
  lemma LeavingLengthensChains(db: Db, top: AccountId, x: AccountId, path: seq<AccountId>)
    requires Chain(Stand(db), path) && path[|path| - 1] == top && IsLive(db, top) && x in db.accounts
    ensures Chain(Stand(Tombstone(MoveDevices(db, top, x), top, x)), path + [x])
  {
    var after, path' := Tombstone(MoveDevices(db, top, x), top, x), path + [x];
    forall i | 0 <= i < |path'| - 1 ensures after.accounts[path'[i]].mergedInto == Some(path'[i + 1]) {
      if i < |path| - 1 {
        assert db.accounts[path[i]].mergedInto == Some(path[i + 1]) && path[i] != top;
      }
    }
  }

  /** Linking the caller's account, which has nothing in it, to that person buries it, and the chain is one longer. */
  lemma GrowOnce(db: Db, caller: DeviceId, path: seq<AccountId>) returns (grown: Db)
    requires Grown(db, caller, path)
    ensures Grown(grown, caller, path + [Name(|path| + 1)])
  {
    var x, top := Name(|path| + 1), db.devices[caller];
    var claimed := Claimed(db, x);
    ClaimIsReached(db, caller, path);
    ClaimKeepsChain(db, caller, path);
    LinkIsReached(claimed, caller, x, LinkProvider);
    AttachIs(claimed, top, x);
    grown := Tombstone(MoveDevices(claimed, top, x), top, x);
    LeavingLengthensChains(claimed, top, x, path);
  }

  /** Chains of tombstones of any length are reached. */
  lemma {:induction false} ChainsGrowWithoutBound(n: nat) returns (db: Db, path: seq<AccountId>)
    ensures |path| == n + 1 && Grown(db, Name(1), path)
    decreases n
  {
    if n == 0 {
      db := FirstAccount();
      path := [Name(1)];
    } else {
      var before, shorter := ChainsGrowWithoutBound(n - 1);
      db := GrowOnce(before, Name(1), shorter);
      path := shorter + [Name(|shorter| + 1)];
    }
  }

  /** After nine links the first account of the chain no longer leads to the live one. */
  lemma BoundIsFelt() returns (db: Db, path: seq<AccountId>)
    ensures Reached(db) && Chain(Stand(db), path) && |path| == 10
    ensures IsLive(db, path[9]) && !IsLive(db, Live(db, path[0]))
  {
    db, path := ChainsGrowWithoutBound(MAX_HOPS + 1);
    ReachedIsGood(db);
    FollowsAlong(db, path, MAX_HOPS);
    assert db.accounts[path[MAX_HOPS]].mergedInto == Some(path[MAX_HOPS + 1]);
  }

  lemma {:induction false} FollowsAlong(db: Db, path: seq<AccountId>, hops: nat)
    requires Chain(Stand(db), path) && hops < |path|
    ensures LiveAccount(db.accounts, path[0], hops) == path[hops]
    decreases hops
  {
    if hops > 0 {
      assert db.accounts[path[0]].mergedInto == Some(path[1]);
      FollowsAlong(db, path[1..], hops - 1);
    }
  }

  // ---------------------------------------------------------------- a merge that has to wait

  /** Account "a" has device "d" and one topic, "t". */
  ghost predicate HasTopic(db: Db) {
    && Reached(db) && db.accounts.Keys == {"a"} && IsLive(db, "a") && db.buried == map[]
    && db.devices == map["d" := "a"] && db.identities == map[]
    && db.topics.Keys == {"t"} && db.topics["t"].account == "a"
  }

  lemma DeviceIsReached() returns (db: Db)
    ensures Reached(db) && db ==
            EMPTY.(accounts := map["a" := Account(Free, None, Some(""))], devices := map["d" := "a"])
  {
    EmptyIsReached();
    ReachNext(EMPTY, Registers("a", "d", ""));
    RegisterIs(EMPTY, "a", "d");
    db := Register(EMPTY, "a", "d", "");
  }

  lemma TopicIsReached() returns (db: Db)
    ensures HasTopic(db) && Authenticates(db, "k", "alarm") && db.tokens["k"] == "t" && db.incidents == map[] &&
            db.messages == map[]
  {
    var registered := DeviceIsReached();
    ReachNext(registered, Creates("d", "t", "", "alarm", "k"));
    db := CreateTopic(registered, "a", "t", "", "alarm", "k");
  }

  /** A critical message opens an incident on it. */
  lemma RingingIsReached() returns (db: Db)
    ensures HasTopic(db) && db.incidents == map["i" := Incident("t", true)]
  {
    var before := TopicIsReached();
    ReachedIsGood(before);
    ReachNext(before, Publishes("k", "alarm", "m", true, "i"));
    db := Publish(before, "t", "m", true, "i");
  }

  /** Another account, "b", is registered with device "e". */
  lemma SecondIsReached() returns (db: Db)
    ensures Reached(db) && db.devices == map["d" := "a", "e" := "b"] && db.identities == map[]
    ensures IsLive(db, "a") && IsLive(db, "b") && "t" in db.topics && db.topics["t"].account == "a"
    ensures db.incidents == map["i" := Incident("t", true)]
  {
    var ringing := RingingIsReached();
    ReachedIsGood(ringing);
    ReachNext(ringing, Registers("b", "e", ""));
    RegisterIs(ringing, "b", "e");
    db := Register(ringing, "b", "e", "");
  }

  /** And a person signs in on it. */
  lemma OtherIsReached() returns (db: Db)
    ensures Reached(db) && db.devices == map["d" := "a", "e" := "b"] && db.identities == map["u" := "b"]
    ensures IsLive(db, "a") && IsLive(db, "b") && "t" in db.topics && db.topics["t"].account == "a"
    ensures db.incidents == map["i" := Incident("t", true)]
  {
    var registered := SecondIsReached();
    LinkIsReached(registered, "e", "u", SignIn);
    ClaimIs(registered, "b", "u");
    db := registered.(identities := registered.identities["u" := "b"]);
  }

  lemma RefusedWhileRinging(db: Db, source: AccountId, user: UserId, into: AccountId, i: IncidentId)
    requires IsLive(db, source) && IsLive(db, into) && source != into && user in db.identities &&
             db.identities[user] == into
    requires forall other :: other in db.identities ==> db.identities[other] != source
    requires ActiveOn(db, i, {source})
    ensures MergeRefusal(db, source, Some(user), into, i) == Some(LiveIncident(i))
  {
    assert Live(db, source) == source && Live(db, into) == into && Holders(db, source) == {};
    assert ActiveOn(db, i, FamilyOf(db, source) + FamilyOf(db, into));
  }

  /** A merge of the two is refused while the incident is open. */
  lemma RingingRefusesMerge() returns (db: Db)
    ensures Reached(db) && Referenced(db) && "d" in db.devices && db.devices["d"] in db.accounts
    ensures MergeAccounts(db, db.devices["d"], Some("u"), "b", "i") == (db, LiveIncident("i"))
  {
    db := OtherIsReached();
    ReachedIsGood(db);
    RefusedWhileRinging(db, "a", "u", "b", "i");
  }
}
