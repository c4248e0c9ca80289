/**
 Customers and the accounts they pay for: where a customer id leads (`resolveAccount`), the three paths that write
 a billing row and the account's tier after it (src/tier/revenuecat.ts, src/tier/billing-reads.ts,
 src/tier/reconcile.ts), and queueing reads for an event (src/tier/revenuecat-trigger.ts).
 */
module BillingAccounts {
  import opened Common
  import opened Tiers
  import opened BillingView
  import opened BillingModel

  /** The columns of `accounts` that billing reads. */
  datatype Account = Account(tier: Tier, mergedInto: Option<Id>)

  datatype Sys = Sys(accounts: map<Id, Account>, customers: map<Id, Customer>, events: set<string>)

  function Of(sys: Sys, user: Id): Customer {
    if user in sys.customers then sys.customers[user] else STRANGER
  }

  function Put(sys: Sys, user: Id, c: Customer): Sys {
    sys.(customers := sys.customers[user := c])
  }

  // ---------------------------------------------------------------- where a customer id leads

  const MAX_HOPS: nat := 8

  function FollowMerge(accounts: map<Id, Account>, id: Id, hops: nat): (end: Option<Id>)
    ensures end.Some? ==> end.value in accounts && accounts[end.value].mergedInto.None?
    decreases hops
  {
    if hops == 0 || id !in accounts then None
    else if accounts[id].mergedInto.None? then Some(id)
    else FollowMerge(accounts, accounts[id].mergedInto.value, hops - 1)
  }

  /** `path` follows `merged_into` from row to row. */
  ghost predicate Chain(accounts: map<Id, Account>, path: seq<Id>) {
    && path != []
    && (forall i :: 0 <= i < |path| ==> path[i] in accounts)
    && forall i :: 0 <= i < |path| - 1 ==> accounts[path[i]].mergedInto == Some(path[i + 1])
  }

  ghost predicate LeadsTo(accounts: map<Id, Account>, path: seq<Id>, id: Id, end: Id, rows: nat) {
    && Chain(accounts, path) && path[0] == id && path[|path| - 1] == end && |path| <= rows
    && accounts[end].mergedInto.None?
  }

  lemma {:induction false} FollowingIsChain(accounts: map<Id, Account>, id: Id, hops: nat) returns (path: seq<Id>)
    requires FollowMerge(accounts, id, hops).Some?
    ensures LeadsTo(accounts, path, id, FollowMerge(accounts, id, hops).value, hops)
    decreases hops
  {
    if accounts[id].mergedInto.None? {
      path := [id];
    } else {
      var rest := FollowingIsChain(accounts, accounts[id].mergedInto.value, hops - 1);
      path := [id] + rest;
      assert forall i :: 0 < i < |path| ==> path[i] == rest[i - 1];
    }
  }

  lemma {:induction false} ChainIsFollowed(accounts: map<Id, Account>, path: seq<Id>, id: Id, end: Id, hops: nat)
    requires LeadsTo(accounts, path, id, end, hops)
    ensures FollowMerge(accounts, id, hops) == Some(end)
    decreases |path|
  {
    if |path| > 1 {
      assert accounts[path[0]].mergedInto == Some(path[1]);
      ChainIsFollowed(accounts, path[1..], path[1], end, hops - 1);
    }
  }

  /** A live account is found exactly when a chain of at most `hops` rows ends at it. */
  lemma FollowMergeIff(accounts: map<Id, Account>, id: Id, hops: nat, end: Id)
    ensures FollowMerge(accounts, id, hops) == Some(end) <==> exists path :: LeadsTo(accounts, path, id, end, hops)
  {
    if FollowMerge(accounts, id, hops) == Some(end) {
      var path := FollowingIsChain(accounts, id, hops);
      assert LeadsTo(accounts, path, id, end, hops);
    }
    if path :| LeadsTo(accounts, path, id, end, hops) {
      ChainIsFollowed(accounts, path, id, end, hops);
    }
  }

  function Resolve(sys: Sys, user: Id): (end: Option<Id>)
    ensures end.Some? ==> end.value in sys.accounts && sys.accounts[end.value].mergedInto.None?
  {
    var c := Of(sys, user);
    FollowMerge(sys.accounts, if c.row.Some? then c.row.value.account else user, MAX_HOPS)
  }

  /** Where the way of a customer id begins: at the account it is linked to, else at its own name. */
  function Origin(sys: Sys, user: Id): Id {
    if user in sys.customers && sys.customers[user].row.Some? then sys.customers[user].row.value.account else user
  }

  /** A customer id leads to an account over at most eight rows. */
  lemma ResolveIff(sys: Sys, user: Id, end: Id)
    ensures var origin := Origin(sys, user);
            Resolve(sys, user) == Some(end) <==> exists path :: LeadsTo(sys.accounts, path, origin, end, 8)
  {
    FollowMergeIff(sys.accounts, Origin(sys, user), 8, end);
  }

  // ---------------------------------------------------------------- the tier after a row was written

  predicate PaysFor(c: Customer, account: Id) {
    c.row.Some? && c.row.value.account == account
  }

  function RowTier(c: Customer): Tier {
    if c.row.Some? then c.row.value.tier else Free
  }

  function HighestEntitled(customers: map<Id, Customer>, account: Id): (highest: Tier)
    ensures forall u :: u in customers && PaysFor(customers[u], account) ==>
            !IsHigherTier(RowTier(customers[u]), highest)
    ensures highest == Free ||
            exists u :: u in customers && PaysFor(customers[u], account) && RowTier(customers[u]) == highest
  {
    var tiers := set u | u in customers && PaysFor(customers[u], account) :: RowTier(customers[u]);
    assert forall u :: u in customers && PaysFor(customers[u], account) ==> RowTier(customers[u]) in tiers;
    Highest(tiers)
  }

  function MoveTier(accounts: map<Id, Account>, account: Id, highest: Tier, rowBefore: Tier,
                    rowAfter: Tier): map<Id, Account> {
    if account !in accounts then accounts
    else accounts[account := accounts[account].(tier := AccountTierAfter(accounts[account].tier, highest, rowBefore,
        rowAfter))]
  }

  function SetTier(sys: Sys, account: Id, rowBefore: Tier, rowAfter: Tier): Sys {
    sys.(accounts := MoveTier(sys.accounts, account, HighestEntitled(sys.customers, account), rowBefore, rowAfter))
  }

  /** No row that pays for the account is worth more than `tier`. */
  ghost predicate CoversRows(sys: Sys, account: Id, tier: Tier) {
    forall u :: PaysFor(Of(sys, u), account) ==> Rank(RowTier(Of(sys, u))) <= Rank(tier)
  }

  ghost predicate PaidBySome(sys: Sys, account: Id, tier: Tier) {
    exists u :: PaysFor(Of(sys, u), account) && RowTier(Of(sys, u)) == tier
  }

  /** The row of `user` held at least `tier` and holds less than it did. */
  ghost predicate SourceGoes(sys: Sys, sys': Sys, user: Id, tier: Tier) {
    Rank(tier) <= Rank(RowTier(Of(sys, user))) && Rank(RowTier(Of(sys', user))) < Rank(RowTier(Of(sys, user)))
  }

  /**
   How an account's tier follows a written row: it never is below a row that pays for the account. It falls if and
   only if it was above all of them and the written row, a source of it, went down. It moves only to what some row
   pays for now.
   */
  ghost predicate TierFollows(sys: Sys, sys': Sys, user: Id, account: Id)
    requires account in sys.accounts && account in sys'.accounts
  {
    var before, after := sys.accounts[account].tier, sys'.accounts[account].tier;
    && CoversRows(sys', account, after)
    && (Rank(after) < Rank(before) <==>
          (forall u :: PaysFor(Of(sys', u), account) ==> Rank(RowTier(Of(sys', u))) < Rank(before))
          && SourceGoes(sys, sys', user, before))
    && (after != before ==> PaidBySome(sys', account, after))
  }

  /** A fair write of one row moves the tier of the account it pays for as above, and nothing else. */
  ghost predicate FairWrite(sys: Sys, sys': Sys, user: Id) {
    && sys'.accounts.Keys == sys.accounts.Keys
    && (forall u :: u != user ==> Of(sys', u) == Of(sys, u))
    && Of(sys', user).row.Some?
    && var account := Of(sys', user).row.value.account;
    && (forall a :: a in sys.accounts && a != account ==> sys'.accounts[a] == sys.accounts[a])
    && (account in sys.accounts ==>
          sys'.accounts[account].mergedInto == sys.accounts[account].mergedInto &&
          TierFollows(sys, sys', user, account))
  }

  lemma HighestIsPaid(sys: Sys, account: Id, user: Id)
    requires PaysFor(Of(sys, user), account)
    ensures CoversRows(sys, account, HighestEntitled(sys.customers, account))
    ensures PaidBySome(sys, account, HighestEntitled(sys.customers, account))
  {
    var highest := HighestEntitled(sys.customers, account);
    assert user in sys.customers;
    if highest != Free {
      var u :| u in sys.customers && PaysFor(sys.customers[u], account) && RowTier(sys.customers[u]) == highest;
      assert PaysFor(Of(sys, u), account) && RowTier(Of(sys, u)) == highest;
    } else {
      assert RowTier(Of(sys, user)) == highest;
    }
  }

  /** `noted` is `sys` with the row of `user` written: what all three paths do before they move the tier. */
  lemma SettingIsFair(sys: Sys, noted: Sys, user: Id, account: Id)
    requires noted.accounts == sys.accounts && forall u :: u != user ==> Of(noted, u) == Of(sys, u)
    requires PaysFor(Of(noted, user), account)
    ensures FairWrite(sys, SetTier(noted, account, RowTier(Of(sys, user)), RowTier(Of(noted, user))), user)
  {
    var sys' := SetTier(noted, account, RowTier(Of(sys, user)), RowTier(Of(noted, user)));
    forall u ensures Of(sys', u) == Of(noted, u) {
    }
    HighestIsPaid(sys', account, user);
    if account in sys.accounts {
      TierMoves(sys, sys', user, account, HighestEntitled(sys'.customers, account));
    }
  }

  lemma TierMoves(sys: Sys, sys': Sys, user: Id, account: Id, highest: Tier)
    requires account in sys.accounts && account in sys'.accounts
    requires CoversRows(sys', account, highest) && PaidBySome(sys', account, highest)
    requires sys'.accounts[account].tier ==
             AccountTierAfter(sys.accounts[account].tier, highest, RowTier(Of(sys, user)), RowTier(Of(sys', user)))
    ensures TierFollows(sys, sys', user, account)
  {
    var u :| PaysFor(Of(sys', u), account) && RowTier(Of(sys', u)) == highest;
    assert IsHigherTier(sys.accounts[account].tier, highest) <==>
           Rank(RowTier(Of(sys', u))) < Rank(sys.accounts[account].tier);
  }

  // ---------------------------------------------------------------- the three paths

  /** A read in flight ends (`once` after its await, and `apply`). */
  function EndRead(sys: Sys, user: Id, answer: Answer, config: StoreConfig, now: int): Sys
    requires Enabled(Of(sys, user), DoEnd(answer, None, now))
  {
    var c, resolved := Of(sys, user), Resolve(sys, user);
    var d := End(c, answer, config, resolved, now);
    if WritesResult(c, c.flight.value.seqno, answer, config, resolved) then
      WrittenHasRow(c, c.flight.value.seqno, answer, config, resolved, now);
      SetTier(Put(sys, user, d), d.row.value.account, RowTier(c), RowTier(d))
    else Put(sys, user, d)
  }

  predicate WritesResult(c: Customer, seqno: nat, answer: Answer, config: StoreConfig, resolved: Option<Id>) {
    Succeeds(c, answer) && Writes(c, seqno, ViewOf(answer, config), resolved)
  }

  /** A read of a dead process ends. */
  function EndLateRead(sys: Sys, user: Id, seqno: nat, answer: Answer, config: StoreConfig, now: int): Sys {
    var c, resolved := Of(sys, user), Resolve(sys, user);
    var d := LateEnd(c, seqno, answer, config, resolved, now);
    if WritesResult(c, seqno, answer, config, resolved) then
      WrittenHasRow(c, seqno, answer, config, resolved, now);
      SetTier(Put(sys, user, d), d.row.value.account, RowTier(c), RowTier(d))
    else Put(sys, user, d)
  }

  /** An event as `entitledTier` reads it: `None` names no known entitlement. */
  datatype Event = Event(id: string, user: Id, at: int, tier: Option<Tier>)

  predicate OutOfOrder(c: Customer, at: int) {
    c.row.Some? && c.row.value.lastEventAt.Some? && at < c.row.value.lastEventAt.value
  }

  predicate EventCounts(sys: Sys, event: Event) {
    event.id !in sys.events && Resolve(sys, event.user).Some? && event.tier.Some? &&
        !OutOfOrder(Of(sys, event.user), event.at)
  }

  function RowOfEvent(c: Customer, account: Id, event: Event): Row
    requires event.tier.Some?
  {
    if c.row.None? then Row(account, event.tier.value, 0, 0, None, Some(event.at))
    else c.row.value.(account := account, tier := event.tier.value, lastEventAt := Some(event.at))
  }

  /** `applyRevenueCatEvent`: the path of a relay that does not read the store. */
  function ApplyEvent(sys: Sys, event: Event): Sys {
    if event.id in sys.events then sys
    else
      var noted := sys.(events := sys.events + {event.id});
      if !EventCounts(sys, event) then noted
      else
        var c, account := Of(sys, event.user), Resolve(sys, event.user).value;
        var row := RowOfEvent(c, account, event);
        SetTier(Put(noted, event.user, c.(row := Some(row))), account, RowTier(c), row.tier)
  }

  /** `applyTier`, the daily sweep's write. */
  function ApplySweep(sys: Sys, user: Id, tier: Tier): Sys {
    var c := Of(sys, user);
    if c.row.None? then sys
    else SetTier(Put(sys, user, c.(row := Some(c.row.value.(tier := tier)))), c.row.value.account, c.row.value.tier,
                 tier)
  }

  /** A read that writes a result is a fair write. */
  lemma EndReadIsFair(sys: Sys, user: Id, answer: Answer, config: StoreConfig, now: int)
    requires Enabled(Of(sys, user), DoEnd(answer, None, now))
    requires WritesResult(Of(sys, user), Of(sys, user).flight.value.seqno, answer, config, Resolve(sys, user))
    ensures FairWrite(sys, EndRead(sys, user, answer, config, now), user)
  {
    var c, resolved := Of(sys, user), Resolve(sys, user);
    WrittenHasRow(c, c.flight.value.seqno, answer, config, resolved, now);
    var d := End(c, answer, config, resolved, now);
    SettingIsFair(sys, Put(sys, user, d), user, d.row.value.account);
  }

  lemma EndLateReadIsFair(sys: Sys, user: Id, seqno: nat, answer: Answer, config: StoreConfig, now: int)
    requires WritesResult(Of(sys, user), seqno, answer, config, Resolve(sys, user))
    ensures FairWrite(sys, EndLateRead(sys, user, seqno, answer, config, now), user)
  {
    var c, resolved := Of(sys, user), Resolve(sys, user);
    WrittenHasRow(c, seqno, answer, config, resolved, now);
    var d := LateEnd(c, seqno, answer, config, resolved, now);
    SettingIsFair(sys, Put(sys, user, d), user, d.row.value.account);
  }

  lemma WrittenHasRow(c: Customer, seqno: nat, answer: Answer, config: StoreConfig, resolved: Option<Id>, now: int)
    requires WritesResult(c, seqno, answer, config, resolved)
    ensures Effect(c, seqno, answer, config, resolved, now).row.Some?
  {
  }

  lemma EventIsFair(sys: Sys, event: Event)
    requires EventCounts(sys, event)
    ensures FairWrite(sys, ApplyEvent(sys, event), event.user)
  {
    var c, account := Of(sys, event.user), Resolve(sys, event.user).value;
    var noted := sys.(events := sys.events + {event.id});
    SettingIsFair(sys, Put(noted, event.user, c.(row := Some(RowOfEvent(c, account, event)))), event.user, account);
  }

  lemma SweepIsFair(sys: Sys, user: Id, tier: Tier)
    requires Of(sys, user).row.Some?
    ensures FairWrite(sys, ApplySweep(sys, user, tier), user)
  {
    var c := Of(sys, user);
    SettingIsFair(sys, Put(sys, user, c.(row := Some(c.row.value.(tier := tier)))), user, c.row.value.account);
  }
}
