/**
 What an account holds and has counted (src/tier/packs.ts, src/tier/p4-usage.ts), and how a merge joins two of them.
 */
module AccountPacks {
  import opened Common
  import opened Tiers
  import opened BillingView
  import opened AccountModel

  // ---------------------------------------------------------------- packs

  predicate Unended(end: Option<int>, now: int) {
    end.None? || end.value > now
  }

  /** A customer id of the account holds it to this end. With store reads on, a passed end ends nothing. */
  ghost predicate BillingGives(db: Db, account: AccountId, pack: Pack, end: Option<int>, now: int, storeReads: bool) {
    exists c :: c in db.billing && db.billing[c].account == account && pack in db.billing[c].packs
                && db.billing[c].packs[pack] == end && (storeReads || Unended(end, now))
  }

  ghost predicate GrantGives(db: Db, account: AccountId, pack: Pack, end: Option<int>, now: int) {
    && account in db.grants && pack in db.grants[account] && db.grants[account][pack] == end
    && (end.None? || now < end.value)
  }

  ghost predicate GivesPack(db: Db, account: AccountId, pack: Pack, end: Option<int>, now: int, storeReads: bool) {
    BillingGives(db, account, pack, end, now, storeReads) || GrantGives(db, account, pack, end, now)
  }

  /**
   What `packsFor` reports of a pack: absent when nothing gives it, else the latest end, no end date the latest of
   all.
   */
  ghost predicate Reports(db: Db, account: AccountId, pack: Pack, now: int, storeReads: bool,
                          answer: Option<Option<int>>) {
    match answer
    case None => forall end :: !GivesPack(db, account, pack, end, now, storeReads)
    case Some(end) =>
      && GivesPack(db, account, pack, end, now, storeReads)
      && forall other :: GivesPack(db, account, pack, other, now, storeReads) ==> NoLater(other, end)
  }

  lemma ReportIsUnique(db: Db, account: AccountId, pack: Pack, now: int, storeReads: bool, a: Option<Option<int>>,
                       b: Option<Option<int>>)
    requires Reports(db, account, pack, now, storeReads, a) && Reports(db, account, pack, now, storeReads, b)
    ensures a == b
  {
  }

  /** The join of two answers at the same time: absent at the bottom, no end date at the top. */
  function JoinAnswers(a: Option<Option<int>>, b: Option<Option<int>>): Option<Option<int>> {
    if a.None? then b else if b.None? then a else Some(LaterEnd(a.value, b.value))
  }

  lemma MergedBillingGives(db: Db, after: Db, source: AccountId, target: AccountId, pack: Pack, end: Option<int>,
                           now: int, storeReads: bool)
    requires after.billing == MoveIds(db.billing, source, target) && source != target
    ensures BillingGives(after, target, pack, end, now, storeReads)
       <==> BillingGives(db, source, pack, end, now, storeReads) || BillingGives(db, target, pack, end, now, storeReads)
  {
    if BillingGives(db, source, pack, end, now, storeReads) {
      var c :| c in db.billing && db.billing[c].account == source && pack in db.billing[c].packs &&
          db.billing[c].packs[pack] == end;
      assert after.billing[c].account == target;
    }
    if BillingGives(db, target, pack, end, now, storeReads) {
      var c :| c in db.billing && db.billing[c].account == target && pack in db.billing[c].packs &&
          db.billing[c].packs[pack] == end;
      assert after.billing[c].account == target;
    }
  }

  /** The merged grant is the later of the two, an expired one counting like any other. */
  lemma MergeJoinsGrants(db: Db, source: AccountId, target: AccountId)
    requires source in db.accounts && target in db.accounts && source != target
    ensures var after := MergeInto(db, source, target).grants;
            && RowsOf(after, source) == map[]
            && RowsOf(after, target) == JoinPacks(RowsOf(db.grants, target), RowsOf(db.grants, source))
  {
  }

  /**
   After a merge an account reports of every pack the join of what both sides reported at the same time. The packs a
   configuration attaches to a tier are aside.
   */
  lemma MergeJoinsPacks(db: Db, source: AccountId, target: AccountId, pack: Pack, now: int, storeReads: bool,
                        a: Option<Option<int>>, b: Option<Option<int>>)
    requires source in db.accounts && target in db.accounts && source != target
    requires Reports(db, source, pack, now, storeReads, a) && Reports(db, target, pack, now, storeReads, b)
    ensures Reports(MergeInto(db, source, target), target, pack, now, storeReads, JoinAnswers(a, b))
  {
    var after := MergeInto(db, source, target);
    MergeJoinsGrants(db, source, target);
    forall end
      ensures BillingGives(after, target, pack, end, now, storeReads) <==>
              (BillingGives(db, source, pack, end, now, storeReads) ||
               BillingGives(db, target, pack, end, now, storeReads)) {
      MergedBillingGives(db, after, source, target, pack, end, now, storeReads);
    }
    JoinReports(db, after, source, target, pack, now, storeReads, a, b);
  }

  lemma GivenBySide(db: Db, after: Db, source: AccountId, target: AccountId, pack: Pack, end: Option<int>, now: int,
                    storeReads: bool)
    requires GivesPack(after, target, pack, end, now, storeReads)
    requires BillingGives(after, target, pack, end, now, storeReads)
         ==> BillingGives(db, source, pack, end, now, storeReads) ||
             BillingGives(db, target, pack, end, now, storeReads)
    requires RowsOf(after.grants, target) == JoinPacks(RowsOf(db.grants, target), RowsOf(db.grants, source))
    ensures GivesPack(db, source, pack, end, now, storeReads) || GivesPack(db, target, pack, end, now, storeReads)
  {
  }

  lemma JoinReports(db: Db, after: Db, source: AccountId, target: AccountId, pack: Pack, now: int, storeReads: bool,
                    a: Option<Option<int>>, b: Option<Option<int>>)
    requires Reports(db, source, pack, now, storeReads, a) && Reports(db, target, pack, now, storeReads, b)
    requires forall end ::
               BillingGives(after, target, pack, end, now, storeReads) <==>
               (BillingGives(db, source, pack, end, now, storeReads) ||
                BillingGives(db, target, pack, end, now, storeReads))
    requires RowsOf(after.grants, target) == JoinPacks(RowsOf(db.grants, target), RowsOf(db.grants, source))
    ensures Reports(after, target, pack, now, storeReads, JoinAnswers(a, b))
  {
    var answer := JoinAnswers(a, b);
    forall end | GivesPack(after, target, pack, end, now, storeReads)
      ensures GivesPack(db, source, pack, end, now, storeReads) || GivesPack(db, target, pack, end, now, storeReads) {
      GivenBySide(db, after, source, target, pack, end, now, storeReads);
    }
    if answer.Some? {
      GivesJoined(db, after, source, target, pack, now, storeReads, a, b);
    }
  }

  lemma GivesJoined(db: Db, after: Db, source: AccountId, target: AccountId, pack: Pack, now: int, storeReads: bool,
                    a: Option<Option<int>>, b: Option<Option<int>>)
    requires Reports(db, source, pack, now, storeReads, a) && Reports(db, target, pack, now, storeReads, b)
    requires forall end ::
               BillingGives(after, target, pack, end, now, storeReads) <==>
               (BillingGives(db, source, pack, end, now, storeReads) ||
                BillingGives(db, target, pack, end, now, storeReads))
    requires RowsOf(after.grants, target) == JoinPacks(RowsOf(db.grants, target), RowsOf(db.grants, source))
    requires JoinAnswers(a, b).Some?
    ensures GivesPack(after, target, pack, JoinAnswers(a, b).value, now, storeReads)
  {
    var end := JoinAnswers(a, b).value;
    if (a.Some? && a.value == end && BillingGives(db, source, pack, end, now, storeReads))
       || (b.Some? && b.value == end && BillingGives(db, target, pack, end, now, storeReads)) {
      assert BillingGives(after, target, pack, end, now, storeReads);
    } else if a.Some? && a.value == end {
      assert GrantGives(db, source, pack, end, now);
      assert pack in RowsOf(after.grants, target);
      if pack in RowsOf(db.grants, target) && Unended(RowsOf(db.grants, target)[pack], now) {
        assert GivesPack(db, target, pack, RowsOf(db.grants, target)[pack], now, storeReads);
      }
      assert GrantGives(after, target, pack, end, now);
    } else {
      assert GrantGives(db, target, pack, end, now);
      assert pack in RowsOf(after.grants, target);
      if pack in RowsOf(db.grants, source) && Unended(RowsOf(db.grants, source)[pack], now) {
        assert GivesPack(db, source, pack, RowsOf(db.grants, source)[pack], now, storeReads);
      }
      assert GrantGives(after, target, pack, end, now);
    }
  }

  // ---------------------------------------------------------------- the loop over the rows

  datatype Held = Held(pack: Pack, end: Option<int>)

  predicate IsPackId(pack: Pack) {
    pack == "pro"
  }

  /** The map after the rows so far: known packs only, each with the latest of its ends. */
  ghost predicate IsBest(rows: seq<Held>, best: Packs) {
    && (forall pack :: pack in best ==> IsPackId(pack) && Held(pack, best[pack]) in rows)
    && (forall row :: row in rows && IsPackId(row.pack) ==>
        row.pack in best && NoLater(row.end, best[row.pack]))
  }

  /** The loop of `packsFor`. */
  method BestEnds(rows: seq<Held>) returns (best: Packs)
    ensures IsBest(rows, best)
  {
    best := map[];
    var i := 0;
    while i < |rows|
      invariant 0 <= i <= |rows|
      invariant IsBest(rows[..i], best)
    {
      var row := rows[i];
      assert rows[..i + 1] == rows[..i] + [row];
      i := i + 1;
      if !IsPackId(row.pack) {
        continue;
      }
      if row.pack !in best {
        best := best[row.pack := row.end];
        continue;
      }
      var current := best[row.pack];
      if current.None? {
        continue;
      }
      best := best[row.pack := if row.end.None? then None else Some(Max(current.value, row.end.value))];
    }
    assert rows[..i] == rows;
  }

  function Answer(best: Packs, pack: Pack): Option<Option<int>> {
    if pack in best then Some(best[pack]) else None
  }

  /** On the rows that an account's customer ids and grants give, the loop answers what the account reports. */
  lemma BestIsReported(db: Db, account: AccountId, pack: Pack, now: int, storeReads: bool, rows: seq<Held>, best: Packs)
    requires IsPackId(pack) && IsBest(rows, best)
    requires forall end :: Held(pack, end) in rows <==> GivesPack(db, account, pack, end, now, storeReads)
    ensures Reports(db, account, pack, now, storeReads, Answer(best, pack))
  {
  }

  // ---------------------------------------------------------------- counts

  function CountOn(p4: map<AccountId, map<int, nat>>, account: AccountId, day: int): nat {
    if account in p4 && day in p4[account] then p4[account][day] else 0
  }

  /** Each day's priority 4 count of the survivor is the sum of both sides; nobody else's moves. */
  lemma MergeAddsCounts(db: Db, source: AccountId, target: AccountId, account: AccountId, day: int)
    requires source in db.accounts && target in db.accounts && source != target
    ensures CountOn(MergeInto(db, source, target).p4, account, day) ==
            if account == source then 0
            else if account == target then CountOn(db.p4, source, day) + CountOn(db.p4, target, day)
            else CountOn(db.p4, account, day)
  {
    MovedCounts(db.p4, source, target, account, day);
  }

  lemma MovedCounts(p4: map<AccountId, map<int, nat>>, source: AccountId, target: AccountId, account: AccountId,
                    day: int)
    requires source != target
    ensures CountOn(MoveP4(p4, source, target), account, day) ==
            if account == source then 0
            else if account == target then CountOn(p4, source, day) + CountOn(p4, target, day)
            else CountOn(p4, account, day)
  {
  }

  // ---------------------------------------------------------------- tier

  /** The survivor ends on the higher of its own tier and what both sides' customer ids pay for. */
  lemma MergeRaisesTier(db: Db, source: AccountId, target: AccountId)
    requires source in db.accounts && target in db.accounts && source != target
    ensures var before, after := db.accounts[target].tier, MergeInto(db, source, target).accounts[target].tier;
            && !IsHigherTier(before, after)
            && (forall c :: c in db.billing && db.billing[c].account in {source, target} ==>
                !IsHigherTier(db.billing[c].tier, after))
            && (after == before
                || exists c ::
                     c in db.billing && db.billing[c].account in {source, target} && db.billing[c].tier == after)
  {
    var moved := MoveDevices(FoldTopics(RepointTombstones(db, source, target), target, TopicsOf(db, source)), source,
                             target);
    assert moved.billing == db.billing && moved.accounts[target].tier == db.accounts[target].tier;
    BillingRaises(moved, source, target);
  }

  lemma BillingRaises(db: Db, source: AccountId, target: AccountId)
    requires target in db.accounts && source != target
    ensures var before, after := db.accounts[target].tier, MoveBilling(db, source, target).accounts[target].tier;
            && !IsHigherTier(before, after)
            && (forall c :: c in db.billing && db.billing[c].account in {source, target} ==>
                !IsHigherTier(db.billing[c].tier, after))
            && (after == before
                || exists c ::
                     c in db.billing && db.billing[c].account in {source, target} && db.billing[c].tier == after)
  {
    var moved := MoveBilling(db, source, target);
    var highest := HighestBilled(db.(billing := moved.billing), target);
    assert moved.accounts[target].tier == HigherOf(highest, db.accounts[target].tier);
    forall c | c in db.billing && db.billing[c].account in {source, target}
        ensures !IsHigherTier(db.billing[c].tier, highest) {
      assert moved.billing[c].account == target;
    }
  }
}
