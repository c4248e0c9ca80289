/** `BillingReads`, with the tables it writes and the memory it keeps, proved to do exactly the steps of the model. */
module BillingStores {
  import opened Common
  import opened Tiers
  import opened BillingView
  import opened BillingModel
  import opened BillingAccounts
  import opened BillingRuns

  function Get<V>(table: map<Id, V>, key: Id): Option<V> {
    if key in table then Some(table[key]) else None
  }

  function PacksOf(packs: map<Id, Packs>, user: Id): Packs {
    if user in packs then packs[user] else map[]
  }

  ghost predicate HighestOfRows(rows: map<Id, Row>, account: Id, tier: Tier) {
    && (forall u :: u in rows && rows[u].account == account ==> !IsHigherTier(rows[u].tier, tier))
    && (tier == Free || exists u :: u in rows && rows[u].account == account && rows[u].tier == tier)
  }

  /** The loop over an account's rows finds what the model calls its highest entitled tier. */
  lemma HighestAgrees(rows: map<Id, Row>, sys: Sys, account: Id, tier: Tier)
    requires HighestOfRows(rows, account, tier)
    requires forall u :: Of(sys, u).row == Get(rows, u)
    ensures tier == HighestEntitled(sys.customers, account)
  {
    var highest := HighestEntitled(sys.customers, account);
    if highest != Free {
      var u :| u in sys.customers && PaysFor(sys.customers[u], account) && RowTier(sys.customers[u]) == highest;
      assert Of(sys, u).row == Get(rows, u);
    }
    if tier != Free {
      var u :| u in rows && rows[u].account == account && rows[u].tier == tier;
      assert Of(sys, u).row == Get(rows, u);
    }
  }

  /** The accounts after one customer's step, when that step wrote a result (`wrote`). */
  ghost function AccountsAfter(sys: Sys, user: Id, d: Customer, wrote: bool): map<Id, Account> {
    if wrote && d.row.Some? then SetTier(Put(sys, user, d), d.row.value.account, RowTier(Of(sys, user)),
                                         RowTier(d)).accounts
    else sys.accounts
  }

  lemma OtherRows(sys: Sys, user: Id, d: Customer, rows: map<Id, Row>, highest: Tier)
    requires d.row.Some? && Get(rows, user) == d.row
    requires forall u :: u != user ==> Of(sys, u).row == Get(rows, u)
    requires HighestOfRows(rows, d.row.value.account, highest)
    ensures SetTier(Put(sys, user, d), d.row.value.account, RowTier(Of(sys, user)), RowTier(d)).accounts
         == MoveTier(sys.accounts, d.row.value.account, highest, RowTier(Of(sys, user)), RowTier(d))
  {
    HighestAgrees(rows, Put(sys, user, d), d.row.value.account, highest);
  }

  method UpsertListed(before: Packs, listed: Packs) returns (held: Packs)
    ensures held == before + listed
  {
    held := before;
    var left := listed.Keys;
    while left != {}
      invariant left <= listed.Keys
      invariant held == before + (listed - left)
      decreases left
    {
      var pack :| pack in left;
      left := left - {pack};
      held := held[pack := listed[pack]];
    }
    assert listed - {} == listed;
  }

  method KeepListed(stored: Packs, listed: Packs) returns (held: Packs)
    requires forall pack :: pack in listed ==> pack in stored && stored[pack] == listed[pack]
    ensures held == listed
  {
    held := stored;
    var left := stored.Keys;
    while left != {}
      invariant left <= stored.Keys
      invariant forall pack :: pack in held <==> pack in stored && (pack in left || pack in listed)
      invariant forall pack :: pack in held ==> held[pack] == stored[pack]
      decreases |left|
    {
      var pack :| pack in left;
      left := left - {pack};
      if pack !in listed {
        held := held - {pack};
      }
    }
  }

  /** The rows of `billing_packs` after a result: the listed ones, and the others too when the list is guarded. */
  method WritePacks(before: Packs, view: StoreView) returns (held: Packs)
    ensures held == PacksWritten(before, view)
  {
    held := UpsertListed(before, view.packs);
    if view.unknownIds == [] {
      held := KeepListed(held, view.packs);
    }
  }

  lemma CrashShape(c: Customer)
    ensures Crash(c) == c.(flight := None, unlinked := None, log := Crash(c).log)
  {
  }

  lemma QuietCrash(c: Customer)
    requires c.flight.None? && c.unlinked.None? && c.log == NO_HISTORY
    ensures Crash(c) == c
  {
  }

  /** The effect of a read, put together with what its end leaves in memory, is the step of the model. */
  lemma EndedRead(sys: Sys, user: Id, answer: Answer, config: StoreConfig, now: int)
    requires Enabled(Of(sys, user), DoEnd(answer, None, now))
    ensures var c, resolved := Of(sys, user), Resolve(sys, user);
            var wrote := WritesResult(c, c.flight.value.seqno, answer, config, resolved);
            var next := BillingAccounts.EndRead(sys, user, answer, config, now);
            && Of(next, user) == End(c, answer, config, resolved, now)
            && (forall u :: u != user ==> Of(next, u) == Of(sys, u))
            && next.events == sys.events
            && next.accounts == AccountsAfter(sys, user,
                                              Effect(c, c.flight.value.seqno, answer, config, resolved, now), wrote)
  {
    var c, resolved := Of(sys, user), Resolve(sys, user);
    var d := Effect(c, c.flight.value.seqno, answer, config, resolved, now);
    if WritesResult(c, c.flight.value.seqno, answer, config, resolved) {
      WrittenHasRow(c, c.flight.value.seqno, answer, config, resolved, now);
      SetTierAgrees(Put(sys, user, d), Put(sys, user, End(c, answer, config, resolved, now)), d.row.value.account,
                    RowTier(c), RowTier(d));
    }
  }

  /** Only the rows decide an account's tier. */
  lemma SetTierAgrees(s: Sys, t: Sys, account: Id, rowBefore: Tier, rowAfter: Tier)
    requires s.accounts == t.accounts && forall u :: Of(s, u).row == Of(t, u).row
    ensures SetTier(s, account, rowBefore, rowAfter).accounts == SetTier(t, account, rowBefore, rowAfter).accounts
  {
    HighestAtMost(s, t, account);
    HighestAtMost(t, s, account);
  }

  lemma HighestAtMost(s: Sys, t: Sys, account: Id)
    requires forall u :: Of(s, u).row == Of(t, u).row
    ensures !IsHigherTier(HighestEntitled(s.customers, account), HighestEntitled(t.customers, account))
  {
    var highest := HighestEntitled(s.customers, account);
    if highest != Free {
      var u :| u in s.customers && PaysFor(s.customers[u], account) && RowTier(s.customers[u]) == highest;
      assert PaysFor(Of(t, u), account) && RowTier(Of(t, u)) == highest;
      assert u in t.customers;
    }
  }

  /** One round of the loop over an event's customers. */
  lemma NextQueued(sys: Sys, users: seq<Id>, i: nat, at: int, now: int)
    requires Distinct(users) && i < |users|
    ensures var done, next := QueueEach(sys, users[..i], at, now), QueueEach(sys, users[..i + 1], at, now);
            && Of(done, users[i]) == Of(sys, users[i])
            && next.accounts == done.accounts == sys.accounts && next.events == done.events == sys.events
            && (forall u :: u != users[i] ==> Of(next, u) == Of(done, u))
            && Of(next, users[i]) == if Resolve(sys, users[i]).None? then Of(done, users[i])
                                     else Queue(Of(done, users[i]), Resolve(sys, users[i]).value, at, now)
  {
    assert users[..i + 1][..i] == users[..i];
    assert users[i] !in users[..i];
    EventQueuesReads(sys, users[..i], at, now, users[i]);
    QueueEachKeepsEvents(sys, users[..i], at, now);
  }

  lemma {:induction false} QueueEachKeepsEvents(sys: Sys, users: seq<Id>, at: int, now: int)
    ensures QueueEach(sys, users, at, now).events == sys.events
    decreases |users|
  {
    if users != [] {
      QueueEachKeepsEvents(sys, users[..|users| - 1], at, now);
    }
  }

  /** `namedCustomers`: every id an event names, each once and none empty. */
  method NamedCustomers(user: Option<Id>, from: seq<Id>, to: seq<Id>) returns (named: seq<Id>)
    ensures Distinct(named)
    ensures forall id :: id in named <==> id != "" && (user == Some(id) || id in from || id in to)
  {
    var all := (if user.Some? then [user.value] else []) + from + to;
    named := [];
    var i := 0;
    while i < |all|
      invariant 0 <= i <= |all|
      invariant Distinct(named)
      invariant forall id :: id in named <==> id != "" && id in all[..i]
    {
      assert all[..i + 1] == all[..i] + [all[i]];
      if all[i] != "" && all[i] !in named {
        named := named + [all[i]];
      }
      i := i + 1;
    }
    assert all[..i] == all;
  }

  class BillingReads {
    const config: StoreConfig
    var accounts: map<Id, Account>
    var rows: map<Id, Row>
    var packs: map<Id, Packs>
    var queue: map<Id, Queued>
    var events: set<string>
    var flights: map<Id, Flight>
    var unlinked: map<Id, nat>
    ghost var logs: map<Id, History>

    constructor (config: StoreConfig, accounts: map<Id, Account>)
      ensures this.config == config && this.accounts == accounts && events == {}
      ensures forall u :: CustomerOf(u) == STRANGER
    {
      this.config, this.accounts := config, accounts;
      rows, packs, queue, events, flights, unlinked, logs := map[], map[], map[], {}, map[], map[], map[];
    }

    ghost function LogOf(user: Id): History
      reads this`logs
    {
      if user in logs then logs[user] else NO_HISTORY
    }

    ghost function CustomerOf(user: Id): Customer
      reads this`rows, this`packs, this`queue, this`flights, this`unlinked, this`logs
    {
      Customer(Get(rows, user), PacksOf(packs, user), Get(queue, user), Get(flights, user), Get(unlinked, user),
               LogOf(user))
    }

    /** `sys` is the model's value of this state. */
    ghost predicate Mirrors(sys: Sys)
      reads this
    {
      accounts == sys.accounts && events == sys.events && forall u :: CustomerOf(u) == Of(sys, u)
    }

    // ---------------------------------------------------------------- the queue

    method MarkDirty(user: Id, now: int)
      modifies this`queue
      ensures queue == old(queue)[user := Marked(Get(old(queue), user), now)]
    {
      if user in queue {
        queue := queue[user := queue[user].(dirty := true)];
      } else {
        queue := queue[user := Queued(now, 0, true)];
      }
    }

    method TakeDirty(user: Id) returns (dirty: bool)
      modifies this`queue
      ensures dirty == IsDirty(old(CustomerOf(user)))
      ensures CustomerOf(user) == CleanMark(old(CustomerOf(user)))
      ensures forall u :: u != user ==> CustomerOf(u) == old(CustomerOf(u))
    {
      dirty := user in queue && queue[user].dirty;
      if dirty {
        queue := queue[user := queue[user].(dirty := false)];
      }
    }

    method Enqueue(user: Id, now: int)
      modifies this`queue, this`logs
      ensures CustomerOf(user) == BillingModel.Enqueue(old(CustomerOf(user)), now)
      ensures forall u :: u != user ==> CustomerOf(u) == old(CustomerOf(u))
    {
      logs := logs[user := Wanting(LogOf(user))];
      if user in flights {
        MarkDirty(user, now);
        return;
      }
      if user in queue {
        queue := queue[user := queue[user].(dueAt := now, attempts := 0)];
      } else {
        queue := queue[user := Queued(now, 0, false)];
      }
    }

    /** The customers a scan reads: due or marked, the longest due first, then by id. */
    method Due(now: int) returns (due: seq<Id>)
      ensures forall u :: u in due <==> IsDue(CustomerOf(u), now)
      ensures forall i, j :: 0 <= i < j < |due| ==>
                due[i] in queue && due[j] in queue && Before(queue[due[i]].dueAt, due[i], queue[due[j]].dueAt, due[j])
    {
      due := [];
      var left := queue.Keys;
      while left != {}
        invariant left <= queue.Keys
        invariant forall u :: u in due <==> u !in left && IsDue(CustomerOf(u), now)
        invariant Sorted(due, queue)
        decreases |left|
      {
        var u :| u in left;
        left := left - {u};
        if queue[u].dueAt <= now || queue[u].dirty {
          InsertSorts(due, u, queue);
          due := Insert(due, u, queue);
        }
      }
    }

    // ---------------------------------------------------------------- reads

    method TakeNumber(user: Id) returns (seqno: nat)
      modifies this`rows, this`unlinked
      ensures seqno == BillingModel.TakeNumber(old(CustomerOf(user))).1
      ensures CustomerOf(user) == BillingModel.TakeNumber(old(CustomerOf(user))).0
      ensures forall u :: u != user ==> CustomerOf(u) == old(CustomerOf(u))
    {
      if user in rows {
        seqno := rows[user].readSeq + 1;
        rows := rows[user := rows[user].(readSeq := seqno)];
      } else {
        seqno := (if user in unlinked then unlinked[user] else 0) + 1;
        unlinked := unlinked[user := seqno];
      }
    }

    method Start(user: Id, index: nat, waiting: set<Call>)
      requires index == LogOf(user).starts
      modifies this`rows, this`unlinked, this`flights, this`logs
      ensures CustomerOf(user) == BillingModel.Start(old(CustomerOf(user)), waiting)
      ensures forall u :: u != user ==> CustomerOf(u) == old(CustomerOf(u))
    {
      var seqno := TakeNumber(user);
      flights := flights[user := Flight(seqno, index, None, waiting, {})];
      logs := logs[user := LogOf(user).(starts := LogOf(user).starts + 1, issued := LogOf(user).issued + [seqno])];
    }

    /** `index` names the promise the call would make if it starts a read. */
    method Read(user: Id, index: nat, call: Call, now: int)
      requires index == LogOf(user).starts
      modifies this`rows, this`unlinked, this`flights, this`logs, this`queue
      ensures CustomerOf(user) == ReadCall(old(CustomerOf(user)), call, now)
      ensures forall u :: u != user ==> CustomerOf(u) == old(CustomerOf(u))
    {
      logs := logs[user := LogOf(user).(calls := LogOf(user).calls[call := LogOf(user).starts])];
      if user !in flights {
        logs := logs[user := LogOf(user).(odd := LogOf(user).odd + if IsDirty(CustomerOf(user)) then 1 else 0)];
        Start(user, index, {call});
        return;
      }
      MarkDirty(user, now);
      flights := flights[user := flights[user].(follow := flights[user].follow + {call})];
      logs := logs[user := Wanting(LogOf(user))];
    }

    /** One turn of a scan. A customer whose read is in flight is left to that read. */
    method Pick(user: Id, index: nat)
      requires index == LogOf(user).starts
      modifies this`rows, this`unlinked, this`flights, this`logs, this`queue
      ensures CustomerOf(user) == BillingModel.Pick(old(CustomerOf(user)))
      ensures forall u :: u != user ==> CustomerOf(u) == old(CustomerOf(u))
    {
      if user in flights {
        return;
      }
      var _ := TakeDirty(user);
      Start(user, index, {});
    }

    method Failed(user: Id, now: int)
      modifies this`queue
      ensures CustomerOf(user) == BillingModel.Failed(old(CustomerOf(user)), now)
      ensures forall u :: u != user ==> CustomerOf(u) == old(CustomerOf(u))
    {
      if user in queue && queue[user].dirty {
        return;
      }
      var failures := (if user in queue then queue[user].attempts else 0) + 1;
      if failures > |RETRY_AFTER_S| {
        queue := queue - {user};
        return;
      }
      queue := queue[user := Queued(now + RETRY_AFTER_S[failures - 1], failures, false)];
    }

    method Link(user: Id, account: Id)
      modifies this`rows, this`unlinked
      ensures CustomerOf(user) == BillingModel.Link(old(CustomerOf(user)), account)
      ensures forall u :: u != user ==> CustomerOf(u) == old(CustomerOf(u))
    {
      if user !in rows {
        rows := rows[user := Row(account, Free, if user in unlinked then unlinked[user] else 0, 0, None, None)];
        unlinked := unlinked - {user};
        return;
      }
      if rows[user].account != account {
        rows := rows[user := rows[user].(account := account)];
      }
    }

    method ResolveAccount(ghost sys: Sys, user: Id) returns (account: Option<Id>)
      requires accounts == sys.accounts && Get(rows, user) == Of(sys, user).row
      ensures account == Resolve(sys, user)
    {
      var current, hop := if user in rows then rows[user].account else user, 0;
      while hop < MAX_HOPS
        invariant 0 <= hop <= MAX_HOPS
        invariant Resolve(sys, user) == FollowMerge(accounts, current, MAX_HOPS - hop)
        decreases MAX_HOPS - hop
      {
        if current !in accounts {
          return None;
        }
        if accounts[current].mergedInto.None? {
          return Some(current);
        }
        current := accounts[current].mergedInto.value;
        hop := hop + 1;
      }
      return None;
    }

    method HighestTier(account: Id) returns (highest: Tier)
      ensures HighestOfRows(rows, account, highest)
    {
      highest := Free;
      var left := rows.Keys;
      while left != {}
        invariant left <= rows.Keys
        invariant forall u :: u in rows && u !in left && rows[u].account == account ==>
                  !IsHigherTier(rows[u].tier, highest)
        invariant highest == Free || exists u :: u in rows && rows[u].account == account && rows[u].tier == highest
        decreases |left|
      {
        var u :| u in left;
        left := left - {u};
        if rows[u].account == account && IsHigherTier(rows[u].tier, highest) {
          highest := rows[u].tier;
        }
      }
    }

    /** The account's tier after a row of it was written. */
    method WriteTier(account: Id, rowBefore: Tier, rowAfter: Tier) returns (highest: Tier)
      modifies this`accounts
      ensures HighestOfRows(rows, account, highest)
      ensures accounts == MoveTier(old(accounts), account, highest, rowBefore, rowAfter)
    {
      highest := HighestTier(account);
      if account !in accounts {
        return;
      }
      var next := AccountTierAfter(accounts[account].tier, highest, rowBefore, rowAfter);
      if next != accounts[account].tier {
        accounts := accounts[account := accounts[account].(tier := next)];
      }
    }

    /** The row and the packs of a result. */
    method Record(user: Id, seqno: nat, view: StoreView, now: int)
      requires user in rows
      modifies this`rows, this`packs, this`logs
      ensures CustomerOf(user) == WriteResult(old(CustomerOf(user)), seqno, view, now)
      ensures forall u :: u != user ==> CustomerOf(u) == old(CustomerOf(u))
    {
      var row := rows[user];
      var guarded := view.unknownIds != [];
      var tier := if guarded && IsHigherTier(row.tier, view.tier) then row.tier else view.tier;
      rows := rows[user := row.(tier := tier, checkedAt := Some(now), appliedSeq := seqno,
                                readSeq := Max(row.readSeq, seqno))];
      var held := WritePacks(if user in packs then packs[user] else map[], view);
      packs := packs[user := held];
      logs := logs[user := LogOf(user).(applied := LogOf(user).applied + [Applied(seqno, view)])];
    }

    /** Links the customer when `apply` would, and says whether there is a row to write to. */
    method LinkFor(user: Id, view: StoreView, account: Option<Id>) returns (linked: bool)
      modifies this`rows, this`unlinked
      ensures linked == (user in old(rows) || (account.Some? && !PaysForNothing(view)))
      ensures linked ==> user in rows
      ensures CustomerOf(user) == if linked then LinkResolved(old(CustomerOf(user)), account) else old(CustomerOf(user))
      ensures forall u :: u != user ==> CustomerOf(u) == old(CustomerOf(u))
    {
      if user !in rows {
        if account.None? || (view.tier == Free && view.packs == map[]) {
          return false;
        }
        Link(user, account.value);
      } else if account.Some? && account.value != rows[user].account {
        Link(user, account.value);
      }
      return true;
    }

    method Apply(ghost sys: Sys, user: Id, seqno: nat, items: seq<Item>, now: int)
      requires Mirrors(sys)
      modifies this`rows, this`unlinked, this`packs, this`queue, this`accounts, this`logs
      ensures var c, view, resolved := Of(sys, user), View(items, config), Resolve(sys, user);
              var d := ApplyView(c, seqno, view, resolved, now);
              && CustomerOf(user) == d
              && accounts == AccountsAfter(sys, user, d, Writes(c, seqno, view, resolved))
      ensures forall u :: u != user ==> CustomerOf(u) == old(CustomerOf(u))
    {
      var view := ViewEntitlements(items, config);
      if user in rows && seqno <= rows[user].appliedSeq {
        return;
      }
      var account := ResolveAccount(sys, user);
      var before := if user in rows then rows[user].tier else Free;
      var linked := LinkFor(user, view, account);
      if linked {
        WriteAll(sys, user, seqno, view, before, now);
      }
      DropQueued(user);
    }

    /** The row, the packs and the account's tier of a result. `before` is the tier the row held. */
    method WriteAll(ghost sys: Sys, user: Id, seqno: nat, view: StoreView, before: Tier, now: int)
      requires user in rows && before == RowTier(Of(sys, user))
      requires accounts == sys.accounts && forall u :: u != user ==> CustomerOf(u) == Of(sys, u)
      modifies this`rows, this`packs, this`accounts, this`logs
      ensures CustomerOf(user) == WriteResult(old(CustomerOf(user)), seqno, view, now)
      ensures accounts == AccountsAfter(sys, user, DropClean(CustomerOf(user)), true)
      ensures forall u :: u != user ==> CustomerOf(u) == old(CustomerOf(u))
    {
      Record(user, seqno, view, now);
      var highest := WriteTier(rows[user].account, before, rows[user].tier);
      forall u | u != user ensures Of(sys, u).row == Get(rows, u) {
        assert CustomerOf(u) == Of(sys, u);
      }
      OtherRows(sys, user, DropClean(CustomerOf(user)), rows, highest);
    }

    method DropQueued(user: Id)
      modifies this`queue
      ensures CustomerOf(user) == DropClean(old(CustomerOf(user)))
      ensures forall u :: u != user ==> CustomerOf(u) == old(CustomerOf(u))
    {
      if user in queue && !queue[user].dirty {
        queue := queue - {user};
      }
    }

    method HoldsSomething(user: Id) returns (holds: bool)
      ensures holds == BillingModel.HoldsSomething(CustomerOf(user))
    {
      holds := user in rows && (rows[user].tier != Free || (user in packs && packs[user] != map[]));
    }

    // ---------------------------------------------------------------- the end of a read

    /** What `once` does after its await, and `start` when the write threw: a transaction that threw left nothing. */
    method EndRead(ghost sys: Sys, user: Id, answer: Answer, now: int)
      requires Mirrors(sys) && Enabled(Of(sys, user), DoEnd(answer, None, now))
      modifies this
      ensures Mirrors(BillingAccounts.EndRead(sys, user, answer, config, now))
    {
      var flight := flights[user];
      ghost var queued := user in queue;
      var ok := Once(sys, user, flight.seqno, answer, now);
      flights := flights[user := flight.(outcome := Some(ok))];
      logs := logs[user := Ended(LogOf(user), flight.index, ok, queued && user !in queue)];
      EndedRead(sys, user, answer, config, now);
      ghost var next := BillingAccounts.EndRead(sys, user, answer, config, now);
      forall u ensures CustomerOf(u) == Of(next, u) {
        if u != user {
          assert CustomerOf(u) == Of(sys, u);
        }
      }
    }

    /** The read's effect on the tables. */
    method Once(ghost sys: Sys, user: Id, seqno: nat, answer: Answer, now: int) returns (ok: bool)
      requires Mirrors(sys)
      modifies this`rows, this`unlinked, this`packs, this`queue, this`accounts, this`logs
      ensures ok == Succeeds(Of(sys, user), answer)
      ensures var c, resolved := Of(sys, user), Resolve(sys, user);
              var d := Effect(c, seqno, answer, config, resolved, now);
              && CustomerOf(user) == d
              && accounts == AccountsAfter(sys, user, d, WritesResult(c, seqno, answer, config, resolved))
      ensures forall u :: u != user ==> CustomerOf(u) == old(CustomerOf(u))
    {
      ok := false;
      match answer
      case NotRead => Failed(user, now);
      case WriteThrew => Failed(user, now);
      case NeverSeen =>
        var holds := HoldsSomething(user);
        ok := !holds;
        if ok {
          Apply(sys, user, seqno, [], now);
        } else {
          Failed(user, now);
        }
      case Listed(items) =>
        ok := true;
        Apply(sys, user, seqno, items, now);
    }

    /** The `then` of `start`: the promise of the read settles. */
    method Settle(user: Id, index: nat)
      requires Enabled(CustomerOf(user), DoSettle) && index == LogOf(user).starts
      modifies this`rows, this`unlinked, this`flights, this`logs, this`queue
      ensures CustomerOf(user) == BillingModel.Settle(old(CustomerOf(user)))
      ensures forall u :: u != user ==> CustomerOf(u) == old(CustomerOf(u))
    {
      var flight := flights[user];
      flights := flights - {user};
      logs := logs[user := LogOf(user).(replies := Answered(LogOf(user).replies, flight))];
      var dirty := TakeDirty(user);
      if dirty || flight.follow != {} {
        Start(user, index, flight.follow);
      } else {
        ForgetCount(user);
      }
    }

    method ForgetCount(user: Id)
      modifies this`unlinked, this`logs
      ensures CustomerOf(user) == Forget(old(CustomerOf(user)))
      ensures forall u :: u != user ==> CustomerOf(u) == old(CustomerOf(u))
    {
      unlinked := unlinked - {user};
      logs := logs[user := if user in rows then LogOf(user) else LogOf(user).(issued := [])];
    }

    /** The process dies and another starts: only the tables are left. */
    method Restart()
      modifies this`flights, this`unlinked, this`logs
      ensures forall u :: CustomerOf(u) == Crash(old(CustomerOf(u)))
    {
      ghost var known := logs.Keys + flights.Keys + unlinked.Keys;
      logs := map u | u in known :: Crash(CustomerOf(u)).log;
      flights, unlinked := map[], map[];
      forall u ensures CustomerOf(u) == Crash(old(CustomerOf(u))) {
        if u in known {
          CrashShape(old(CustomerOf(u)));
        } else {
          QuietCrash(old(CustomerOf(u)));
        }
      }
    }

    // ---------------------------------------------------------------- events

    method QueueRead(user: Id, account: Id, at: int, now: int)
      modifies this`rows, this`unlinked, this`queue, this`logs
      ensures CustomerOf(user) == Queue(old(CustomerOf(user)), account, at, now)
      ensures forall u :: u != user ==> CustomerOf(u) == old(CustomerOf(u))
    {
      Link(user, account);
      Note(user, at);
      Enqueue(user, now);
    }

    method Note(user: Id, at: int)
      requires user in rows
      modifies this`rows
      ensures CustomerOf(user) == NoteEvent(old(CustomerOf(user)), at)
      ensures forall u :: u != user ==> CustomerOf(u) == old(CustomerOf(u))
    {
      var row := rows[user];
      rows := rows[user := row.(lastEventAt := Some(Max(row.lastEventAt.GetOr(0), at)))];
    }

    method QueueNext(ghost noted: Sys, users: seq<Id>, i: nat, at: int, now: int)
      requires Distinct(users) && i < |users| && Mirrors(QueueEach(noted, users[..i], at, now))
      modifies this`rows, this`unlinked, this`queue, this`logs
      ensures Mirrors(QueueEach(noted, users[..i + 1], at, now))
    {
      NextQueued(noted, users, i, at, now);
      var account := ResolveAccount(noted, users[i]);
      if account.Some? {
        QueueRead(users[i], account.value, at, now);
      }
    }

    method QueueReadsForEvent(ghost sys: Sys, event: string, users: seq<Id>, at: int, now: int)
      requires Mirrors(sys) && Distinct(users)
      modifies this
      ensures Mirrors(QueueReads(sys, event, users, at, now))
    {
      if event in events {
        return;
      }
      events := events + {event};
      ghost var noted := sys.(events := sys.events + {event});
      var i := 0;
      while i < |users|
        invariant 0 <= i <= |users|
        invariant Mirrors(QueueEach(noted, users[..i], at, now))
        invariant accounts == noted.accounts
      {
        QueueNext(noted, users, i, at, now);
        i := i + 1;
      }
      assert users[..i] == users;
    }
  }

  // ---------------------------------------------------------------- the order of a scan

  /** `ORDER BY due_at, app_user_id`. */
  predicate Before(dueA: int, a: Id, dueB: int, b: Id) {
    dueA < dueB || (dueA == dueB && TextBefore(a, b))
  }

  predicate TextBefore(a: Id, b: Id) {
    if b == [] then false
    else if a == [] then true
    else a[0] < b[0] || (a[0] == b[0] && TextBefore(a[1..], b[1..]))
  }

  ghost predicate Sorted(due: seq<Id>, queue: map<Id, Queued>) {
    && (forall i :: 0 <= i < |due| ==> due[i] in queue)
    && forall i, j :: 0 <= i < j < |due| ==> Before(queue[due[i]].dueAt, due[i], queue[due[j]].dueAt, due[j])
  }

  lemma {:induction false} TextIsOrdered(a: Id, b: Id, c: Id)
    ensures !TextBefore(a, a)
    ensures a != b ==> TextBefore(a, b) || TextBefore(b, a)
    ensures TextBefore(a, b) && TextBefore(b, c) ==> TextBefore(a, c)
  {
    if a != [] {
      TextIsOrdered(a[1..], if b == [] then [] else b[1..], if c == [] then [] else c[1..]);
      if b != [] && a[0] == b[0] && a[1..] == b[1..] {
        assert a == [a[0]] + a[1..] && b == [b[0]] + b[1..];
      }
    }
  }

  function Insert(due: seq<Id>, u: Id, queue: map<Id, Queued>): (placed: seq<Id>)
    requires u in queue && forall i :: 0 <= i < |due| ==> due[i] in queue
    ensures forall v :: v in placed <==> v == u || v in due
  {
    if due == [] then [u]
    else if Before(queue[u].dueAt, u, queue[due[0]].dueAt, due[0]) then [u] + due
    else
      assert due == [due[0]] + due[1..];
      [due[0]] + Insert(due[1..], u, queue)
  }

  lemma {:induction false} InsertSorts(due: seq<Id>, u: Id, queue: map<Id, Queued>)
    requires u in queue && u !in due && Sorted(due, queue)
    ensures Sorted(Insert(due, u, queue), queue)
  {
    if due == [] {
    } else if Before(queue[u].dueAt, u, queue[due[0]].dueAt, due[0]) {
      forall j | 0 <= j < |due| ensures Before(queue[u].dueAt, u, queue[due[j]].dueAt, due[j]) {
        TextIsOrdered(u, due[0], due[j]);
      }
    } else {
      InsertSorts(due[1..], u, queue);
      var rest := Insert(due[1..], u, queue);
      forall j | 0 <= j < |rest| ensures Before(queue[due[0]].dueAt, due[0], queue[rest[j]].dueAt, rest[j]) {
        TextIsOrdered(due[0], u, u);
        if rest[j] != u {
          assert rest[j] in due[1..];
        }
      }
    }
  }
}
