/** Events that queue reads, and whole runs of a relay that reads the store, over every customer and account. */
module BillingRuns {
  import opened Common
  import opened Tiers
  import opened BillingView
  import opened BillingModel
  import opened BillingFence
  import opened BillingTriggers
  import opened BillingAccounts

  // ---------------------------------------------------------------- an event queues reads

  function NoteEvent(c: Customer, at: int): Customer {
    if c.row.None? then c
    else c.(row := Some(c.row.value.(lastEventAt := Some(Max(c.row.value.lastEventAt.GetOr(0), at)))))
  }

  /** What a resolved event does to one customer it names: link, note the time, queue a read. */
  function Queue(c: Customer, account: Id, at: int, now: int): Customer {
    Enqueue(NoteEvent(Link(c, account), at), now)
  }

  function QueueEach(sys: Sys, users: seq<Id>, at: int, now: int): Sys {
    if users == [] then sys
    else
      var rest := QueueEach(sys, users[..|users| - 1], at, now);
      var u := users[|users| - 1];
      if Resolve(sys, u).None? then rest else Put(rest, u, Queue(Of(rest, u), Resolve(sys, u).value, at, now))
  }

  /** `queueReadsForEvent`. A repeat of an event stops at once. */
  function QueueReads(sys: Sys, event: string, users: seq<Id>, at: int, now: int): Sys {
    if event in sys.events then sys else QueueEach(sys.(events := sys.events + {event}), users, at, now)
  }

  ghost predicate Distinct(users: seq<Id>) {
    forall i, j :: 0 <= i < j < |users| ==> users[i] != users[j]
  }

  /** Each named customer that leads to an account is linked to it and has its read queued; nobody else is touched. */
  lemma {:induction false} EventQueuesReads(sys: Sys, users: seq<Id>, at: int, now: int, u: Id)
    requires Distinct(users)
    ensures QueueEach(sys, users, at, now).accounts == sys.accounts
    ensures Of(QueueEach(sys, users, at, now), u) ==
            if u in users && Resolve(sys, u).Some? then Queue(Of(sys, u), Resolve(sys, u).value, at, now)
                else Of(sys, u)
    decreases |users|
  {
    if users != [] {
      var n := |users| - 1;
      EventQueuesReads(sys, users[..n], at, now, u);
      assert users == users[..n] + [users[n]];
      if u == users[n] {
        assert u !in users[..n];
      }
    }
  }

  /** A queued event is a trigger like any other: it is wanted, and its customer is due or marked. */
  lemma QueuedReadIsWanted(c: Customer, account: Id, at: int, now: int)
    ensures var d := Queue(c, account, at, now);
            d.row.Some? && d.row.value.account == account && d.log.wanted == Some(d.log.starts) && IsDue(d, now)
  {
  }

  // ---------------------------------------------------------------- runs

  datatype SysStep =
    | Trigger(user: Id, now: int)
    | Called(user: Id, call: Call, now: int)
    | Scanned(user: Id)
    | ReadEnded(user: Id, answer: Answer, now: int)
    | Settled(user: Id)
    | LateReadEnded(user: Id, seqno: nat, answer: Answer, now: int)
    | EventCame(event: string, users: seq<Id>, at: int, now: int)
    | Crashed
    | Tombstoned(account: Id, into: Id)

  ghost predicate CanStep(sys: Sys, step: SysStep) {
    match step
    case Called(user, call, now) => Enabled(Of(sys, user), DoRead(call, now))
    case ReadEnded(user, answer, now) => Enabled(Of(sys, user), DoEnd(answer, None, now))
    case Settled(user) => Enabled(Of(sys, user), DoSettle)
    case LateReadEnded(user, seqno, answer, now) => Enabled(Of(sys, user), DoLateEnd(seqno, answer, None, now))
    case EventCame(_, users, _, _) => Distinct(users)
    case _ => true
  }

  function CrashAll(sys: Sys): Sys {
    sys.(customers := map u | u in sys.customers :: Crash(sys.customers[u]))
  }

  function Tombstone(sys: Sys, account: Id, into: Id): Sys {
    if account in sys.accounts
        then sys.(accounts := sys.accounts[account := sys.accounts[account].(mergedInto := Some(into))]) else sys
  }

  ghost function Next(sys: Sys, step: SysStep, config: StoreConfig): Sys
    requires CanStep(sys, step)
  {
    match step
    case Trigger(user, now) => Put(sys, user, Enqueue(Of(sys, user), now))
    case Called(user, call, now) => Put(sys, user, ReadCall(Of(sys, user), call, now))
    case Scanned(user) => Put(sys, user, Pick(Of(sys, user)))
    case ReadEnded(user, answer, now) => EndRead(sys, user, answer, config, now)
    case Settled(user) => Put(sys, user, Settle(Of(sys, user)))
    case LateReadEnded(user, seqno, answer, now) => EndLateRead(sys, user, seqno, answer, config, now)
    case EventCame(event, users, at, now) => QueueReads(sys, event, users, at, now)
    case Crashed => CrashAll(sys)
    case Tombstoned(account, into) => Tombstone(sys, account, into)
  }

  ghost predicate IsSysRun(trace: seq<Sys>, steps: seq<SysStep>, config: StoreConfig) {
    && |trace| == |steps| + 1
    && (forall u :: Of(trace[0], u) == STRANGER)
    && forall i: nat {:trigger steps[i]} :: i < |steps| ==>
        CanStep(trace[i], steps[i]) && trace[i + 1] == Next(trace[i], steps[i], config)
  }

  // ---------------------------------------------------------------- every customer keeps its fence

  lemma QueueKeepsFence(c: Customer, account: Id, at: int, now: int)
    requires FenceInv(c)
    ensures FenceInv(Queue(c, account, at, now))
  {
    LinkKeepsNumbers(c, account);
    var linked := Link(c, account);
    var noted := NoteEvent(linked, at);
    assert Held(noted) == Held(linked) && Count(noted) == Count(linked) && AppliedSeq(noted) == AppliedSeq(linked);
    assert Numbers(noted);
    SameFence(noted, Enqueue(noted, now));
  }

  lemma ReadEndsKeepFences(sys: Sys, user: Id, answer: Answer, config: StoreConfig, now: int, u: Id)
    requires Enabled(Of(sys, user), DoEnd(answer, None, now)) && FenceInv(Of(sys, u))
    ensures FenceInv(Of(EndRead(sys, user, answer, config, now), u))
  {
    if u == user {
      EndKeepsFence(Of(sys, u), answer, config, Resolve(sys, user), now);
    }
  }

  lemma LateReadEndsKeepFences(sys: Sys, user: Id, seqno: nat, answer: Answer, config: StoreConfig, now: int, u: Id)
    requires Enabled(Of(sys, user), DoLateEnd(seqno, answer, None, now)) && FenceInv(Of(sys, u))
    ensures FenceInv(Of(EndLateRead(sys, user, seqno, answer, config, now), u))
  {
    if u == user {
      LateEndKeepsFence(Of(sys, u), seqno, answer, config, Resolve(sys, user), now);
    }
  }

  lemma EventKeepsFences(sys: Sys, event: string, users: seq<Id>, at: int, now: int, u: Id)
    requires Distinct(users) && FenceInv(Of(sys, u))
    ensures FenceInv(Of(QueueReads(sys, event, users, at, now), u))
  {
    var noted := sys.(events := sys.events + {event});
    EventQueuesReads(noted, users, at, now, u);
    if Resolve(noted, u).Some? {
      QueueKeepsFence(Of(sys, u), Resolve(noted, u).value, at, now);
    }
  }

  /** The steps that touch the queue and the memory of one customer. */
  lemma MemoryStepKeepsFences(sys: Sys, step: SysStep, config: StoreConfig, u: Id)
    requires CanStep(sys, step) && FenceInv(Of(sys, u))
    requires step.Trigger? || step.Called? || step.Scanned? || step.Settled?
    ensures FenceInv(Of(Next(sys, step, config), u))
  {
    var c := Of(sys, u);
    if u == step.user {
      match step
      case Trigger(_, now) => SameFence(c, Enqueue(c, now));
      case Called(_, call, now) => ReadCallKeepsFence(c, call, now);
      case Scanned(_) => PickKeepsFence(c);
      case Settled(_) => SettleKeepsFence(c);
    }
  }

  lemma StepKeepsFences(sys: Sys, step: SysStep, config: StoreConfig, u: Id)
    requires CanStep(sys, step) && FenceInv(Of(sys, u))
    ensures FenceInv(Of(Next(sys, step, config), u))
  {
    match step
    case Trigger(user, now) => MemoryStepKeepsFences(sys, step, config, u);
    case Called(user, call, now) => MemoryStepKeepsFences(sys, step, config, u);
    case Scanned(user) => MemoryStepKeepsFences(sys, step, config, u);
    case Settled(user) => MemoryStepKeepsFences(sys, step, config, u);
    case ReadEnded(user, answer, now) => ReadEndsKeepFences(sys, user, answer, config, now, u);
    case LateReadEnded(user, seqno, answer, now) => LateReadEndsKeepFences(sys, user, seqno, answer, config, now, u);
    case EventCame(event, users, at, now) => EventKeepsFences(sys, event, users, at, now, u);
    case Crashed => CrashKeepsFence(Of(sys, u));
    case Tombstoned(account, into) =>
  }

  /** Over any run of the whole relay every customer's tier and packs are what its results, in number order, say. */
  lemma {:induction false} RunKeepsFences(trace: seq<Sys>, steps: seq<SysStep>, config: StoreConfig, k: nat, u: Id)
    requires IsSysRun(trace, steps, config) && k < |trace|
    ensures FenceInv(Of(trace[k], u))
  {
    if k == 0 {
      StrangerIsFenced();
    } else {
      RunKeepsFences(trace, steps, config, k - 1, u);
      StepKeepsFences(trace[k - 1], steps[k - 1], config, u);
    }
  }

  // ---------------------------------------------------------------- every customer keeps its triggers

  lemma QueueKeepsTriggers(c: Customer, account: Id, at: int, now: int)
    requires TriggerInv(c)
    ensures TriggerInv(Queue(c, account, at, now))
    ensures Queue(c, account, at, now).log.wanted == Some(c.log.starts)
  {
  }

  lemma EndKeepsAllTriggers(sys: Sys, user: Id, answer: Answer, config: StoreConfig, now: int, u: Id)
    requires Enabled(Of(sys, user), DoEnd(answer, None, now)) && FenceInv(Of(sys, u)) && TriggerInv(Of(sys, u))
    ensures TriggerInv(Of(EndRead(sys, user, answer, config, now), u))
  {
    if u == user {
      EndKeepsTriggers(Of(sys, u), answer, config, Resolve(sys, user), now);
    }
  }

  lemma EventKeepsTriggers(sys: Sys, event: string, users: seq<Id>, at: int, now: int, u: Id)
    requires Distinct(users) && TriggerInv(Of(sys, u))
    ensures TriggerInv(Of(QueueReads(sys, event, users, at, now), u))
  {
    var noted := sys.(events := sys.events + {event});
    EventQueuesReads(noted, users, at, now, u);
    if Resolve(noted, u).Some? {
      QueueKeepsTriggers(Of(sys, u), Resolve(noted, u).value, at, now);
    }
  }

  lemma StepKeepsTriggers(sys: Sys, step: SysStep, config: StoreConfig, u: Id)
    requires CanStep(sys, step) && FenceInv(Of(sys, u)) && TriggerInv(Of(sys, u)) && !step.LateReadEnded?
    ensures TriggerInv(Of(Next(sys, step, config), u))
  {
    var c := Of(sys, u);
    match step
    case Trigger(user, now) =>
      if u == user {
        NoTriggerIsLost(c, DoEnqueue(now), config);
      }
    case Called(user, call, now) =>
      if u == user {
        NoTriggerIsLost(c, DoRead(call, now), config);
      }
    case Scanned(user) =>
      if u == user {
        NoTriggerIsLost(c, DoPick, config);
      }
    case ReadEnded(user, answer, now) => EndKeepsAllTriggers(sys, user, answer, config, now, u);
    case Settled(user) =>
      if u == user {
        NoTriggerIsLost(c, DoSettle, config);
      }
    case EventCame(event, users, at, now) => EventKeepsTriggers(sys, event, users, at, now, u);
    case Crashed => NoTriggerIsLost(c, DoCrash, config);
    case Tombstoned(account, into) =>
  }

  /** Over any run of one process at a time, crashes included, a trigger that is still wanted is still queued. */
  lemma {:induction false} RunKeepsTriggers(trace: seq<Sys>, steps: seq<SysStep>, config: StoreConfig, k: nat, u: Id)
    requires IsSysRun(trace, steps, config) && k < |trace|
    requires forall i: nat {:trigger steps[i]} :: i < k ==> !steps[i].LateReadEnded?
    ensures TriggerInv(Of(trace[k], u))
    ensures Of(trace[k], u).log.wanted.Some? ==> Of(trace[k], u).queue.Some?
  {
    if k > 0 {
      RunKeepsTriggers(trace, steps, config, k - 1, u);
      RunKeepsFences(trace, steps, config, k - 1, u);
      StepKeepsTriggers(trace[k - 1], steps[k - 1], config, u);
    }
  }

  // ---------------------------------------------------------------- bad news takes nothing away

  /** A read that fails, an answer nobody believes, or a list with an identifier no map names. */
  predicate TakesNothing(answer: Answer, config: StoreConfig) {
    answer.Listed? ==> View(answer.items, config).unknownIds != []
  }

  predicate IsHarmless(step: SysStep, config: StoreConfig) {
    (step.ReadEnded? || step.LateReadEnded?) ==> TakesNothing(step.answer, config)
  }

  ghost predicate KeepsHoldings(c: Customer, d: Customer) {
    !IsHigherTier(RowTier(c), RowTier(d)) && c.packs.Keys <= d.packs.Keys
  }

  ghost predicate NothingTaken(sys: Sys, sys': Sys) {
    && (forall u :: KeepsHoldings(Of(sys, u), Of(sys', u)))
    && (forall a :: a in sys.accounts ==>
        a in sys'.accounts && !IsHigherTier(sys.accounts[a].tier, sys'.accounts[a].tier))
  }

  lemma EffectKeepsHoldings(c: Customer, seqno: nat, answer: Answer, config: StoreConfig, resolved: Option<Id>,
                            now: int)
    requires TakesNothing(answer, config)
    ensures KeepsHoldings(c, Effect(c, seqno, answer, config, resolved, now))
  {
  }

  lemma ReadTakesNothing(sys: Sys, user: Id, d: Customer)
    requires KeepsHoldings(Of(sys, user), d)
    ensures NothingTaken(sys, Put(sys, user, d))
    ensures d.row.Some? ==> NothingTaken(sys,
                                         SetTier(Put(sys, user, d), d.row.value.account, RowTier(Of(sys, user)),
                                                 RowTier(d)))
  {
  }

  lemma EndTakesNothing(sys: Sys, user: Id, answer: Answer, config: StoreConfig, now: int)
    requires Enabled(Of(sys, user), DoEnd(answer, None, now)) && TakesNothing(answer, config)
    ensures NothingTaken(sys, EndRead(sys, user, answer, config, now))
  {
    var c, resolved := Of(sys, user), Resolve(sys, user);
    EffectKeepsHoldings(c, c.flight.value.seqno, answer, config, resolved, now);
    ReadTakesNothing(sys, user, End(c, answer, config, resolved, now));
  }

  lemma LateEndTakesNothing(sys: Sys, user: Id, seqno: nat, answer: Answer, config: StoreConfig, now: int)
    requires TakesNothing(answer, config)
    ensures NothingTaken(sys, EndLateRead(sys, user, seqno, answer, config, now))
  {
    var c, resolved := Of(sys, user), Resolve(sys, user);
    EffectKeepsHoldings(c, seqno, answer, config, resolved, now);
    ReadTakesNothing(sys, user, LateEnd(c, seqno, answer, config, resolved, now));
  }

  lemma EventTakesNothing(sys: Sys, event: string, users: seq<Id>, at: int, now: int)
    requires Distinct(users)
    ensures NothingTaken(sys, QueueReads(sys, event, users, at, now))
  {
    var noted := sys.(events := sys.events + {event});
    forall u ensures KeepsHoldings(Of(sys, u), Of(QueueReads(sys, event, users, at, now), u)) {
      EventQueuesReads(noted, users, at, now, u);
    }
    EventQueuesReads(noted, users, at, now, "");
  }

  lemma StepTakesNothing(sys: Sys, step: SysStep, config: StoreConfig)
    requires CanStep(sys, step) && IsHarmless(step, config)
    ensures NothingTaken(sys, Next(sys, step, config))
  {
    match step
    case Trigger(user, now) => ReadTakesNothing(sys, user, Enqueue(Of(sys, user), now));
    case Called(user, call, now) => ReadTakesNothing(sys, user, ReadCall(Of(sys, user), call, now));
    case Scanned(user) => ReadTakesNothing(sys, user, Pick(Of(sys, user)));
    case ReadEnded(user, answer, now) => EndTakesNothing(sys, user, answer, config, now);
    case Settled(user) => ReadTakesNothing(sys, user, Settle(Of(sys, user)));
    case LateReadEnded(user, seqno, answer, now) => LateEndTakesNothing(sys, user, seqno, answer, config, now);
    case EventCame(event, users, at, now) => EventTakesNothing(sys, event, users, at, now);
    case Crashed =>
    case Tombstoned(account, into) =>
  }

  /**
   Over any run whose reads all fail, are not believed or carry an unknown identifier, no tier falls and no pack goes.
   */
  lemma {:induction false} RunTakesNothing(trace: seq<Sys>, steps: seq<SysStep>, config: StoreConfig, k: nat)
    requires IsSysRun(trace, steps, config) && k < |trace|
    requires forall i: nat {:trigger steps[i]} :: i < k ==> IsHarmless(steps[i], config)
    ensures NothingTaken(trace[0], trace[k])
  {
    if k > 0 {
      RunTakesNothing(trace, steps, config, k - 1);
      StepTakesNothing(trace[k - 1], steps[k - 1], config);
    }
  }
}
