/**
 One customer id in the billing tables and in the memory of `BillingReads`, and what each piece of the
 read protocol does to it (src/tier/billing-reads.ts). A read is two steps that anything may come between:
 it starts, which gives it a number, and it ends, with whatever the store answered. A third step runs after
 the end, when the promise of the read settles.
 */
module BillingModel {
  import opened Common
  import opened Tiers
  import opened BillingView

  /** Customer ids and account ids share one type: `resolveAccount` may look a customer id up as an account id. */
  type Id = string
  /** One call of `read`, waiting for its answer. */
  type Call = nat

  /** A row of `account_billing_ids`. */
  datatype Row = Row(account: Id, tier: Tier, readSeq: nat, appliedSeq: nat, checkedAt: Option<int>,
                     lastEventAt: Option<int>)

  /** A row of `billing_reads`. */
  datatype Queued = Queued(dueAt: int, attempts: nat, dirty: bool)

  /**
   A read in flight. `index` says which start of this customer it is, and so names its promise. `outcome` is
   set once the read ended, before its promise settles. `waiting` calls get this read's outcome and
   `follow` calls that of the one more read after it.
   */
  datatype Flight = Flight(seqno: nat, index: nat, outcome: Option<bool>, waiting: set<Call>, follow: set<Call>)

  /** What the store, or the write of its answer, came to. Pages are read by `readStore`, which is not modelled. */
  datatype Answer =
    | NotRead
    | NeverSeen
    | Listed(items: seq<Item>)
    | WriteThrew

  /** One result that was written: the number of its read and what its list said. */
  datatype Applied = Applied(seqno: nat, view: StoreView)

  /** The answer a call of `read` got: which start answered it, and how. */
  datatype Reply = Reply(index: nat, ok: bool)

  /**
   What no code remembers. `issued`: the numbers given under the present count. `late`: the numbers of
   reads whose process died while they ran. `wanted`: a trigger is unanswered until a read with at least
   this index succeeds. `spent`: failed reads with at least that index. `odd`: reads started since by a direct
   call over a mark a dead process left. `streak`: failures since the last success. `outcomes`: how each
   start ended.
   */
  datatype History = History(
    starts: nat,
    issued: seq<nat>,
    applied: seq<Applied>,
    late: set<nat>,
    wanted: Option<nat>,
    spent: nat,
    odd: nat,
    streak: nat,
    outcomes: map<nat, bool>,
    calls: map<Call, nat>,
    replies: map<Call, Reply>)

  datatype Customer = Customer(
    row: Option<Row>,
    packs: Packs,
    queue: Option<Queued>,
    flight: Option<Flight>,
    unlinked: Option<nat>,
    log: History)

  const NO_HISTORY: History := History(0, [], [], {}, None, 0, 0, 0, map[], map[], map[])
  const STRANGER: Customer := Customer(None, map[], None, None, None, NO_HISTORY)

  const RETRY_AFTER_S: seq<int> := [60, 300, 900, 3_600]

  // ---------------------------------------------------------------- triggers

  predicate IsDirty(c: Customer) {
    c.queue.Some? && c.queue.value.dirty
  }

  function Marked(queue: Option<Queued>, now: int): Queued {
    if queue.None? then Queued(now, 0, true) else queue.value.(dirty := true)
  }

  function Wanting(log: History): History {
    log.(wanted := Some(log.starts), spent := 0, odd := 0)
  }

  function Enqueue(c: Customer, now: int): Customer {
    if c.flight.Some? then c.(queue := Some(Marked(c.queue, now)), log := Wanting(c.log))
    else c.(queue := Some(Queued(now, 0, IsDirty(c))), log := Wanting(c.log))
  }

  /** `read`: starts a read, or joins the one that follows the read in flight. */
  function ReadCall(c: Customer, call: Call, now: int): Customer {
    var called := c.(log := c.log.(calls := c.log.calls[call := c.log.starts]));
    if c.flight.None? then
      Start(called.(log := called.log.(odd := c.log.odd + if IsDirty(c) then 1 else 0)), {call})
    else
      called.(queue := Some(Marked(c.queue, now)),
              flight := Some(c.flight.value.(follow := c.flight.value.follow + {call})),
              log := Wanting(called.log))
  }

  // ---------------------------------------------------------------- starting a read

  function TakeNumber(c: Customer): (Customer, nat) {
    if c.row.Some? then
      var seqno := c.row.value.readSeq + 1;
      (c.(row := Some(c.row.value.(readSeq := seqno))), seqno)
    else
      var seqno := c.unlinked.GetOr(0) + 1;
      (c.(unlinked := Some(seqno)), seqno)
  }

  function Start(c: Customer, waiting: set<Call>): Customer {
    var (counted, seqno) := TakeNumber(c);
    counted.(flight := Some(Flight(seqno, c.log.starts, None, waiting, {})),
             log := c.log.(starts := c.log.starts + 1, issued := c.log.issued + [seqno]))
  }

  function CleanMark(c: Customer): Customer {
    if IsDirty(c) then c.(queue := Some(c.queue.value.(dirty := false))) else c
  }

  /** One turn of a scan. The row may have changed since the scan listed it. */
  function Pick(c: Customer): Customer {
    if c.flight.Some? then c else Start(CleanMark(c), {})
  }

  predicate IsDue(c: Customer, now: int) {
    c.queue.Some? && (c.queue.value.dueAt <= now || c.queue.value.dirty)
  }

  // ---------------------------------------------------------------- ending a read

  predicate HoldsSomething(c: Customer) {
    c.row.Some? && (c.row.value.tier != Free || c.packs != map[])
  }

  /** Only the queue moves. A marked row is left for the read that follows. */
  function Failed(c: Customer, now: int): Customer {
    if IsDirty(c) then c
    else
      var failures := (if c.queue.Some? then c.queue.value.attempts else 0) + 1;
      if failures > |RETRY_AFTER_S| then c.(queue := None)
      else c.(queue := Some(Queued(now + RETRY_AFTER_S[failures - 1], failures, false)))
  }

  function DropClean(c: Customer): Customer {
    if IsDirty(c) then c else c.(queue := None)
  }

  function Link(c: Customer, account: Id): Customer {
    if c.row.None?
    then c.(row := Some(Row(account, Free, c.unlinked.GetOr(0), 0, None, None)), unlinked := None)
    else c.(row := Some(c.row.value.(account := account)))
  }

  predicate PaysForNothing(view: StoreView) {
    view.tier == Free && view.packs == map[]
  }

  /** A list with an identifier no map names may be the one that pays, so it takes nothing away. */
  function TierWritten(before: Tier, view: StoreView): Tier {
    if view.unknownIds != [] && IsHigherTier(before, view.tier) then before else view.tier
  }

  function PacksWritten(before: Packs, view: StoreView): Packs {
    if view.unknownIds != [] then before + view.packs else view.packs
  }

  predicate Stale(c: Customer, seqno: nat) {
    c.row.Some? && seqno <= c.row.value.appliedSeq
  }

  /** Whether `apply` gets as far as writing a result. */
  predicate Writes(c: Customer, seqno: nat, view: StoreView, resolved: Option<Id>) {
    if c.row.Some? then seqno > c.row.value.appliedSeq else resolved.Some? && !PaysForNothing(view)
  }

  function LinkResolved(c: Customer, resolved: Option<Id>): Customer {
    if resolved.Some? && (c.row.None? || c.row.value.account != resolved.value) then Link(c, resolved.value) else c
  }

  function WriteResult(c: Customer, seqno: nat, view: StoreView, now: int): Customer
    requires c.row.Some?
  {
    var row := c.row.value;
    c.(row := Some(row.(tier := TierWritten(row.tier, view), checkedAt := Some(now), appliedSeq := seqno,
                        readSeq := Max(row.readSeq, seqno))),
       packs := PacksWritten(c.packs, view),
       log := c.log.(applied := c.log.applied + [Applied(seqno, view)]))
  }

  /** `apply`, all but the account's own tier. `resolved` is `resolveAccount`'s answer. */
  function ApplyView(c: Customer, seqno: nat, view: StoreView, resolved: Option<Id>, now: int): Customer {
    if Stale(c, seqno) then c
    else if Writes(c, seqno, view, resolved) then DropClean(WriteResult(LinkResolved(c, resolved), seqno, view, now))
    else DropClean(c)
  }

  /** Whether a read with this answer counts as a success. */
  predicate Succeeds(c: Customer, answer: Answer) {
    match answer
    case NotRead => false
    case NeverSeen => !HoldsSomething(c)
    case Listed(_) => true
    case WriteThrew => false
  }

  function ViewOf(answer: Answer, config: StoreConfig): StoreView {
    if answer.Listed? then View(answer.items, config) else NOTHING
  }

  function Effect(c: Customer, seqno: nat, answer: Answer, config: StoreConfig, resolved: Option<Id>,
                  now: int): Customer {
    if Succeeds(c, answer) then ApplyView(c, seqno, ViewOf(answer, config), resolved, now) else Failed(c, now)
  }

  /** What the history makes of the end of the read with this index. `before` and `after` are around its effect. */
  function Ended(log: History, index: nat, ok: bool, dropped: bool): History {
    var answers := log.wanted.Some? && index >= log.wanted.value;
    var log := log.(outcomes := log.outcomes[index := ok]);
    if ok then log.(streak := 0, wanted := if answers then None else log.wanted)
    else log.(streak := log.streak + 1,
              spent := if answers then log.spent + 1 else log.spent,
              wanted := if dropped then None else log.wanted)
  }

  function End(c: Customer, answer: Answer, config: StoreConfig, resolved: Option<Id>, now: int): Customer
    requires c.flight.Some?
  {
    var flight, ok := c.flight.value, Succeeds(c, answer);
    var after := Effect(c, flight.seqno, answer, config, resolved, now);
    after.(flight := Some(flight.(outcome := Some(ok))),
           log := Ended(after.log, flight.index, ok, c.queue.Some? && after.queue.None?))
  }

  /** The promise of the read settles: its callers are answered, and one more read starts or none does. */
  function Settle(c: Customer): Customer
    requires c.flight.Some? && c.flight.value.outcome.Some?
  {
    var flight := c.flight.value;
    var told := c.(flight := None, log := c.log.(replies := Answered(c.log.replies, flight)));
    if IsDirty(c) || flight.follow != {} then Start(CleanMark(told), flight.follow)
    else Forget(told)
  }

  function Answered(replies: map<Call, Reply>, flight: Flight): map<Call, Reply>
    requires flight.outcome.Some?
  {
    replies + map call | call in flight.waiting :: Reply(flight.index, flight.outcome.value)
  }

  /** No number is outstanding, so a customer id without a row counts from the start again. */
  function Forget(c: Customer): Customer {
    c.(unlinked := None, log := if c.row.None? then c.log.(issued := []) else c.log)
  }

  // ---------------------------------------------------------------- a process dies

  /** The memory is gone. The read that ran may still finish, if its customer has a row to be fenced by. */
  function Crash(c: Customer): Customer {
    var orphan := if c.row.Some? && c.flight.Some? && c.flight.value.outcome.None? then {c.flight.value.seqno} else {};
    Forget(c.(flight := None, log := c.log.(late := c.log.late + orphan)))
  }

  /** A read of a dead process ends, and writes into whatever the tables are by then. */
  function LateEnd(c: Customer, seqno: nat, answer: Answer, config: StoreConfig, resolved: Option<Id>,
                   now: int): Customer {
    var after := Effect(c, seqno, answer, config, resolved, now);
    after.(log := after.log.(late := after.log.late - {seqno}))
  }

  // ---------------------------------------------------------------- steps

  datatype Act =
    | DoEnqueue(now: int)
    | DoRead(call: Call, now: int)
    | DoPick
    | DoEnd(answer: Answer, resolved: Option<Id>, now: int)
    | DoSettle
    | DoLink(account: Id)
    | DoCrash
    | DoLateEnd(seqno: nat, answer: Answer, resolved: Option<Id>, now: int)

  /** Calls have ids of their own, only a read in flight can end or settle, and only a late read can end late. */
  predicate Enabled(c: Customer, act: Act) {
    match act
    case DoRead(call, _) => call !in c.log.calls
    case DoEnd(_, _, _) => c.flight.Some? && c.flight.value.outcome.None?
    case DoSettle => c.flight.Some? && c.flight.value.outcome.Some?
    case DoLateEnd(seqno, _, _, _) => seqno in c.log.late
    case _ => true
  }

  function Do(c: Customer, act: Act, config: StoreConfig): Customer
    requires Enabled(c, act)
  {
    match act
    case DoEnqueue(now) => Enqueue(c, now)
    case DoRead(call, now) => ReadCall(c, call, now)
    case DoPick => Pick(c)
    case DoEnd(answer, resolved, now) => End(c, answer, config, resolved, now)
    case DoSettle => Settle(c)
    case DoLink(account) => Link(c, account)
    case DoCrash => Crash(c)
    case DoLateEnd(seqno, answer, resolved, now) => LateEnd(c, seqno, answer, config, resolved, now)
  }
}
