/** The numbered fence: what every step keeps, late reads of dead processes included. */
module BillingFence {
  import opened Common
  import opened Tiers
  import opened BillingView
  import opened BillingModel

  /** The tier a customer pays for and its packs, as the tables hold them. */
  datatype Holding = Holding(tier: Tier, packs: Packs)

  const HOLDS_NOTHING: Holding := Holding(Free, map[])

  /** A full list replaces what was held; a list with unknown identifiers only adds to it. */
  function After(held: Holding, view: StoreView): Holding {
    if view.unknownIds == [] then Holding(view.tier, view.packs)
    else Holding(HigherOf(held.tier, view.tier), held.packs + view.packs)
  }

  function Fold(applied: seq<Applied>): Holding {
    if applied == [] then HOLDS_NOTHING
    else After(Fold(applied[..|applied| - 1]), applied[|applied| - 1].view)
  }

  function Held(c: Customer): Holding {
    Holding(if c.row.Some? then c.row.value.tier else Free, c.packs)
  }

  function Count(c: Customer): nat {
    if c.row.Some? then c.row.value.readSeq else c.unlinked.GetOr(0)
  }

  function AppliedSeq(c: Customer): nat {
    if c.row.Some? then c.row.value.appliedSeq else 0
  }

  ghost predicate Increasing(numbers: seq<nat>) {
    forall i: nat, j: nat :: i < j < |numbers| ==> numbers[i] < numbers[j]
  }

  ghost predicate AppliedInOrder(applied: seq<Applied>) {
    forall i: nat, j: nat :: i < j < |applied| ==> applied[i].seqno < applied[j].seqno
  }

  function LastApplied(applied: seq<Applied>): nat {
    if applied == [] then 0 else applied[|applied| - 1].seqno
  }

  ghost predicate FenceInv(c: Customer) {
    Numbers(c) && (c.flight.Some? ==> FlightIsNewest(c, c.flight.value))
  }

  /** What holds of the numbers and of what was written under them, reads in flight or not. */
  ghost predicate Numbers(c: Customer) {
    && Increasing(c.log.issued)
    && (forall i :: 0 <= i < |c.log.issued| ==> 1 <= c.log.issued[i] <= Count(c))
    && AppliedInOrder(c.log.applied)
    && (forall i :: 0 <= i < |c.log.applied| ==> c.log.applied[i].seqno in c.log.issued)
    && AppliedSeq(c) == LastApplied(c.log.applied)
    && AppliedSeq(c) <= Count(c)
    && Held(c) == Fold(c.log.applied)
    && (forall n :: n in c.log.late ==> n in c.log.issued)
    && (c.row.Some? ==> c.unlinked.None?)
    && (c.row.None? ==> c.log.applied == [] && c.log.late == {})
    && (c.row.None? && c.unlinked.None? ==> c.log.issued == [])
  }

  /** The read in flight has the highest number, so no result that is written can be newer than it. */
  ghost predicate FlightIsNewest(c: Customer, flight: Flight) {
    && c.log.issued != []
    && c.log.issued[|c.log.issued| - 1] == flight.seqno
    && flight.seqno !in c.log.late
    && (flight.outcome.None? ==> AppliedSeq(c) < flight.seqno)
  }

  lemma {:induction false} StrangerIsFenced()
    ensures FenceInv(STRANGER)
  {
  }

  // ---------------------------------------------------------------- one act at a time

  /** Acts that leave the fence's columns alone keep it. */
  lemma SameFence(c: Customer, d: Customer)
    requires FenceInv(c)
    requires d.row == c.row && d.packs == c.packs && d.unlinked == c.unlinked
    requires d.log.issued == c.log.issued && d.log.applied == c.log.applied && d.log.late == c.log.late
    requires d.flight.Some? ==> FlightIsNewest(c, d.flight.value)
    ensures FenceInv(d)
  {
  }

  lemma StartKeepsFence(c: Customer, waiting: set<Call>)
    requires FenceInv(c)
    ensures FenceInv(Start(c, waiting))
    ensures Start(c, waiting).flight.value.seqno > Count(c)
  {
  }

  lemma LinkKeepsNumbers(c: Customer, account: Id)
    requires Numbers(c)
    ensures Numbers(Link(c, account))
    ensures AppliedSeq(Link(c, account)) == AppliedSeq(c) && Held(Link(c, account)) == Held(c)
  {
  }

  /** A read that ends writes at most one result, and only above every result before it. */
  lemma EffectKeepsNumbers(c: Customer, seqno: nat, answer: Answer, config: StoreConfig, resolved: Option<Id>, now: int)
    requires Numbers(c) && seqno in c.log.issued
    ensures var d := Effect(c, seqno, answer, config, resolved, now);
            Numbers(d) && AppliedSeq(d) <= Max(AppliedSeq(c), seqno)
  {
    if Succeeds(c, answer) {
      ApplyKeepsNumbers(c, seqno, ViewOf(answer, config), resolved, now);
    }
  }

  lemma ApplyKeepsNumbers(c: Customer, seqno: nat, view: StoreView, resolved: Option<Id>, now: int)
    requires Numbers(c) && seqno in c.log.issued
    ensures var d := ApplyView(c, seqno, view, resolved, now);
            Numbers(d) && AppliedSeq(d) <= Max(AppliedSeq(c), seqno)
  {
    if Writes(c, seqno, view, resolved) {
      WritingKeepsNumbers(LinkResolved(c, resolved), seqno, view, now);
    }
  }

  lemma WritingKeepsNumbers(c: Customer, seqno: nat, view: StoreView, now: int)
    requires Numbers(c) && c.row.Some?
    requires seqno in c.log.issued && AppliedSeq(c) < seqno
    ensures var d := DropClean(WriteResult(c, seqno, view, now));
            Numbers(d) && AppliedSeq(d) == seqno
  {
  }

  /** What the end of a read leaves alone. */
  lemma EffectFrame(c: Customer, seqno: nat, answer: Answer, config: StoreConfig, resolved: Option<Id>, now: int)
    ensures var d := Effect(c, seqno, answer, config, resolved, now);
            d.flight == c.flight && d.log.(applied := c.log.applied) == c.log
  {
    if Succeeds(c, answer) {
      ApplyFrame(c, seqno, ViewOf(answer, config), resolved, now);
    }
  }

  lemma ApplyFrame(c: Customer, seqno: nat, view: StoreView, resolved: Option<Id>, now: int)
    ensures var d := ApplyView(c, seqno, view, resolved, now);
            d.flight == c.flight && d.log.(applied := c.log.applied) == c.log
  {
  }

  lemma EndKeepsFence(c: Customer, answer: Answer, config: StoreConfig, resolved: Option<Id>, now: int)
    requires FenceInv(c) && c.flight.Some? && c.flight.value.outcome.None?
    ensures FenceInv(End(c, answer, config, resolved, now))
  {
    var seqno := c.flight.value.seqno;
    EffectKeepsNumbers(c, seqno, answer, config, resolved, now);
    EffectFrame(c, seqno, answer, config, resolved, now);
  }

  lemma SettleKeepsFence(c: Customer)
    requires FenceInv(c) && c.flight.Some? && c.flight.value.outcome.Some?
    ensures FenceInv(Settle(c))
  {
    var flight := c.flight.value;
    var told := c.(flight := None, log := c.log.(replies := Answered(c.log.replies, flight)));
    SameFence(c, told);
    if IsDirty(c) || flight.follow != {} {
      SameFence(told, CleanMark(told));
      StartKeepsFence(CleanMark(told), flight.follow);
    }
  }

  lemma LateEndKeepsFence(c: Customer, seqno: nat, answer: Answer, config: StoreConfig, resolved: Option<Id>, now: int)
    requires FenceInv(c) && seqno in c.log.late
    ensures FenceInv(LateEnd(c, seqno, answer, config, resolved, now))
  {
    EffectKeepsNumbers(c, seqno, answer, config, resolved, now);
    EffectFrame(c, seqno, answer, config, resolved, now);
  }

  lemma CrashKeepsFence(c: Customer)
    requires FenceInv(c)
    ensures FenceInv(Crash(c))
  {
  }

  lemma ReadCallKeepsFence(c: Customer, call: Call, now: int)
    requires FenceInv(c)
    ensures FenceInv(ReadCall(c, call, now))
  {
    if c.flight.None? {
      var called := c.(log := c.log.(calls := c.log.calls[call := c.log.starts],
                                     odd := c.log.odd + if IsDirty(c) then 1 else 0));
      SameFence(c, called);
      StartKeepsFence(called, {call});
    } else {
      SameFence(c, ReadCall(c, call, now));
    }
  }

  lemma PickKeepsFence(c: Customer)
    requires FenceInv(c)
    ensures FenceInv(Pick(c))
  {
    if c.flight.None? {
      SameFence(c, CleanMark(c));
      StartKeepsFence(CleanMark(c), {});
    }
  }

  /** Every step of every customer keeps the fence, whatever the store answers and whichever read ends first. */
  lemma ActKeepsFence(c: Customer, act: Act, config: StoreConfig)
    requires FenceInv(c) && Enabled(c, act)
    ensures FenceInv(Do(c, act, config))
  {
    match act
    case DoEnqueue(now) => SameFence(c, Enqueue(c, now));
    case DoRead(call, now) => ReadCallKeepsFence(c, call, now);
    case DoPick => PickKeepsFence(c);
    case DoEnd(answer, resolved, now) => EndKeepsFence(c, answer, config, resolved, now);
    case DoSettle => SettleKeepsFence(c);
    case DoLink(account) => LinkKeepsNumbers(c, account);
    case DoCrash => CrashKeepsFence(c);
    case DoLateEnd(seqno, answer, resolved, now) => LateEndKeepsFence(c, seqno, answer, config, resolved, now);
  }

  // ---------------------------------------------------------------- what the fence gives

  /** A read the living process runs is never stale: only one that outlived its process can come too late. */
  lemma LiveReadIsNeverStale(c: Customer)
    requires FenceInv(c) && c.flight.Some? && c.flight.value.outcome.None?
    ensures !Stale(c, c.flight.value.seqno)
  {
  }

  /**
   What one step may do to the numbers. Results are only added, each above all before it. While the customer
   has a row no number is forgotten and each new one is above all before it.
   */
  ghost predicate FenceGrows(c: Customer, d: Customer) {
    && (d.log.applied == c.log.applied ||
        (|d.log.applied| == |c.log.applied| + 1 && c.log.applied <= d.log.applied && AppliedSeq(c) < AppliedSeq(d)))
    && (d.log.applied == c.log.applied ==> AppliedSeq(d) == AppliedSeq(c))
    && (c.row.Some? ==> d.row.Some? && c.log.issued <= d.log.issued && c.row.value.readSeq <= d.row.value.readSeq)
  }

  lemma ApplyGrows(c: Customer, seqno: nat, view: StoreView, resolved: Option<Id>, now: int)
    requires FenceInv(c) && seqno in c.log.issued
    ensures FenceGrows(c, ApplyView(c, seqno, view, resolved, now))
  {
  }

  lemma EffectGrows(c: Customer, seqno: nat, answer: Answer, config: StoreConfig, resolved: Option<Id>, now: int)
    requires FenceInv(c) && seqno in c.log.issued
    ensures FenceGrows(c, Effect(c, seqno, answer, config, resolved, now))
  {
    if Succeeds(c, answer) {
      ApplyGrows(c, seqno, ViewOf(answer, config), resolved, now);
    }
  }

  lemma StepGrows(c: Customer, act: Act, config: StoreConfig)
    requires FenceInv(c) && Enabled(c, act)
    ensures FenceGrows(c, Do(c, act, config))
  {
    match act
    case DoEnd(answer, resolved, now) =>
      EffectGrows(c, c.flight.value.seqno, answer, config, resolved, now);
    case DoLateEnd(seqno, answer, resolved, now) =>
      EffectGrows(c, seqno, answer, config, resolved, now);
    case DoLink(account) => LinkKeepsNumbers(c, account);
    case _ =>
  }

  // ---------------------------------------------------------------- runs

  /** Any order of steps from a customer id nobody has heard of. Crashes and late reads may come anywhere. */
  ghost predicate IsRun(trace: seq<Customer>, acts: seq<Act>, config: StoreConfig) {
    && |trace| == |acts| + 1
    && trace[0] == STRANGER
    && forall i: nat {:trigger acts[i]} :: i < |acts| ==>
        Enabled(trace[i], acts[i]) && trace[i + 1] == Do(trace[i], acts[i], config)
  }

  lemma {:induction false} RunKeepsFence(trace: seq<Customer>, acts: seq<Act>, config: StoreConfig, k: nat)
    requires IsRun(trace, acts, config) && k < |trace|
    ensures FenceInv(trace[k])
  {
    if k == 0 {
      StrangerIsFenced();
    } else {
      RunKeepsFence(trace, acts, config, k - 1);
      ActKeepsFence(trace[k - 1], acts[k - 1], config);
    }
  }

  /**
   Over any run no number is given twice while the customer has a row, results are only ever added, their
   numbers rise, and the tables hold exactly what the results so far, in number order, say.
   */
  lemma {:induction false} FenceHoldsOverRuns(trace: seq<Customer>, acts: seq<Act>, config: StoreConfig, j: nat, k: nat)
    requires IsRun(trace, acts, config) && j <= k < |trace|
    ensures Increasing(trace[k].log.issued) && AppliedInOrder(trace[k].log.applied)
    ensures Held(trace[k]) == Fold(trace[k].log.applied)
    ensures AppliedSeq(trace[k]) <= Count(trace[k])
    ensures Since(trace[j], trace[k])
    decreases k
  {
    RunKeepsFence(trace, acts, config, k);
    if j < k {
      FenceHoldsOverRuns(trace, acts, config, j, k - 1);
      RunGrows(trace, acts, config, k - 1);
    }
  }

  lemma RunGrows(trace: seq<Customer>, acts: seq<Act>, config: StoreConfig, k: nat)
    requires IsRun(trace, acts, config) && k < |acts|
    ensures FenceGrows(trace[k], trace[k + 1])
  {
    RunKeepsFence(trace, acts, config, k);
    StepGrows(trace[k], acts[k], config);
  }

  /**
   `d` is a later state: its results extend those of `c`, under higher numbers, and so do a linked customer's numbers.
   */
  ghost predicate Since(c: Customer, d: Customer) {
    && c.log.applied <= d.log.applied
    && AppliedSeq(c) <= AppliedSeq(d)
    && (c.log.applied != d.log.applied ==> AppliedSeq(c) < AppliedSeq(d))
    && (c.row.Some? ==> d.row.Some? && c.log.issued <= d.log.issued && c.row.value.readSeq <= d.row.value.readSeq)
  }

  // ---------------------------------------------------------------- what the results say

  function FoldFrom(held: Holding, applied: seq<Applied>): Holding {
    if applied == [] then held
    else After(FoldFrom(held, applied[..|applied| - 1]), applied[|applied| - 1].view)
  }

  /** Nothing written before the last full list matters any more. */
  lemma {:induction false} FullListDecides(before: seq<Applied>, full: Applied, later: seq<Applied>)
    requires full.view.unknownIds == []
    ensures Fold(before + [full] + later) == FoldFrom(Holding(full.view.tier, full.view.packs), later)
    decreases |later|
  {
    var all := before + [full] + later;
    if later == [] {
      assert all == before + [full] && all[..|all| - 1] == before;
    } else {
      FullListDecides(before, full, later[..|later| - 1]);
      assert all[..|all| - 1] == before + [full] + later[..|later| - 1];
    }
  }

  /** A list with unknown identifiers takes no tier down and no pack away. */
  lemma GuardedListOnlyAdds(held: Holding, view: StoreView)
    requires view.unknownIds != []
    ensures var after := After(held, view);
            && !IsHigherTier(held.tier, after.tier) && !IsHigherTier(view.tier, after.tier)
            && (after.tier == held.tier || after.tier == view.tier)
            && after.packs.Keys == held.packs.Keys + view.packs.Keys
  {
  }

  /**
   Two reads of one customer, the lower-numbered one late. If the newer one is written first, the older
   one writes nothing. So the two orders agree exactly when the older list leaves no trace under the newer
   one, and always when the newer list is full.
   */
  lemma CompletionOrder(c: Customer, older: nat, newer: nat, v: StoreView, w: StoreView, resolved: Option<Id>, now: int)
    requires c.row.Some? && AppliedSeq(c) < older < newer
    ensures var inOrder := ApplyView(ApplyView(c, older, v, resolved, now), newer, w, resolved, now);
            var crossed := ApplyView(ApplyView(c, newer, w, resolved, now), older, v, resolved, now);
            && Held(inOrder) == After(After(Held(c), v), w)
            && Held(crossed) == After(Held(c), w)
            && AppliedSeq(inOrder) == AppliedSeq(crossed) == newer
            && (w.unknownIds == [] ==> Held(inOrder) == Held(crossed))
  {
    ApplyHolds(c, older, v, resolved, now);
    ApplyHolds(ApplyView(c, older, v, resolved, now), newer, w, resolved, now);
    ApplyHolds(c, newer, w, resolved, now);
  }

  lemma ApplyHolds(c: Customer, seqno: nat, view: StoreView, resolved: Option<Id>, now: int)
    requires c.row.Some? && AppliedSeq(c) < seqno
    ensures var d := ApplyView(c, seqno, view, resolved, now);
            d.row.Some? && AppliedSeq(d) == seqno && Held(d) == After(Held(c), view)
  {
  }
}
