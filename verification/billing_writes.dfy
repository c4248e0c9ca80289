/**
 What each piece of the read protocol leaves in the rows of a customer, read off the rows before it: the queue with its
 retry times, the result of a read, and the two paths that write a tier without reading the store.
 */
module BillingWrites {
  import opened Common
  import opened Tiers
  import opened BillingView
  import opened BillingModel
  import opened BillingFence
  import opened BillingAccounts
  import opened BillingRuns

  // ---------------------------------------------------------------- the queue

  /** A read of this customer waits in the queue: at this time, after so many failures, with or without a mark. */
  ghost predicate Waits(c: Customer, dueAt: int, attempts: nat, marked: bool) {
    c.queue.Some? && (c.queue.value.dueAt, c.queue.value.attempts, c.queue.value.dirty) == (dueAt, attempts, marked)
  }

  /** The rows of the billing tables, and the number that stands in for a missing row. */
  ghost predicate RowsStay(c: Customer, d: Customer) {
    d.row == c.row && d.packs == c.packs && d.unlinked == c.unlinked
  }

  /**
   A trigger while a read runs marks the row for one more read and moves nothing else of it; any other is due at once
   and counts its failures anew.
   */
  lemma TriggerQueues(c: Customer, now: int)
    ensures var d := Enqueue(c, now);
            && RowsStay(c, d) && d.flight == c.flight
            && if c.flight.None? then Waits(d, now, 0, c.queue.Some? && c.queue.value.dirty)
                else if c.queue.None? then Waits(d, now, 0, true)
                else Waits(d, c.queue.value.dueAt, c.queue.value.attempts, true)
  {
  }

  /** How long after its failure a read is tried again: a minute, five, a quarter of an hour, an hour. */
  function RetryWait(failures: nat): int
    requires 1 <= failures <= 4
  {
    if failures == 1 then 60 else if failures == 2 then 300 else if failures == 3 then 900 else 3_600
  }

  function FailuresOf(c: Customer): nat {
    if c.queue.Some? then c.queue.value.attempts else 0
  }

  /**
   A failed read moves only the queue. A marked row is left to the read that follows; otherwise the failure counts and
   the read is tried again after its wait, and the fifth failure gives up.
   */
  lemma FailureRetries(c: Customer, now: int)
    ensures var d := Failed(c, now);
            && d == c.(queue := d.queue)
            && if c.queue.Some? && c.queue.value.dirty then d == c
                else if FailuresOf(c) < 4 then
                  Waits(d, now + RetryWait(FailuresOf(c) + 1), FailuresOf(c) + 1, false)
                else d.queue.None?
  {
  }

  /** Marks are taken off where a read starts for them, and nowhere else does a start touch the queue. */
  lemma StartsTakeMarks(c: Customer, call: Call, now: int)
    ensures c.flight.None? ==>
              && Pick(c).queue == (if c.queue.None? then None else Some(c.queue.value.(dirty := false)))
              && ReadCall(c, call, now).queue == c.queue
              && Pick(c).flight.Some? && ReadCall(c, call, now).flight.Some?
              && Pick(c).flight.value.waiting == {} && ReadCall(c, call, now).flight.value.waiting == {call}
    ensures c.flight.Some? ==>
              && Pick(c) == c
              && ReadCall(c, call, now).queue == Enqueue(c, now).queue
              && ReadCall(c, call, now).flight == Some(c.flight.value.(follow := c.flight.value.follow + {call}))
    ensures Pick(c).packs == c.packs && ReadCall(c, call, now).packs == c.packs
  {
  }

  /** A read takes the number one above the last one given to its customer, with or without a row, and counts it. */
  lemma NumberIsNext(c: Customer)
    requires c.flight.None?
    ensures var d := Pick(c);
            && d.flight.Some? && d.flight.value.outcome.None?
            && (d.row.Some? <==> c.row.Some?)
            && (c.row.Some? ==>
                  && d.flight.value.seqno == c.row.value.readSeq + 1 && d.unlinked == c.unlinked
                  && d.row.value == c.row.value.(readSeq := d.flight.value.seqno))
            && (c.row.None? ==>
                  && d.flight.value.seqno == (if c.unlinked.Some? then c.unlinked.value + 1 else 1)
                  && d.unlinked == Some(d.flight.value.seqno))
  {
  }

  /** A read is due when its time has come or its row carries a mark. */
  lemma DueIff(c: Customer, now: int)
    ensures IsDue(c, now) <==> exists at, attempts, marked :: Waits(c, at, attempts, marked) && (marked || at < now + 1)
  {
    if IsDue(c, now) {
      assert Waits(c, c.queue.value.dueAt, c.queue.value.attempts, c.queue.value.dirty);
    }
  }

  // ---------------------------------------------------------------- the result of a read

  /** The tables say that the customer pays for a tier or holds a pack. */
  predicate Holds(c: Customer) {
    c.row.Some? && !(c.row.value.tier == Free && |c.packs| == 0)
  }

  /** What counts as an answer: a list, or `never seen` of a customer who holds nothing. */
  lemma AnswerCountsIff(c: Customer, answer: Answer)
    ensures Succeeds(c, answer) <==> answer.Listed? || (answer.NeverSeen? && !Holds(c))
  {
    assert |c.packs| == 0 <==> c.packs == map[];
  }

  /** What the list says, and nothing of a customer the store never saw. */
  ghost predicate Says(answer: Answer, config: StoreConfig, view: StoreView) {
    match answer
    case Listed(items) => Matches(items, config, view)
    case _ => view == NOTHING
  }

  /** A result is written into the row: under its number, at its time, and on the account that the id leads to. */
  ghost predicate WrittenAs(c: Customer, d: Customer, seqno: nat, resolved: Option<Id>, now: int) {
    && d.row.Some?
    && d.row.value.appliedSeq == seqno && d.row.value.checkedAt == Some(now)
    && (if c.row.Some? then
          && d.row.value.lastEventAt == c.row.value.lastEventAt && d.unlinked == c.unlinked
          && d.row.value.account == resolved.GetOr(c.row.value.account)
          && d.row.value.readSeq == (if c.row.value.readSeq < seqno then seqno else c.row.value.readSeq)
        else
          && d.row.value.lastEventAt.None? && d.unlinked.None? && Some(d.row.value.account) == resolved
          && d.row.value.readSeq >= seqno && d.row.value.readSeq >= c.unlinked.GetOr(0))
  }

  /** A mark survives the result of the read it was set during; a row without one is gone. */
  ghost predicate QueueCleared(c: Customer, d: Customer) {
    d.queue == if c.queue.Some? && c.queue.value.dirty then c.queue else None
  }

  /** The result is the newest the row has seen; of an id without a row it names an account and something paid for. */
  ghost predicate IsNews(c: Customer, seqno: nat, view: StoreView, resolved: Option<Id>) {
    if c.row.Some? then c.row.value.appliedSeq < seqno else resolved.Some? && (view.tier != Free || |view.packs| != 0)
  }

  lemma WriteWrites(c: Customer, linked: Customer, seqno: nat, view: StoreView, resolved: Option<Id>, now: int)
    requires linked == LinkResolved(c, resolved) && linked.row.Some?
    requires c.row.Some? ==> c.row.value.appliedSeq < seqno
    ensures var d := DropClean(WriteResult(linked, seqno, view, now));
            WrittenAs(c, d, seqno, resolved, now) && QueueCleared(c, d) && Held(d) == After(Held(c), view)
  {
  }

  lemma WriteRemembers(c: Customer, linked: Customer, seqno: nat, view: StoreView, resolved: Option<Id>, now: int)
    requires linked == LinkResolved(c, resolved) && linked.row.Some?
    ensures var d := DropClean(WriteResult(linked, seqno, view, now));
            d.flight == c.flight && d.log.applied == c.log.applied + [Applied(seqno, view)]
  {
  }

  /** A late result is dropped whole; one that is not news clears the queue; one that is news is written. */
  lemma ResultWrites(c: Customer, seqno: nat, view: StoreView, resolved: Option<Id>, now: int)
    ensures var d := ApplyView(c, seqno, view, resolved, now);
            && d.flight == c.flight
            && (c.row.Some? && seqno <= c.row.value.appliedSeq ==> d == c)
            && (IsNews(c, seqno, view, resolved) ==>
                  WrittenAs(c, d, seqno, resolved, now) && QueueCleared(c, d) && Held(d) == After(Held(c), view)
                  && d.log.applied == c.log.applied + [Applied(seqno, view)])
            && (!IsNews(c, seqno, view, resolved) ==> RowsStay(c, d) && (c.row.None? ==> QueueCleared(c, d)))
  {
    assert |view.packs| == 0 <==> view.packs == map[];
    if IsNews(c, seqno, view, resolved) {
      var linked := LinkResolved(c, resolved);
      WriteWrites(c, linked, seqno, view, resolved, now);
      WriteRemembers(c, linked, seqno, view, resolved, now);
      assert ApplyView(c, seqno, view, resolved, now) == DropClean(WriteResult(linked, seqno, view, now));
    }
  }

  /** The end of a read: an answer that counts is written as what it says, any other is a failure. */
  lemma EndWrites(c: Customer, answer: Answer, config: StoreConfig, resolved: Option<Id>, now: int)
      returns (view: StoreView)
    requires c.flight.Some?
    ensures Says(answer, config, view)
    ensures var d := End(c, answer, config, resolved, now);
            && d.flight == Some(c.flight.value.(outcome := Some(Succeeds(c, answer))))
            && (Succeeds(c, answer) ==> RowsAs(d, ApplyView(c, c.flight.value.seqno, view, resolved, now)))
            && (!Succeeds(c, answer) ==> RowsAs(d, Failed(c, now)))
  {
    view := ViewOf(answer, config);
    if answer.Listed? {
      ViewMatches(answer.items, config);
    }
  }

  ghost predicate RowsAs(d: Customer, e: Customer) {
    RowsStay(d, e) && d.queue == e.queue
  }

  /** Linking makes an empty row that counts on from the numbers already given, or repoints the row. */
  lemma LinkWrites(c: Customer, account: Id)
    ensures var d := Link(c, account);
            && d.row.Some? && d.row.value.account == account
            && (d.packs, d.queue, d.flight) == (c.packs, c.queue, c.flight)
            && (c.row.Some? ==> d.unlinked == c.unlinked && d.row.value == c.row.value.(account := account))
            && (c.row.None? ==>
                  && d.unlinked.None? && d.row.value.readSeq == c.unlinked.GetOr(0) && d.row.value.appliedSeq == 0
                  && d.row.value.tier == Free && d.row.value.checkedAt.None? && d.row.value.lastEventAt.None?)
  {
  }

  // ---------------------------------------------------------------- when a read is over

  /**
   A read that settles is followed by one more if the row is marked or somebody waits for it, under the next number and
   with the mark off; otherwise nothing runs and an id without a row counts from the start again.
   */
  lemma SettlingEnds(c: Customer)
    requires c.flight.Some? && c.flight.value.outcome.Some?
    ensures var d := Settle(c);
            && d.packs == c.packs
            && if (c.queue.Some? && c.queue.value.dirty) || c.flight.value.follow != {} then
                 && d.flight.Some? && d.flight.value.outcome.None? && d.flight.value.waiting == c.flight.value.follow
                 && d.flight.value.seqno == Count(c) + 1 && Count(d) == Count(c) + 1
                 && d.queue == (if c.queue.None? then None else Some(c.queue.value.(dirty := false)))
               else d.flight.None? && d.row == c.row && d.unlinked.None? && d.queue == c.queue
  {
  }

  /**
   A process that dies keeps its rows and its queue and forgets the rest. Of what ran only a read that had not ended,
   of a customer with a row to be fenced by, may still end, and it ends once.
   */
  lemma CrashForgets(c: Customer)
    ensures var d := Crash(c);
            && (d.row, d.packs, d.queue) == (c.row, c.packs, c.queue) && d.flight.None? && d.unlinked.None?
            && forall n :: n in d.log.late <==>
                 n in c.log.late ||
                 (c.row.Some? && c.flight.Some? && c.flight.value.outcome.None? && c.flight.value.seqno == n)
  {
  }

  lemma LateReadEndsOnce(c: Customer, seqno: nat, answer: Answer, config: StoreConfig, resolved: Option<Id>, now: int)
    ensures var d := LateEnd(c, seqno, answer, config, resolved, now);
            && d.flight == c.flight
            && forall n :: n in d.log.late <==> n in c.log.late && n != seqno
  {
    EffectFrame(c, seqno, answer, config, resolved, now);
  }

  // ---------------------------------------------------------------- without reading the store

  /** The tier and the time an event brings, in the row of its customer. */
  ghost predicate EventWritten(c: Customer, d: Customer, account: Id, event: Event)
    requires event.tier.Some?
  {
    && d.row.Some?
    && (d.row.value.account, d.row.value.tier, d.row.value.lastEventAt) == (account, event.tier.value, Some(event.at))
    && (d.packs, d.queue, d.flight, d.unlinked) == (c.packs, c.queue, c.flight, c.unlinked)
    && (if c.row.Some? then
          (d.row.value.readSeq, d.row.value.appliedSeq, d.row.value.checkedAt) ==
          (c.row.value.readSeq, c.row.value.appliedSeq, c.row.value.checkedAt)
        else (d.row.value.readSeq, d.row.value.appliedSeq, d.row.value.checkedAt) == (0, 0, None))
  }

  /**
   An event is heard once. It is written if its customer leads to an account, it names a tier and none heard for this
   customer is younger; otherwise it is only remembered.
   */
  lemma EventWrites(sys: Sys, event: Event)
    ensures var sys' := ApplyEvent(sys, event);
            var c, d := Of(sys, event.user), Of(sys', event.user);
            && sys'.events == sys.events + {event.id}
            && (event.id in sys.events ==> sys' == sys)
            && ApplyEvent(sys', event) == sys'
            && if event.id !in sys.events && event.tier.Some? && Resolve(sys, event.user).Some?
                  && (c.row.Some? && c.row.value.lastEventAt.Some? ==> c.row.value.lastEventAt.value <= event.at)
                then EventWritten(c, d, Resolve(sys, event.user).value, event)
                else d == c && sys'.accounts == sys.accounts
  {
    if event.id in sys.events {
      assert sys.events + {event.id} == sys.events;
    }
  }

  /** The sweep writes a tier into a row that is there, and nothing else of it. */
  lemma SweepWrites(sys: Sys, user: Id, tier: Tier)
    ensures var sys' := ApplySweep(sys, user, tier);
            var c, d := Of(sys, user), Of(sys', user);
            && sys'.events == sys.events
            && if c.row.Some? then d == c.(row := Some(c.row.value.(tier := tier))) else sys' == sys
  {
  }

  /**
   What an event that queues reads leaves of a customer it names: the newest event time, on the account it leads to.
   */
  lemma QueuedEventWrites(c: Customer, account: Id, at: int, now: int)
    ensures var d := Queue(c, account, at, now);
            && d.row.Some? && d.row.value.account == account && d.packs == c.packs && d.flight == c.flight
            && d.row.value.lastEventAt ==
               Some(if c.row.Some? && c.row.value.lastEventAt.Some? && c.row.value.lastEventAt.value > at
                    then c.row.value.lastEventAt.value else if c.row.Some? && c.row.value.lastEventAt.Some? then at
                    else if at > 0 then at else 0)
            && (c.row.Some? ==>
                  (d.row.value.tier, d.row.value.readSeq, d.row.value.appliedSeq, d.row.value.checkedAt) ==
                  (c.row.value.tier, c.row.value.readSeq, c.row.value.appliedSeq, c.row.value.checkedAt))
  {
  }
}
