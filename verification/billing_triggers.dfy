/** Triggers and calls of one process: none is lost, no two reads run at once, and every call gets a fresh answer. */
module BillingTriggers {
  import opened Common
  import opened BillingView
  import opened BillingModel
  import opened BillingFence

  function Attempts(c: Customer): nat {
    if c.queue.Some? then c.queue.value.attempts else 0
  }

  /** The read in flight started after the last trigger, while that trigger's mark is still in the table. */
  predicate OverOldMark(c: Customer) {
    && c.flight.Some? && c.flight.value.outcome.None? && IsDirty(c)
    && c.log.wanted.Some? && c.flight.value.index >= c.log.wanted.value
  }

  ghost predicate TriggerInv(c: Customer) {
    && (c.flight.Some? ==> c.flight.value.index + 1 == c.log.starts)
    && (c.flight.Some? && c.flight.value.follow != {} ==> IsDirty(c))
    && (c.log.wanted.Some? ==> c.queue.Some? && c.log.wanted.value <= c.log.starts)
    && (c.log.wanted.Some? && c.flight.Some? && c.flight.value.index < c.log.wanted.value ==> IsDirty(c))
    && Attempts(c) <= |RETRY_AFTER_S|
    && (c.log.wanted.Some? ==> c.log.spent + (if OverOldMark(c) then 1 else 0) <= Attempts(c) + c.log.odd)
  }

  /** A queued trigger is answered by a success of a read that started after it. */
  predicate Answers(c: Customer, act: Act) {
    && act.DoEnd? && c.flight.Some? && Succeeds(c, act.answer)
    && c.log.wanted.Some? && c.flight.value.index >= c.log.wanted.value
  }

  /** The last of the retries fails, with no other trigger waiting. */
  predicate GivesUp(c: Customer, act: Act) {
    act.DoEnd? && !Succeeds(c, act.answer) && c.queue.Some? && !IsDirty(c) && c.queue.value.attempts == |RETRY_AFTER_S|
  }

  predicate IsTrigger(c: Customer, act: Act) {
    act.DoEnqueue? || (act.DoRead? && c.flight.Some?)
  }

  // ---------------------------------------------------------------- no trigger is lost

  lemma EffectQueue(c: Customer, seqno: nat, answer: Answer, config: StoreConfig, resolved: Option<Id>, now: int)
    requires !Stale(c, seqno)
    ensures var d := Effect(c, seqno, answer, config, resolved, now);
            d.queue == if IsDirty(c) then c.queue
                       else if Succeeds(c, answer) || Attempts(c) >= |RETRY_AFTER_S| then None
                       else Some(Queued(now + RETRY_AFTER_S[Attempts(c)], Attempts(c) + 1, false))
    ensures var d := Effect(c, seqno, answer, config, resolved, now);
            d.flight == c.flight && d.log.(applied := c.log.applied) == c.log
  {
    EffectFrame(c, seqno, answer, config, resolved, now);
    if Succeeds(c, answer) {
      var view := ViewOf(answer, config);
      var linked := LinkResolved(c, resolved);
      assert linked.queue == c.queue;
    }
  }

  lemma EndKeepsTriggers(c: Customer, answer: Answer, config: StoreConfig, resolved: Option<Id>, now: int)
    requires FenceInv(c) && TriggerInv(c) && Enabled(c, DoEnd(answer, resolved, now))
    ensures var act, d := DoEnd(answer, resolved, now), End(c, answer, config, resolved, now);
            TriggerInv(d) && d.log.wanted == if Answers(c, act) || GivesUp(c, act) then None else c.log.wanted
  {
    LiveReadIsNeverStale(c);
    EffectQueue(c, c.flight.value.seqno, answer, config, resolved, now);
  }

  /**
   Every step of one process keeps every trigger. One stops being wanted exactly when a read that started after
   it succeeds or its last retry fails; until then its row is queued, marked if a read runs that started before it.
   */
  lemma NoTriggerIsLost(c: Customer, act: Act, config: StoreConfig)
    requires FenceInv(c) && TriggerInv(c) && Enabled(c, act) && !act.DoLateEnd?
    ensures var d := Do(c, act, config);
            && TriggerInv(d)
            && d.log.wanted == (if IsTrigger(c, act) then Some(c.log.starts)
                                else if Answers(c, act) || GivesUp(c, act) then None
                                else c.log.wanted)
  {
    match act
    case DoEnd(answer, resolved, now) => EndKeepsTriggers(c, answer, config, resolved, now);
    case DoEnqueue(now) =>
    case DoRead(call, now) =>
    case DoPick =>
    case DoSettle =>
    case DoLink(account) =>
    case DoCrash =>
  }

  /** A trigger that found nothing marked and nothing running: its retries are counted from zero. */
  ghost predicate CountsFromZero(c: Customer) {
    c.log.wanted.Some? ==> !IsDirty(c) && c.log.spent == Attempts(c)
  }

  lemma EnqueueCountsFromZero(c: Customer, now: int)
    requires c.flight.None? && !IsDirty(c)
    ensures CountsFromZero(Enqueue(c, now)) && Enqueue(c, now).log.wanted == Some(c.log.starts)
  {
  }

  /** Such a trigger gets exactly five reads if all fail: it is given up at the fifth failure and not before. */
  lemma FiveReadsPerTrigger(c: Customer, act: Act, config: StoreConfig)
    requires FenceInv(c) && TriggerInv(c) && Enabled(c, act) && !act.DoLateEnd? && !IsTrigger(c, act)
    requires CountsFromZero(c) && c.log.wanted.Some?
    ensures var d := Do(c, act, config);
            && CountsFromZero(d)
            && (GivesUp(c, act) ==> d.log.spent == |RETRY_AFTER_S| + 1)
            && (d.log.wanted.Some? ==> d.log.spent <= |RETRY_AFTER_S|)
  {
    NoTriggerIsLost(c, act, config);
    if act.DoEnd? {
      LiveReadIsNeverStale(c);
      EffectQueue(c, c.flight.value.seqno, act.answer, config, act.resolved, act.now);
    }
  }

  /** Any trigger costs at most five failed reads, and one more for each direct call that ran over an old mark. */
  lemma ReadsPerTriggerAreBounded(c: Customer, act: Act, config: StoreConfig)
    requires FenceInv(c) && TriggerInv(c) && Enabled(c, act) && !act.DoLateEnd?
    requires c.log.wanted.Some?
    ensures Do(c, act, config).log.spent <= |RETRY_AFTER_S| + 1 + Do(c, act, config).log.odd
  {
    NoTriggerIsLost(c, act, config);
    if act.DoEnd? {
      EffectFrame(c, c.flight.value.seqno, act.answer, config, act.resolved, act.now);
    }
  }

  // ---------------------------------------------------------------- one read at a time

  /** However many triggers came during a read, one more read follows it. With none, and no old mark, none does. */
  lemma OneReadFollows(c: Customer, config: StoreConfig)
    requires TriggerInv(c) && Enabled(c, DoSettle)
    ensures var d := Do(c, DoSettle, config);
            && d.log.starts == c.log.starts + (if IsDirty(c) then 1 else 0)
            && (IsDirty(c) <==> d.flight.Some?)
            && (d.flight.Some? ==>
                  && d.flight.value.index == c.log.starts
                  && d.flight.value.waiting == c.flight.value.follow && !IsDirty(d))
            && (c.log.wanted.Some? && c.log.wanted.value > c.flight.value.index ==> d.flight.Some?)
  {
  }

  /** A read starts only when none is in flight, so of all reads ever started only the newest can be running. */
  lemma StartsAreSingle(c: Customer, act: Act, config: StoreConfig)
    requires FenceInv(c) && TriggerInv(c) && Enabled(c, act) && !act.DoLateEnd?
    ensures var d := Do(c, act, config);
            && c.log.starts <= d.log.starts <= c.log.starts + 1
            && (d.log.starts > c.log.starts ==>
                  (c.flight.None? || act.DoSettle?) && d.flight.Some? && d.flight.value.index == c.log.starts)
            && (d.log.starts == c.log.starts && d.flight.Some? ==>
                c.flight.Some? && d.flight.value.index == c.flight.value.index)
  {
    if act.DoEnd? {
      EffectFrame(c, c.flight.value.seqno, act.answer, config, act.resolved, act.now);
    }
  }

  // ---------------------------------------------------------------- calls

  ghost predicate CallInv(c: Customer) {
    && (c.flight.Some? ==> FlightCalls(c, c.flight.value))
    && (forall call :: call in c.log.replies ==> ReplyIsFresh(c, call))
  }

  ghost predicate FlightCalls(c: Customer, flight: Flight) {
    && flight.index + 1 == c.log.starts
    && (flight.outcome.Some? ==> flight.index in c.log.outcomes && c.log.outcomes[flight.index] == flight.outcome.value)
    && flight.waiting !! flight.follow
    && (forall call :: call in flight.waiting ==>
        call in c.log.calls && c.log.calls[call] <= flight.index && call !in c.log.replies)
    && (forall call :: call in flight.follow ==>
        call in c.log.calls && c.log.calls[call] <= c.log.starts && call !in c.log.replies)
  }

  /** The answer is the outcome of a read that had not started when the call was made. */
  ghost predicate ReplyIsFresh(c: Customer, call: Call)
    requires call in c.log.replies
  {
    var reply := c.log.replies[call];
    && call in c.log.calls && c.log.calls[call] <= reply.index < c.log.starts
    && (c.flight.Some? ==> reply.index < c.flight.value.index)
    && reply.index in c.log.outcomes && c.log.outcomes[reply.index] == reply.ok
  }

  lemma SettleAnswersCalls(c: Customer)
    requires CallInv(c) && c.flight.Some? && c.flight.value.outcome.Some?
    ensures CallInv(Settle(c))
  {
    var flight, d := c.flight.value, Settle(c);
    forall call | call in d.log.replies ensures ReplyIsFresh(d, call) {
      if call !in flight.waiting {
        assert ReplyIsFresh(c, call);
      }
    }
  }

  lemma EndKeepsCalls(c: Customer, answer: Answer, config: StoreConfig, resolved: Option<Id>, now: int)
    requires CallInv(c) && Enabled(c, DoEnd(answer, resolved, now))
    ensures CallInv(End(c, answer, config, resolved, now))
  {
    EffectFrame(c, c.flight.value.seqno, answer, config, resolved, now);
    var d := End(c, answer, config, resolved, now);
    assert d.log.replies == c.log.replies && d.log.calls == c.log.calls && d.log.starts == c.log.starts;
    forall call | call in d.log.replies ensures ReplyIsFresh(d, call) {
      assert ReplyIsFresh(c, call);
    }
  }

  lemma ReadCallKeepsCalls(c: Customer, call: Call, now: int)
    requires CallInv(c) && call !in c.log.calls
    ensures CallInv(ReadCall(c, call, now))
  {
    var d := ReadCall(c, call, now);
    forall other | other in d.log.replies ensures ReplyIsFresh(d, other) {
      assert ReplyIsFresh(c, other);
    }
  }

  lemma SameCalls(c: Customer, d: Customer)
    requires CallInv(c)
    requires d.log.calls == c.log.calls && d.log.replies == c.log.replies && d.log.outcomes == c.log.outcomes
    requires d.log.starts == c.log.starts && (d.flight == c.flight || d.flight.None?)
    ensures CallInv(d)
  {
  }

  lemma AnswersAreFresh(c: Customer, act: Act, config: StoreConfig)
    requires CallInv(c) && Enabled(c, act)
    ensures CallInv(Do(c, act, config))
  {
    match act
    case DoEnqueue(now) => SameCalls(c, Enqueue(c, now));
    case DoRead(call, now) => ReadCallKeepsCalls(c, call, now);
    case DoPick =>
    case DoEnd(answer, resolved, now) => EndKeepsCalls(c, answer, config, resolved, now);
    case DoSettle => SettleAnswersCalls(c);
    case DoLink(account) => SameCalls(c, Link(c, account));
    case DoCrash => SameCalls(c, Crash(c));
    case DoLateEnd(seqno, answer, resolved, now) =>
      EffectFrame(c, seqno, answer, config, resolved, now);
      SameCalls(c, LateEnd(c, seqno, answer, config, resolved, now));
  }

  function Unanswered(c: Customer): set<Call> {
    if c.flight.Some? then c.flight.value.waiting + c.flight.value.follow else {}
  }

  /** Only a crash loses a call: it waits until the promise it holds settles, and then it has its answer. */
  lemma CallsAreAnswered(c: Customer, act: Act, config: StoreConfig)
    requires Enabled(c, act) && !act.DoCrash?
    ensures var d := Do(c, act, config);
            && Unanswered(c) <= Unanswered(d) + d.log.replies.Keys
            && c.log.replies.Keys <= d.log.replies.Keys
            && (act.DoRead? ==> act.call in Unanswered(d))
  {
    if act.DoEnd? {
      EffectFrame(c, c.flight.value.seqno, act.answer, config, act.resolved, act.now);
    } else if act.DoLateEnd? {
      EffectFrame(c, act.seqno, act.answer, config, act.resolved, act.now);
    }
  }

  // ---------------------------------------------------------------- the fifth failure

  /** The queue counts no failure that a success came after. */
  predicate CountsInARow(c: Customer) {
    Attempts(c) <= c.log.streak
  }

  /** A success that leaves its row in the queue, with the failures it carries. */
  predicate KeepsOldFailures(c: Customer, act: Act) {
    act.DoEnd? && Succeeds(c, act.answer) && IsDirty(c) && c.queue.value.attempts > 0
  }

  /** The count of failures in a row is right until a marked row outlives a success, and then it is wrong. */
  lemma CountStaysInARowIff(c: Customer, act: Act, config: StoreConfig)
    requires FenceInv(c) && TriggerInv(c) && Enabled(c, act) && !act.DoLateEnd?
    requires CountsInARow(c)
    ensures CountsInARow(Do(c, act, config)) <==> !KeepsOldFailures(c, act)
  {
    if act.DoEnd? {
      LiveReadIsNeverStale(c);
      EffectQueue(c, c.flight.value.seqno, act.answer, config, act.resolved, act.now);
    }
  }

  /** A trigger is given up at five failures in a row if and only if the count was right. */
  lemma GivesUpAfterFiveInARowIff(c: Customer, act: Act, config: StoreConfig)
    requires FenceInv(c) && TriggerInv(c) && Enabled(c, act) && GivesUp(c, act)
    ensures Do(c, act, config).log.streak >= |RETRY_AFTER_S| + 1 <==> CountsInARow(c)
  {
  }

  // ---------------------------------------------------------------- the sixth read

  /** A read that started after the last trigger fails while that trigger's mark is in the table: nobody counts it. */
  predicate FailsOverMark(c: Customer, act: Act) {
    act.DoEnd? && OverOldMark(c) && !Succeeds(c, act.answer)
  }

  /** The queue counts every failed read of the last trigger. */
  predicate CountsReads(c: Customer) {
    c.log.wanted.Some? ==> c.log.spent <= Attempts(c)
  }

  /** Of a step that is no trigger the queue counts every failed read but one over a mark. */
  lemma SpentByStep(c: Customer, act: Act, config: StoreConfig)
    requires FenceInv(c) && TriggerInv(c) && Enabled(c, act) && !act.DoLateEnd? && !IsTrigger(c, act)
    requires c.log.wanted.Some?
    ensures var d := Do(c, act, config);
            var uncounted := if FailsOverMark(c, act) then 1 else 0;
            && (d.log.wanted.Some? ==> d.log.spent - Attempts(d) == c.log.spent - Attempts(c) + uncounted)
            && (GivesUp(c, act) ==> d.log.spent == c.log.spent + 1 && !FailsOverMark(c, act))
  {
    if act.DoEnd? {
      LiveReadIsNeverStale(c);
      EffectQueue(c, c.flight.value.seqno, act.answer, config, act.resolved, act.now);
    }
  }

  /** The count of reads is right until one fails over a mark with no failure on the row to make up for it. */
  lemma CountsReadsIff(c: Customer, act: Act, config: StoreConfig)
    requires FenceInv(c) && TriggerInv(c) && Enabled(c, act) && !act.DoLateEnd? && CountsReads(c)
    ensures CountsReads(Do(c, act, config)) <==> !(FailsOverMark(c, act) && c.log.spent == Attempts(c))
  {
    NoTriggerIsLost(c, act, config);
    if !IsTrigger(c, act) && c.log.wanted.Some? {
      SpentByStep(c, act, config);
    }
  }

  /** A trigger is given up within five reads if and only if the count was right. */
  lemma GivesUpWithinFiveReadsIff(c: Customer, act: Act, config: StoreConfig)
    requires FenceInv(c) && TriggerInv(c) && Enabled(c, act) && GivesUp(c, act) && c.log.wanted.Some?
    ensures Do(c, act, config).log.spent <= |RETRY_AFTER_S| + 1 <==> CountsReads(c)
  {
    SpentByStep(c, act, config);
  }

  // ---------------------------------------------------------------- runs of one process

  /** A run in which no read of a dead process ends late. The process may still die and be started again. */
  ghost predicate IsLiveRun(trace: seq<Customer>, acts: seq<Act>, config: StoreConfig) {
    IsRun(trace, acts, config) && forall i: nat {:trigger acts[i]} :: i < |acts| ==> !acts[i].DoLateEnd?
  }

  lemma {:induction false} LiveRunKeepsTriggers(trace: seq<Customer>, acts: seq<Act>, config: StoreConfig, k: nat)
    requires IsLiveRun(trace, acts, config) && k < |trace|
    ensures FenceInv(trace[k]) && TriggerInv(trace[k]) && CallInv(trace[k])
  {
    RunKeepsFence(trace, acts, config, k);
    if k > 0 {
      LiveRunKeepsTriggers(trace, acts, config, k - 1);
      NoTriggerIsLost(trace[k - 1], acts[k - 1], config);
      AnswersAreFresh(trace[k - 1], acts[k - 1], config);
    }
  }

  /** A trigger at step `j` is still queued at step `k`, unless it was answered or given up between. */
  lemma {:induction false} TriggerStaysQueued(trace: seq<Customer>, acts: seq<Act>, config: StoreConfig, j: nat, k: nat)
    requires IsLiveRun(trace, acts, config) && j < k < |trace|
    requires IsTrigger(trace[j], acts[j])
    requires forall i: nat {:trigger acts[i]} :: j < i < k ==>
             !Answers(trace[i], acts[i]) && !GivesUp(trace[i], acts[i])
    ensures trace[k].queue.Some? && trace[k].log.wanted.Some? && trace[k].log.wanted.value >= trace[j].log.starts
    decreases k
  {
    LiveRunKeepsTriggers(trace, acts, config, k);
    LiveRunKeepsTriggers(trace, acts, config, k - 1);
    NoTriggerIsLost(trace[k - 1], acts[k - 1], config);
    if j < k - 1 {
      TriggerStaysQueued(trace, acts, config, j, k - 1);
    }
  }

  /** At every drop of any run the failures were five in a row if and only if the count was right. */
  lemma DropsInARowIff(trace: seq<Customer>, acts: seq<Act>, config: StoreConfig, k: nat)
    requires IsLiveRun(trace, acts, config) && k < |acts| && GivesUp(trace[k], acts[k])
    ensures trace[k + 1].log.streak >= |RETRY_AFTER_S| + 1 <==> CountsInARow(trace[k])
  {
    LiveRunKeepsTriggers(trace, acts, config, k);
    GivesUpAfterFiveInARowIff(trace[k], acts[k], config);
  }

  /**
   The count is right in a run with no success over a marked row that carries failures, and so is every drop of it.
   */
  lemma {:induction false} CountInARowOverRuns(trace: seq<Customer>, acts: seq<Act>, config: StoreConfig, k: nat)
    requires IsLiveRun(trace, acts, config) && k < |trace|
    requires forall i: nat {:trigger acts[i]} :: i < k ==> !KeepsOldFailures(trace[i], acts[i])
    ensures CountsInARow(trace[k])
    ensures k < |acts| && GivesUp(trace[k], acts[k]) ==> trace[k + 1].log.streak >= |RETRY_AFTER_S| + 1
  {
    if k > 0 {
      CountInARowOverRuns(trace, acts, config, k - 1);
      LiveRunKeepsTriggers(trace, acts, config, k - 1);
      CountStaysInARowIff(trace[k - 1], acts[k - 1], config);
    }
    if k < |acts| && GivesUp(trace[k], acts[k]) {
      DropsInARowIff(trace, acts, config, k);
    }
  }

  /** A direct call that starts a read while a mark of a dead process is in the table. The mark stays. */
  predicate StartsOverMark(c: Customer, act: Act) {
    act.DoRead? && c.flight.None? && IsDirty(c)
  }

  lemma OddCountsStartsOverMarks(c: Customer, act: Act, config: StoreConfig)
    requires Enabled(c, act)
    ensures Do(c, act, config).log.odd ==
            if IsTrigger(c, act) then 0 else if StartsOverMark(c, act) then c.log.odd + 1 else c.log.odd
  {
    if act.DoEnd? {
      EffectFrame(c, c.flight.value.seqno, act.answer, config, act.resolved, act.now);
    } else if act.DoLateEnd? {
      EffectFrame(c, act.seqno, act.answer, config, act.resolved, act.now);
    }
  }

  /** Along any run a trigger costs at most five failed reads, and one more for each direct call over an old mark. */
  lemma {:induction false} ReadsAreBoundedOverRuns(trace: seq<Customer>, acts: seq<Act>, config: StoreConfig, j: nat,
                                                   k: nat)
    requires IsLiveRun(trace, acts, config) && j < k < |acts|
    requires IsTrigger(trace[j], acts[j]) && trace[k].log.wanted.Some?
    requires forall i: nat {:trigger acts[i]} :: j < i <= k ==> !StartsOverMark(trace[i], acts[i])
    ensures trace[k].log.odd == 0 && trace[k + 1].log.spent <= |RETRY_AFTER_S| + 1
  {
    NoneOddBetween(trace, acts, config, j, k);
    LiveRunKeepsTriggers(trace, acts, config, k);
    ReadsPerTriggerAreBounded(trace[k], acts[k], config);
    OddCountsStartsOverMarks(trace[k], acts[k], config);
  }

  lemma {:induction false} NoneOddBetween(trace: seq<Customer>, acts: seq<Act>, config: StoreConfig, j: nat, k: nat)
    requires IsLiveRun(trace, acts, config) && j < k < |trace| && IsTrigger(trace[j], acts[j])
    requires forall i: nat {:trigger acts[i]} :: j < i < k ==> !StartsOverMark(trace[i], acts[i])
    ensures trace[k].log.odd == 0
    decreases k
  {
    OddCountsStartsOverMarks(trace[k - 1], acts[k - 1], config);
    if j < k - 1 {
      NoneOddBetween(trace, acts, config, j, k - 1);
    }
  }

  /** How many of the steps `j` up to `k` are reads that fail over a mark. */
  function Over(trace: seq<Customer>, acts: seq<Act>, j: nat, k: nat): nat
    requires j <= k <= |acts| && k < |trace|
    decreases k
  {
    if j == k then 0 else Over(trace, acts, j, k - 1) + if FailsOverMark(trace[k - 1], acts[k - 1]) then 1 else 0
  }

  /**
   Along any run the failed reads of a trigger are the failures its row gained since and those over a mark, as long
   as it waits.
   */
  lemma {:induction false} SpentAlongRuns(trace: seq<Customer>, acts: seq<Act>, config: StoreConfig, j: nat, k: nat)
    requires IsLiveRun(trace, acts, config) && j < k < |trace| && IsTrigger(trace[j], acts[j])
    requires forall i: nat {:trigger acts[i]} :: j < i < k ==> !IsTrigger(trace[i], acts[i])
    requires trace[k].log.wanted.Some?
    ensures trace[k].log.spent == Attempts(trace[k]) - Attempts(trace[j + 1]) + Over(trace, acts, j + 1, k)
    decreases k
  {
    if j < k - 1 {
      SpentNext(trace, acts, config, k - 1);
      SpentAlongRuns(trace, acts, config, j, k - 1);
    }
  }

  lemma SpentNext(trace: seq<Customer>, acts: seq<Act>, config: StoreConfig, k: nat)
    requires IsLiveRun(trace, acts, config) && k < |acts| && !IsTrigger(trace[k], acts[k])
    requires trace[k + 1].log.wanted.Some?
    ensures trace[k].log.wanted.Some?
    ensures trace[k + 1].log.spent - Attempts(trace[k + 1])
            == trace[k].log.spent - Attempts(trace[k]) + if FailsOverMark(trace[k], acts[k]) then 1 else 0
  {
    LiveRunKeepsTriggers(trace, acts, config, k);
    NoTriggerIsLost(trace[k], acts[k], config);
    SpentByStep(trace[k], acts[k], config);
  }

  /**
   The reads a trigger had cost when it is given up, in any run, and so exactly when they were at most five: if no more
   reads failed over a mark than its row carried failures when the trigger came.
   */
  lemma FiveReadsIff(trace: seq<Customer>, acts: seq<Act>, config: StoreConfig, j: nat, k: nat)
    requires IsLiveRun(trace, acts, config) && j < k < |acts| && IsTrigger(trace[j], acts[j])
    requires forall i: nat {:trigger acts[i]} :: j < i < k ==> !IsTrigger(trace[i], acts[i])
    requires trace[k].log.wanted.Some? && GivesUp(trace[k], acts[k])
    ensures trace[k + 1].log.spent == |RETRY_AFTER_S| + 1 - Attempts(trace[j + 1]) + Over(trace, acts, j + 1, k)
    ensures trace[k + 1].log.spent <= |RETRY_AFTER_S| + 1 <==> Over(trace, acts, j + 1, k) <= Attempts(trace[j + 1])
  {
    SpentAlongRuns(trace, acts, config, j, k);
    LiveRunKeepsTriggers(trace, acts, config, k);
    SpentByStep(trace[k], acts[k], config);
  }

  /**
   A trigger that found nothing marked and nothing running is given up along a run at its fifth failed read, never
   before.
   */
  lemma {:induction false} FiveReadsOverRuns(trace: seq<Customer>, acts: seq<Act>, config: StoreConfig, j: nat, k: nat)
    requires IsLiveRun(trace, acts, config) && j < k < |trace|
    requires acts[j].DoEnqueue? && trace[j].flight.None? && !IsDirty(trace[j])
    requires forall i: nat {:trigger acts[i]} :: j < i <= k && i < |acts| ==> !IsTrigger(trace[i], acts[i])
    ensures CountsFromZero(trace[k]) && (trace[k].log.wanted.Some? ==> trace[k].log.spent <= |RETRY_AFTER_S|)
    ensures k < |acts| && trace[k].log.wanted.Some? && GivesUp(trace[k], acts[k]) ==>
            trace[k + 1].log.spent == |RETRY_AFTER_S| + 1
    decreases k
  {
    if j == k - 1 {
      EnqueueCountsFromZero(trace[j], acts[j].now);
    } else {
      FiveReadsOverRuns(trace, acts, config, j, k - 1);
      LiveRunKeepsTriggers(trace, acts, config, k - 1);
      NoTriggerIsLost(trace[k - 1], acts[k - 1], config);
      if trace[k - 1].log.wanted.Some? {
        FiveReadsPerTrigger(trace[k - 1], acts[k - 1], config);
      }
    }
    LiveRunKeepsTriggers(trace, acts, config, k);
    if k < |acts| && trace[k].log.wanted.Some? {
      FiveReadsPerTrigger(trace[k], acts[k], config);
    }
  }

  // ---------------------------------------------------------------- a trigger given up at one failure

  ghost predicate Reached(c: Customer, config: StoreConfig) {
    exists trace: seq<Customer>, acts: seq<Act> :: IsLiveRun(trace, acts, config) && trace[|acts|] == c
  }

  lemma StrangerIsReached(config: StoreConfig)
    ensures Reached(STRANGER, config)
  {
    var acts: seq<Act> := [];
    assert IsLiveRun([STRANGER], acts, config) && [STRANGER][|acts|] == STRANGER;
  }

  lemma ReachNext(c: Customer, act: Act, config: StoreConfig)
    requires Reached(c, config) && Enabled(c, act) && !act.DoLateEnd?
    ensures Reached(Do(c, act, config), config)
  {
    var trace: seq<Customer>, acts: seq<Act> :| IsLiveRun(trace, acts, config) && trace[|acts|] == c;
    var trace', acts' := trace + [Do(c, act, config)], acts + [act];
    forall i: nat | i < |acts'|
      ensures Enabled(trace'[i], acts'[i]) && trace'[i + 1] == Do(trace'[i], acts'[i], config) && !acts'[i].DoLateEnd? {
      if i < |acts| {
        assert acts'[i] == acts[i] && trace'[i] == trace[i] && trace'[i + 1] == trace[i + 1];
      }
    }
    assert IsLiveRun(trace', acts', config) && trace'[|acts'|] == Do(c, act, config);
  }

  /** A queued read is picked up by a scan, fails and settles. */
  lemma FailOnce(c: Customer, config: StoreConfig) returns (d: Customer)
    requires Reached(c, config) && c.flight.None? && c.queue.Some? && !IsDirty(c) &&
             c.queue.value.attempts < |RETRY_AFTER_S|
    requires c.log.wanted.Some? && c.log.wanted.value <= c.log.starts
    ensures Reached(d, config) && d.flight.None? && d.queue.Some? && !IsDirty(d)
    ensures d.queue.value.attempts == c.queue.value.attempts + 1
    ensures d.log.wanted == c.log.wanted && d.log.starts == c.log.starts + 1 && d.log.spent == c.log.spent + 1
  {
    var fails := DoEnd(NotRead, None, 0);
    ReachNext(c, DoPick, config);
    var picked := Do(c, DoPick, config);
    ReachNext(picked, fails, config);
    var failed := Do(picked, fails, config);
    ReachNext(failed, DoSettle, config);
    d := Do(failed, DoSettle, config);
  }

  /**
   A trigger can be given up with no two failures in a row. Four reads fail, the fifth succeeds while a new
   trigger waits, and the one read that follows fails: the new trigger's row is dropped at its first failure,
   although the four retries of docs/api.md were meant for it.
   */
  lemma FifthFailureNeedNotBeInARow(config: StoreConfig) returns (c: Customer)
    ensures Reached(c, config) && Enabled(c, DoEnd(NotRead, None, 0))
    ensures GivesUp(c, DoEnd(NotRead, None, 0)) && c.log.wanted.Some? && c.log.spent == 0 && c.log.streak == 0
    ensures Do(c, DoEnd(NotRead, None, 0), config).queue.None?
  {
    StrangerIsReached(config);
    ReachNext(STRANGER, DoEnqueue(0), config);
    var one := FailOnce(Do(STRANGER, DoEnqueue(0), config), config);
    var two := FailOnce(one, config);
    var three := FailOnce(two, config);
    var four := FailOnce(three, config);
    ReachNext(four, DoPick, config);
    var fifth := Do(four, DoPick, config);
    ReachNext(fifth, DoEnqueue(0), config);
    var marked := Do(fifth, DoEnqueue(0), config);
    c := FollowUp(marked, config);
  }

  /** The read in flight succeeds over a marked row and settles. */
  lemma FollowUp(c: Customer, config: StoreConfig) returns (d: Customer)
    requires Reached(c, config) && c.flight.Some? && c.flight.value.outcome.None? && IsDirty(c)
    requires c.log.wanted == Some(c.flight.value.index + 1) && c.log.spent == 0
    ensures Reached(d, config) && d.flight.Some? && d.flight.value.outcome.None? && d.queue.Some? && !IsDirty(d)
    ensures d.queue.value.attempts == c.queue.value.attempts && d.log.streak == 0
    ensures d.log.wanted == c.log.wanted && d.log.spent == 0
  {
    var succeeds := DoEnd(Listed([]), None, 0);
    ReachNext(c, succeeds, config);
    var read := Do(c, succeeds, config);
    EffectFrame(c, c.flight.value.seqno, Listed([]), config, None, 0);
    ReachNext(read, DoSettle, config);
    d := Do(read, DoSettle, config);
  }

  /** A process dies with a marked row in the table. */
  lemma MarkOutlivesProcess(config: StoreConfig) returns (c: Customer)
    ensures Reached(c, config) && c.flight.None? && c.queue == Some(Queued(0, 0, true)) && c.log.calls == map[]
    ensures c.log.wanted == Some(1) && c.log.spent == 0 && c.log.starts == 1
  {
    StrangerIsReached(config);
    ReachNext(STRANGER, DoEnqueue(0), config);
    var queued := Do(STRANGER, DoEnqueue(0), config);
    ReachNext(queued, DoPick, config);
    var picked := Do(queued, DoPick, config);
    ReachNext(picked, DoEnqueue(0), config);
    var marked := Do(picked, DoEnqueue(0), config);
    ReachNext(marked, DoCrash, config);
    c := Do(marked, DoCrash, config);
  }

  /** A direct call reads over the mark and fails, and the read that follows it runs. */
  lemma FailOverMark(config: StoreConfig) returns (c: Customer)
    ensures Reached(c, config) && c.flight.Some? && c.flight.value.outcome.None? && c.flight.value.follow == {}
    ensures c.queue == Some(Queued(0, 0, false)) && c.flight.value.index == 2
    ensures c.log.wanted == Some(1) && c.log.spent == 1 && c.log.starts == 3
  {
    var fails := DoEnd(NotRead, None, 0);
    var marked := MarkOutlivesProcess(config);
    ReachNext(marked, DoRead(0, 0), config);
    var called := Do(marked, DoRead(0, 0), config);
    ReachNext(called, fails, config);
    var failed := Do(called, fails, config);
    ReachNext(failed, DoSettle, config);
    c := Do(failed, DoSettle, config);
  }

  /** A sixth read of one trigger can fail: one over an old mark, which nobody counts, and the five that are counted. */
  lemma SixthReadIsReached(config: StoreConfig) returns (c: Customer)
    ensures Reached(c, config) && c.log.spent == |RETRY_AFTER_S| + 2 && c.queue.None?
  {
    var one := FirstCountedFailure(config);
    var two := FailOnce(one, config);
    var three := FailOnce(two, config);
    var four := FailOnce(three, config);
    ReachNext(four, DoPick, config);
    var picked := Do(four, DoPick, config);
    var fails := DoEnd(NotRead, None, 0);
    ReachNext(picked, fails, config);
    c := Do(picked, fails, config);
  }

  lemma FirstCountedFailure(config: StoreConfig) returns (c: Customer)
    ensures Reached(c, config) && c.flight.None? && c.queue.Some? && !IsDirty(c) && c.queue.value.attempts == 1
    ensures c.log.wanted == Some(1) && c.log.spent == 2 && c.log.starts == 3
  {
    var over := FailOverMark(config);
    var fails := DoEnd(NotRead, None, 0);
    ReachNext(over, fails, config);
    var failed := Do(over, fails, config);
    ReachNext(failed, DoSettle, config);
    c := Do(failed, DoSettle, config);
  }
}
