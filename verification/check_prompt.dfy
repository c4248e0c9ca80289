/**
 `notice_after` comes true: when no round opens late and every round of a device closes as missed, the second
 miss is written with exactly the second that was announced, whatever else happens in between.
 */
module CheckPrompt {
  import opened Common
  import opened Schedule
  import opened CheckModel
  import opened CheckInvariant
  import opened CheckNotice

  // ---------------------------------------------------------------- runs in which every round is missed

  /** A device with no round open is not past the time its next round was to open at, seen from `start`. */
  predicate OnTime(o: Outlook, now: int, start: int) {
    o.misses < 2 && o.closes.None? ==> now <= Max(o.nextDueAt, start)
  }

  /** If a round closed, it was missed. */
  predicate OnlyMisses(o: Outlook, o': Outlook) {
    |o'.log| > |o.log| ==> LastOf(o'.log).result == Missed
  }

  /** Any step of the server that lets no round of `d` open late or close as anything but missed, and hurries none. */
  ghost predicate MissStep(db: Db, step: Step, d: DeviceId, before: int, start: int)
    requires d in db.checks
  {
    var now := StepTime(step, before);
    && before <= now && OnTime(OutlookOf(db, d), now, start)
    && d in Apply(db, step).checks && OnlyMisses(OutlookOf(db, d), OutlookOf(Apply(db, step), d))
    && !Lowers(db, step, d)
  }

  ghost predicate MissRun(db: Db, steps: seq<Step>, d: DeviceId, before: int, start: int)
    decreases |steps|
  {
    d in db.checks &&
    (steps != [] ==>
       && MissStep(db, steps[0], d, before, start)
       && MissRun(Apply(db, steps[0]), steps[1..], d, StepTime(steps[0], before), start))
  }

  /** A round is still open although the next one is due: the scans were late already. */
  predicate Overdue(o: Outlook, now: int) {
    o.misses == 0 && o.closes.Some? && o.nextDueAt < now
  }

  /** When the second miss will be written if from `start` on nothing is late. */
  function Awaited(slot: Slot, o: Outlook, start: int): int {
    if o.closes.Some? && o.misses == 0 then Max(o.nextDueAt, start) + ROUND_LENGTH_S else NoticeOf(slot, o, start)
  }

  lemma FollowsKeepsAwaited(slot: Slot, o: Outlook, o': Outlook, now: int, start: int)
    requires Follows(slot, o, o', now) && !Dips(slot, o, o', now)
    requires start <= now && OnTime(o, now, start) && OnlyMisses(o, o')
    requires o.misses >= 2 ==> o.secondMissAt.Some?
    ensures Awaited(slot, o', start) == Awaited(slot, o, start)
  {
    if Opens(slot, o, o', now) {
      RoundAfterSpacing(slot, now);
    }
  }

  lemma StepFollows(db: Db, step: Step, d: DeviceId, before: int)
    requires Inv(db)
    ensures Moves(db, Apply(db, step), d, StepTime(step, before), Lowers(db, step, d))
  {
    if StoreStep(step) {
      StoreStepMoves(db, step, d, before);
    } else {
      OtherStepMoves(db, step, d, before);
    }
  }

  lemma MissStepKeepsAwaited(db: Db, step: Step, d: DeviceId, before: int, start: int)
    requires Inv(db) && d in db.checks && MissStep(db, step, d, before, start) && start <= before
    ensures Awaited(d.slot, OutlookOf(Apply(db, step), d), start) == Awaited(d.slot, OutlookOf(db, d), start)
  {
    assert At(d);
    StepFollows(db, step, d, before);
    FollowsKeepsAwaited(d.slot, OutlookOf(db, d), OutlookOf(Apply(db, step), d), StepTime(step, before), start);
  }

  lemma {:induction false} MissRunKeepsAwaited(db: Db, steps: seq<Step>, d: DeviceId, before: int, start: int)
    requires Inv(db) && MissRun(db, steps, d, before, start) && start <= before
    ensures Inv(Run(db, steps)) && d in Run(db, steps).checks && before <= EndTime(steps, before)
    ensures Awaited(d.slot, OutlookOf(Run(db, steps), d), start) == Awaited(d.slot, OutlookOf(db, d), start)
    decreases |steps|
  {
    if steps != [] {
      MissStepKeepsAwaited(db, steps[0], d, before, start);
      StepKeepsInv(db, steps[0]);
      MissRunKeepsAwaited(Apply(db, steps[0]), steps[1..], d, StepTime(steps[0], before), start);
    }
  }

  // ---------------------------------------------------------------- the announced second

  /**
   Whatever comes between (other devices, holds, failed and repeated pushes, late answers, settling, pruning,
   switching off and on), once two rounds in a row are missed the second miss carries the second that was told
   at the start. The one exception is a value told while a round is overdue.
   */
  lemma NoticeComesTrue(db: Db, steps: seq<Step>, d: DeviceId, start: int)
    requires Inv(db) && MissRun(db, steps, d, start, start)
    ensures d in Run(db, steps).checks
    ensures var e := Run(db, steps).checks[d];
            e.misses >= 2 ==> (e.secondMissAt == Some(NoticeAfter(db, d, start)) <==> !Overdue(OutlookOf(db, d), start))
  {
    MissRunKeepsAwaited(db, steps, d, start, start);
    var last := Run(db, steps);
    assert At(d);
    NoticeIs(db, d, start);
  }

  lemma ToldLater(slot: Slot, o: Outlook, now: int, start: int)
    requires start <= now && OnTime(o, now, start) && !Overdue(o, now) && (o.misses >= 2 ==> o.secondMissAt.Some?)
    ensures NoticeOf(slot, o, now) == Awaited(slot, o, start)
  {
  }

  /** Along the way the value that is told never changes, unless it is asked for while something is late. */
  lemma NoticeStaysAsTold(db: Db, steps: seq<Step>, d: DeviceId, start: int)
    requires Inv(db) && MissRun(db, steps, d, start, start) && !Overdue(OutlookOf(db, d), start)
    ensures d in Run(db, steps).checks
    ensures var o, now := OutlookOf(Run(db, steps), d), EndTime(steps, start);
            OnTime(o, now, start) && !Overdue(o, now) ==>
                NoticeAfter(Run(db, steps), d, now) == NoticeAfter(db, d, start)
  {
    MissRunKeepsAwaited(db, steps, d, start, start);
    var last := Run(db, steps);
    assert At(d);
    NoticeIs(db, d, start);
    var o, now := OutlookOf(last, d), EndTime(steps, start);
    if OnTime(o, now, start) && !Overdue(o, now) {
      ToldLater(d.slot, o, now, start);
      NoticeIs(last, d, now);
    }
  }

  /** And no later than that second: past it, with no round left open after its close, two rounds have been missed. */
  lemma SecondMissIsInTime(db: Db, steps: seq<Step>, d: DeviceId, start: int)
    requires Inv(db) && MissRun(db, steps, d, start, start) && !Overdue(OutlookOf(db, d), start)
    ensures d in Run(db, steps).checks
    ensures var o, now := OutlookOf(Run(db, steps), d), EndTime(steps, start);
            OnTime(o, now, start) && (o.closes.Some? ==> now <= o.closes.value) && now > NoticeAfter(db, d, start) ==>
                o.misses >= 2
  {
    MissRunKeepsAwaited(db, steps, d, start, start);
    var last := Run(db, steps);
    assert At(d);
    NoticeIs(db, d, start);
    var o := OutlookOf(last, d);
    if o.closes.Some? {
      assert At(last.checks[d].roundId.value);
      RoundAfterSpacing(d.slot, o.closes.value - ROUND_LENGTH_S);
    } else {
      RoundAfterSpacing(d.slot, Max(o.nextDueAt, start));
    }
  }

  lemma RunFrom(db: Db, step: Step, rest: seq<Step>, before: int)
    ensures Run(db, [step] + rest) == Run(Apply(db, step), rest)
    ensures EndTime([step] + rest, before) == EndTime(rest, StepTime(step, before))
  {
    assert ([step] + rest)[1..] == rest;
  }

  // ---------------------------------------------------------------- such a run exists

  /** Nothing stands between the device and its pushes, and the round that is open, if any, will be a miss. */
  ghost predicate Ready(db: Db, d: DeviceId, now: int, start: int) {
    && Inv(db) && start <= now
    && d in db.checks && db.checks[d].enabled
    && d in db.devices && GetsChecks(db.tiers, db.devices[d].account) && db.devices[d].pushToken != ""
    && !OnHold(db.devices[d].lastAlarmPushAt, now)
    && OnTime(OutlookOf(db, d), now, start)
    && (db.checks[d].roundId.Some? ==> WillMiss(db, d, db.checks[d].roundId.value, now))
  }

  /** A push of the open round was accepted, or one is still to go. */
  ghost predicate WillMiss(db: Db, d: DeviceId, id: RoundId, now: int) {
    && d in db.checks && id in db.rounds && db.checks[d].nextAttemptAt.Some?
    && now <= db.rounds[id].closesAt
    && (AnyAccepted(db.attempts, id) || Max(now, db.checks[d].nextAttemptAt.value) < db.rounds[id].closesAt)
  }

  predicate HasAccepted(db: Db, d: DeviceId)
    requires d in db.checks
  {
    db.checks[d].roundId.Some? && AnyAccepted(db.attempts, db.checks[d].roundId.value)
  }

  /** A push and a close for each round still to be missed. */
  function TurnsLeft(db: Db, d: DeviceId): nat
    requires d in db.checks
  {
    if db.checks[d].misses >= 2 then 0 else 2 * (2 - db.checks[d].misses) - if HasAccepted(db, d) then 1 else 0
  }

  /** The steps are a run in which every round is missed, and end in `db'` at `at`. */
  ghost predicate Leads(db: Db, steps: seq<Step>, d: DeviceId, before: int, start: int, db': Db, at: int) {
    MissRun(db, steps, d, before, start) && Run(db, steps) == db' && EndTime(steps, before) == at
  }

  lemma StepLeads(db: Db, step: Step, d: DeviceId, before: int, start: int)
    requires d in db.checks && MissStep(db, step, d, before, start)
    ensures Leads(db, [step], d, before, start, Apply(db, step), StepTime(step, before))
  {
    RunFrom(db, step, [], before);
    assert [step] + [] == [step] && [step][1..] == [];
  }

  lemma {:induction false} LeadsOn(db: Db, first: seq<Step>, mid: Db, between: int, second: seq<Step>, last: Db,
                                   at: int, d: DeviceId, before: int, start: int)
    requires Leads(db, first, d, before, start, mid, between) && Leads(mid, second, d, between, start, last, at)
    ensures Leads(db, first + second, d, before, start, last, at)
    decreases |first|
  {
    if first == [] {
      assert first + second == second;
    } else {
      assert (first + second)[1..] == first[1..] + second;
      LeadsOn(Apply(db, first[0]), first[1..], mid, between, second, last, at, d, StepTime(first[0], before), start);
    }
  }

  /** The device's open round `id` was missed, and nothing else happened to it. */
  ghost predicate JustMissed(db: Db, db': Db, d: DeviceId, id: RoundId, at: int) {
    && d in db.checks && d in db'.checks && (db'.devices, db'.tiers) == (db.devices, db.tiers)
    && db'.checks[d].enabled && db'.checks[d].roundId.None? && db'.checks[d].misses == db.checks[d].misses + 1
    && db'.checks[d].nextDueAt == db.checks[d].nextDueAt
    && LogOf(db'.closings, d) == LogOf(db.closings, d) + [Closing(id, Missed, at)]
  }

  lemma SettleMisses(db: Db, d: DeviceId, id: RoundId)
    requires d in db.checks && db.checks[d].enabled && db.checks[d].roundId == Some(id) && id in db.rounds
    requires db.rounds[id].device == d && db.rounds[id].result.None? && AnyAccepted(db.attempts, id)
    ensures JustMissed(db, Settle(db, d, db.rounds[id].closesAt), d, id, db.rounds[id].closesAt)
  {
  }

  lemma MissedIsReady(db: Db, db': Db, d: DeviceId, id: RoundId, at: int, now: int, start: int)
    requires Ready(db, d, now, start) && db.checks[d].misses < 2 && db.checks[d].roundId == Some(id)
    requires at == db.rounds[id].closesAt && JustMissed(db, db', d, id, at) && Inv(db')
    ensures Ready(db', d, at, start) && TurnsLeft(db', d) < TurnsLeft(db, d)
  {
    assert At(d) && At(id);
    RoundAfterSpacing(d.slot, db.rounds[id].openedAt);
  }

  /** A round whose push was accepted is settled at its close. */
  lemma ClosingLeads(db: Db, d: DeviceId, now: int, start: int) returns (steps: seq<Step>, db': Db, at: int)
    requires Ready(db, d, now, start) && db.checks[d].misses < 2 && HasAccepted(db, d)
    ensures Leads(db, steps, d, now, start, db', at)
    ensures Ready(db', d, at, start) && TurnsLeft(db', d) < TurnsLeft(db, d)
  {
    assert At(d);
    var id := db.checks[d].roundId.value;
    at := db.rounds[id].closesAt;
    db' := Settle(db, d, at);
    SettleMisses(db, d, id);
    SettleKeepsInv(db, d, at);
    MissedIsReady(db, db', d, id, at, now, start);
    StepLeads(db, SettleStep(d, at), d, now, start);
    steps := [SettleStep(d, at)];
  }

  /** A push of round `id` and its acceptance, both at `at`. `mid` is the state between. */
  lemma PushStepsLead(db: Db, mid: Db, d: DeviceId, id: RoundId, attempt: nat, now: int, at: int, start: int)
    requires d in db.checks && now <= at && OnTime(OutlookOf(db, d), at, start)
    requires Plan(db, d, at).0 == mid && d in mid.checks && OpenCloses(mid, d).Some? &&
             LogOf(mid.closings, d) == LogOf(db.closings, d)
    ensures Leads(db, [PlanStep(d, at)] + [RecordStep(id, attempt, Accepted, 200, at)], d, now, start,
                  Record(mid, id, attempt, Accepted, 200, at), at)
  {
    var push, accept := PlanStep(d, at), RecordStep(id, attempt, Accepted, 200, at);
    AcceptedKeepsLog(mid, id, attempt, 200, at);
    StepLeads(db, push, d, now, start);
    StepLeads(mid, accept, d, at, start);
    LeadsOn(db, [push], mid, at, [accept], Record(mid, id, attempt, Accepted, 200, at), at, d, now, start);
  }

  lemma AcceptedKeepsLog(db: Db, id: RoundId, attempt: nat, status: int, now: int)
    ensures var db' := Record(db, id, attempt, Accepted, status, now);
            db'.closings == db.closings && db'.checks.Keys == db.checks.Keys
  {
  }

  /** The push of an open round, accepted. */
  function Pushed(db: Db, d: DeviceId, id: RoundId, at: int): Db
    requires d in db.checks && id in db.rounds && db.rounds[id].device == d
  {
    Record(RecordAttempt(db, d, id, at), id, db.rounds[id].attempts + 1, Accepted, 200, at)
  }

  lemma PushedFacts(db: Db, d: DeviceId, id: RoundId, at: int)
    requires d in db.checks && id in db.rounds && db.rounds[id].device == d && db.checks[d].roundId == Some(id)
    requires db.rounds[id].result.None?
    ensures var db' := Pushed(db, d, id, at);
            && SameOutlook(db, db', d)
            && db'.rounds == db.rounds[id := db.rounds[id].(attempts := db.rounds[id].attempts + 1)]
            && AnyAccepted(db'.attempts, id)
            && (db'.devices, db'.tiers) == (db.devices, db.tiers)
            && db'.checks[d].enabled == db.checks[d].enabled && db'.checks[d].nextAttemptAt.Some?
            && db'.checks[d].roundId == Some(id)
  {
  }

  /** A turn that is not held and whose round is open puts the next push on record. */
  lemma PlanPushes(db: Db, d: DeviceId, id: RoundId, at: int)
    requires Turn(db, d, id, at) && db.rounds[id].result.None? && d in db.devices
    requires GetsChecks(db.tiers, db.devices[d].account) && db.devices[d].pushToken != ""
    requires !OnHold(db.devices[d].lastAlarmPushAt, at)
    requires db.rounds[id].attempts < MAX_ATTEMPTS && (id, db.rounds[id].attempts + 1) !in db.attempts
    ensures Plan(db, d, at).0 == RecordAttempt(db, d, id, at)
  {
  }

  lemma PushedKeepsOutlook(db: Db, d: DeviceId, id: RoundId, at: int)
    requires d in db.checks && id in db.rounds && db.rounds[id].device == d && db.checks[d].roundId == Some(id)
    requires db.rounds[id].result.None?
    ensures SameOutlook(db, RecordAttempt(db, d, id, at), d)
  {
  }

  lemma PushedIsReady(db: Db, d: DeviceId, now: int, at: int, start: int)
    requires Ready(db, d, now, start) && db.checks[d].misses < 2 && db.checks[d].roundId.Some? && !HasAccepted(db, d)
    requires at == Max(now, db.checks[d].nextAttemptAt.value) && db.rounds[db.checks[d].roundId.value].device == d
    requires db.rounds[db.checks[d].roundId.value].result.None? && Inv(Pushed(db, d, db.checks[d].roundId.value, at))
    ensures var db' := Pushed(db, d, db.checks[d].roundId.value, at);
            Ready(db', d, at, start) && TurnsLeft(db', d) < TurnsLeft(db, d)
  {
    PushedFacts(db, d, db.checks[d].roundId.value, at);
  }

  /** An open round with no push accepted yet gets its next one. */
  lemma PushLeads(db: Db, d: DeviceId, now: int, start: int) returns (steps: seq<Step>, db': Db, at: int)
    requires Ready(db, d, now, start) && db.checks[d].misses < 2
    requires db.checks[d].roundId.Some? && !HasAccepted(db, d)
    ensures Leads(db, steps, d, now, start, db', at)
    ensures Ready(db', d, at, start) && TurnsLeft(db', d) < TurnsLeft(db, d)
  {
    assert At(d);
    var id := db.checks[d].roundId.value;
    at := Max(now, db.checks[d].nextAttemptAt.value);
    var attempt := db.rounds[id].attempts + 1;
    var mid := RecordAttempt(db, d, id, at);
    db' := Pushed(db, d, id, at);
    AttemptsLeft(db, d, id, at);
    PushedKeepsOutlook(db, d, id, at);
    PlanPushes(db, d, id, at);
    RecordAttemptKeepsInv(db, d, id, at);
    RecordKeepsInv(mid, id, attempt, Accepted, 200, at);
    PushStepsLead(db, mid, d, id, attempt, now, at, start);
    PushedIsReady(db, d, now, at, start);
    steps := [PlanStep(d, at)] + [RecordStep(id, attempt, Accepted, 200, at)];
  }

  lemma PlanOpens(db: Db, d: DeviceId, at: int)
    requires Inv(db) && Due(db, d, at) && db.checks[d].roundId.None? && d in db.devices
    requires GetsChecks(db.tiers, db.devices[d].account) && db.devices[d].pushToken != ""
    requires !OnHold(db.devices[d].lastAlarmPushAt, at)
    ensures db.nextRound !in db.rounds
    ensures Plan(db, d, at).0 == RecordAttempt(Open(db, d, at), d, db.nextRound, at)
  {
    NoAttemptsYet(db);
  }

  lemma OpenedIsReady(db: Db, d: DeviceId, now: int, at: int, start: int)
    requires Ready(db, d, now, start) && db.checks[d].misses < 2 && db.checks[d].roundId.None?
    requires at == Max(now, db.checks[d].nextDueAt) && db.nextRound !in db.rounds
    requires Inv(Pushed(Open(db, d, at), d, db.nextRound, at))
    ensures var db' := Pushed(Open(db, d, at), d, db.nextRound, at);
            Ready(db', d, at, start) && TurnsLeft(db', d) < TurnsLeft(db, d)
  {
    PushedFacts(Open(db, d, at), d, db.nextRound, at);
  }

  /** An idle device opens its round when it is due, or now, and its first push goes out at once. */
  lemma OpeningLeads(db: Db, d: DeviceId, now: int, start: int) returns (steps: seq<Step>, db': Db, at: int)
    requires Ready(db, d, now, start) && db.checks[d].misses < 2 && db.checks[d].roundId.None?
    ensures Leads(db, steps, d, now, start, db', at)
    ensures Ready(db', d, at, start) && TurnsLeft(db', d) < TurnsLeft(db, d)
  {
    assert At(d);
    at := Max(now, db.checks[d].nextDueAt);
    PlanOpens(db, d, at);
    var id, ready := db.nextRound, Open(db, d, at);
    var mid := RecordAttempt(ready, d, id, at);
    db' := Pushed(ready, d, id, at);
    PlanKeepsInv(db, d, at);
    RecordKeepsInv(mid, id, 1, Accepted, 200, at);
    OpenedIsReady(db, d, now, at, start);
    PushStepsLead(db, mid, d, id, 1, now, at, start);
    steps := [PlanStep(d, at)] + [RecordStep(id, 1, Accepted, 200, at)];
  }

  /** From any ready device a run in which every round is missed leads to the second miss. */
  lemma {:induction false} SecondMissIsReached(db: Db, d: DeviceId, now: int, start: int) returns (steps: seq<Step>)
    requires Ready(db, d, now, start)
    ensures MissRun(db, steps, d, now, start) && d in Run(db, steps).checks && Run(db, steps).checks[d].misses >= 2
    decreases TurnsLeft(db, d)
  {
    if db.checks[d].misses >= 2 {
      return [];
    }
    var first, mid, between;
    if HasAccepted(db, d) {
      first, mid, between := ClosingLeads(db, d, now, start);
    } else if db.checks[d].roundId.Some? {
      first, mid, between := PushLeads(db, d, now, start);
    } else {
      first, mid, between := OpeningLeads(db, d, now, start);
    }
    var second := SecondMissIsReached(mid, d, between, start);
    LeadsOn(db, first, mid, between, second, Run(mid, second), EndTime(second, between), d, now, start);
    return first + second;
  }
}
