/** The due list of the scan drains, and the reported state is the one the contract's table gives. */
module CheckDue {
  import opened Common
  import opened Schedule
  import opened CheckModel
  import opened CheckInvariant
  import opened CheckNotice
  import opened CheckStores

  /** How many turns a device still takes at one reading of the clock: one to expire, one to open or skip. */
  ghost function Turns(db: Db, d: DeviceId, now: int): nat {
    if !Due(db, d, now) then 0
    else
      var open := OpenRound(db.rounds, db.checks[d]);
      if open.Some? && now >= db.rounds[open.value].closesAt then 2 else 1
  }

  lemma NotDueAfterPush(db: Db, d: DeviceId, now: int)
    requires Inv(db) && Due(db, d, now)
    requires var open := OpenRound(db.rounds, db.checks[d]);
             open.Some? ==> now < db.rounds[open.value].closesAt
    ensures !Due(Plan(db, d, now).0, d, now)
  {
    assert At(d);
    var open := OpenRound(db.rounds, db.checks[d]);
    if open.Some? {
      NotDueAfterOpenTurn(db, d, open.value, now);
    } else {
      NoAttemptsYet(db);
      RoundAfterSpacing(d.slot, now);
    }
  }

  lemma NotDueAfterOpenTurn(db: Db, d: DeviceId, id: RoundId, now: int)
    requires Inv(db) && Turn(db, d, id, now) && OpenRound(db.rounds, db.checks[d]) == Some(id)
    ensures !Due(Plan(db, d, now).0, d, now)
  {
    assert At(d) && At(id);
    AttemptsLeft(db, d, id, now);
    RoundAfterSpacing(d.slot, db.rounds[id].openedAt);
  }

  /** A due device's turn takes one from its count and touches no other device's. */
  lemma PlanTakesTurn(db: Db, d: DeviceId, now: int, other: DeviceId)
    requires Inv(db) && Due(db, d, now)
    ensures Turns(Plan(db, d, now).0, d, now) < Turns(db, d, now)
    ensures other != d ==> Turns(Plan(db, d, now).0, other, now) == Turns(db, other, now)
  {
    assert At(d) && At(other);
    var open := OpenRound(db.rounds, db.checks[d]);
    if open.None? || now < db.rounds[open.value].closesAt {
      NotDueAfterPush(db, d, now);
    }
    if other != d {
      if other in db.checks {
        PlanSparesOthers(db, d, now, other);
      } else {
        PlanEnrolsNobody(db, d, now);
      }
    }
  }

  lemma PlanEnrolsNobody(db: Db, d: DeviceId, now: int)
    ensures Plan(db, d, now).0.checks.Keys == db.checks.Keys
  {
  }

  /** The two plans of a device, one right after the other, always take it off the due list. */
  lemma TwoPlansAreEnough(db: Db, d: DeviceId, now: int)
    requires Inv(db)
    ensures !Due(Plan(Plan(db, d, now).0, d, now).0, d, now)
  {
    if Due(db, d, now) {
      PlanTakesTurn(db, d, now, d);
      PlanKeepsInv(db, d, now);
      var db1 := Plan(db, d, now).0;
      if Due(db1, d, now) {
        PlanTakesTurn(db1, d, now, d);
      }
    }
  }

  /** All the turns the devices of a set still take. */
  ghost function AllTurns(db: Db, ds: set<DeviceId>, now: int): nat {
    if ds == {} then 0
    else
      var d :| d in ds;
      Turns(db, d, now) + AllTurns(db, ds - {d}, now)
  }

  lemma {:induction false} AllTurnsSplit(db: Db, ds: set<DeviceId>, d: DeviceId, now: int)
    requires d in ds
    ensures AllTurns(db, ds, now) == Turns(db, d, now) + AllTurns(db, ds - {d}, now)
    decreases ds
  {
    var first :| first in ds && AllTurns(db, ds, now) == Turns(db, first, now) + AllTurns(db, ds - {first}, now);
    if first != d {
      AllTurnsSplit(db, ds - {first}, d, now);
      assert ds - {first} - {d} == ds - {d} - {first};
      AllTurnsSplit(db, ds - {d}, first, now);
    }
  }

  lemma {:induction false} AllTurnsSame(db: Db, db': Db, ds: set<DeviceId>, now: int)
    requires forall d :: d in ds ==> Turns(db', d, now) == Turns(db, d, now)
    ensures AllTurns(db', ds, now) == AllTurns(db, ds, now)
    decreases ds
  {
    if ds != {} {
      var d :| d in ds;
      AllTurnsSplit(db, ds, d, now);
      AllTurnsSplit(db', ds, d, now);
      AllTurnsSame(db, db', ds - {d}, now);
    }
  }

  lemma {:induction false} AllTurnsAtMost(db: Db, db': Db, ds: set<DeviceId>, now: int)
    requires forall d :: d in ds ==> Turns(db', d, now) <= Turns(db, d, now)
    ensures AllTurns(db', ds, now) <= AllTurns(db, ds, now)
    decreases ds
  {
    if ds != {} {
      var d :| d in ds;
      AllTurnsSplit(db, ds, d, now);
      AllTurnsSplit(db', ds, d, now);
      AllTurnsAtMost(db, db', ds - {d}, now);
    }
  }

  // ---------------------------------------------------------------- no step but two makes work

  /** A step at `now` that neither switches a device on nor brings it a new token. */
  predicate MakesNoWork(step: Step, now: int) {
    StepTime(step, now) == now && !step.EnableStep? && !step.NewTokenStep?
  }

  lemma CloseTakesTurns(db: Db, id: RoundId, result: RoundResult, reason: Option<SkipReason>, closedAt: int, now: int,
                        d: DeviceId)
    requires Inv(db) && id in db.rounds && db.rounds[id].result.None?
    ensures Turns(CloseRound(db, id, result, reason, closedAt), d, now) <= Turns(db, d, now)
  {
    assert At(id) && At(d);
    RoundAfterSpacing(db.rounds[id].device.slot, db.rounds[id].openedAt);
  }

  lemma ExpireTakesTurns(db: Db, id: RoundId, now: int, d: DeviceId)
    requires Inv(db) && id in db.rounds && db.rounds[id].result.None?
    ensures Turns(Expire(db, id), d, now) <= Turns(db, d, now)
  {
    var r := db.rounds[id];
    CloseTakesTurns(db, id, ExpiryResult(db.attempts, id),
                    ExpiryReason(db.attempts, id, r, LastAlarm(db.devices, r.device)), r.closesAt, now, d);
  }

  lemma ConfirmTakesTurns(db: Db, planned: PlannedCheck, now: int, d: DeviceId)
    requires Inv(db)
    ensures Turns(Confirm(db, planned, now).0, d, now) <= Turns(db, d, now)
  {
    var id := planned.roundId;
    if id in db.rounds && db.rounds[id].result.None? && db.rounds[id].device in db.checks &&
        db.rounds[id].device in db.devices {
      CloseTakesTurns(db, id, Skipped, Some(ConfirmReason(db, db.rounds[id].device)), now, now, d);
      ExpireTakesTurns(db, id, now, d);
    }
  }

  lemma RecordTakesTurns(db: Db, id: RoundId, attempt: nat, outcome: AttemptOutcome, status: int, now: int, d: DeviceId)
    requires Inv(db)
    ensures Turns(Record(db, id, attempt, outcome, status, now), d, now) <= Turns(db, d, now)
  {
    if (id, attempt) in db.attempts && db.attempts[(id, attempt)].outcome.None? {
      var row := db.attempts[(id, attempt)].(outcome := Some(outcome), status := Some(status));
      OutcomeKeepsInv(db, id, attempt, row);
      if outcome == TokenRefused && id in db.rounds && db.rounds[id].result.None? {
        CloseTakesTurns(db.(attempts := db.attempts[(id, attempt) := row]), id, Refused, None, now, now, d);
      }
    }
  }

  lemma SettleTakesTurns(db: Db, d1: DeviceId, now: int, d: DeviceId)
    requires Inv(db)
    ensures Turns(Settle(db, d1, now), d, now) <= Turns(db, d, now)
  {
    if Settle(db, d1, now) != db {
      ExpireTakesTurns(db, OpenRound(db.rounds, db.checks[d1]).value, now, d);
    }
  }

  lemma CountTakesTurns(db: Db, id: RoundId, note: Option<int>, time: Option<int>, now: int, d: DeviceId)
    requires Inv(db) && id in db.rounds && db.rounds[id].result.None?
    ensures Turns(CountReceipt(db, id, note, time, now), d, now) <= Turns(db, d, now)
  {
    CloseTakesTurns(db, id, Received, None, now, now, d);
  }

  /** Notes on a closed round change no turn. */
  lemma LateTakesTurns(db: Db, id: RoundId, now: int, d: DeviceId)
    requires id in db.rounds && db.rounds[id].result.Some?
    ensures Turns(NoteLate(db, id, now), d, now) == Turns(db, d, now)
  {
  }

  lemma ReceiptTakesTurns(db: Db, d1: DeviceId, checkId: Option<RoundId>, note: Option<int>, time: Option<int>,
                          now: int, d: DeviceId)
    requires Inv(db)
    ensures Turns(Receipt(db, d1, checkId, note, time, now).0, d, now) <= Turns(db, d, now)
  {
    if checkId.Some? && checkId.value in db.rounds && db.rounds[checkId.value].device == d1 {
      var id := checkId.value;
      ReceiptIs(db, d1, id, note, time, now);
      if db.rounds[id].result.Some? {
        LateTakesTurns(db, id, now, d);
      } else if now >= db.rounds[id].closesAt {
        ExpireTakesTurns(db, id, now, d);
        LateTakesTurns(Expire(db, id), id, now, d);
      } else {
        CountTakesTurns(db, id, note, time, now, d);
      }
    }
  }

  lemma DisableTakesTurns(db: Db, d1: DeviceId, now: int, d: DeviceId)
    requires Inv(db)
    ensures Turns(Disable(db, d1, now), d, now) <= Turns(db, d, now)
  {
    if d1 in db.checks {
      if d == d1 {
        DisabledIsOff(db, d1, now);
      } else {
        DisableEnrolsNobody(db, d1, now);
        if d in db.checks {
          DisableSparesOthers(db, d1, now, d);
        }
        SparedKeepsTurns(db, Disable(db, d1, now), d, now);
      }
    }
  }

  /** A device a step leaves alone has the turns it had. */
  lemma SparedKeepsTurns(db: Db, db': Db, d: DeviceId, now: int)
    requires Inv(db) && (if d in db.checks then Spared(db, db', d) else d !in db'.checks)
    ensures Turns(db', d, now) == Turns(db, d, now)
  {
    assert At(d);
  }

  lemma CloseSparesDevice(db: Db, id: RoundId, result: RoundResult, reason: Option<SkipReason>, closedAt: int,
                          d: DeviceId)
    requires id in db.rounds && d in db.checks && db.rounds[id].device != d && db.checks[d].roundId != Some(id)
    ensures Spared(db, CloseRound(db, id, result, reason, closedAt), d)
  {
  }

  lemma DisableSparesOthers(db: Db, d1: DeviceId, now: int, d: DeviceId)
    requires Inv(db) && d != d1 && d in db.checks && d1 in db.checks
    ensures Spared(db, Disable(db, d1, now), d)
  {
    assert At(d) && At(d1);
    var off, open := db.(checks := db.checks[d1 := SwitchedOff(db.checks[d1])]), OpenRound(db.rounds, db.checks[d1]);
    if db.checks[d1].enabled && open.Some? {
      var r := db.rounds[open.value];
      CloseSparesDevice(off, open.value, Skipped, Some(Disabled), now, d);
      CloseSparesDevice(off, open.value, ExpiryResult(off.attempts, open.value),
                        ExpiryReason(off.attempts, open.value, r, LastAlarm(off.devices, r.device)), r.closesAt, d);
    }
  }

  lemma DisableEnrolsNobody(db: Db, d: DeviceId, now: int)
    ensures Disable(db, d, now).checks.Keys == db.checks.Keys
  {
  }

  lemma OtherStepTakesTurns(db: Db, step: Step, now: int, d: DeviceId)
    requires Inv(db) && !StoreStep(step) && MakesNoWork(step, now)
    ensures Turns(Apply(db, step), d, now) <= Turns(db, d, now)
  {
    assert At(d);
  }

  /**
   Whatever the server does at one reading of the clock, short of switching on and new tokens, adds no turn to any
   device.
   */
  lemma StepTakesTurns(db: Db, step: Step, now: int, d: DeviceId)
    requires Inv(db) && MakesNoWork(step, now)
    ensures Turns(Apply(db, step), d, now) <= Turns(db, d, now)
  {
    match step
    case PlanStep(d1, _) =>
      if Due(db, d1, now) {
        PlanTakesTurn(db, d1, now, d);
      }
    case ConfirmStep(planned, _) => ConfirmTakesTurns(db, planned, now, d);
    case RecordStep(id, attempt, outcome, status, _) => RecordTakesTurns(db, id, attempt, outcome, status, now, d);
    case SettleStep(d1, _) => SettleTakesTurns(db, d1, now, d);
    case ReceiptStep(d1, checkId, note, time, _) => ReceiptTakesTurns(db, d1, checkId, note, time, now, d);
    case DisableStep(d1, _) => DisableTakesTurns(db, d1, now, d);
    case _ => OtherStepTakesTurns(db, step, now, d);
  }

  // ---------------------------------------------------------------- scan after scan

  /**
   What happens at one reading of the clock from the first turn of a scan on: that turn, of a due device, and then
   turns, confirmations, answers and whatever other requests do, in any order.
   */
  ghost predicate IsPass(db: Db, steps: seq<Step>, now: int) {
    && steps != [] && steps[0].PlanStep? && Due(db, steps[0].d, now)
    && forall i :: 0 <= i < |steps| ==> MakesNoWork(steps[i], now)
  }

  lemma {:induction false} RunTakesTurns(db: Db, steps: seq<Step>, ds: set<DeviceId>, now: int)
    requires Inv(db) && forall i :: 0 <= i < |steps| ==> MakesNoWork(steps[i], now)
    ensures Inv(Run(db, steps)) && AllTurns(Run(db, steps), ds, now) <= AllTurns(db, ds, now)
    decreases |steps|
  {
    if steps != [] {
      var next := Apply(db, steps[0]);
      StepKeepsInv(db, steps[0]);
      forall d | d in ds ensures Turns(next, d, now) <= Turns(db, d, now) {
        StepTakesTurns(db, steps[0], now, d);
      }
      AllTurnsAtMost(db, next, ds, now);
      RunTakesTurns(next, steps[1..], ds, now);
    }
  }

  /** The measure of a drain at one reading of the clock: every pass takes from it. */
  lemma PassTakesTurns(db: Db, steps: seq<Step>, ds: set<DeviceId>, now: int)
    requires Inv(db) && IsPass(db, steps, now) && db.checks.Keys <= ds
    ensures Inv(Run(db, steps)) && AllTurns(Run(db, steps), ds, now) < AllTurns(db, ds, now)
  {
    var first := steps[0].d;
    var next := Plan(db, first, now).0;
    PlanKeepsInv(db, first, now);
    forall d | d in ds - {first} ensures Turns(next, d, now) <= Turns(db, d, now) {
      PlanTakesTurn(db, first, now, d);
    }
    PlanTakesTurn(db, first, now, first);
    AllTurnsSplit(db, ds, first, now);
    AllTurnsSplit(next, ds, first, now);
    AllTurnsAtMost(db, next, ds - {first}, now);
    RunTakesTurns(next, steps[1..], ds, now);
  }

  /** Passes one after the other, all at one reading of the clock. */
  ghost predicate Passes(states: seq<Db>, passes: seq<seq<Step>>, now: int) {
    && |states| == |passes| + 1
    && forall i :: 0 <= i < |passes| ==> OnePass(states[i], passes[i], states[i + 1], now)
  }

  ghost predicate OnePass(db: Db, steps: seq<Step>, db': Db, now: int) {
    IsPass(db, steps, now) && db' == Run(db, steps)
  }

  lemma {:induction false} AllTurnsBound(db: Db, ds: set<DeviceId>, now: int)
    ensures AllTurns(db, ds, now) <= 2 * |ds|
    decreases ds
  {
    if ds != {} {
      var d :| d in ds;
      AllTurnsSplit(db, ds, d, now);
      AllTurnsBound(db, ds - {d}, now);
    }
  }

  lemma ReceiptEnrolsNobody(db: Db, d: DeviceId, checkId: Option<RoundId>, note: Option<int>, time: Option<int>,
                            now: int)
    ensures Receipt(db, d, checkId, note, time, now).0.checks.Keys == db.checks.Keys
  {
  }

  lemma StepEnrolsNobody(db: Db, step: Step, now: int)
    requires MakesNoWork(step, now)
    ensures Apply(db, step).checks.Keys <= db.checks.Keys
  {
    match step
    case PlanStep(d, _) => PlanEnrolsNobody(db, d, now);
    case ReceiptStep(d, checkId, note, time, _) => ReceiptEnrolsNobody(db, d, checkId, note, time, now);
    case DisableStep(d, _) => DisableEnrolsNobody(db, d, now);
    case _ =>
  }

  lemma {:induction false} RunEnrolsNobody(db: Db, steps: seq<Step>, now: int)
    requires forall i :: 0 <= i < |steps| ==> MakesNoWork(steps[i], now)
    ensures Run(db, steps).checks.Keys <= db.checks.Keys
    decreases |steps|
  {
    if steps != [] {
      StepEnrolsNobody(db, steps[0], now);
      RunEnrolsNobody(Apply(db, steps[0]), steps[1..], now);
    }
  }

  lemma {:induction false} PassesTakeTurns(states: seq<Db>, passes: seq<seq<Step>>, now: int)
    requires Passes(states, passes, now) && Inv(states[0])
    ensures Inv(states[|passes|]) && states[|passes|].checks.Keys <= states[0].checks.Keys
    ensures AllTurns(states[|passes|], states[0].checks.Keys, now)
            + |passes| <= AllTurns(states[0], states[0].checks.Keys, now)
    decreases |passes|
  {
    if passes != [] {
      var n := |passes| - 1;
      PassesTakeTurns(states[..n + 1], passes[..n], now);
      assert OnePass(states[n], passes[n], states[n + 1], now);
      PassTakesTurns(states[n], passes[n], states[0].checks.Keys, now);
      RunEnrolsNobody(states[n], passes[n], now);
    }
  }

  /**
   Repeated scans at a fixed clock end: there are at most two for each enrolled device, and when no further one can
   start, because the due query of any positive batch returns nothing, no device is due.
   */
  lemma PassesEnd(states: seq<Db>, passes: seq<seq<Step>>, now: int)
    requires Passes(states, passes, now) && Inv(states[0])
    ensures |passes| <= 2 * |states[0].checks|
    ensures (forall steps :: !IsPass(states[|passes|], steps, now)) <==> forall d :: !Due(states[|passes|], d, now)
    ensures forall batch: nat :: batch > 0 ==>
              (IsDueList(states[|passes|], [], batch, now) <==> forall d :: !Due(states[|passes|], d, now))
  {
    AllTurnsBound(states[0], states[0].checks.Keys, now);
    PassesTakeTurns(states, passes, now);
    var last := states[|passes|];
    forall d | Due(last, d, now) ensures IsPass(last, [PlanStep(d, now)], now) {
    }
  }

  // ---------------------------------------------------------------- the state a device reports

  /** The contract's table: what each state says about the last closings that count. */
  ghost predicate StateTable(state: CheckState, counted: seq<Closing>) {
    var n := |counted|;
    match state
    case Waiting => n == 0
    case LastReceived => n > 0 && counted[n - 1].result == Received
    case MissedRepeatedly => n > 1 && counted[n - 1].result != Received && counted[n - 2].result != Received
    case RefusedOnce => n > 0 && counted[n - 1].result == Refused && (n > 1 ==> counted[n - 2].result == Received)
    case MissedOnce => n > 0 && counted[n - 1].result == Missed && (n > 1 ==> counted[n - 2].result == Received)
    case _ => false
  }

  lemma {:induction false} CountedNeverSkipped(log: seq<Closing>, i: int)
    requires 0 <= i < |Counted(log)|
    ensures Counted(log)[i].result != Skipped
    decreases |log|
  {
    if log != [] && i < |Counted(log[..|log| - 1])| {
      CountedNeverSkipped(log[..|log| - 1], i);
    }
  }

  /** The state is computed from counters, and means what the table says of the whole history. */
  lemma StateMatchesTable(db: Db, d: DeviceId)
    requires Inv(db) && d in db.checks
    ensures StateTable(StateOf(db.checks[d]), Counted(LogOf(db.closings, d)))
  {
    assert At(d);
    var e, counted := db.checks[d], Counted(LogOf(db.closings, d));
    var k: nat :| RunStartsAt(counted, k) && MissesFrom(e, counted, k);
    if counted != [] {
      CountedNeverSkipped(LogOf(db.closings, d), |counted| - 1);
    }
  }

  /** The run of misses in the history is unique, so the counters have only one right value. */
  lemma RunStartIsUnique(counted: seq<Closing>, k: nat, l: nat)
    requires RunStartsAt(counted, k) && RunStartsAt(counted, l)
    ensures k == l
  {
  }
}
