/** What the rounds of a device look like over whole runs: once closed, closed for good, and days apart. */
module CheckRounds {
  import opened Common
  import opened Schedule
  import opened CheckModel
  import opened CheckInvariant

  /** Every state the server can reach, with crashes, prunes and any clock, satisfies the invariant. */
  lemma ReachableInv(steps: seq<Step>)
    ensures Inv(Run(EMPTY, steps))
  {
    RunKeepsInv(EMPTY, steps);
  }

  /**
   The attempts of any round ever seen are 1..n with n at most three. They are recorded at strictly
   increasing times, each at or after its own offset and before the close, one of the round's three times between
   any two in a row.
   */
  lemma AttemptsOfAnyRound(steps: seq<Step>, id: RoundId, k: nat)
    requires id in Run(EMPTY, steps).rounds
    ensures var db := Run(EMPTY, steps);
            var r := db.rounds[id];
            && r.attempts <= 3
            && ((id, k) in db.attempts <==> 1 <= k <= r.attempts)
            && ((id, k) in db.attempts ==>
                  r.openedAt + ATTEMPT_OFFSETS_S[k - 1] <= db.attempts[(id, k)].recordedAt < r.openedAt + DAY_S)
            && ((id, k) in db.attempts && (id, k + 1) in db.attempts ==>
                  && db.attempts[(id, k)].recordedAt < db.attempts[(id, k + 1)].recordedAt
                  && exists i :: 0 <= i < 3 && db.attempts[(id, k)].recordedAt < r.openedAt + ATTEMPT_OFFSETS_S[i]
                                 && r.openedAt + ATTEMPT_OFFSETS_S[i] <= db.attempts[(id, k + 1)].recordedAt)
  {
    ReachableInv(steps);
    assert At(id);
    var db := Run(EMPTY, steps);
    if (id, k) in db.attempts && (id, k + 1) in db.attempts {
      assert OffsetBetween(db.rounds[id].openedAt, db.attempts[(id, k + 1 - 1)].recordedAt,
                           db.attempts[(id, k + 1)].recordedAt);
    }
  }

  /** No attempt is handed to a sender twice, however many schedulers and crashes there were. */
  lemma HandedOutOnce(steps: seq<Step>, i: int, j: int)
    requires 0 <= i < j < |Run(EMPTY, steps).handed|
    ensures Run(EMPTY, steps).handed[i] != Run(EMPTY, steps).handed[j]
  {
    ReachableInv(steps);
    assert InLog(i) && InLog(j);
  }

  // ---------------------------------------------------------------- a closed round stays closed

  /**
   What a step may do to a round row: delete it, or keep its device and times, and all of it once it has a
   result. The only row a step may add is the one named by the next id, for a device enrolled before.
   */
  ghost predicate RowKept(db: Db, db': Db, id: RoundId) {
    && db.nextRound <= db'.nextRound <= db.nextRound + 1
    && (id in db'.rounds && id != db.nextRound ==>
          && id in db.rounds
          && var r, r' := db.rounds[id], db'.rounds[id];
          && (r'.device, r'.openedAt, r'.closesAt) == (r.device, r.openedAt, r.closesAt)
          && (r.result.Some? ==> SameRow(r, r')))
    && (id in db'.rounds && id == db.nextRound && id !in db.rounds ==>
          db'.nextRound == db.nextRound + 1 && db'.rounds[id].device in db.checks)
  }

  lemma CloseKeepsRow(db: Db, r: RoundId, result: RoundResult, reason: Option<SkipReason>, closedAt: int, id: RoundId)
    requires r in db.rounds
    ensures RowKept(db, CloseRound(db, r, result, reason, closedAt), id)
  {
  }

  lemma ExpireKeepsRow(db: Db, r: RoundId, id: RoundId)
    requires r in db.rounds
    ensures RowKept(db, Expire(db, r), id)
  {
    var row := db.rounds[r];
    CloseKeepsRow(db, r, ExpiryResult(db.attempts, r),
                  ExpiryReason(db.attempts, r, row, LastAlarm(db.devices, row.device)), row.closesAt, id);
  }

  lemma OpenKeepsRow(db: Db, d: DeviceId, now: int, id: RoundId)
    requires db.nextRound !in db.rounds && d in db.checks && d in db.devices
    ensures RowKept(db, PushOn(db, Open(db, d, now), d, db.nextRound, now).0, id)
    ensures RowKept(db, Skip(db, d, None, TierLost, now), id) && RowKept(db, Skip(db, d, None, NoToken, now), id)
  {
  }

  lemma PlanKeepsRow(db: Db, d: DeviceId, now: int, id: RoundId)
    requires db.nextRound !in db.rounds
    ensures RowKept(db, Plan(db, d, now).0, id)
  {
    if Due(db, d, now) && d in db.devices {
      var open := OpenRound(db.rounds, db.checks[d]);
      if open.None? {
        OpenKeepsRow(db, d, now, id);
      } else if now >= db.rounds[open.value].closesAt {
        ExpireKeepsRow(db, open.value, id);
      } else if !GetsChecks(db.tiers, db.devices[d].account) {
        CloseKeepsRow(db, open.value, Skipped, Some(TierLost), now, id);
      } else if db.devices[d].pushToken == "" {
        CloseKeepsRow(db, open.value, Skipped, Some(NoToken), now, id);
      }
    }
  }

  lemma ConfirmKeepsRow(db: Db, planned: PlannedCheck, now: int, id: RoundId)
    ensures RowKept(db, Confirm(db, planned, now).0, id)
  {
    var r := planned.roundId;
    if r in db.rounds && db.rounds[r].device in db.checks && db.rounds[r].device in db.devices {
      CloseKeepsRow(db, r, Skipped, Some(ConfirmReason(db, db.rounds[r].device)), now, id);
      ExpireKeepsRow(db, r, id);
    }
  }

  lemma RecordKeepsRow(db: Db, r: RoundId, attempt: nat, outcome: AttemptOutcome, status: int, now: int, id: RoundId)
    ensures RowKept(db, Record(db, r, attempt, outcome, status, now), id)
  {
  }

  lemma LateKeepsRow(db: Db, r: RoundId, now: int, id: RoundId)
    requires r in db.rounds
    ensures RowKept(db, NoteLate(db, r, now), id)
  {
  }

  lemma CountKeepsRow(db: Db, r: RoundId, note: Option<int>, time: Option<int>, now: int, id: RoundId)
    requires r in db.rounds && db.rounds[r].result.None?
    ensures RowKept(db, CountReceipt(db, r, note, time, now), id)
  {
    CloseKeepsRow(db, r, Received, None, now, id);
  }

  lemma LateAfterExpiryKeepsRow(db: Db, r: RoundId, now: int, id: RoundId)
    requires r in db.rounds && db.rounds[r].result.None?
    ensures RowKept(db, NoteLate(Expire(db, r), r, now), id)
  {
    ExpireKeepsRow(db, r, id);
    LateKeepsRow(Expire(db, r), r, now, id);
  }

  lemma ReceiptKeepsRow(db: Db, d: DeviceId, checkId: Option<RoundId>, note: Option<int>, time: Option<int>, now: int,
                        id: RoundId)
    ensures RowKept(db, Receipt(db, d, checkId, note, time, now).0, id)
  {
    if checkId.Some? && checkId.value in db.rounds && db.rounds[checkId.value].device == d {
      var r := checkId.value;
      ReceiptIs(db, d, r, note, time, now);
      if db.rounds[r].result.None? && now >= db.rounds[r].closesAt {
        LateAfterExpiryKeepsRow(db, r, now, id);
      } else if db.rounds[r].result.None? {
        CountKeepsRow(db, r, note, time, now, id);
      } else {
        LateKeepsRow(db, r, now, id);
      }
    }
  }

  lemma DisableKeepsRow(db: Db, d: DeviceId, now: int, id: RoundId)
    ensures RowKept(db, Disable(db, d, now), id)
  {
    if d in db.checks && db.checks[d].enabled {
      var off := db.(checks := db.checks[d := SwitchedOff(db.checks[d])]);
      var open := OpenRound(db.rounds, db.checks[d]);
      if open.Some? {
        ExpireKeepsRow(off, open.value, id);
        CloseKeepsRow(off, open.value, Skipped, Some(Disabled), now, id);
      }
    }
  }

  lemma SettleKeepsRow(db: Db, d: DeviceId, now: int, id: RoundId)
    ensures RowKept(db, Settle(db, d, now), id)
  {
    if d in db.checks && OpenRound(db.rounds, db.checks[d]).Some? {
      ExpireKeepsRow(db, OpenRound(db.rounds, db.checks[d]).value, id);
    }
  }

  lemma StepKeepsRow(db: Db, step: Step, id: RoundId)
    requires db.nextRound !in db.rounds
    ensures RowKept(db, Apply(db, step), id)
  {
    match step
    case DisableStep(d, now) => DisableKeepsRow(db, d, now, id);
    case SettleStep(d, now) => SettleKeepsRow(db, d, now, id);
    case PlanStep(d, now) => PlanKeepsRow(db, d, now, id);
    case ConfirmStep(planned, now) => ConfirmKeepsRow(db, planned, now, id);
    case RecordStep(r, attempt, outcome, status, now) => RecordKeepsRow(db, r, attempt, outcome, status, now, id);
    case ReceiptStep(d, checkId, note, time, now) => ReceiptKeepsRow(db, d, checkId, note, time, now, id);
    case _ =>
  }

  lemma {:induction false} RunKeepsGone(db: Db, steps: seq<Step>, id: RoundId)
    requires Inv(db) && id !in db.rounds && id < db.nextRound
    ensures id !in Run(db, steps).rounds
    decreases |steps|
  {
    if steps != [] {
      NoAttemptsYet(db);
      StepKeepsRow(db, steps[0], id);
      StepKeepsInv(db, steps[0]);
      RunKeepsGone(Apply(db, steps[0]), steps[1..], id);
    }
  }

  /** A round's device, times, attempt count, result and reason never change once it has a result. */
  lemma {:induction false} ClosedStaysClosed(db: Db, steps: seq<Step>, id: RoundId)
    requires Inv(db) && id in db.rounds && db.rounds[id].result.Some?
    ensures id in Run(db, steps).rounds ==> SameRow(db.rounds[id], Run(db, steps).rounds[id])
    decreases |steps|
  {
    if steps != [] {
      var db1 := Apply(db, steps[0]);
      assert At(id);
      NoAttemptsYet(db);
      StepKeepsRow(db, steps[0], id);
      StepKeepsInv(db, steps[0]);
      if id in db1.rounds {
        ClosedStaysClosed(db1, steps[1..], id);
      } else {
        RunKeepsGone(db1, steps[1..], id);
      }
    }
  }

  // ---------------------------------------------------------------- rounds are days apart

  /**
   What a step may do to a device's next due time: leave it, or set it from a round it writes down now, which
   is not before the time that was due.
   */
  ghost predicate DueKept(db: Db, db': Db, d: DeviceId) {
    d in db.checks && d in db'.checks ==>
      if db'.nextRound == db.nextRound + 1 && db.nextRound in db'.rounds && db'.rounds[db.nextRound].device == d
      then
        var at := db'.rounds[db.nextRound].openedAt;
        db.checks[d].nextDueAt <= at && db'.checks[d].nextDueAt == RoundAfter(d.slot, at)
      else db'.checks[d].nextDueAt == db.checks[d].nextDueAt
  }

  lemma CloseKeepsDue(db: Db, r: RoundId, result: RoundResult, reason: Option<SkipReason>, closedAt: int, d: DeviceId)
    requires r in db.rounds
    ensures DueKept(db, CloseRound(db, r, result, reason, closedAt), d)
  {
  }

  lemma OpenKeepsDue(db: Db, d: DeviceId, now: int, d1: DeviceId)
    requires d in db.checks && d in db.devices && db.checks[d].nextDueAt <= now && db.nextRound !in db.rounds
    requires (db.nextRound, 1) !in db.attempts
    ensures DueKept(db, PushOn(db, Open(db, d, now), d, db.nextRound, now).0, d1)
  {
  }

  lemma PlanKeepsDue(db: Db, d: DeviceId, now: int, d1: DeviceId)
    requires Inv(db)
    ensures DueKept(db, Plan(db, d, now).0, d1)
  {
    NoAttemptsYet(db);
    assert At(d);
    if Due(db, d, now) && d in db.devices {
      var open := OpenRound(db.rounds, db.checks[d]);
      if open.None? {
        OpenKeepsDue(db, d, now, d1);
      } else if now >= db.rounds[open.value].closesAt {
        ExpireKeepsDue(db, open.value, d1);
      } else if !GetsChecks(db.tiers, db.devices[d].account) {
        CloseKeepsDue(db, open.value, Skipped, Some(TierLost), now, d1);
      } else if db.devices[d].pushToken == "" {
        CloseKeepsDue(db, open.value, Skipped, Some(NoToken), now, d1);
      }
    }
  }

  lemma ExpireKeepsDue(db: Db, r: RoundId, d: DeviceId)
    requires r in db.rounds
    ensures DueKept(db, Expire(db, r), d)
  {
  }

  lemma ConfirmKeepsDue(db: Db, planned: PlannedCheck, now: int, d: DeviceId)
    ensures DueKept(db, Confirm(db, planned, now).0, d)
  {
    var r := planned.roundId;
    if r in db.rounds && db.rounds[r].device in db.checks && db.rounds[r].device in db.devices {
      CloseKeepsDue(db, r, Skipped, Some(ConfirmReason(db, db.rounds[r].device)), now, d);
      ExpireKeepsDue(db, r, d);
    }
  }

  lemma CountKeepsDue(db: Db, r: RoundId, note: Option<int>, time: Option<int>, now: int, d: DeviceId)
    requires r in db.rounds
    ensures DueKept(db, CountReceipt(db, r, note, time, now), d)
  {
    CloseKeepsDue(db, r, Received, None, now, d);
  }

  lemma ReceiptKeepsDue(db: Db, d: DeviceId, checkId: Option<RoundId>, note: Option<int>, time: Option<int>, now: int,
                        d1: DeviceId)
    ensures DueKept(db, Receipt(db, d, checkId, note, time, now).0, d1)
  {
    if checkId.Some? && checkId.value in db.rounds && db.rounds[checkId.value].device == d {
      var r := checkId.value;
      ReceiptIs(db, d, r, note, time, now);
      if db.rounds[r].result.Some? {
      } else if now >= db.rounds[r].closesAt {
        ExpireKeepsDue(db, r, d1);
      } else {
        CountKeepsDue(db, r, note, time, now, d1);
      }
    }
  }

  lemma DisableKeepsDue(db: Db, d: DeviceId, now: int, d1: DeviceId)
    ensures DueKept(db, Disable(db, d, now), d1)
  {
    if d in db.checks && db.checks[d].enabled {
      var off := db.(checks := db.checks[d := SwitchedOff(db.checks[d])]);
      var open := OpenRound(db.rounds, db.checks[d]);
      if open.Some? {
        ExpireKeepsDue(off, open.value, d1);
        CloseKeepsDue(off, open.value, Skipped, Some(Disabled), now, d1);
      }
    }
  }

  lemma SettleKeepsDue(db: Db, d: DeviceId, now: int, d1: DeviceId)
    ensures DueKept(db, Settle(db, d, now), d1)
  {
    if d in db.checks && OpenRound(db.rounds, db.checks[d]).Some? {
      ExpireKeepsDue(db, OpenRound(db.rounds, db.checks[d]).value, d1);
    }
  }

  lemma RecordKeepsDue(db: Db, r: RoundId, attempt: nat, outcome: AttemptOutcome, status: int, now: int, d: DeviceId)
    ensures DueKept(db, Record(db, r, attempt, outcome, status, now), d)
  {
  }

  lemma OtherStepKeepsDue(db: Db, step: Step, d: DeviceId)
    requires !StoreStep(step) && (step.NewTokenStep? ==> step.d != d)
    ensures DueKept(db, Apply(db, step), d)
  {
  }

  lemma StepKeepsDue(db: Db, step: Step, d: DeviceId)
    requires Inv(db)
    requires step.NewTokenStep? ==> step.d != d
    ensures DueKept(db, Apply(db, step), d)
  {
    match step
    case EnableStep(d1, now) =>
    case DisableStep(d1, now) => DisableKeepsDue(db, d1, now, d);
    case SettleStep(d1, now) => SettleKeepsDue(db, d1, now, d);
    case PlanStep(d1, now) => PlanKeepsDue(db, d1, now, d);
    case ConfirmStep(planned, now) => ConfirmKeepsDue(db, planned, now, d);
    case RecordStep(r, attempt, outcome, status, now) => RecordKeepsDue(db, r, attempt, outcome, status, now, d);
    case ReceiptStep(d1, checkId, note, time, now) => ReceiptKeepsDue(db, d1, checkId, note, time, now, d);
    case _ => OtherStepKeepsDue(db, step, d);
  }

  /** Rounds of `d`, skipped ones included, are at least three days apart, and so is the next one due. */
  ghost predicate Spaced(db: Db, d: DeviceId) {
    && (forall id: RoundId {:trigger At(id)} :: At(id) && id in db.rounds && db.rounds[id].device == d ==>
          d in db.checks && db.rounds[id].openedAt + MIN_ROUND_GAP_S <= db.checks[d].nextDueAt)
    && (forall i: RoundId, j: RoundId {:trigger At(i), At(j)} :: At(i) && At(j) ==> ApartIn(db, d, i, j))
  }

  ghost predicate ApartIn(db: Db, d: DeviceId, i: RoundId, j: RoundId) {
    i < j && i in db.rounds && j in db.rounds && db.rounds[i].device == db.rounds[j].device == d ==>
      db.rounds[i].openedAt + MIN_ROUND_GAP_S <= db.rounds[j].openedAt
  }

  lemma SpacingKept(db: Db, db': Db, d: DeviceId)
    requires Inv(db) && Inv(db') && Spaced(db, d) && DueKept(db, db', d) && db.nextRound !in db.rounds
    requires forall id: RoundId {:trigger At(id)} :: At(id) ==> RowKept(db, db', id)
    ensures Spaced(db', d)
  {
  }

  lemma StepKeepsSpacing(db: Db, step: Step, d: DeviceId)
    requires Inv(db) && Spaced(db, d)
    requires step.NewTokenStep? ==> step.d != d
    ensures Spaced(Apply(db, step), d)
  {
    var db' := Apply(db, step);
    NoAttemptsYet(db);
    StepKeepsInv(db, step);
    StepKeepsDue(db, step, d);
    forall id: RoundId ensures RowKept(db, db', id) {
      StepKeepsRow(db, step, id);
    }
    SpacingKept(db, db', d);
  }

  lemma {:induction false} RunKeepsSpacing(db: Db, steps: seq<Step>, d: DeviceId)
    requires Inv(db) && Spaced(db, d)
    requires forall i :: 0 <= i < |steps| && steps[i].NewTokenStep? ==> steps[i].d != d
    ensures Spaced(Run(db, steps), d)
    decreases |steps|
  {
    if steps != [] {
      StepKeepsSpacing(db, steps[0], d);
      StepKeepsInv(db, steps[0]);
      RunKeepsSpacing(Apply(db, steps[0]), steps[1..], d);
    }
  }

  /**
   Over every run from empty tables, whatever is switched on and off, whatever the tier does and however late the
   scans run, two rounds of a device open at least three days apart, unless a new push token made it due at once.
   */
  lemma RoundsAreDaysApart(steps: seq<Step>, d: DeviceId, i: RoundId, j: RoundId)
    requires forall k :: 0 <= k < |steps| && steps[k].NewTokenStep? ==> steps[k].d != d
    requires var rounds := Run(EMPTY, steps).rounds;
             i < j && i in rounds && j in rounds && rounds[i].device == rounds[j].device == d
    ensures var db := Run(EMPTY, steps);
            && db.rounds[i].openedAt + MIN_ROUND_GAP_S <= db.rounds[j].openedAt
            && d in db.checks && db.rounds[j].openedAt + MIN_ROUND_GAP_S <= db.checks[d].nextDueAt
  {
    RunKeepsSpacing(EMPTY, steps, d);
    assert At(i) && At(j);
    assert ApartIn(Run(EMPTY, steps), d, i, j);
  }
}
