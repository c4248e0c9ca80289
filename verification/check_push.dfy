/**
 When the pushes of a round go out: the timer a device's turn leaves behind, and over whole runs the three times of a
 round that is never held.
 */
module CheckPushes {
  import opened Common
  import opened Schedule
  import opened Tiers
  import opened CheckModel
  import opened CheckInvariant
  import opened CheckRounds
  import opened CheckNotice

  // ---------------------------------------------------------------- one turn

  /** The three times of a round: as it opens, 6 hours later and 18 hours later. */
  function RoundTimes(openedAt: int): set<int> {
    {openedAt, openedAt + 21_600, openedAt + 64_800}
  }

  /** The next of the round's three times after `now` while a push is left and one of them is ahead, or the close. */
  ghost predicate IsNextTime(openedAt: int, attempts: nat, now: int, at: int) {
    if attempts < 3 && exists time :: time in RoundTimes(openedAt) && time > now
    then at in RoundTimes(openedAt) && at > now &&
        forall time :: time in RoundTimes(openedAt) && time > now ==> at <= time
    else at == openedAt + 86_400
  }

  /** Nothing but an alarm stands between a due device and its push. */
  ghost predicate MayPush(db: Db, d: DeviceId, now: int) {
    && d in db.checks && db.checks[d].enabled
    && db.checks[d].nextAttemptAt.Some? && db.checks[d].nextAttemptAt.value <= now
    && d in db.devices && db.devices[d].pushToken != ""
    && db.devices[d].account in db.tiers && db.tiers[db.devices[d].account] == Hosted
    && (db.checks[d].roundId.Some? && db.checks[d].roundId.value in db.rounds ==>
          now < db.rounds[db.checks[d].roundId.value].openedAt + 86_400)
  }

  ghost predicate AlarmSince(db: Db, d: DeviceId, time: int) {
    d in db.devices && db.devices[d].lastAlarmPushAt.Some? && db.devices[d].lastAlarmPushAt.value > time
  }

  /** The round a turn pushes for, held or not: the one that is open, or one that opens now. */
  ghost predicate PushesFor(db: Db, db': Db, d: DeviceId, id: RoundId, now: int)
    requires d in db.checks
  {
    && id in db'.rounds && db'.rounds[id].device == d && d in db'.checks && db'.checks[d].roundId == Some(id)
    && db'.rounds[id].result.None?
    && if db.checks[d].roundId.Some?
       then db.checks[d].roundId == Some(id) && id in db.rounds && db'.rounds[id].openedAt == db.rounds[id].openedAt
       else id !in db.rounds && db'.rounds[id].openedAt == now
  }

  /** What a push on record looks like: the next number of its round, at this time, for the device's own token. */
  ghost predicate PutOnRecord(db: Db, db': Db, d: DeviceId, planned: PlannedCheck, now: int)
    requires d in db.checks && d in db.devices
  {
    var id, n := planned.roundId, planned.attempt;
    && (db'.tiers, db'.devices) == (db.tiers, db.devices) && db'.checks.Keys == db.checks.Keys
    && PushesFor(db, db', d, id, now) && db'.checks[d].enabled
    && planned.pushToken == db.devices[d].pushToken
    && db'.rounds[id].attempts == n == (if id in db.rounds then db.rounds[id].attempts else 0) + 1
    && (id, n) !in db.attempts && db'.attempts == db.attempts[(id, n) := Attempt(now, None, None)]
    && db'.handed == db.handed + [(id, n)]
    && db'.checks[d].nextAttemptAt.Some?
    && IsNextTime(db'.rounds[id].openedAt, n, now, db'.checks[d].nextAttemptAt.value)
  }

  /** A held push waits for the hold to end, or for the close when that comes first. */
  ghost predicate HeldBack(db: Db, db': Db, d: DeviceId, now: int)
    requires d in db.checks && d in db.devices && db.devices[d].lastAlarmPushAt.Some?
  {
    var until := db.devices[d].lastAlarmPushAt.value + 1_800;
    && d in db'.checks && db'.checks[d].roundId.Some?
    && var id := db'.checks[d].roundId.value;
    && PushesFor(db, db', d, id, now)
    && db'.attempts == db.attempts && db'.rounds[id].heldUntil == Some(until)
    && db'.rounds[id].attempts == (if id in db.rounds then db.rounds[id].attempts else 0)
    && db'.checks[d].nextAttemptAt ==
       Some(if until < db'.rounds[id].openedAt + 86_400 then until else db'.rounds[id].openedAt + 86_400)
  }

  lemma NextTimeIs(openedAt: int, attempts: nat, now: int)
    ensures IsNextTime(openedAt, attempts, now, NextPush(openedAt, attempts, openedAt + ROUND_LENGTH_S, now))
  {
    if now < openedAt + 64_800 {
      assert openedAt + 64_800 in RoundTimes(openedAt);
    }
  }

  lemma RecordedTurn(db: Db, ready: Db, d: DeviceId, id: RoundId, now: int)
    requires d in db.checks && d in db.devices && d in ready.checks && id in ready.rounds
    requires ready == db || (ready == Open(db, d, now) && id == db.nextRound && id !in db.rounds)
    requires db.checks[d].roundId == (if ready == db then Some(id) else None) && db.checks[d].enabled
    requires ready.rounds[id].device == d && ready.rounds[id].result.None?
    requires ready.rounds[id].closesAt == ready.rounds[id].openedAt + ROUND_LENGTH_S
    requires (id, ready.rounds[id].attempts + 1) !in db.attempts
    ensures PutOnRecord(db, RecordAttempt(ready, d, id, now), d,
                        PlannedCheck(id, ready.rounds[id].attempts + 1, db.devices[d].pushToken), now)
  {
    NextTimeIs(ready.rounds[id].openedAt, ready.rounds[id].attempts + 1, now);
  }

  lemma HeldTurn(db: Db, ready: Db, d: DeviceId, id: RoundId, now: int)
    requires d in db.checks && d in db.devices && d in ready.checks && id in ready.rounds
    requires ready == db || (ready == Open(db, d, now) && id == db.nextRound && id !in db.rounds)
    requires db.checks[d].roundId == (if ready == db then Some(id) else None) && db.checks[d].enabled
    requires ready.rounds[id].device == d && ready.rounds[id].result.None?
    requires ready.rounds[id].closesAt == ready.rounds[id].openedAt + ROUND_LENGTH_S
    requires db.devices[d].lastAlarmPushAt.Some?
    ensures HeldBack(db, HoldPush(ready, d, id, db.devices[d].lastAlarmPushAt.value + ALARM_HOLD_S), d, now)
  {
  }

  /**
   Whatever the rows are, no fourth push is made, and one whose number is taken rolls the whole turn back: `db` is what
   the turn found and `ready` the same with the round open.
   */
  lemma NoFourthPush(db: Db, ready: Db, d: DeviceId, id: RoundId, now: int)
    requires d in ready.checks && d in db.devices && id in ready.rounds && !AlarmSince(db, d, now - 1_800)
    ensures var (db', planned), n := PushOn(db, ready, d, id, now), ready.rounds[id].attempts;
            && (planned.Some? <==> n < 3 && (id, n + 1) !in db.attempts)
            && (n >= 3 ==> db' == ready.(checks := db'.checks) && d in db'.checks
                           && db'.checks == ready.checks[d := db'.checks[d]]
                           && db'.checks[d] ==
                              ready.checks[d].(nextAttemptAt := Some(ready.rounds[id].closesAt)))
            && (n < 3 && planned.None? ==> db' == db)
  {
  }

  /**
   A device's turn puts a push on record if and only if its time has come, its account and token allow it and the last
   alarm is at least 30 minutes old. The push after it is due at the next of the round's times; a held one when the
   hold ends.
   */
  lemma TurnPushes(db: Db, d: DeviceId, now: int)
    requires Inv(db)
    ensures var (db', planned) := Plan(db, d, now);
            && (planned.Some? <==> MayPush(db, d, now) && !AlarmSince(db, d, now - 1_800))
            && (planned.Some? ==> PutOnRecord(db, db', d, planned.value, now))
            && (MayPush(db, d, now) && AlarmSince(db, d, now - 1_800) ==> HeldBack(db, db', d, now))
  {
    if MayPush(db, d, now) {
      assert At(d);
      var open := db.checks[d].roundId;
      if open.Some? {
        OpenTurnPushes(db, d, open.value, now);
      } else {
        OpeningTurnPushes(db, d, now);
      }
    } else if Due(db, d, now) && d in db.devices && d in db.checks {
      assert At(d);
      if db.checks[d].roundId.Some? {
        assert At(db.checks[d].roundId.value);
      }
    }
  }

  lemma OpenTurnPushes(db: Db, d: DeviceId, id: RoundId, now: int)
    requires Inv(db) && MayPush(db, d, now) && db.checks[d].roundId == Some(id)
    ensures var (db', planned) := Plan(db, d, now);
            && (planned.Some? <==> !AlarmSince(db, d, now - 1_800))
            && (planned.Some? ==> PutOnRecord(db, db', d, planned.value, now))
            && (AlarmSince(db, d, now - 1_800) ==> HeldBack(db, db', d, now))
  {
    assert At(d) && At(id);
    AttemptsLeft(db, d, id, now);
    if AlarmSince(db, d, now - 1_800) {
      HeldTurn(db, db, d, id, now);
    } else {
      RecordedTurn(db, db, d, id, now);
    }
  }

  lemma OpeningTurnPushes(db: Db, d: DeviceId, now: int)
    requires Inv(db) && MayPush(db, d, now) && db.checks[d].roundId.None?
    ensures var (db', planned) := Plan(db, d, now);
            && (planned.Some? <==> !AlarmSince(db, d, now - 1_800))
            && (planned.Some? ==> PutOnRecord(db, db', d, planned.value, now))
            && (AlarmSince(db, d, now - 1_800) ==> HeldBack(db, db', d, now))
  {
    NoAttemptsYet(db);
    var ready := Open(db, d, now);
    assert Plan(db, d, now) == PushOn(db, ready, d, db.nextRound, now);
    if AlarmSince(db, d, now - 1_800) {
      HeldTurn(db, ready, d, db.nextRound, now);
    } else {
      RecordedTurn(db, ready, d, db.nextRound, now);
    }
  }

  // ---------------------------------------------------------------- the three pushes of a round

  /**
   A round of `d` as it goes when the scans come in time: its pushes are on record at their own times, the next one is
   due at its own time, and a round that got as far as its close has had all three.
   */
  ghost predicate OnTimetable(db: Db, d: DeviceId, id: RoundId)
    requires id in db.rounds
  {
    var r := db.rounds[id];
    r.device == d ==>
      && r.attempts <= 3
      && (forall k: nat :: (id, k) in db.attempts ==>
            1 <= k <= 3 && db.attempts[(id, k)].recordedAt == r.openedAt + [0, 21_600, 64_800][k - 1])
      && (r.result.None? ==>
            && r.attempts >= 1 && d in db.checks
            && db.checks[d].nextAttemptAt == Some(r.openedAt + [21_600, 64_800, 86_400][r.attempts - 1]))
      && (r.closedAt.Some? && r.closedAt.value >= r.openedAt + 86_400 ==> r.attempts == 3)
  }

  ghost predicate AllOnTimetable(db: Db, d: DeviceId) {
    forall id: RoundId {:trigger At(id)} :: At(id) && id in db.rounds ==> OnTimetable(db, d, id)
  }

  /**
   While a round of `d` is open no step comes later than its next push is due, and no turn that pushes finds an alarm
   of the last 30 minutes.
   */
  ghost predicate Prompt(db: Db, step: Step, d: DeviceId, before: int) {
    && (d in db.checks && db.checks[d].roundId.Some? && db.checks[d].nextAttemptAt.Some? ==>
          StepTime(step, before) <= db.checks[d].nextAttemptAt.value)
    && (step.PlanStep? && step.d == d && MayPush(db, d, step.now) ==> !AlarmSince(db, d, step.now - 1_800))
  }

  ghost predicate PromptRun(db: Db, steps: seq<Step>, d: DeviceId, before: int)
    decreases |steps|
  {
    steps != [] ==>
      Prompt(db, steps[0], d, before) && PromptRun(Apply(db, steps[0]), steps[1..], d, StepTime(steps[0], before))
  }

  /** What a step may do to a round of the timetable, its pushes aside. */
  ghost predicate Follows(db: Db, db': Db, d: DeviceId, id: RoundId, now: int) {
    && id in db.rounds && id in db'.rounds
    && var r, r' := db.rounds[id], db'.rounds[id];
    && (r'.device, r'.openedAt, r'.attempts) == (r.device, r.openedAt, r.attempts)
    && (forall k: nat :: (id, k) in db'.attempts ==>
          (id, k) in db.attempts && db'.attempts[(id, k)].recordedAt == db.attempts[(id, k)].recordedAt)
    && (r.device == d && r'.result.None? ==>
          r.result.None? && (d in db.checks ==>
                             d in db'.checks && db'.checks[d].nextAttemptAt == db.checks[d].nextAttemptAt))
    && (r'.closedAt != r.closedAt && r'.closedAt.Some? ==>
          r.result.None? && (r'.closedAt.value == now || (r'.closedAt.value <= now && r.closesAt <= now)))
  }

  lemma FollowsKeepsTimetable(db: Db, db': Db, d: DeviceId, id: RoundId, now: int)
    requires Inv(db) && id in db.rounds && OnTimetable(db, d, id) && id in db'.rounds && Follows(db, db', d, id, now)
    requires d in db.checks && db.checks[d].roundId.Some? && db.checks[d].nextAttemptAt.Some? ==>
             now <= db.checks[d].nextAttemptAt.value
    ensures OnTimetable(db', d, id)
  {
    assert At(id);
  }

  lemma CloseFollows(db: Db, c: RoundId, result: RoundResult, reason: Option<SkipReason>, closedAt: int, now: int,
                     d: DeviceId, id: RoundId)
    requires Inv(db) && c in db.rounds && id in db.rounds
    requires closedAt == now || closedAt == db.rounds[c].closesAt <= now
    ensures Follows(db, CloseRound(db, c, result, reason, closedAt), d, id, now)
  {
    assert At(c) && At(id) && At(d);
  }

  lemma ExpireFollows(db: Db, c: RoundId, now: int, d: DeviceId, id: RoundId)
    requires Inv(db) && c in db.rounds && id in db.rounds && db.rounds[c].closesAt <= now
    ensures Follows(db, Expire(db, c), d, id, now)
  {
    var r := db.rounds[c];
    CloseFollows(db, c, ExpiryResult(db.attempts, c),
                 ExpiryReason(db.attempts, c, r, LastAlarm(db.devices, r.device)), r.closesAt, now, d, id);
  }

  lemma ConfirmFollows(db: Db, planned: PlannedCheck, now: int, d: DeviceId, id: RoundId)
    requires Inv(db) && id in db.rounds
    ensures Follows(db, Confirm(db, planned, now).0, d, id, now)
  {
    var c := planned.roundId;
    if c in db.rounds && db.rounds[c].device in db.checks && db.rounds[c].device in db.devices {
      CloseFollows(db, c, Skipped, Some(ConfirmReason(db, db.rounds[c].device)), now, now, d, id);
      if now >= db.rounds[c].closesAt {
        ExpireFollows(db, c, now, d, id);
      }
    }
  }

  lemma AnsweredFollows(db: Db, c: RoundId, attempt: nat, row: Attempt, d1: DeviceId, sent: Option<int>, now: int,
                        d: DeviceId, id: RoundId)
    requires Inv(db) && id in db.rounds && (c, attempt) in db.attempts
    requires row.recordedAt == db.attempts[(c, attempt)].recordedAt && d1 in db.checks
    ensures Follows(db, db.(attempts := db.attempts[(c, attempt) := row]), d, id, now)
    ensures Follows(db, db.(attempts := db.attempts[(c, attempt) := row],
                            checks := db.checks[d1 := db.checks[d1].(lastSentAt := sent)]), d, id, now)
  {
  }

  lemma RecordFollows(db: Db, c: RoundId, attempt: nat, outcome: AttemptOutcome, status: int, now: int, d: DeviceId,
                      id: RoundId)
    requires Inv(db) && id in db.rounds
    ensures Follows(db, Record(db, c, attempt, outcome, status, now), d, id, now)
  {
    if (c, attempt) in db.attempts && db.attempts[(c, attempt)].outcome.None? {
      assert At((c, attempt)) && At(c);
      var row := db.attempts[(c, attempt)].(outcome := Some(outcome), status := Some(status));
      AnsweredFollows(db, c, attempt, row, db.rounds[c].device, Some(now), now, d, id);
      if outcome == TokenRefused {
        OutcomeKeepsInv(db, c, attempt, row);
        CloseFollows(db.(attempts := db.attempts[(c, attempt) := row]), c, Refused, None, now, now, d, id);
      }
    }
  }

  lemma LateFollows(db: Db, c: RoundId, now: int, d: DeviceId, id: RoundId)
    requires c in db.rounds && id in db.rounds
    ensures Follows(db, NoteLate(db, c, now), d, id, now)
  {
  }

  lemma CountFollows(db: Db, c: RoundId, note: Option<int>, time: Option<int>, now: int, d: DeviceId, id: RoundId)
    requires Inv(db) && c in db.rounds && id in db.rounds
    ensures Follows(db, CountReceipt(db, c, note, time, now), d, id, now)
  {
    CloseFollows(db, c, Received, None, now, now, d, id);
  }

  lemma LateAfterExpiryFollows(db: Db, c: RoundId, now: int, d: DeviceId, id: RoundId)
    requires Inv(db) && c in db.rounds && id in db.rounds && db.rounds[c].closesAt <= now
    ensures Follows(db, NoteLate(Expire(db, c), c, now), d, id, now)
  {
    ExpireFollows(db, c, now, d, id);
    LateFollows(Expire(db, c), c, now, d, id);
  }

  lemma ReceiptFollows(db: Db, d1: DeviceId, checkId: Option<RoundId>, note: Option<int>, time: Option<int>, now: int,
                       d: DeviceId, id: RoundId)
    requires Inv(db) && id in db.rounds
    ensures Follows(db, Receipt(db, d1, checkId, note, time, now).0, d, id, now)
  {
    if checkId.Some? && checkId.value in db.rounds && db.rounds[checkId.value].device == d1 {
      var c := checkId.value;
      ReceiptIs(db, d1, c, note, time, now);
      if db.rounds[c].result.Some? {
        LateFollows(db, c, now, d, id);
      } else if now >= db.rounds[c].closesAt {
        LateAfterExpiryFollows(db, c, now, d, id);
      } else {
        CountFollows(db, c, note, time, now, d, id);
      }
    }
  }

  lemma DisableFollows(db: Db, d1: DeviceId, now: int, d: DeviceId, id: RoundId)
    requires Inv(db) && id in db.rounds
    ensures Follows(db, Disable(db, d1, now), d, id, now)
  {
    if d1 in db.checks && db.checks[d1].enabled {
      assert At(d1) && At(id);
      var open := OpenRound(db.rounds, db.checks[d1]);
      if open.Some? {
        DisableClosesThenSwitches(db, d1, open.value, now);
        CloseFollows(db, open.value, Skipped, Some(Disabled), now, now, d, id);
        if now >= db.rounds[open.value].closesAt {
          ExpireFollows(db, open.value, now, d, id);
        }
      }
    }
  }

  lemma SettleFollows(db: Db, d1: DeviceId, now: int, d: DeviceId, id: RoundId)
    requires Inv(db) && id in db.rounds
    ensures Follows(db, Settle(db, d1, now), d, id, now)
  {
    if d1 in db.checks && Settle(db, d1, now) != db {
      ExpireFollows(db, OpenRound(db.rounds, db.checks[d1]).value, now, d, id);
    }
  }

  lemma EnableFollows(db: Db, d1: DeviceId, now: int, d: DeviceId, id: RoundId)
    requires Inv(db) && id in db.rounds
    ensures Follows(db, Enable(db, d1, now), d, id, now)
  {
    assert At(d) && At(id);
  }

  lemma NewTokenFollows(db: Db, d1: DeviceId, token: PushToken, now: int, d: DeviceId, id: RoundId)
    requires Inv(db) && id in db.rounds
    ensures Follows(db, NewToken(db, d1, token, now), d, id, now)
  {
    assert At(d) && At(id);
  }

  lemma DroppingFollows(db: Db, step: Step, before: int, d: DeviceId, id: RoundId)
    requires Inv(db) && (step.PruneStep? || step.ReleaseStep?) && id in Apply(db, step).rounds
    ensures Follows(db, Apply(db, step), d, id, StepTime(step, before))
  {
  }

  lemma OtherTablesFollow(db: Db, db': Db, d: DeviceId, id: RoundId, now: int)
    requires db' == db.(tiers := db'.tiers, devices := db'.devices) && id in db.rounds
    ensures Follows(db, db', d, id, now)
  {
  }

  lemma SkipFollows(db: Db, d1: DeviceId, open: Option<RoundId>, reason: SkipReason, now: int, d: DeviceId, id: RoundId)
    requires Inv(db) && id in db.rounds && d1 in db.checks && open == db.checks[d1].roundId
    requires open.Some? ==> open.value in db.rounds
    ensures Follows(db, Skip(db, d1, open, reason, now), d, id, now)
  {
    assert At(d1) && At(id);
    NoAttemptsYet(db);
    if open.Some? {
      CloseFollows(db, open.value, Skipped, Some(reason), now, now, d, id);
    }
  }

  lemma OthersOpenPushFollows(db: Db, d1: DeviceId, open: RoundId, now: int, d: DeviceId, id: RoundId)
    requires Inv(db) && id in db.rounds && db.rounds[id].device == d && d1 != d && MayPush(db, d1, now)
    requires db.checks[d1].roundId == Some(open)
    ensures Follows(db, Plan(db, d1, now).0, d, id, now)
  {
    assert At(d1) && At(open);
    AttemptsLeft(db, d1, open, now);
    PushFollows(db, d1, open, now, d, id);
    assert Plan(db, d1, now).0 == Push(db, d1, open, now);
  }

  /** A round of `d` is left alone by the push of another device. */
  lemma OthersPushFollows(db: Db, d1: DeviceId, now: int, d: DeviceId, id: RoundId)
    requires Inv(db) && id in db.rounds && db.rounds[id].device == d && d1 != d && MayPush(db, d1, now)
    ensures Follows(db, Plan(db, d1, now).0, d, id, now)
  {
    assert At(id);
    NoAttemptsYet(db);
    if db.checks[d1].roundId.Some? {
      OthersOpenPushFollows(db, d1, db.checks[d1].roundId.value, now, d, id);
    } else {
      PlanOpensThenPushes(db, d1, now);
      PushFollows(SetNextAttempt(Open(db, d1, now), d1, now), d1, db.nextRound, now, d, id);
    }
  }

  lemma PushFollows(db: Db, d1: DeviceId, open: RoundId, now: int, d: DeviceId, id: RoundId)
    requires d1 in db.checks && d1 in db.devices && open in db.rounds && id in db.rounds && open != id
    requires d1 != d || db.rounds[id].result.Some?
    requires (open, db.rounds[open].attempts + 1) !in db.attempts
    ensures Follows(db, Push(db, d1, open, now), d, id, now)
  {
  }

  /** A turn that does not push, or is another device's. */
  lemma PlanFollows(db: Db, d1: DeviceId, now: int, d: DeviceId, id: RoundId)
    requires Inv(db) && id in db.rounds && db.rounds[id].device == d && (d1 == d ==> !MayPush(db, d, now))
    ensures Follows(db, Plan(db, d1, now).0, d, id, now)
  {
    if MayPush(db, d1, now) {
      OthersPushFollows(db, d1, now, d, id);
    } else {
      IdleTurnFollows(db, d1, now, d, id);
    }
  }

  lemma IdleTurnFollows(db: Db, d1: DeviceId, now: int, d: DeviceId, id: RoundId)
    requires Inv(db) && id in db.rounds && !MayPush(db, d1, now)
    ensures Follows(db, Plan(db, d1, now).0, d, id, now)
  {
    if Due(db, d1, now) && d1 in db.devices {
      assert At(d1);
      var open := db.checks[d1].roundId;
      assert open.Some? ==> At(open.value);
      if open.Some? && now >= db.rounds[open.value].closesAt {
        ExpireFollows(db, open.value, now, d, id);
      } else if !GetsChecks(db.tiers, db.devices[d1].account) {
        SkipFollows(db, d1, open, TierLost, now, d, id);
      } else {
        SkipFollows(db, d1, open, NoToken, now, d, id);
      }
    }
  }

  /** The push of a round, made when it was due, is the one its timetable asks for. */
  lemma PushIsOnTimetable(db: Db, db': Db, d: DeviceId, planned: PlannedCheck, now: int)
    requires d in db.checks && d in db.devices && PutOnRecord(db, db', d, planned, now) && planned.attempt <= 3
    requires planned.roundId in db.rounds ==>
             && OnTimetable(db, d, planned.roundId) && db.rounds[planned.roundId].result.None?
             && db.rounds[planned.roundId].device == d && db.checks[d].nextAttemptAt == Some(now)
    requires planned.roundId !in db.rounds ==> forall k: nat :: (planned.roundId, k) !in db.attempts
    requires db'.rounds[planned.roundId].closedAt.None?
    ensures OnTimetable(db', d, planned.roundId)
  {
    var id, n := planned.roundId, planned.attempt;
    var o := db'.rounds[id].openedAt;
    assert now == o + [0, 21_600, 64_800][n - 1];
    assert o + 64_800 in RoundTimes(o);
  }

  lemma PushKeepsTimetable(db: Db, d: DeviceId, now: int, id: RoundId)
    requires Inv(db) && AllOnTimetable(db, d) && MayPush(db, d, now) && !AlarmSince(db, d, now - 1_800)
    requires db.checks[d].roundId.Some? ==> now <= db.checks[d].nextAttemptAt.value
    requires id in Plan(db, d, now).0.rounds
    ensures OnTimetable(Plan(db, d, now).0, d, id)
  {
    TurnPushes(db, d, now);
    PlanKeepsInv(db, d, now);
    NoAttemptsYet(db);
    assert At(d) && At(id);
    var (db', planned) := Plan(db, d, now);
    if id == planned.value.roundId {
      PushIsOnTimetable(db, db', d, planned.value, now);
    } else {
      OwnPushFollows(db, d, now, id);
    }
  }

  /** A push leaves the other rounds of its device alone; they are closed. */
  lemma OwnPushFollows(db: Db, d: DeviceId, now: int, id: RoundId)
    requires Inv(db) && AllOnTimetable(db, d) && MayPush(db, d, now) && !AlarmSince(db, d, now - 1_800)
    requires id in Plan(db, d, now).0.rounds && Plan(db, d, now).1.Some? && Plan(db, d, now).1.value.roundId != id
    ensures OnTimetable(Plan(db, d, now).0, d, id)
  {
    assert At(d) && At(id);
    NoAttemptsYet(db);
    var open := db.checks[d].roundId;
    if open.Some? {
      AttemptsLeft(db, d, open.value, now);
      assert Plan(db, d, now).0 == RecordAttempt(db, d, open.value, now);
    } else {
      assert Plan(db, d, now).0 == RecordAttempt(Open(db, d, now), d, db.nextRound, now);
    }
  }

  /** A round written down as skipped never had a push. */
  lemma SkippedIsOnTimetable(db: Db, d1: DeviceId, reason: SkipReason, now: int, d: DeviceId)
    requires Inv(db) && d1 in db.checks
    ensures OnTimetable(Skip(db, d1, None, reason, now), d, db.nextRound)
  {
    NoAttemptsYet(db);
  }

  /** A round that a turn adds without making its push is skipped at once, or another device's. */
  lemma NewRowIsOnTimetable(db: Db, d1: DeviceId, now: int, d: DeviceId, id: RoundId)
    requires Inv(db) && id !in db.rounds && id in Plan(db, d1, now).0.rounds && (d1 == d ==> !MayPush(db, d, now))
    ensures OnTimetable(Plan(db, d1, now).0, d, id)
  {
    assert At(d1);
    if !GetsChecks(db.tiers, db.devices[d1].account) {
      SkippedIsOnTimetable(db, d1, TierLost, now, d);
    } else if db.devices[d1].pushToken == "" {
      SkippedIsOnTimetable(db, d1, NoToken, now, d);
    }
  }

  lemma PlanKeepsTimetable(db: Db, d1: DeviceId, now: int, before: int, d: DeviceId, id: RoundId)
    requires Inv(db) && AllOnTimetable(db, d) && Prompt(db, PlanStep(d1, now), d, before)
    requires id in Plan(db, d1, now).0.rounds
    ensures OnTimetable(Plan(db, d1, now).0, d, id)
  {
    assert At(id) && At(d);
    NoAttemptsYet(db);
    if d1 == d && MayPush(db, d, now) {
      PushKeepsTimetable(db, d, now, id);
    } else if id !in db.rounds {
      NewRowIsOnTimetable(db, d1, now, d, id);
    } else if db.rounds[id].device == d {
      PlanFollows(db, d1, now, d, id);
      FollowsKeepsTimetable(db, Plan(db, d1, now).0, d, id, now);
    } else {
      PlanKeepsRow(db, d1, now, id);
    }
  }

  /** Only turns add rounds. */
  lemma NoNewRow(db: Db, step: Step, id: RoundId)
    requires !step.PlanStep? && id in Apply(db, step).rounds
    ensures id in db.rounds
  {
    match step
    case ReceiptStep(d, checkId, note, time, now) => ReceiptAddsNoRow(db, d, checkId, note, time, now);
    case DisableStep(d, now) => DisableAddsNoRow(db, d, now);
    case _ =>
  }

  lemma ReceiptAddsNoRow(db: Db, d: DeviceId, checkId: Option<RoundId>, note: Option<int>, time: Option<int>, now: int)
    ensures Receipt(db, d, checkId, note, time, now).0.rounds.Keys == db.rounds.Keys
  {
    if checkId.Some? && checkId.value in db.rounds && db.rounds[checkId.value].device == d {
      ReceiptIs(db, d, checkId.value, note, time, now);
    }
  }

  lemma DisableAddsNoRow(db: Db, d: DeviceId, now: int)
    ensures Disable(db, d, now).rounds.Keys == db.rounds.Keys
  {
  }

  lemma StoreStepFollows(db: Db, step: Step, d: DeviceId, before: int, id: RoundId)
    requires Inv(db) && StoreStep(step) && !step.PlanStep? && id in db.rounds && id in Apply(db, step).rounds
    ensures Follows(db, Apply(db, step), d, id, StepTime(step, before))
  {
    match step
    case EnableStep(d1, now) => EnableFollows(db, d1, now, d, id);
    case DisableStep(d1, now) => DisableFollows(db, d1, now, d, id);
    case SettleStep(d1, now) => SettleFollows(db, d1, now, d, id);
    case ReceiptStep(d1, checkId, note, time, now) => ReceiptFollows(db, d1, checkId, note, time, now, d, id);
    case ConfirmStep(planned, now) => ConfirmFollows(db, planned, now, d, id);
    case RecordStep(c, attempt, outcome, status, now) => RecordFollows(db, c, attempt, outcome, status, now, d, id);
  }

  lemma OtherStepFollows(db: Db, step: Step, d: DeviceId, before: int, id: RoundId)
    requires Inv(db) && !StoreStep(step) && id in db.rounds && id in Apply(db, step).rounds
    ensures Follows(db, Apply(db, step), d, id, StepTime(step, before))
  {
    match step
    case NewTokenStep(d1, token, now) => NewTokenFollows(db, d1, token, now, d, id);
    case PruneStep(_) => DroppingFollows(db, step, before, d, id);
    case ReleaseStep(_) => DroppingFollows(db, step, before, d, id);
    case AlarmNoteStep(d1, at) => OtherTablesFollow(db, WriteAlarmNote(db, d1, at), d, id, before);
    case TierStep(account, tier) => OtherTablesFollow(db, SetTier(db, account, tier), d, id, before);
    case MoveStep(d1, account) => OtherTablesFollow(db, Move(db, d1, account), d, id, before);
    case RegisterStep(d1, account, token) => OtherTablesFollow(db, Register(db, d1, account, token), d, id, before);
    case Crash => OtherTablesFollow(db, db, d, id, before);
  }

  lemma StepFollows(db: Db, step: Step, d: DeviceId, before: int, id: RoundId)
    requires Inv(db) && !step.PlanStep? && id in Apply(db, step).rounds
    ensures Follows(db, Apply(db, step), d, id, StepTime(step, before))
  {
    NoNewRow(db, step, id);
    if StoreStep(step) {
      StoreStepFollows(db, step, d, before, id);
    } else {
      OtherStepFollows(db, step, d, before, id);
    }
  }

  lemma StepKeepsTimetable(db: Db, step: Step, d: DeviceId, before: int)
    requires Inv(db) && AllOnTimetable(db, d) && Prompt(db, step, d, before)
    ensures AllOnTimetable(Apply(db, step), d)
  {
    var db' := Apply(db, step);
    forall id | id in db'.rounds ensures OnTimetable(db', d, id) {
      assert At(id);
      if step.PlanStep? {
        PlanKeepsTimetable(db, step.d, step.now, before, d, id);
      } else {
        StepFollows(db, step, d, before, id);
        FollowsKeepsTimetable(db, db', d, id, StepTime(step, before));
      }
    }
  }

  /**
   Over any run whose scans come in time for a device and never find a fresh alarm, the pushes of its rounds are on
   record at exactly their opening, 6 hours later and 18 hours later: as many as have come due, and all three once a
   round got as far as its close.
   */
  lemma {:induction false} PushesAreOnTime(db: Db, steps: seq<Step>, d: DeviceId, before: int)
    requires Inv(db) && AllOnTimetable(db, d) && PromptRun(db, steps, d, before)
    ensures AllOnTimetable(Run(db, steps), d)
    decreases |steps|
  {
    if steps != [] {
      StepKeepsTimetable(db, steps[0], d, before);
      StepKeepsInv(db, steps[0]);
      PushesAreOnTime(Apply(db, steps[0]), steps[1..], d, StepTime(steps[0], before));
    }
  }

  // ---------------------------------------------------------------- a round alone with its scans

  /** Push `n` of the round that opened at `openedAt` was made at its time and the next one is due at its own. */
  ghost predicate InRound(db: Db, d: DeviceId, id: RoundId, n: nat, openedAt: int) {
    && Inv(db) && 1 <= n <= 3
    && d in db.devices && db.devices[d].pushToken != ""
    && db.devices[d].account in db.tiers && db.tiers[db.devices[d].account] == Hosted
    && d in db.checks && db.checks[d].enabled && db.checks[d].roundId == Some(id)
    && id in db.rounds && db.rounds[id].device == d && db.rounds[id].openedAt == openedAt && db.rounds[id].attempts == n
    && (id, n) in db.attempts
    && db.attempts[(id, n)].recordedAt == openedAt + [0, 21_600, 64_800][n - 1]
    && db.checks[d].nextAttemptAt == Some(openedAt + [21_600, 64_800, 86_400][n - 1])
  }

  lemma RecordedInRound(db: Db, db': Db, d: DeviceId, planned: PlannedCheck, openedAt: int, now: int)
    requires Inv(db') && MayPush(db, d, now) && PutOnRecord(db, db', d, planned, now)
    requires db'.rounds[planned.roundId].openedAt == openedAt
    requires 1 <= planned.attempt <= 3 && now == openedAt + [0, 21_600, 64_800][planned.attempt - 1]
    ensures InRound(db', d, planned.roundId, planned.attempt, openedAt)
  {
    assert openedAt + 64_800 in RoundTimes(openedAt);
  }

  lemma RoundOpens(db: Db, d: DeviceId, now: int)
    requires Inv(db) && MayPush(db, d, now) && db.checks[d].roundId.None? && !AlarmSince(db, d, now - 1_800)
    ensures var (db', planned) := Plan(db, d, now);
            planned.Some? && planned.value.attempt == 1 && InRound(db', d, planned.value.roundId, 1, now)
  {
    TurnPushes(db, d, now);
    PlanKeepsInv(db, d, now);
    var (db', planned) := Plan(db, d, now);
    RecordedInRound(db, db', d, planned.value, now, now);
  }

  lemma RoundGoesOn(db: Db, d: DeviceId, id: RoundId, n: nat, openedAt: int)
    requires InRound(db, d, id, n, openedAt) && n < 3
    requires !AlarmSince(db, d, openedAt + [0, 21_600, 64_800][n] - 1_800)
    ensures var (db', planned) := Plan(db, d, openedAt + [0, 21_600, 64_800][n]);
            planned.Some? && planned.value.attempt == n + 1 && InRound(db', d, id, n + 1, openedAt)
  {
    var next := openedAt + [0, 21_600, 64_800][n];
    TurnPushes(db, d, next);
    PlanKeepsInv(db, d, next);
    var (db', planned) := Plan(db, d, next);
    RecordedInRound(db, db', d, planned.value, openedAt, next);
  }

  /** Scanned when due and without alarms, a round has its three pushes, and nothing is due in between. */
  lemma ThreePushes(db: Db, d: DeviceId, now: int)
    requires Inv(db) && MayPush(db, d, now) && db.checks[d].roundId.None?
    requires db.devices[d].lastAlarmPushAt.None?
    ensures var first := Plan(db, d, now);
            var second := Plan(first.0, d, now + 21_600);
            var third := Plan(second.0, d, now + 64_800);
            && first.1.Some? && second.1.Some? && third.1.Some?
            && !Due(first.0, d, now + 21_599) && !Due(second.0, d, now + 64_799) && !Due(third.0, d, now + 86_399)
            && first.1.value.roundId == second.1.value.roundId == third.1.value.roundId
            && (first.1.value.attempt, second.1.value.attempt, third.1.value.attempt) == (1, 2, 3)
  {
    RoundOpens(db, d, now);
    TurnPushes(db, d, now);
    var (first, planned) := Plan(db, d, now);
    var id := planned.value.roundId;
    RoundGoesOn(first, d, id, 1, now);
    TurnPushes(first, d, now + 21_600);
    var second := Plan(first, d, now + 21_600).0;
    RoundGoesOn(second, d, id, 2, now);
    TurnPushes(second, d, now + 64_800);
  }
}
