/**
 `notice_after`: the second at which a device will have missed two rounds in a row if no check arrives from
 now on (src/check/store.ts, `noticeAfter`). A phone stores the value and trusts it, so it must not move
 backwards. It does not, except in the two cases `Lowers` names, and it comes true when no receipt comes.
 */
module CheckNotice {
  import opened Common
  import opened Schedule
  import opened CheckModel
  import opened CheckInvariant

  // ---------------------------------------------------------------- what the value depends on

  /** The close time of the round a device has open. */
  function OpenCloses(db: Db, d: DeviceId): Option<int>
    requires d in db.checks
  {
    var open := OpenRound(db.rounds, db.checks[d]);
    if open.Some? then Some(db.rounds[open.value].closesAt) else None
  }

  /** What `noticeAfter` reads of a device, and the log of its closed rounds. */
  datatype Outlook = Outlook(misses: nat, secondMissAt: Option<int>, nextDueAt: int, closes: Option<int>,
                             log: seq<Closing>)

  function OutlookOf(db: Db, d: DeviceId): Outlook
    requires d in db.checks
  {
    var e := db.checks[d];
    Outlook(e.misses, e.secondMissAt, e.nextDueAt, OpenCloses(db, d), LogOf(db.closings, d))
  }

  function NoticeOf(slot: Slot, o: Outlook, now: int): int {
    if o.misses >= 2 then o.secondMissAt.GetOr(now)
    else if o.closes.Some? then if o.misses == 1 then o.closes.value else o.nextDueAt + ROUND_LENGTH_S
    else
      var opens := Max(o.nextDueAt, now);
      if o.misses == 1 then opens + ROUND_LENGTH_S
      else SlotAtOrAfter(slot, opens + MIN_ROUND_GAP_S) + ROUND_LENGTH_S
  }

  lemma NoticeIs(db: Db, d: DeviceId, now: int)
    requires d in db.checks
    ensures NoticeAfter(db, d, now) == NoticeOf(d.slot, OutlookOf(db, d), now)
  {
  }

  /** The second miss of a run of misses is in the past. */
  ghost predicate SecondMissPast(o: Outlook, now: int) {
    o.misses >= 2 ==> o.secondMissAt.Some? && o.secondMissAt.value <= now
  }

  // ---------------------------------------------------------------- the moves, on one device

  /** The counters and the log after a round closed. */
  function Tally(o: Outlook, c: Closing): Outlook {
    var logged := o.(log := o.log + [c]);
    match c.result
    case Received => logged.(misses := 0, secondMissAt := None)
    case Skipped => logged
    case _ => logged.(misses := o.misses + 1,
                      secondMissAt := if o.misses == 1 then Some(c.closedAt) else o.secondMissAt)
  }

  function LastOf(log: seq<Closing>): Closing
    requires log != []
  {
    log[|log| - 1]
  }

  /** The round that was due opens. */
  ghost predicate Opens(slot: Slot, o: Outlook, o': Outlook, now: int) {
    && o.closes.None? && o.nextDueAt <= now
    && o' == o.(nextDueAt := RoundAfter(slot, now), closes := Some(now + ROUND_LENGTH_S))
  }

  /** The round that was due is written down as skipped. */
  ghost predicate Skips(slot: Slot, o: Outlook, o': Outlook, now: int) {
    && o.closes.None? && o.nextDueAt <= now && o'.log != [] && LastOf(o'.log).result == Skipped
    && o' == Tally(o.(nextDueAt := RoundAfter(slot, now)), LastOf(o'.log))
  }

  /** A closing at `now` or at the close time: a receipt always the first, a miss always the second. */
  ghost predicate ClosesInTime(c: Closing, closes: int, now: int) {
    && (c.closedAt == now || c.closedAt == closes <= now)
    && (c.result == Received ==> c.closedAt == now)
    && (c.result == Missed ==> c.closedAt == closes)
  }

  /** The open round closes. */
  ghost predicate Closes(slot: Slot, o: Outlook, o': Outlook, now: int) {
    && o.closes.Some? && o.nextDueAt == RoundAfter(slot, o.closes.value - ROUND_LENGTH_S)
    && o'.log != [] && ClosesInTime(LastOf(o'.log), o.closes.value, now)
    && o' == Tally(o.(closes := None), LastOf(o'.log))
  }

  /** A new token makes an idle device due at once. */
  ghost predicate Hurries(o: Outlook, o': Outlook, now: int) {
    o.closes.None? && o.misses > 0 && o' == o.(nextDueAt := now)
  }

  /** Everything that can happen to a device in one step. */
  ghost predicate Follows(slot: Slot, o: Outlook, o': Outlook, now: int) {
    o' == o || Opens(slot, o, o', now) || Skips(slot, o, o', now) || Closes(slot, o, o', now) || Hurries(o, o', now)
  }

  /** The two moves that take time away: a second miss refused before its close, and a device hurried after one miss. */
  ghost predicate Dips(slot: Slot, o: Outlook, o': Outlook, now: int) {
    && o.misses == 1
    && ((Closes(slot, o, o', now) && LastOf(o'.log).result == Refused && LastOf(o'.log).closedAt < o.closes.value)
        || (Hurries(o, o', now) && now < o.nextDueAt))
  }

  lemma NoticeOverTime(slot: Slot, o: Outlook, before: int, now: int)
    requires before <= now && (o.misses >= 2 ==> o.secondMissAt.Some?)
    ensures NoticeOf(slot, o, before) <= NoticeOf(slot, o, now)
  {
    SlotMonotone(slot, Max(o.nextDueAt, before) + MIN_ROUND_GAP_S, Max(o.nextDueAt, now) + MIN_ROUND_GAP_S);
  }

  /** Opening the round that was due changes nothing: the value already counted on a round opening now. */
  lemma NoticeAtOpening(slot: Slot, o: Outlook, o': Outlook, now: int)
    requires Opens(slot, o, o', now)
    ensures NoticeOf(slot, o', now) == NoticeOf(slot, o, now)
  {
  }

  /** Closing a round never lowers the value, but for a refusal of the second miss before the close. */
  lemma NoticeAtClose(slot: Slot, o: Outlook, o': Outlook, now: int)
    requires Closes(slot, o, o', now) && SecondMissPast(o, now)
    ensures NoticeOf(slot, o', now) < NoticeOf(slot, o, now) <==> Dips(slot, o, o', now)
    ensures SecondMissPast(o', now)
  {
  }

  /** Of all that can happen in one step only a dip lowers the value. */
  lemma NoticeFollows(slot: Slot, o: Outlook, o': Outlook, now: int)
    requires Follows(slot, o, o', now) && SecondMissPast(o, now)
    ensures NoticeOf(slot, o', now) < NoticeOf(slot, o, now) <==> Dips(slot, o, o', now)
    ensures SecondMissPast(o', now)
  {
    if Closes(slot, o, o', now) {
      NoticeAtClose(slot, o, o', now);
    } else if Opens(slot, o, o', now) {
      NoticeAtOpening(slot, o, o', now);
    }
  }

  // ---------------------------------------------------------------- the moves, on the tables

  /** A step at `now` does one of these things to a device, and dips if and only if `dips`. */
  ghost predicate Moves(db: Db, db': Db, d: DeviceId, now: int, dips: bool) {
    d in db.checks && d in db'.checks ==>
      var o, o' := OutlookOf(db, d), OutlookOf(db', d);
      Follows(d.slot, o, o', now) && (Dips(d.slot, o, o', now) <==> dips)
  }

  /** A step that changes nothing `noticeAfter` reads. */
  ghost predicate SameOutlook(db: Db, db': Db, d: DeviceId) {
    d in db.checks && d in db'.checks ==> OutlookOf(db', d) == OutlookOf(db, d)
  }

  lemma CloseMoves(db: Db, id: RoundId, result: RoundResult, reason: Option<SkipReason>, closedAt: int, now: int,
                   d: DeviceId)
    requires Inv(db) && id in db.rounds && db.rounds[id].result.None?
    requires ClosesInTime(Closing(id, result, closedAt), db.rounds[id].closesAt, now)
    ensures Moves(db, CloseRound(db, id, result, reason, closedAt), d, now,
                  db.rounds[id].device == d && result == Refused && d in db.checks && db.checks[d].misses == 1 &&
                  closedAt < db.rounds[id].closesAt)
  {
    assert At(id) && At(d);
    if d in db.checks {
      if d == db.rounds[id].device {
        CloseTallies(db, id, result, reason, closedAt, d);
        TallyCloses(d.slot, OutlookOf(db, d), Closing(id, result, closedAt), now);
      } else {
        assert SameOutlook(db, CloseRound(db, id, result, reason, closedAt), d);
      }
    }
  }

  lemma TallyCloses(slot: Slot, o: Outlook, c: Closing, now: int)
    requires o.closes.Some? && o.nextDueAt == RoundAfter(slot, o.closes.value - ROUND_LENGTH_S) &&
             ClosesInTime(c, o.closes.value, now)
    ensures var o' := Tally(o.(closes := None), c);
            && Closes(slot, o, o', now)
            && (Dips(slot, o, o', now) <==> o.misses == 1 && c.result == Refused && c.closedAt < o.closes.value)
  {
    var o' := Tally(o.(closes := None), c);
    assert LastOf(o'.log) == c;
  }

  /** Closing a device's open round takes it away and counts the closing. */
  lemma CloseTallies(db: Db, id: RoundId, result: RoundResult, reason: Option<SkipReason>, closedAt: int, d: DeviceId)
    requires id in db.rounds && db.rounds[id].result.None? && d == db.rounds[id].device && d in db.checks &&
             db.checks[d].roundId == Some(id)
    ensures var closed := CloseRound(db, id, result, reason, closedAt);
            && d in closed.checks && OutlookOf(db, d).closes == Some(db.rounds[id].closesAt)
            && OutlookOf(closed, d) == Tally(OutlookOf(db, d).(closes := None), Closing(id, result, closedAt))
  {
  }

  lemma ExpireMoves(db: Db, id: RoundId, now: int, d: DeviceId)
    requires Inv(db) && id in db.rounds && db.rounds[id].result.None? && now >= db.rounds[id].closesAt
    ensures Moves(db, Expire(db, id), d, now, false)
  {
    var r := db.rounds[id];
    CloseMoves(db, id, ExpiryResult(db.attempts, id),
               ExpiryReason(db.attempts, id, r, LastAlarm(db.devices, r.device)), r.closesAt, now, d);
  }

  lemma OpeningMoves(db: Db, d: DeviceId, now: int, db': Db)
    requires Inv(db) && Due(db, d, now) && db.checks[d].roundId.None?
    requires SameOutlook(Open(db, d, now), db', d)
    ensures Moves(db, db', d, now, false)
  {
    assert At(d);
  }

  lemma SkippingMoves(db: Db, d: DeviceId, reason: SkipReason, now: int)
    requires Inv(db) && Due(db, d, now) && db.checks[d].roundId.None?
    ensures Moves(db, Skip(db, d, None, reason, now), d, now, false)
  {
    assert At(d);
    var o, o' := OutlookOf(db, d), OutlookOf(Skip(db, d, None, reason, now), d);
    assert LastOf(o'.log) == Closing(db.nextRound, Skipped, now);
    assert o' == Tally(o.(nextDueAt := RoundAfter(d.slot, now)), LastOf(o'.log));
  }

  lemma OpenPlanMoves(db: Db, d: DeviceId, now: int)
    requires Inv(db) && Due(db, d, now) && d in db.devices && OpenRound(db.rounds, db.checks[d]).Some?
    ensures Moves(db, Plan(db, d, now).0, d, now, false)
  {
    assert At(d);
    var id := OpenRound(db.rounds, db.checks[d]).value;
    if now >= db.rounds[id].closesAt {
      ExpireMoves(db, id, now, d);
    } else if !GetsChecks(db.tiers, db.devices[d].account) {
      CloseMoves(db, id, Skipped, Some(TierLost), now, now, d);
    } else if db.devices[d].pushToken == "" {
      CloseMoves(db, id, Skipped, Some(NoToken), now, now, d);
    } else {
      assert SameOutlook(db, PushOn(db, db, d, id, now).0, d);
    }
  }

  lemma IdlePlanMoves(db: Db, d: DeviceId, now: int)
    requires Inv(db) && Due(db, d, now) && d in db.devices && OpenRound(db.rounds, db.checks[d]).None?
    ensures Moves(db, Plan(db, d, now).0, d, now, false)
  {
    assert At(d);
    NoAttemptsYet(db);
    if !GetsChecks(db.tiers, db.devices[d].account) {
      SkippingMoves(db, d, TierLost, now);
    } else if db.devices[d].pushToken == "" {
      SkippingMoves(db, d, NoToken, now);
    } else {
      OpeningMoves(db, d, now, Plan(db, d, now).0);
    }
  }

  lemma PlanMovesThis(db: Db, d: DeviceId, now: int)
    requires Inv(db)
    ensures Moves(db, Plan(db, d, now).0, d, now, false)
  {
    if Due(db, d, now) && d in db.devices {
      if OpenRound(db.rounds, db.checks[d]).Some? {
        OpenPlanMoves(db, d, now);
      } else {
        IdlePlanMoves(db, d, now);
      }
    }
  }

  /** A device whose enrolment and open round a step leaves as they are. */
  ghost predicate Spared(db: Db, db': Db, d: DeviceId) {
    && d in db.checks && d in db'.checks && db'.checks[d] == db.checks[d]
    && LogOf(db'.closings, d) == LogOf(db.closings, d)
    && var id := db.checks[d].roundId;
    (id.Some? && id.value in db.rounds ==> id.value in db'.rounds && db'.rounds[id.value] == db.rounds[id.value])
  }

  lemma CloseSparesOthers(db: Db, id: RoundId, result: RoundResult, reason: Option<SkipReason>, closedAt: int,
                          other: DeviceId)
    requires Inv(db) && id in db.rounds && other in db.checks && db.rounds[id].device != other
    ensures Spared(db, CloseRound(db, id, result, reason, closedAt), other)
  {
    assert At(other);
  }

  lemma PushSparesOthers(db: Db, d: DeviceId, now: int, other: DeviceId)
    requires Inv(db) && other != d && other in db.checks && Due(db, d, now) && d in db.devices
    requires GetsChecks(db.tiers, db.devices[d].account) && db.devices[d].pushToken != ""
    requires var open := OpenRound(db.rounds, db.checks[d]);
             open.Some? ==> now < db.rounds[open.value].closesAt
    ensures Spared(db, Plan(db, d, now).0, other)
  {
    assert At(d) && At(other);
    if db.checks[d].roundId.None? {
      NoAttemptsYet(db);
      OpeningSparesOthers(db, d, now, other);
    }
  }

  lemma OpeningSparesOthers(db: Db, d: DeviceId, now: int, other: DeviceId)
    requires other != d && other in db.checks && Due(db, d, now) && d in db.devices && db.checks[d].roundId.None?
    requires GetsChecks(db.tiers, db.devices[d].account) && db.devices[d].pushToken != ""
    requires db.nextRound !in db.rounds && db.checks[other].roundId != Some(db.nextRound)
    ensures Spared(db, Plan(db, d, now).0, other)
  {
  }

  /** A device's turn leaves every other device alone. */
  lemma PlanSparesOthers(db: Db, d: DeviceId, now: int, other: DeviceId)
    requires Inv(db) && other != d && other in db.checks
    ensures Spared(db, Plan(db, d, now).0, other)
  {
    if Due(db, d, now) && d in db.devices {
      assert At(d) && At(other);
      NoAttemptsYet(db);
      var open := OpenRound(db.rounds, db.checks[d]);
      if open.Some? && now >= db.rounds[open.value].closesAt {
        var r := db.rounds[open.value];
        CloseSparesOthers(db, open.value, ExpiryResult(db.attempts, open.value),
                          ExpiryReason(db.attempts, open.value, r, LastAlarm(db.devices, r.device)), r.closesAt, other);
      } else if GetsChecks(db.tiers, db.devices[d].account) && db.devices[d].pushToken != "" {
        PushSparesOthers(db, d, now, other);
      } else if open.Some? {
        CloseSparesOthers(db, open.value, Skipped, Some(TierLost), now, other);
        CloseSparesOthers(db, open.value, Skipped, Some(NoToken), now, other);
      }
    }
  }

  lemma PlanMoves(db: Db, d: DeviceId, now: int, d1: DeviceId)
    requires Inv(db)
    ensures Moves(db, Plan(db, d, now).0, d1, now, false)
  {
    if d1 == d {
      PlanMovesThis(db, d, now);
    } else if d1 in db.checks {
      PlanSparesOthers(db, d, now, d1);
      SparedMoves(db, Plan(db, d, now).0, d1, now);
    }
  }

  lemma SparedMoves(db: Db, db': Db, d: DeviceId, now: int)
    requires Inv(db) && (d in db.checks ==> Spared(db, db', d))
    ensures Moves(db, db', d, now, false)
  {
    assert At(d);
  }

  lemma ConfirmMoves(db: Db, planned: PlannedCheck, now: int, d: DeviceId)
    requires Inv(db)
    ensures Moves(db, Confirm(db, planned, now).0, d, now, false)
  {
    var id := planned.roundId;
    if id in db.rounds && db.rounds[id].result.None? && db.rounds[id].device in db.checks &&
        db.rounds[id].device in db.devices {
      CloseMoves(db, id, Skipped, Some(ConfirmReason(db, db.rounds[id].device)), now, now, d);
      if now >= db.rounds[id].closesAt {
        ExpireMoves(db, id, now, d);
      }
    }
  }

  lemma SettleMoves(db: Db, d: DeviceId, now: int, d1: DeviceId)
    requires Inv(db)
    ensures Moves(db, Settle(db, d, now), d1, now, false)
  {
    if d in db.checks && Settle(db, d, now) != db {
      ExpireMoves(db, OpenRound(db.rounds, db.checks[d]).value, now, d1);
    }
  }

  lemma CountMoves(db: Db, id: RoundId, note: Option<int>, time: Option<int>, now: int, d: DeviceId)
    requires Inv(db) && id in db.rounds && db.rounds[id].result.None? && now < db.rounds[id].closesAt
    ensures Moves(db, CountReceipt(db, id, note, time, now), d, now, false)
  {
    CloseMoves(db, id, Received, None, now, now, d);
    CloseKeepsInv(db, id, Received, None, now);
    NotesMove(CloseRound(db, id, Received, None, now), CountReceipt(db, id, note, time, now), id, d, now);
  }

  lemma LateMoves(db: Db, id: RoundId, now: int, d: DeviceId)
    requires Inv(db) && id in db.rounds && db.rounds[id].result.None? && now >= db.rounds[id].closesAt
    ensures Moves(db, NoteLate(Expire(db, id), id, now), d, now, false)
  {
    ExpireMoves(db, id, now, d);
    ExpireKeepsInv(db, id);
    NotesMove(Expire(db, id), NoteLate(Expire(db, id), id, now), id, d, now);
  }

  lemma ReceiptMoves(db: Db, d: DeviceId, checkId: Option<RoundId>, note: Option<int>, time: Option<int>, now: int,
                     d1: DeviceId)
    requires Inv(db)
    ensures Moves(db, Receipt(db, d, checkId, note, time, now).0, d1, now, false)
  {
    if checkId.Some? && checkId.value in db.rounds && db.rounds[checkId.value].device == d {
      var id := checkId.value;
      ReceiptIs(db, d, id, note, time, now);
      if db.rounds[id].result.Some? {
        NotesMove(db, NoteLate(db, id, now), id, d1, now);
      } else if now >= db.rounds[id].closesAt {
        LateMoves(db, id, now, d1);
      } else {
        CountMoves(db, id, note, time, now, d1);
      }
    }
  }

  /** Notes on a round that is already closed move nothing. */
  lemma NotesMove(db: Db, db': Db, id: RoundId, d: DeviceId, now: int)
    requires Inv(db) && id in db.rounds && db.rounds[id].result.Some?
    requires id in db'.rounds && SameRow(db.rounds[id], db'.rounds[id])
    requires db' == db.(rounds := db.rounds[id := db'.rounds[id]])
    ensures SameOutlook(db, db', d)
  {
  }

  lemma DisableMoves(db: Db, d: DeviceId, now: int, d1: DeviceId)
    requires Inv(db)
    ensures Moves(db, Disable(db, d, now), d1, now, false)
  {
    if d in db.checks && db.checks[d].enabled {
      assert At(d) && At(d1);
      var open := OpenRound(db.rounds, db.checks[d]);
      if open.Some? {
        DisableClosesThenSwitches(db, d, open.value, now);
        if now >= db.rounds[open.value].closesAt {
          ExpireMoves(db, open.value, now, d1);
          ExpireKeepsInv(db, open.value);
          SwitchingOffMoves(Expire(db, open.value), d, d1, now);
        } else {
          CloseMoves(db, open.value, Skipped, Some(Disabled), now, now, d1);
          CloseKeepsInv(db, open.value, Skipped, Some(Disabled), now);
          SwitchingOffMoves(CloseRound(db, open.value, Skipped, Some(Disabled), now), d, d1, now);
        }
      }
    }
  }

  lemma SwitchingOffMoves(db: Db, d: DeviceId, d1: DeviceId, now: int)
    requires Inv(db) && d in db.checks
    ensures SameOutlook(db, db.(checks := db.checks[d := SwitchedOff(db.checks[d])]), d1)
  {
  }

  /** A refusal that closes the second miss of a run early. */
  ghost predicate RefusedEarly(db: Db, id: RoundId, attempt: nat, outcome: AttemptOutcome, now: int, d: DeviceId) {
    && outcome == TokenRefused
    && (id, attempt) in db.attempts && db.attempts[(id, attempt)].outcome.None?
    && id in db.rounds && db.rounds[id].device == d && db.rounds[id].result.None?
    && d in db.checks && db.checks[d].misses == 1 && now < db.rounds[id].closesAt
  }

  lemma RecordMoves(db: Db, id: RoundId, attempt: nat, outcome: AttemptOutcome, status: int, now: int, d: DeviceId)
    requires Inv(db)
    ensures Moves(db, Record(db, id, attempt, outcome, status, now), d, now,
                  RefusedEarly(db, id, attempt, outcome, now, d))
  {
    if (id, attempt) in db.attempts && db.attempts[(id, attempt)].outcome.None? {
      assert At((id, attempt));
      var row := db.attempts[(id, attempt)].(outcome := Some(outcome), status := Some(status));
      var db1 := db.(attempts := db.attempts[(id, attempt) := row]);
      OutcomeKeepsInv(db, id, attempt, row);
      assert SameOutlook(db, db1, d);
      if outcome == TokenRefused && db.rounds[id].result.None? {
        CloseMoves(db1, id, Refused, None, now, now, d);
      }
    }
  }

  /** A new push token that makes a device due at once before its next round was. */
  ghost predicate DueEarly(db: Db, d1: DeviceId, token: PushToken, now: int, d: DeviceId) {
    && d1 == d && d in db.devices && db.devices[d].pushToken != token
    && d in db.checks && db.checks[d].enabled && db.checks[d].misses == 1 && db.checks[d].roundId.None?
    && now < db.checks[d].nextDueAt
  }

  lemma NewTokenMoves(db: Db, d1: DeviceId, token: PushToken, now: int, d: DeviceId)
    requires Inv(db)
    ensures Moves(db, NewToken(db, d1, token, now), d, now, DueEarly(db, d1, token, now, d))
  {
    assert At(d) && At(d1);
  }

  lemma ReleaseMoves(db: Db, d1: DeviceId, d: DeviceId, now: int)
    requires Inv(db)
    ensures Moves(db, Release(db, d1), d, now, false)
  {
    assert At(d);
  }

  // ---------------------------------------------------------------- every step

  /** The time a step reads off the clock, or `before` when it reads none. */
  function StepTime(step: Step, before: int): int {
    match step
    case EnableStep(_, now) => now
    case DisableStep(_, now) => now
    case SettleStep(_, now) => now
    case ReceiptStep(_, _, _, _, now) => now
    case PlanStep(_, now) => now
    case ConfirmStep(_, now) => now
    case RecordStep(_, _, _, _, now) => now
    case NewTokenStep(_, _, now) => now
    case PruneStep(now) => now
    case _ => before
  }

  /** The only two steps that lower `notice_after` of a device; each is a guard a caller can read before. */
  ghost predicate Lowers(db: Db, step: Step, d: DeviceId) {
    match step
    case RecordStep(id, attempt, outcome, _, now) => RefusedEarly(db, id, attempt, outcome, now, d)
    case NewTokenStep(d1, token, now) => DueEarly(db, d1, token, now, d)
    case _ => false
  }

  lemma StoreStepMoves(db: Db, step: Step, d: DeviceId, before: int)
    requires Inv(db) && StoreStep(step)
    ensures Moves(db, Apply(db, step), d, StepTime(step, before), Lowers(db, step, d))
  {
    match step
    case EnableStep(d1, now) => assert At(d1) && At(d);
    case DisableStep(d1, now) => DisableMoves(db, d1, now, d);
    case SettleStep(d1, now) => SettleMoves(db, d1, now, d);
    case ReceiptStep(d1, checkId, note, time, now) => ReceiptMoves(db, d1, checkId, note, time, now, d);
    case PlanStep(d1, now) => PlanMoves(db, d1, now, d);
    case ConfirmStep(planned, now) => ConfirmMoves(db, planned, now, d);
    case RecordStep(id, attempt, outcome, status, now) => RecordMoves(db, id, attempt, outcome, status, now, d);
  }

  lemma OtherTablesMove(db: Db, db': Db, d: DeviceId, now: int)
    requires db' == db.(tiers := db'.tiers, devices := db'.devices)
    ensures Moves(db, db', d, now, false)
  {
  }

  lemma OtherStepMoves(db: Db, step: Step, d: DeviceId, before: int)
    requires Inv(db) && !StoreStep(step)
    ensures Moves(db, Apply(db, step), d, StepTime(step, before), Lowers(db, step, d))
  {
    match step
    case NewTokenStep(d1, token, now) => NewTokenMoves(db, d1, token, now, d);
    case PruneStep(now) =>
    case ReleaseStep(d1) => ReleaseMoves(db, d1, d, before);
    case AlarmNoteStep(d1, at) => OtherTablesMove(db, WriteAlarmNote(db, d1, at), d, before);
    case TierStep(account, tier) => OtherTablesMove(db, SetTier(db, account, tier), d, before);
    case MoveStep(d1, account) => OtherTablesMove(db, Move(db, d1, account), d, before);
    case RegisterStep(d1, account, token) => OtherTablesMove(db, Register(db, d1, account, token), d, before);
    case Crash => OtherTablesMove(db, db, d, before);
  }

  /** Before either of the two, the value does not depend on the clock. */
  lemma StillBeforeLowering(db: Db, step: Step, d: DeviceId, before: int)
    requires Inv(db) && d in db.checks && Lowers(db, step, d) && before <= StepTime(step, before)
    ensures NoticeAfter(db, d, before) == NoticeAfter(db, d, StepTime(step, before))
  {
    assert At(d);
    if step.RecordStep? {
      assert At(step.id);
    }
  }

  /**
   Late scans, holds, receipts, skips, tier changes, switching off and on: no step at or after `before` lowers
   `notice_after`, except exactly the two that `Lowers` names.
   */
  lemma NoticeMovesBackIff(db: Db, step: Step, d: DeviceId, before: int)
    requires Inv(db) && d in db.checks && SecondMissPast(OutlookOf(db, d), before)
    requires before <= StepTime(step, before) && d in Apply(db, step).checks
    ensures NoticeAfter(Apply(db, step), d, StepTime(step, before)) < NoticeAfter(db, d, before) <==>
            Lowers(db, step, d)
    ensures SecondMissPast(OutlookOf(Apply(db, step), d), StepTime(step, before))
  {
    var now := StepTime(step, before);
    if StoreStep(step) {
      StoreStepMoves(db, step, d, before);
    } else {
      OtherStepMoves(db, step, d, before);
    }
    NoticeIs(db, d, before);
    NoticeIs(Apply(db, step), d, now);
    NoticeFollows(d.slot, OutlookOf(db, d), OutlookOf(Apply(db, step), d), now);
    NoticeOverTime(d.slot, OutlookOf(db, d), before, now);
    if Lowers(db, step, d) {
      StillBeforeLowering(db, step, d, before);
    }
  }

  // ---------------------------------------------------------------- every run

  /** A run whose clock never moves back and in which `d` stays enrolled, with no lowering step for it. */
  ghost predicate Forward(db: Db, steps: seq<Step>, d: DeviceId, before: int)
    decreases |steps|
  {
    d in db.checks &&
    (steps != [] ==>
       && before <= StepTime(steps[0], before)
       && !Lowers(db, steps[0], d)
       && Forward(Apply(db, steps[0]), steps[1..], d, StepTime(steps[0], before)))
  }

  function EndTime(steps: seq<Step>, before: int): int {
    if steps == [] then before else EndTime(steps[1..], StepTime(steps[0], before))
  }

  /** Along any such run `notice_after` never decreases. */
  lemma {:induction false} NoticeNeverDecreases(db: Db, steps: seq<Step>, d: DeviceId, before: int)
    requires Inv(db) && Forward(db, steps, d, before) && SecondMissPast(OutlookOf(db, d), before)
    ensures d in Run(db, steps).checks
    ensures NoticeAfter(db, d, before) <= NoticeAfter(Run(db, steps), d, EndTime(steps, before))
    decreases |steps|
  {
    if steps != [] {
      NoticeMovesBackIff(db, steps[0], d, before);
      StepKeepsInv(db, steps[0]);
      NoticeNeverDecreases(Apply(db, steps[0]), steps[1..], d, StepTime(steps[0], before));
    }
  }
}
