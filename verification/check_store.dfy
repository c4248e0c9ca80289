/** The class of src/check/store.ts: each method does its transaction step by step, and exactly what CheckModel says. */
module CheckStores {
  import opened Common
  import opened Schedule
  import opened Tiers
  import opened CheckModel

  function DueTime(checks: map<DeviceId, Enrolment>, d: DeviceId): int {
    if d in checks then checks[d].nextAttemptAt.GetOr(0) else 0
  }

  /** The order of the due list: oldest due first, then by device id. */
  predicate Sooner(checks: map<DeviceId, Enrolment>, a: DeviceId, b: DeviceId) {
    var s, t := DueTime(checks, a), DueTime(checks, b);
    s < t || (s == t && (a.key < b.key || (a.key == b.key && a.slot < b.slot)))
  }

  predicate Soonest(checks: map<DeviceId, Enrolment>, ds: set<DeviceId>, d: DeviceId) {
    d in ds && forall other <- ds :: other == d || Sooner(checks, d, other)
  }

  lemma {:induction false} SoonestExists(checks: map<DeviceId, Enrolment>, ds: set<DeviceId>)
    requires ds != {}
    ensures exists d :: Soonest(checks, ds, d)
    decreases ds
  {
    var d :| d in ds;
    if ds - {d} == {} {
      assert ds == {d};
      assert Soonest(checks, ds, d);
    } else {
      SoonestExists(checks, ds - {d});
      var first :| Soonest(checks, ds - {d}, first);
      if Sooner(checks, d, first) {
        forall other | other in ds ensures other == d || Sooner(checks, d, other) {
          assert other in ds - {d} || other == d;
        }
        assert Soonest(checks, ds, d);
      } else {
        assert Soonest(checks, ds, first);
      }
    }
  }

  /** What the due query returns: due devices only, oldest first, and all of them unless there are more than `limit`. */
  ghost predicate IsDueList(db: Db, list: seq<DeviceId>, limit: nat, now: int) {
    && |list| <= limit
    && (forall i :: 0 <= i < |list| ==> Due(db, list[i], now))
    && (forall i, j :: 0 <= i < j < |list| ==> Sooner(db.checks, list[i], list[j]))
    && (forall d :: Due(db, d, now) && d !in list ==>
                      |list| == limit && forall i :: 0 <= i < |list| ==> Sooner(db.checks, list[i], d))
  }

  class CheckStore {
    var tiers: map<AccountId, Tier>
    var devices: map<DeviceId, Device>
    var checks: map<DeviceId, Enrolment>
    var rounds: map<RoundId, Round>
    var attempts: map<(RoundId, nat), Attempt>
    var nextRound: RoundId
    ghost var handed: seq<(RoundId, nat)>
    ghost var closings: map<DeviceId, seq<Closing>>

    ghost function Tables(): Db
      reads this
    {
      Db(tiers, devices, checks, rounds, attempts, nextRound, handed, closings)
    }

    constructor ()
      ensures Tables() == EMPTY
    {
      tiers, devices, checks, rounds, attempts, nextRound := map[], map[], map[], map[], map[], 0;
      handed, closings := [], map[];
    }

    method Enable(d: DeviceId, now: int)
      modifies this
      ensures Tables() == CheckModel.Enable(old(Tables()), d, now)
    {
      if d !in checks {
        if d in devices {
          checks := checks[d := Enrolment(true, Some(now), now, None, 0, None, None, None, None)];
          closings := closings[d := []];
        }
        return;
      }
      if checks[d].enabled {
        return;
      }
      checks := checks[d := checks[d].(enabled := true, nextAttemptAt := Some(checks[d].nextDueAt))];
    }

    method Disable(d: DeviceId, now: int)
      modifies this
      ensures Tables() == CheckModel.Disable(old(Tables()), d, now)
    {
      if d !in checks || !checks[d].enabled {
        return;
      }
      var open := OpenRound(rounds, checks[d]);
      checks := checks[d := checks[d].(enabled := false, nextAttemptAt := None)];
      if open.None? {
        return;
      }
      if now >= rounds[open.value].closesAt {
        ExpireRound(open.value);
      } else {
        var _ := Close(open.value, Skipped, Some(Disabled), now);
      }
    }

    method Settle(d: DeviceId, now: int)
      modifies this
      ensures Tables() == CheckModel.Settle(old(Tables()), d, now)
    {
      if d !in checks {
        return;
      }
      var open := OpenRound(rounds, checks[d]);
      if open.Some? && now >= rounds[open.value].closesAt {
        ExpireRound(open.value);
      }
    }

    method View(d: DeviceId, account: AccountId, now: int) returns (view: CheckView)
      modifies this
      ensures Tables() == CheckModel.Settle(old(Tables()), d, now)
      ensures view == ViewOf(Tables(), d, account, now)
    {
      Settle(d, now);
      view := Look(d, account, now);
    }

    method Look(d: DeviceId, account: AccountId, now: int) returns (view: CheckView)
      ensures view == ViewOf(Tables(), d, account, now)
    {
      if d !in checks || !checks[d].enabled {
        return CheckView(false, Off, None, None);
      }
      if !GetsChecks(tiers, account) {
        return CheckView(true, Off, None, None);
      }
      var notice := Notice(d, now);
      var state := if d !in devices || devices[d].pushToken == "" then TokenMissing else StateOf(checks[d]);
      return CheckView(true, state, Some(checks[d].nextDueAt), Some(notice));
    }

    method Notice(d: DeviceId, now: int) returns (at: int)
      requires d in checks
      ensures at == NoticeAfter(Tables(), d, now)
    {
      var e := checks[d];
      if e.misses >= 2 {
        return e.secondMissAt.GetOr(now);
      }
      var open := OpenRound(rounds, e);
      if open.Some? {
        return if e.misses == 1 then rounds[open.value].closesAt else e.nextDueAt + ROUND_LENGTH_S;
      }
      var opens := Max(e.nextDueAt, now);
      if e.misses == 1 {
        return opens + ROUND_LENGTH_S;
      }
      return SlotAtOrAfter(d.slot, opens + MIN_ROUND_GAP_S) + ROUND_LENGTH_S;
    }

    method Receipt(d: DeviceId, account: AccountId, checkId: Option<RoundId>, attemptNote: Option<int>,
                   deviceTime: Option<int>, now: int)
      returns (answer: Option<ReceiptAnswer>)
      modifies this
      ensures Tables() == CheckModel.Receipt(old(Tables()), d, checkId, attemptNote, deviceTime, now).0
      ensures var counted := CheckModel.Receipt(old(Tables()), d, checkId, attemptNote, deviceTime, now).1;
              answer == if counted.None? then None
                        else var view := ViewOf(Tables(), d, account, now);
                             Some(ReceiptAnswer(counted.value, view.nextDueAt, view.noticeAfter))
    {
      if checkId.None? || checkId.value !in rounds || rounds[checkId.value].device != d {
        return None;
      }
      var id := checkId.value;
      if rounds[id].result.None? && now >= rounds[id].closesAt {
        ExpireRound(id);
      }
      var counted;
      if rounds[id].result.None? {
        var note := if ValidAttemptNote(attemptNote, rounds[id].attempts) then attemptNote else None;
        var _ := Close(id, Received, None, now);
        rounds := rounds[id := rounds[id].(receiptAt := Some(now), deviceReceivedAt := deviceTime,
                                           attemptReceived := note)];
        counted := true;
      } else if rounds[id].result == Some(Received) {
        counted := true;
      } else {
        rounds := rounds[id := rounds[id].(lateReceiptAt := if rounds[id].lateReceiptAt.None? then Some(now)
                                                            else rounds[id].lateReceiptAt)];
        counted := false;
      }
      var view := Look(d, account, now);
      return Some(ReceiptAnswer(counted, view.nextDueAt, view.noticeAfter));
    }

    /** `due`: the devices the scan should look at, no more than `limit`, oldest due first. */
    method DueNow(limit: nat, now: int) returns (list: seq<DeviceId>)
      ensures IsDueList(Tables(), list, limit, now)
    {
      list := [];
      var left := set d | d in checks && checks[d].enabled && checks[d].nextAttemptAt.Some? &&
          checks[d].nextAttemptAt.value <= now;
      while |list| < limit && left != {}
        invariant |list| <= limit
        invariant left <= checks.Keys
        invariant forall d :: Due(Tables(), d, now) <==> d in left || d in list
        invariant forall i :: 0 <= i < |list| ==> list[i] !in left && list[i] in checks
        invariant forall i, j :: 0 <= i < j < |list| ==> Sooner(checks, list[i], list[j])
        invariant forall i, d :: 0 <= i < |list| && d in left ==> Sooner(checks, list[i], d)
        decreases |left|
      {
        SoonestExists(checks, left);
        var d :| d in left && Soonest(checks, left, d);
        list := list + [d];
        left := left - {d};
      }
    }

    method Plan(d: DeviceId, now: int) returns (planned: Option<PlannedCheck>)
      modifies this
      ensures Tables() == CheckModel.Plan(old(Tables()), d, now).0
      ensures planned == CheckModel.Plan(old(Tables()), d, now).1
    {
      if d !in checks || !checks[d].enabled || checks[d].nextAttemptAt.None? || checks[d].nextAttemptAt.value > now {
        return None;
      }
      if d !in devices {
        return None;
      }
      var device := devices[d];
      var round := OpenRound(rounds, checks[d]);
      if round.Some? && now >= rounds[round.value].closesAt {
        ExpireRound(round.value);
        return None;
      }
      if !GetsChecks(tiers, device.account) {
        SkipRound(d, round, TierLost, now);
        return None;
      }
      if device.pushToken == "" {
        SkipRound(d, round, NoToken, now);
        return None;
      }
      var beforeChecks, beforeRounds, beforeNext := checks, rounds, nextRound;
      var id;
      if round.None? {
        id := OpenNew(d, now);
      } else {
        id := round.value;
      }
      if OnHold(device.lastAlarmPushAt, now) {
        HoldRound(d, id, device.lastAlarmPushAt.value + ALARM_HOLD_S);
        return None;
      }
      var attempt := rounds[id].attempts + 1;
      if attempt > MAX_ATTEMPTS {
        checks := checks[d := checks[d].(nextAttemptAt := Some(rounds[id].closesAt))];
        return None;
      }
      if (id, attempt) in attempts {
        // The primary key refuses the row, and the whole transaction is rolled back.
        checks, rounds, nextRound := beforeChecks, beforeRounds, beforeNext;
        return None;
      }
      RecordPush(d, id, now);
      return Some(PlannedCheck(id, attempt, device.pushToken));
    }

    /** A push waits for the end of a hold, or for the close of its round. */
    method HoldRound(d: DeviceId, id: RoundId, until: int)
      requires d in checks && id in rounds
      modifies this
      ensures Tables() == HoldPush(old(Tables()), d, id, until)
    {
      checks := checks[d := checks[d].(nextAttemptAt := Some(Min(until, rounds[id].closesAt)))];
      rounds := rounds[id := rounds[id].(heldUntil := Some(until))];
    }

    /** Puts the next push of a round on record and sets the timer for the one after it. */
    method RecordPush(d: DeviceId, id: RoundId, now: int)
      requires d in checks && id in rounds
      modifies this
      ensures Tables() == RecordAttempt(old(Tables()), d, id, now)
    {
      var attempt := rounds[id].attempts + 1;
      attempts := attempts[(id, attempt) := Attempt(now, None, None)];
      rounds := rounds[id := rounds[id].(attempts := attempt)];
      var ahead := if attempt >= MAX_ATTEMPTS then None else OffsetAhead(rounds[id].openedAt, now);
      var next := if ahead.None? then rounds[id].closesAt else Min(ahead.value, rounds[id].closesAt);
      checks := checks[d := checks[d].(nextAttemptAt := Some(next))];
      handed := handed + [(id, attempt)];
    }

    method Confirm(planned: PlannedCheck, now: int) returns (send: bool)
      modifies this
      ensures Tables() == CheckModel.Confirm(old(Tables()), planned, now).0
      ensures send == CheckModel.Confirm(old(Tables()), planned, now).1
    {
      var id := planned.roundId;
      if id !in rounds || rounds[id].result.Some? {
        return false;
      }
      var d := rounds[id].device;
      if d !in checks || d !in devices || checks[d].roundId != Some(id) {
        return false;
      }
      if !checks[d].enabled {
        var _ := Close(id, Skipped, Some(Disabled), now);
        return false;
      }
      if now >= rounds[id].closesAt {
        ExpireRound(id);
        return false;
      }
      if !GetsChecks(tiers, devices[d].account) {
        var _ := Close(id, Skipped, Some(TierLost), now);
        return false;
      }
      if devices[d].pushToken == "" {
        var _ := Close(id, Skipped, Some(NoToken), now);
        return false;
      }
      return devices[d].pushToken == planned.pushToken;
    }

    method Record(id: RoundId, attempt: nat, outcome: AttemptOutcome, status: int, now: int)
      modifies this
      ensures Tables() == CheckModel.Record(old(Tables()), id, attempt, outcome, status, now)
    {
      var key := (id, attempt);
      if key !in attempts || attempts[key].outcome.Some? {
        return;
      }
      attempts := attempts[key := attempts[key].(outcome := Some(outcome), status := Some(status))];
      if id !in rounds {
        return;
      }
      var d := rounds[id].device;
      if outcome == Accepted && d in checks {
        checks := checks[d := checks[d].(lastSentAt := Some(now))];
      }
      if outcome == TokenRefused && rounds[id].result.None? {
        var _ := Close(id, Refused, None, now);
      }
    }

    method ExpireRound(id: RoundId)
      requires id in rounds
      modifies this
      ensures Tables() == Expire(old(Tables()), id)
    {
      var round := rounds[id];
      if AnyAccepted(attempts, id) {
        var _ := Close(id, Missed, None, round.closesAt);
        return;
      }
      var lastAlarm := LastAlarm(devices, round.device);
      var holdEnds := Max(round.heldUntil.GetOr(0), if lastAlarm.Some? then lastAlarm.value + ALARM_HOLD_S else 0);
      var heldToTheEnd := round.attempts == 0 && round.heldUntil.Some? && holdEnds >= round.closesAt;
      var _ := Close(id, Skipped, Some(if heldToTheEnd then Held else Unsent), round.closesAt);
    }

    method SkipRound(d: DeviceId, round: Option<RoundId>, reason: SkipReason, now: int)
      requires d in checks
      requires round.Some? ==> round.value in rounds
      modifies this
      ensures Tables() == Skip(old(Tables()), d, round, reason, now)
    {
      if round.Some? {
        var _ := Close(round.value, Skipped, Some(reason), now);
        return;
      }
      var id := nextRound;
      nextRound := nextRound + 1;
      rounds := rounds[id := Round(d, now, now + ROUND_LENGTH_S, Some(now), 0, Some(Skipped), Some(reason), None,
                                   None, None, None, None)];
      var next := RoundAfter(d.slot, now);
      checks := checks[d := checks[d].(nextDueAt := next, nextAttemptAt := Some(next))];
      closings := closings[d := LogOf(closings, d) + [Closing(id, Skipped, now)]];
    }

    method OpenNew(d: DeviceId, now: int) returns (id: RoundId)
      requires d in checks
      modifies this
      ensures Tables() == Open(old(Tables()), d, now) && id == old(nextRound)
    {
      id := nextRound;
      nextRound := nextRound + 1;
      rounds := rounds[id := Round(d, now, now + ROUND_LENGTH_S, None, 0, None, None, None, None, None, None, None)];
      checks := checks[d := checks[d].(roundId := Some(id), nextDueAt := RoundAfter(d.slot, now))];
    }

    /** Writes a round's result, once. */
    method Close(id: RoundId, result: RoundResult, reason: Option<SkipReason>, closedAt: int) returns (written: bool)
      requires id in rounds
      modifies this
      ensures Tables() == CloseRound(old(Tables()), id, result, reason, closedAt)
      ensures written <==> old(rounds)[id].result.None?
    {
      var round := rounds[id];
      if round.result.Some? {
        return false;
      }
      rounds := rounds[id := round.(result := Some(result), reason := reason, closedAt := Some(closedAt))];
      var d := round.device;
      if d !in checks {
        return true;
      }
      var e := checks[d];
      if e.roundId == Some(id) {
        e := e.(roundId := None, nextAttemptAt := if e.enabled then Some(e.nextDueAt) else None);
      }
      if result == Received {
        e := e.(misses := 0, lastResult := Some(Received), secondMissAt := None, lastReceivedAt := Some(closedAt));
      } else if result == Missed || result == Refused {
        e := e.(secondMissAt := if e.misses == 1 then Some(closedAt) else e.secondMissAt,
                misses := e.misses + 1, lastResult := Some(result));
      }
      checks := checks[d := e];
      closings := closings[d := LogOf(closings, d) + [Closing(id, result, closedAt)]];
      return true;
    }

    // -------------------------------------------------------------- what the rest of the server writes

    method CheckDueAfterNewToken(d: DeviceId, now: int)
      modifies this
      ensures Tables() == NewTokenHook(old(Tables()), d, now)
    {
      if d in checks && checks[d].enabled && checks[d].misses > 0 && checks[d].roundId.None? {
        checks := checks[d := checks[d].(nextDueAt := now, nextAttemptAt := Some(now))];
      }
    }

    method NoteAlarm(d: DeviceId, at: int)
      modifies this
      ensures Tables() == WriteAlarmNote(old(Tables()), d, at)
    {
      if d in devices && (devices[d].lastAlarmPushAt.None? || devices[d].lastAlarmPushAt.value < at) {
        devices := devices[d := devices[d].(lastAlarmPushAt := Some(at))];
      }
    }

    method PruneRounds(now: int)
      modifies this
      ensures Tables() == Prune(old(Tables()), now)
    {
      rounds := map id | id in rounds &&
          !(rounds[id].result.Some? && rounds[id].openedAt < now - ROUND_RETENTION_S) :: rounds[id];
      attempts := KeepAttempts(attempts, rounds);
    }
  }
}
