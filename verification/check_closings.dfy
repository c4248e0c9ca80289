/**
 How an open round ends: which step ends it, with which result, reason and time, and what the sender, the phone and the
 owner are told. All of it is read off the rows before the step.
 */
module CheckClosings {
  import opened Common
  import opened Tiers
  import opened CheckModel
  import opened CheckInvariant

  /** What is written when a round ends. */
  datatype Ending = Ending(result: RoundResult, reason: Option<SkipReason>, closedAt: int)

  ghost predicate PushAccepted(db: Db, id: RoundId) {
    exists k: nat :: (id, k) in db.attempts && db.attempts[(id, k)].outcome == Some(Accepted)
  }

  function CloseTime(r: Round): int {
    r.openedAt + 86_400
  }

  /** No push was ever made, the round was held, and a hold ran at its close by the round's or the device's own note. */
  predicate HeldThroughout(db: Db, r: Round) {
    && r.attempts == 0 && r.heldUntil.Some?
    && (CloseTime(r) <= r.heldUntil.value ||
        (if r.device in db.devices && db.devices[r.device].lastAlarmPushAt.Some?
         then CloseTime(r) <= db.devices[r.device].lastAlarmPushAt.value + 1_800 else CloseTime(r) <= 0))
  }

  /** A round whose close time has come with no receipt: a miss if and only if a provider accepted a push of it. */
  ghost function Unanswered(db: Db, id: RoundId): Ending
    requires id in db.rounds
  {
    var r := db.rounds[id];
    if PushAccepted(db, id) then Ending(Missed, None, CloseTime(r))
    else Ending(Skipped, Some(if HeldThroughout(db, r) then Held else Unsent), CloseTime(r))
  }

  predicate PaysForChecks(db: Db, d: DeviceId) {
    d in db.devices && db.devices[d].account in db.tiers && db.tiers[db.devices[d].account] == Hosted
  }

  predicate HasToken(db: Db, d: DeviceId) {
    d in db.devices && db.devices[d].pushToken != ""
  }

  /** A look at an open round before a push: its close, the tier and the token, in this order. */
  ghost function LookedAt(db: Db, id: RoundId, now: int): Option<Ending>
    requires id in db.rounds
  {
    var r := db.rounds[id];
    if now >= CloseTime(r) then Some(Unanswered(db, id))
    else if !PaysForChecks(db, r.device) then Some(Ending(Skipped, Some(TierLost), now))
    else if !HasToken(db, r.device) then Some(Ending(Skipped, Some(NoToken), now))
    else None
  }

  ghost function SwitchedOffAt(db: Db, id: RoundId, now: int): Ending
    requires id in db.rounds
  {
    if now >= CloseTime(db.rounds[id]) then Unanswered(db, id) else Ending(Skipped, Some(Disabled), now)
  }

  /** How a step ends the open round `id`, if it does. */
  ghost function EndingOf(db: Db, step: Step, id: RoundId): Option<Ending>
    requires id in db.rounds
  {
    var r := db.rounds[id];
    match step
    case PlanStep(d, now) =>
      if r.device == d && d in db.checks && db.checks[d].nextAttemptAt.Some? && db.checks[d].nextAttemptAt.value <= now
      then LookedAt(db, id, now) else None
    case ConfirmStep(planned, now) => if planned.roundId == id then LookedAt(db, id, now) else None
    case SettleStep(d, now) => if r.device == d && now >= CloseTime(r) then Some(Unanswered(db, id)) else None
    case DisableStep(d, now) => if r.device == d then Some(SwitchedOffAt(db, id, now)) else None
    case ReceiptStep(d, checkId, _, _, now) =>
      if r.device != d || checkId != Some(id) then None
      else if now < CloseTime(r) then Some(Ending(RoundResult.Received, None, now))
      else Some(Unanswered(db, id))
    case RecordStep(i, k, outcome, _, now) =>
      if i == id && (id, k) in db.attempts && db.attempts[(id, k)].outcome.None? && outcome == TokenRefused
      then Some(Ending(RoundResult.Refused, None, now)) else None
    case _ => None
  }

  /** The round's row after it ended so, or stayed open. */
  ghost predicate EndedAs(r: Round, r': Round, ending: Option<Ending>) {
    && (r'.device, r'.openedAt) == (r.device, r.openedAt)
    && match ending
       case None => r'.result.None? && r'.reason.None? && r'.closedAt.None?
       case Some(e) => (r'.result, r'.reason, r'.closedAt) == (Some(e.result), e.reason, Some(e.closedAt))
  }

  ghost predicate EndsAs(db: Db, db': Db, id: RoundId, ending: Option<Ending>)
    requires id in db.rounds
  {
    id in db'.rounds && EndedAs(db.rounds[id], db'.rounds[id], ending)
  }

  lemma AcceptedIs(db: Db, id: RoundId)
    ensures PushAccepted(db, id) <==> AnyAccepted(db.attempts, id)
  {
    if AnyAccepted(db.attempts, id) {
      var key :| key in db.attempts.Keys && key.0 == id && db.attempts[key].outcome == Some(Accepted);
      assert (id, key.1) == key;
    }
    if PushAccepted(db, id) {
      var k: nat :| (id, k) in db.attempts && db.attempts[(id, k)].outcome == Some(Accepted);
      assert (id, k) in db.attempts.Keys;
    }
  }

  /** Closing a round ends that one and no other. */
  lemma CloseEnds(db: Db, c: RoundId, result: RoundResult, reason: Option<SkipReason>, closedAt: int, id: RoundId)
    requires Inv(db) && c in db.rounds && id in db.rounds && db.rounds[id].result.None?
    ensures EndsAs(db, CloseRound(db, c, result, reason, closedAt), id,
                   if c == id then Some(Ending(result, reason, closedAt)) else None)
  {
    assert At(id);
  }

  lemma ExpireEnds(db: Db, c: RoundId, id: RoundId)
    requires Inv(db) && c in db.rounds && id in db.rounds && db.rounds[id].result.None?
    ensures EndsAs(db, Expire(db, c), id, if c == id then Some(Unanswered(db, id)) else None)
  {
    var r := db.rounds[c];
    assert At(c);
    AcceptedIs(db, c);
    CloseEnds(db, c, ExpiryResult(db.attempts, c), ExpiryReason(db.attempts, c, r, LastAlarm(db.devices, r.device)),
              r.closesAt, id);
  }

  // ---------------------------------------------------------------- step by step

  lemma SkipEnds(db: Db, d: DeviceId, open: Option<RoundId>, reason: SkipReason, now: int, id: RoundId)
    requires Inv(db) && id in db.rounds && db.rounds[id].result.None? && d in db.checks && open == db.checks[d].roundId
    requires open.Some? ==> open.value in db.rounds
    ensures EndsAs(db, Skip(db, d, open, reason, now), id,
                   if db.rounds[id].device == d then Some(Ending(Skipped, Some(reason), now)) else None)
  {
    assert At(id) && At(d);
    NoAttemptsYet(db);
    if open.Some? {
      assert At(open.value);
      CloseEnds(db, open.value, Skipped, Some(reason), now, id);
    }
  }

  /** A turn that goes on to a push ends no round. */
  lemma PushEnds(db: Db, ready: Db, d: DeviceId, now: int, pushed: RoundId, id: RoundId)
    requires Inv(db) && id in db.rounds && db.rounds[id].result.None?
    requires d in ready.checks && d in db.devices && pushed in ready.rounds
    requires id in ready.rounds && ready.rounds[id] == db.rounds[id]
    ensures EndsAs(db, PushOn(db, ready, d, pushed, now).0, id, None)
  {
    assert At(id);
  }

  lemma PlanEnds(db: Db, d: DeviceId, now: int, id: RoundId)
    requires Inv(db) && id in db.rounds && db.rounds[id].result.None?
    ensures EndsAs(db, Plan(db, d, now).0, id, EndingOf(db, PlanStep(d, now), id))
  {
    assert At(id) && At(db.rounds[id].device);
    if Due(db, d, now) && d in db.devices {
      assert At(d);
      var open := db.checks[d].roundId;
      if open.Some? && now >= db.rounds[open.value].closesAt {
        assert At(open.value);
        ExpireEnds(db, open.value, id);
      } else if !GetsChecks(db.tiers, db.devices[d].account) {
        SkipEnds(db, d, open, TierLost, now, id);
      } else if db.devices[d].pushToken == "" {
        SkipEnds(db, d, open, NoToken, now, id);
      } else if open.Some? {
        PushEnds(db, db, d, now, open.value, id);
      } else {
        NoAttemptsYet(db);
        PushEnds(db, Open(db, d, now), d, now, db.nextRound, id);
      }
    }
  }

  lemma ConfirmEnds(db: Db, planned: PlannedCheck, now: int, id: RoundId)
    requires Inv(db) && id in db.rounds && db.rounds[id].result.None?
    ensures EndsAs(db, Confirm(db, planned, now).0, id, EndingOf(db, ConfirmStep(planned, now), id))
  {
    var c := planned.roundId;
    assert At(id);
    if c in db.rounds && db.rounds[c].result.None? {
      assert At(c) && At(db.rounds[c].device);
      CloseEnds(db, c, Skipped, Some(ConfirmReason(db, db.rounds[c].device)), now, id);
      if now >= db.rounds[c].closesAt {
        ExpireEnds(db, c, id);
      }
    }
  }

  lemma SettleEnds(db: Db, d: DeviceId, now: int, id: RoundId)
    requires Inv(db) && id in db.rounds && db.rounds[id].result.None?
    ensures EndsAs(db, Settle(db, d, now), id, EndingOf(db, SettleStep(d, now), id))
  {
    assert At(id) && At(d);
    if d in db.checks && OpenRound(db.rounds, db.checks[d]).Some? {
      assert At(db.checks[d].roundId.value);
      ExpireEnds(db, OpenRound(db.rounds, db.checks[d]).value, id);
    }
  }

  lemma DisableEnds(db: Db, d: DeviceId, now: int, id: RoundId)
    requires Inv(db) && id in db.rounds && db.rounds[id].result.None?
    ensures EndsAs(db, Disable(db, d, now), id, EndingOf(db, DisableStep(d, now), id))
  {
    assert At(id) && At(d);
    if d in db.checks && db.checks[d].enabled && db.checks[d].roundId.Some? {
      var open := db.checks[d].roundId.value;
      assert At(open);
      DisableClosesThenSwitches(db, d, open, now);
      ExpireEnds(db, open, id);
      CloseEnds(db, open, Skipped, Some(Disabled), now, id);
    }
  }

  lemma RecordEnds(db: Db, c: RoundId, k: nat, outcome: AttemptOutcome, status: int, now: int, id: RoundId)
    requires Inv(db) && id in db.rounds && db.rounds[id].result.None?
    ensures EndsAs(db, Record(db, c, k, outcome, status, now), id,
                   EndingOf(db, RecordStep(c, k, outcome, status, now), id))
  {
    assert At(id);
    if (c, k) in db.attempts && db.attempts[(c, k)].outcome.None? {
      assert At((c, k));
      var row := db.attempts[(c, k)].(outcome := Some(outcome), status := Some(status));
      var db1 := db.(attempts := db.attempts[(c, k) := row]);
      OutcomeKeepsInv(db, c, k, row);
      CloseEnds(db1, c, Refused, None, now, id);
    }
  }

  lemma LateEnds(db: Db, c: RoundId, now: int, id: RoundId)
    requires Inv(db) && id in db.rounds && db.rounds[id].result.None? && c in db.rounds && db.rounds[c].result.Some?
    ensures EndsAs(db, NoteLate(db, c, now), id, None)
  {
    assert At(id);
  }

  lemma LateAfterExpiryEnds(db: Db, c: RoundId, now: int, id: RoundId)
    requires Inv(db) && id in db.rounds && db.rounds[id].result.None? && c in db.rounds && db.rounds[c].result.None?
    ensures EndsAs(db, NoteLate(Expire(db, c), c, now), id, if c == id then Some(Unanswered(db, id)) else None)
  {
    ExpireEnds(db, c, id);
  }

  lemma CountEnds(db: Db, c: RoundId, note: Option<int>, time: Option<int>, now: int, id: RoundId)
    requires Inv(db) && id in db.rounds && db.rounds[id].result.None? && c in db.rounds && db.rounds[c].result.None?
    ensures EndsAs(db, CountReceipt(db, c, note, time, now), id,
                   if c == id then Some(Ending(RoundResult.Received, None, now)) else None)
  {
    CloseEnds(db, c, Received, None, now, id);
  }

  lemma KnownReceiptEnds(db: Db, d: DeviceId, c: RoundId, note: Option<int>, time: Option<int>, now: int, id: RoundId)
    requires Inv(db) && id in db.rounds && db.rounds[id].result.None? && c in db.rounds && db.rounds[c].device == d
    ensures EndsAs(db, Receipt(db, d, Some(c), note, time, now).0, id,
                   if c != id then None
                   else if now < db.rounds[id].closesAt then Some(Ending(RoundResult.Received, None, now))
                   else Some(Unanswered(db, id)))
  {
    ReceiptIs(db, d, c, note, time, now);
    if db.rounds[c].result.Some? {
      LateEnds(db, c, now, id);
    } else if now >= db.rounds[c].closesAt {
      LateAfterExpiryEnds(db, c, now, id);
    } else {
      CountEnds(db, c, note, time, now, id);
    }
  }

  lemma ReceiptEnds(db: Db, d: DeviceId, checkId: Option<RoundId>, note: Option<int>, time: Option<int>, now: int,
                    id: RoundId)
    requires Inv(db) && id in db.rounds && db.rounds[id].result.None?
    ensures EndsAs(db, Receipt(db, d, checkId, note, time, now).0, id,
                   EndingOf(db, ReceiptStep(d, checkId, note, time, now), id))
  {
    assert At(id);
    if checkId.Some? && checkId.value in db.rounds && db.rounds[checkId.value].device == d {
      KnownReceiptEnds(db, d, checkId.value, note, time, now, id);
    }
  }

  lemma OtherStepEnds(db: Db, step: Step, id: RoundId)
    requires Inv(db) && id in db.rounds && db.rounds[id].result.None? && !StoreStep(step)
    ensures id in Apply(db, step).rounds ==> EndsAs(db, Apply(db, step), id, None)
    ensures id !in Apply(db, step).rounds ==> step == ReleaseStep(db.rounds[id].device)
  {
    assert At(id);
  }

  /**
   Whatever the server does next, an open round ends if and only if the rows say so, with the result, the reason and
   the time the rows give; only the device's release takes it away instead.
   */
  lemma RoundEndsAs(db: Db, step: Step, id: RoundId)
    requires Inv(db) && id in db.rounds && db.rounds[id].result.None?
    ensures step == ReleaseStep(db.rounds[id].device) || EndsAs(db, Apply(db, step), id, EndingOf(db, step, id))
  {
    match step
    case PlanStep(d, now) => PlanEnds(db, d, now, id);
    case ConfirmStep(planned, now) => ConfirmEnds(db, planned, now, id);
    case SettleStep(d, now) => SettleEnds(db, d, now, id);
    case DisableStep(d, now) => DisableEnds(db, d, now, id);
    case ReceiptStep(d, checkId, note, time, now) => ReceiptEnds(db, d, checkId, note, time, now, id);
    case RecordStep(c, k, outcome, status, now) => RecordEnds(db, c, k, outcome, status, now, id);
    case EnableStep(d, now) => EnableEnds(db, d, now, id);
    case _ => OtherStepEnds(db, step, id);
  }

  lemma EnableEnds(db: Db, d: DeviceId, now: int, id: RoundId)
    requires Inv(db) && id in db.rounds && db.rounds[id].result.None?
    ensures EndsAs(db, Enable(db, d, now), id, None)
  {
    assert At(id);
  }

  // ---------------------------------------------------------------- what is told

  /**
   A planned push leaves if and only if its round is open, nothing ends it at this look, and the token is the same.
   */
  lemma SentIff(db: Db, planned: PlannedCheck, now: int)
    requires Inv(db)
    ensures var (after, send) := Confirm(db, planned, now);
            var id := planned.roundId;
            && (send <==>
                && id in db.rounds && db.rounds[id].result.None? && LookedAt(db, id, now).None?
                && db.devices[db.rounds[id].device].pushToken == planned.pushToken)
            && (send ==> after == db)
  {
    var id := planned.roundId;
    if id in db.rounds {
      assert At(id) && At(db.rounds[id].device);
    }
  }

  /**
   A receipt is answered if and only if the device has such a round, and counts if and only if that round is received
   now: it was before, or it was open and its close had not come.
   */
  lemma CountedIff(db: Db, d: DeviceId, checkId: Option<RoundId>, note: Option<int>, time: Option<int>, now: int)
    requires Inv(db)
    ensures var (after, counted) := Receipt(db, d, checkId, note, time, now);
            && (counted.Some? <==> checkId.Some? && checkId.value in db.rounds && db.rounds[checkId.value].device == d)
            && (counted.None? ==> after == db)
            && (counted.Some? ==>
                  var r := db.rounds[checkId.value];
                  && checkId.value in after.rounds
                  && (counted.value <==> after.rounds[checkId.value].result == Some(RoundResult.Received))
                  && (counted.value <==>
                        r.result == Some(RoundResult.Received) || (r.result.None? && now < CloseTime(r)))
                  && NotesKept(r, after.rounds[checkId.value], counted.value, note, time, now))
  {
    if checkId.Some? && checkId.value in db.rounds && db.rounds[checkId.value].device == d {
      assert At(checkId.value);
      ReceiptIs(db, d, checkId.value, note, time, now);
    }
  }

  /**
   The first receipt that counts leaves its time and its two notes, the number only if it is one of the round's pushes;
   the first that comes late leaves its time. Any other leaves the notes as they are.
   */
  ghost predicate NotesKept(r: Round, r': Round, counted: bool, note: Option<int>, time: Option<int>, now: int) {
    if counted && r.result.None? then
      && r'.receiptAt == Some(now) && r'.deviceReceivedAt == time
      && r'.attemptReceived == (if note.Some? && 0 < note.value < r.attempts + 1 then note else None)
      && r'.lateReceiptAt == r.lateReceiptAt
    else
      && (r'.receiptAt, r'.deviceReceivedAt, r'.attemptReceived) == (r.receiptAt, r.deviceReceivedAt, r.attemptReceived)
      && r'.lateReceiptAt == (if counted || r.lateReceiptAt.Some? then r.lateReceiptAt else Some(now))
  }
}
