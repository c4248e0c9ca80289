/**
 The tables of the weekly check as one value, and every transaction on them as a function
 (src/check/store.ts, src/check/device-hooks.ts, src/retention/prune.ts).
 `CheckStore` in check_store.dfy is the class whose methods are proved to do exactly this.
 */
module CheckModel {
  import opened Common
  import opened Schedule
  import opened Tiers

  /** A device id, with the second of the week its hash gives (`slotFor`). */
  datatype DeviceId = DeviceId(key: nat, slot: Slot)
  type AccountId = nat
  /** Random round ids are drawn in order of creation, so a fresh one is never one seen before. */
  type RoundId = nat
  type PushToken = string

  datatype RoundResult = Received | Missed | Refused | Skipped
  datatype SkipReason = TierLost | NoToken | Disabled | Held | Unsent
  datatype AttemptOutcome = Accepted | TokenRefused | Failed | Cancelled
  datatype CheckState = Waiting | LastReceived | MissedOnce | MissedRepeatedly | RefusedOnce | TokenMissing | Off

  /** A row of `device_checks`. */
  datatype Enrolment = Enrolment(
    enabled: bool,
    nextAttemptAt: Option<int>,
    nextDueAt: int,
    roundId: Option<RoundId>,
    misses: nat,
    lastResult: Option<RoundResult>,
    secondMissAt: Option<int>,
    lastSentAt: Option<int>,
    lastReceivedAt: Option<int>)

  /** A row of `check_rounds`. */
  datatype Round = Round(
    device: DeviceId,
    openedAt: int,
    closesAt: int,
    closedAt: Option<int>,
    attempts: nat,
    result: Option<RoundResult>,
    reason: Option<SkipReason>,
    heldUntil: Option<int>,
    attemptReceived: Option<int>,
    receiptAt: Option<int>,
    deviceReceivedAt: Option<int>,
    lateReceiptAt: Option<int>)

  /** A row of `check_attempts`. */
  datatype Attempt = Attempt(recordedAt: int, outcome: Option<AttemptOutcome>, status: Option<int>)

  /** The columns of `devices` the check reads. An empty token means the device has none. */
  datatype Device = Device(account: AccountId, lastAlarmPushAt: Option<int>, pushToken: PushToken)

  datatype PlannedCheck = PlannedCheck(roundId: RoundId, attempt: nat, pushToken: PushToken)

  datatype ReceiptAnswer = ReceiptAnswer(counted: bool, nextDueAt: Option<int>, noticeAfter: Option<int>)

  datatype CheckView = CheckView(enabled: bool, state: CheckState, nextDueAt: Option<int>, noticeAfter: Option<int>)

  /** One round closing, as the history remembers it. */
  datatype Closing = Closing(id: RoundId, result: RoundResult, closedAt: int)

  /**
   The tables, and two histories no code reads: every attempt handed to a sender, and for each
   enrolled device every round that closed, in order. Pruning removes rows but never history.
   */
  datatype Db = Db(
    tiers: map<AccountId, Tier>,
    devices: map<DeviceId, Device>,
    checks: map<DeviceId, Enrolment>,
    rounds: map<RoundId, Round>,
    attempts: map<(RoundId, nat), Attempt>,
    nextRound: RoundId,
    handed: seq<(RoundId, nat)>,
    closings: map<DeviceId, seq<Closing>>)

  predicate GetsChecks(tiers: map<AccountId, Tier>, account: AccountId) {
    account in tiers && tiers[account] == Hosted
  }

  function OpenRound(rounds: map<RoundId, Round>, e: Enrolment): Option<RoundId> {
    if e.roundId.Some? && e.roundId.value in rounds && rounds[e.roundId.value].result.None?
    then e.roundId else None
  }

  predicate AnyAccepted(attempts: map<(RoundId, nat), Attempt>, id: RoundId) {
    exists key <- attempts.Keys :: key.0 == id && attempts[key].outcome == Some(Accepted)
  }

  predicate OnHold(lastAlarm: Option<int>, now: int) {
    lastAlarm.Some? && now - lastAlarm.value < ALARM_HOLD_S
  }

  // ---------------------------------------------------------------- closing a round

  /** The counters of `device_checks` after a round closes. */
  function Score(e: Enrolment, result: RoundResult, closedAt: int): Enrolment {
    match result
    case Received => e.(misses := 0, lastResult := Some(Received), secondMissAt := None,
                        lastReceivedAt := Some(closedAt))
    case Skipped => e
    case _ => e.(secondMissAt := if e.misses == 1 then Some(closedAt) else e.secondMissAt,
                 misses := e.misses + 1,
                 lastResult := Some(result))
  }

  function Unname(e: Enrolment, id: RoundId): Enrolment {
    if e.roundId == Some(id)
    then e.(roundId := None, nextAttemptAt := if e.enabled then Some(e.nextDueAt) else None)
    else e
  }

  function CloseRound(db: Db, id: RoundId, result: RoundResult, reason: Option<SkipReason>, closedAt: int): (closed: Db)
    requires id in db.rounds
    ensures closed.rounds.Keys == db.rounds.Keys && closed.checks.Keys == db.checks.Keys && closed.handed == db.handed
    ensures closed.rounds[id].result == if db.rounds[id].result.Some? then db.rounds[id].result else Some(result)
  {
    var round := db.rounds[id];
    if round.result.Some? then db
    else
      var db' := db.(rounds := db.rounds[id := round.(result := Some(result), reason := reason,
                                                      closedAt := Some(closedAt))]);
      var d := round.device;
      if d !in db.checks then db'
      else db'.(checks := db.checks[d := Score(Unname(db.checks[d], id), result, closedAt)],
                closings := db.closings[d := LogOf(db.closings, d) + [Closing(id, result, closedAt)]])
  }

  function LogOf(closings: map<DeviceId, seq<Closing>>, d: DeviceId): seq<Closing> {
    if d in closings then closings[d] else []
  }

  /** Whether a hold was still running when the round closed, as the code computes it. */
  predicate HeldToTheEnd(round: Round, lastAlarm: Option<int>) {
    round.attempts == 0 && round.heldUntil.Some? &&
    Max(round.heldUntil.value, if lastAlarm.Some? then lastAlarm.value + ALARM_HOLD_S else 0) >= round.closesAt
  }

  function LastAlarm(devices: map<DeviceId, Device>, d: DeviceId): Option<int> {
    if d in devices then devices[d].lastAlarmPushAt else None
  }

  /** A round with no receipt is a miss only when a provider accepted one of its pushes. */
  function ExpiryResult(attempts: map<(RoundId, nat), Attempt>, id: RoundId): RoundResult {
    if AnyAccepted(attempts, id) then Missed else Skipped
  }

  function ExpiryReason(attempts: map<(RoundId, nat), Attempt>, id: RoundId, round: Round,
                        lastAlarm: Option<int>): Option<SkipReason> {
    if AnyAccepted(attempts, id) then None
    else if HeldToTheEnd(round, lastAlarm) then Some(Held)
    else Some(Unsent)
  }

  function Expire(db: Db, id: RoundId): Db
    requires id in db.rounds
  {
    var round := db.rounds[id];
    CloseRound(db, id, ExpiryResult(db.attempts, id),
               ExpiryReason(db.attempts, id, round, LastAlarm(db.devices, round.device)), round.closesAt)
  }

  // ---------------------------------------------------------------- the scan's turn

  function FreshRound(d: DeviceId, now: int): Round {
    Round(d, now, now + ROUND_LENGTH_S, None, 0, None, None, None, None, None, None, None)
  }

  function Open(db: Db, d: DeviceId, now: int): Db
    requires d in db.checks
  {
    db.(rounds := db.rounds[db.nextRound := FreshRound(d, now)],
        checks := db.checks[d := db.checks[d].(roundId := Some(db.nextRound), nextDueAt := RoundAfter(d.slot, now))],
        nextRound := db.nextRound + 1)
  }

  /** Skips the open round, or writes down the round that was due as skipped. */
  function Skip(db: Db, d: DeviceId, open: Option<RoundId>, reason: SkipReason, now: int): Db
    requires d in db.checks
    requires open.Some? ==> open.value in db.rounds
  {
    if open.Some? then CloseRound(db, open.value, Skipped, Some(reason), now)
    else
      var next := RoundAfter(d.slot, now);
      var row := FreshRound(d, now).(closedAt := Some(now), result := Some(Skipped), reason := Some(reason));
      db.(rounds := db.rounds[db.nextRound := row],
          checks := db.checks[d := db.checks[d].(nextDueAt := next, nextAttemptAt := Some(next))],
          nextRound := db.nextRound + 1,
          closings := db.closings[d := LogOf(db.closings, d) + [Closing(db.nextRound, Skipped, now)]])
  }

  function NextPush(openedAt: int, attempt: nat, closesAt: int, now: int): int {
    var ahead := if attempt >= MAX_ATTEMPTS then None else OffsetAhead(openedAt, now);
    if ahead.None? then closesAt else Min(ahead.value, closesAt)
  }

  function SetNextAttempt(db: Db, d: DeviceId, at: int): Db
    requires d in db.checks
  {
    db.(checks := db.checks[d := db.checks[d].(nextAttemptAt := Some(at))])
  }

  function HoldPush(db: Db, d: DeviceId, id: RoundId, until: int): Db
    requires d in db.checks && id in db.rounds
  {
    SetNextAttempt(db, d, Min(until, db.rounds[id].closesAt))
      .(rounds := db.rounds[id := db.rounds[id].(heldUntil := Some(until))])
  }

  function RecordAttempt(db: Db, d: DeviceId, id: RoundId, now: int): Db
    requires d in db.checks && id in db.rounds
  {
    var round := db.rounds[id];
    var attempt := round.attempts + 1;
    SetNextAttempt(db, d, NextPush(round.openedAt, attempt, round.closesAt, now))
      .(attempts := db.attempts[(id, attempt) := Attempt(now, None, None)],
        rounds := db.rounds[id := round.(attempts := attempt)],
        handed := db.handed + [(id, attempt)])
  }

  predicate Due(db: Db, d: DeviceId, now: int) {
    d in db.checks && db.checks[d].enabled && db.checks[d].nextAttemptAt.Some? &&
        db.checks[d].nextAttemptAt.value <= now
  }

  /** The open round's next push, held, skipped over or put on record. `ready` is `db` with the round open. */
  function PushOn(db: Db, ready: Db, d: DeviceId, id: RoundId, now: int): (pushed: (Db, Option<PlannedCheck>))
    requires d in ready.checks && d in db.devices && id in ready.rounds
    ensures ready.checks.Keys == db.checks.Keys ==> pushed.0.checks.Keys == db.checks.Keys
  {
    var device, round := db.devices[d], ready.rounds[id];
    if OnHold(device.lastAlarmPushAt, now)
    then (HoldPush(ready, d, id, device.lastAlarmPushAt.value + ALARM_HOLD_S), None)
    else if round.attempts + 1 > MAX_ATTEMPTS then (SetNextAttempt(ready, d, round.closesAt), None)
    else if (id, round.attempts + 1) in db.attempts then (db, None) // the primary key rolls everything back
    else (RecordAttempt(ready, d, id, now), Some(PlannedCheck(id, round.attempts + 1, device.pushToken)))
  }

  /** `plan`: one device's turn in the scan, and the push to send, if any. */
  function Plan(db: Db, d: DeviceId, now: int): (Db, Option<PlannedCheck>) {
    if !Due(db, d, now) || d !in db.devices then (db, None)
    else
      var device := db.devices[d];
      var open := OpenRound(db.rounds, db.checks[d]);
      if open.Some? && now >= db.rounds[open.value].closesAt then (Expire(db, open.value), None)
      else if !GetsChecks(db.tiers, device.account) then (Skip(db, d, open, TierLost, now), None)
      else if device.pushToken == "" then (Skip(db, d, open, NoToken, now), None)
      else
        PushOn(db, if open.Some? then db else Open(db, d, now), d, if open.Some? then open.value else db.nextRound, now)
  }

  /** `confirm`: asked just before the bytes of a planned push leave. */
  function Confirm(db: Db, planned: PlannedCheck, now: int): (Db, bool) {
    var id := planned.roundId;
    if id !in db.rounds || db.rounds[id].result.Some? then (db, false)
    else
      var d := db.rounds[id].device;
      if d !in db.checks || d !in db.devices || db.checks[d].roundId != Some(id) then (db, false)
      else if !db.checks[d].enabled then (CloseRound(db, id, Skipped, Some(Disabled), now), false)
      else if now >= db.rounds[id].closesAt then (Expire(db, id), false)
      else if !GetsChecks(db.tiers, db.devices[d].account)
          then (CloseRound(db, id, Skipped, Some(TierLost), now), false)
      else if db.devices[d].pushToken == "" then (CloseRound(db, id, Skipped, Some(NoToken), now), false)
      else (db, db.devices[d].pushToken == planned.pushToken)
  }

  /** `record`: what the provider said about an attempt. */
  function Record(db: Db, id: RoundId, attempt: nat, outcome: AttemptOutcome, status: int, now: int): Db {
    if (id, attempt) !in db.attempts || db.attempts[(id, attempt)].outcome.Some? then db
    else
      var row := db.attempts[(id, attempt)].(outcome := Some(outcome), status := Some(status));
      var db1 := db.(attempts := db.attempts[(id, attempt) := row]);
      if id !in db.rounds then db1
      else
        var d := db.rounds[id].device;
        var db2 := if outcome == Accepted && d in db.checks
                   then db1.(checks := db.checks[d := db.checks[d].(lastSentAt := Some(now))]) else db1;
        if outcome == TokenRefused && db.rounds[id].result.None? then CloseRound(db2, id, Refused, None, now) else db2
  }

  // ---------------------------------------------------------------- the routes

  function Enable(db: Db, d: DeviceId, now: int): Db {
    if d !in db.checks
    then if d !in db.devices then db // the foreign key refuses the row
         else db.(checks := db.checks[d := Enrolment(true, Some(now), now, None, 0, None, None, None, None)],
                  closings := db.closings[d := []])
    else if db.checks[d].enabled then db
    else db.(checks := db.checks[d := db.checks[d].(enabled := true, nextAttemptAt := Some(db.checks[d].nextDueAt))])
  }

  function Disable(db: Db, d: DeviceId, now: int): Db {
    if d !in db.checks || !db.checks[d].enabled then db
    else
      var off := db.(checks := db.checks[d := db.checks[d].(enabled := false, nextAttemptAt := None)]);
      var open := OpenRound(db.rounds, db.checks[d]);
      if open.None? then off
      else if now >= db.rounds[open.value].closesAt then Expire(off, open.value)
      else CloseRound(off, open.value, Skipped, Some(Disabled), now)
  }

  function Settle(db: Db, d: DeviceId, now: int): Db {
    if d !in db.checks then db
    else
      var open := OpenRound(db.rounds, db.checks[d]);
      if open.Some? && now >= db.rounds[open.value].closesAt then Expire(db, open.value) else db
  }

  function NoticeAfter(db: Db, d: DeviceId, now: int): int
    requires d in db.checks
  {
    var e := db.checks[d];
    var open := OpenRound(db.rounds, e);
    if e.misses >= 2 then e.secondMissAt.GetOr(now)
    else if open.Some?
    then if e.misses == 1 then db.rounds[open.value].closesAt else e.nextDueAt + ROUND_LENGTH_S
    else
      var opens := Max(e.nextDueAt, now);
      if e.misses == 1 then opens + ROUND_LENGTH_S
      else SlotAtOrAfter(d.slot, opens + MIN_ROUND_GAP_S) + ROUND_LENGTH_S
  }

  function StateOf(e: Enrolment): CheckState {
    if e.lastResult.None? then Waiting
    else if e.lastResult == Some(Received) then LastReceived
    else if e.misses >= 2 then MissedRepeatedly
    else if e.lastResult == Some(Refused) then RefusedOnce
    else MissedOnce
  }

  function ViewOf(db: Db, d: DeviceId, account: AccountId, now: int): CheckView {
    if d !in db.checks || !db.checks[d].enabled then CheckView(false, Off, None, None)
    else if !GetsChecks(db.tiers, account) then CheckView(true, Off, None, None)
    else
      var state := if d !in db.devices || db.devices[d].pushToken == "" then TokenMissing else StateOf(db.checks[d]);
      CheckView(true, state, Some(db.checks[d].nextDueAt), Some(NoticeAfter(db, d, now)))
  }

  predicate ValidAttemptNote(note: Option<int>, attempts: nat) {
    note.Some? && 1 <= note.value <= attempts
  }

  /** A receipt that counts closes its round as received and keeps the two notes. */
  function CountReceipt(db: Db, id: RoundId, attemptNote: Option<int>, deviceTime: Option<int>, now: int): Db
    requires id in db.rounds
  {
    var closed := CloseRound(db, id, Received, None, now);
    var note := if ValidAttemptNote(attemptNote, db.rounds[id].attempts) then attemptNote else None;
    closed.(rounds := closed.rounds[id := closed.rounds[id].(receiptAt := Some(now), deviceReceivedAt := deviceTime,
                                                             attemptReceived := note)])
  }

  function NoteLate(db: Db, id: RoundId, now: int): Db
    requires id in db.rounds
  {
    var r := db.rounds[id];
    db.(rounds := db.rounds[id := r.(lateReceiptAt := if r.lateReceiptAt.None? then Some(now) else r.lateReceiptAt)])
  }

  /** `receipt`. A malformed or unknown check id is `None` or names no round of this device. */
  function Receipt(db: Db, d: DeviceId, checkId: Option<RoundId>, attemptNote: Option<int>, deviceTime: Option<int>,
                   now: int)
    : (Db, Option<bool>)
  {
    if checkId.None? || checkId.value !in db.rounds || db.rounds[checkId.value].device != d then (db, None)
    else
      var id := checkId.value;
      var db1 := if db.rounds[id].result.None? && now >= db.rounds[id].closesAt then Expire(db, id) else db;
      if db1.rounds[id].result.None? then (CountReceipt(db1, id, attemptNote, deviceTime, now), Some(true))
      else if db1.rounds[id].result == Some(Received) then (db1, Some(true))
      else (NoteLate(db1, id, now), Some(false))
  }

  // ---------------------------------------------------------------- what the rest of the server does

  /** `checkDueAfterNewToken`. */
  function NewTokenHook(db: Db, d: DeviceId, now: int): Db {
    if d in db.checks && db.checks[d].enabled && db.checks[d].misses > 0 && db.checks[d].roundId.None?
    then db.(checks := db.checks[d := db.checks[d].(nextDueAt := now, nextAttemptAt := Some(now))])
    else db
  }

  /** A device update that changes the token runs the hook after it. */
  function NewToken(db: Db, d: DeviceId, token: PushToken, now: int): Db {
    if d !in db.devices || db.devices[d].pushToken == token then db
    else NewTokenHook(db.(devices := db.devices[d := db.devices[d].(pushToken := token)]), d, now)
  }

  /** `alarmNoteWriter`. */
  function WriteAlarmNote(db: Db, d: DeviceId, at: int): Db {
    if d in db.devices && (db.devices[d].lastAlarmPushAt.None? || db.devices[d].lastAlarmPushAt.value < at)
    then db.(devices := db.devices[d := db.devices[d].(lastAlarmPushAt := Some(at))])
    else db
  }

  function KeepAttempts(attempts: map<(RoundId, nat), Attempt>,
                        rounds: map<RoundId, Round>): map<(RoundId, nat), Attempt> {
    map key | key in attempts && key.0 in rounds :: attempts[key]
  }

  /** `pruneCheckRounds`, with the attempts that hang off the deleted rounds. */
  function Prune(db: Db, now: int): Db {
    var kept := map id | id in db.rounds &&
        !(db.rounds[id].result.Some? && db.rounds[id].openedAt < now - ROUND_RETENTION_S)
                  :: db.rounds[id];
    db.(rounds := kept, attempts := KeepAttempts(db.attempts, kept))
  }

  /** Deleting a device takes its check rows with it. */
  function Release(db: Db, d: DeviceId): Db {
    var kept := map id | id in db.rounds && db.rounds[id].device != d :: db.rounds[id];
    db.(devices := db.devices - {d}, checks := db.checks - {d}, rounds := kept,
        attempts := KeepAttempts(db.attempts, kept), closings := db.closings - {d})
  }

  function SetTier(db: Db, account: AccountId, tier: Tier): Db {
    db.(tiers := db.tiers[account := tier])
  }

  function Move(db: Db, d: DeviceId, account: AccountId): Db {
    if d !in db.devices then db else db.(devices := db.devices[d := db.devices[d].(account := account)])
  }

  function Register(db: Db, d: DeviceId, account: AccountId, token: PushToken): Db {
    if d in db.devices then db else db.(devices := db.devices[d := Device(account, None, token)])
  }

  /** One atomic step of the server. `Crash` loses only memory, so the tables stay as they are. */
  datatype Step =
    | EnableStep(d: DeviceId, now: int)
    | DisableStep(d: DeviceId, now: int)
    | SettleStep(d: DeviceId, now: int)
    | ReceiptStep(d: DeviceId, checkId: Option<RoundId>, attemptNote: Option<int>, deviceTime: Option<int>, now: int)
    | PlanStep(d: DeviceId, now: int)
    | ConfirmStep(planned: PlannedCheck, now: int)
    | RecordStep(id: RoundId, attempt: nat, outcome: AttemptOutcome, status: int, now: int)
    | NewTokenStep(d: DeviceId, token: PushToken, now: int)
    | AlarmNoteStep(d: DeviceId, at: int)
    | PruneStep(now: int)
    | TierStep(account: AccountId, tier: Tier)
    | MoveStep(d: DeviceId, account: AccountId)
    | RegisterStep(d: DeviceId, account: AccountId, token: PushToken)
    | ReleaseStep(d: DeviceId)
    | Crash

  function Apply(db: Db, step: Step): Db {
    match step
    case EnableStep(d, now) => Enable(db, d, now)
    case DisableStep(d, now) => Disable(db, d, now)
    case SettleStep(d, now) => Settle(db, d, now)
    case ReceiptStep(d, checkId, note, time, now) => Receipt(db, d, checkId, note, time, now).0
    case PlanStep(d, now) => Plan(db, d, now).0
    case ConfirmStep(planned, now) => Confirm(db, planned, now).0
    case RecordStep(id, attempt, outcome, status, now) => Record(db, id, attempt, outcome, status, now)
    case NewTokenStep(d, token, now) => NewToken(db, d, token, now)
    case AlarmNoteStep(d, at) => WriteAlarmNote(db, d, at)
    case PruneStep(now) => Prune(db, now)
    case TierStep(account, tier) => SetTier(db, account, tier)
    case MoveStep(d, account) => Move(db, d, account)
    case RegisterStep(d, account, token) => Register(db, d, account, token)
    case ReleaseStep(d) => Release(db, d)
    case Crash => db
  }

  function Run(db: Db, steps: seq<Step>): Db
    decreases |steps|
  {
    if steps == [] then db else Run(Apply(db, steps[0]), steps[1..])
  }

  const EMPTY: Db := Db(map[], map[], map[], map[], map[], 0, [], map[])
}
