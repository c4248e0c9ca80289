/** What every step of the weekly check keeps, for any clock, also one that moves back. */
module CheckInvariant {
  import opened Common
  import opened Schedule
  import opened CheckModel

  // ---------------------------------------------------------------- the miss counter, from the history

  /** The closings that count: everything but the skipped ones. */
  function Counted(log: seq<Closing>): seq<Closing> {
    if log == [] then []
    else
      var last := log[|log| - 1];
      Counted(log[..|log| - 1]) + if last.result == Skipped then [] else [last]
  }

  /** Where the present run of misses starts: just after the last received round. */
  ghost predicate RunStartsAt(counted: seq<Closing>, k: nat) {
    && k <= |counted|
    && (k > 0 ==> counted[k - 1].result == Received)
    && forall i :: k <= i < |counted| ==> counted[i].result != Received
  }

  /** `misses`, `last_result` and `second_miss_at` as they are worked out from the whole history. */
  ghost predicate ScoreMatches(e: Enrolment, log: seq<Closing>) {
    var counted := Counted(log);
    && (e.lastResult == if counted == [] then None else Some(counted[|counted| - 1].result))
    && exists k: nat :: RunStartsAt(counted, k) && MissesFrom(e, counted, k)
  }

  ghost predicate MissesFrom(e: Enrolment, counted: seq<Closing>, k: nat)
    requires k <= |counted|
  {
    && e.misses == |counted| - k
    && e.secondMissAt == if |counted| - k >= 2 then Some(counted[k + 1].closedAt) else None
  }

  // ---------------------------------------------------------------- the invariant

  ghost predicate RoundOk(db: Db, id: RoundId)
    requires id in db.rounds
  {
    var r := db.rounds[id];
    && id < db.nextRound
    && r.closesAt == r.openedAt + ROUND_LENGTH_S
    && (r.result.None? <==> r.closedAt.None?)
    && (r.result == Some(Skipped) <==> r.reason.Some?)
    && r.device in db.checks
    && (r.result.None? ==> db.checks[r.device].roundId == Some(id))
    && (r.result.Some? ==> Closing(id, r.result.value, r.closedAt.value) in LogOf(db.closings, r.device))
  }

  /** Attempts are exactly 1..n, n at most three, at their offsets, before the close, an offset between any two. */
  ghost predicate AttemptsOk(attempts: map<(RoundId, nat), Attempt>, id: RoundId, openedAt: int, closesAt: int,
                             n: nat) {
    && n <= MAX_ATTEMPTS
    && (forall k: nat :: (id, k) in attempts <==> 1 <= k <= n)
    && (forall k: nat :: (id, k) in attempts ==>
          openedAt + ATTEMPT_OFFSETS_S[k - 1] <= attempts[(id, k)].recordedAt < closesAt)
    && (forall k: nat :: (id, k) in attempts && k > 1 ==>
          OffsetBetween(openedAt, attempts[(id, k - 1)].recordedAt, attempts[(id, k)].recordedAt))
  }

  ghost predicate OffsetBetween(openedAt: int, earlier: int, later: int) {
    var ahead := OffsetAhead(openedAt, earlier);
    ahead.Some? && earlier < ahead.value <= later
  }

  ghost predicate RoundAttemptsOk(db: Db, id: RoundId)
    requires id in db.rounds
  {
    AttemptsOk(db.attempts, id, db.rounds[id].openedAt, db.rounds[id].closesAt, db.rounds[id].attempts)
  }

  /** Where the timer of an open round stands after `n` attempts, the last of them recorded at `last`. */
  ghost predicate TimerOk(e: Enrolment, d: DeviceId, openedAt: int, closesAt: int, n: nat, last: Option<Attempt>) {
    && e.enabled
    && e.nextAttemptAt.Some?
    && openedAt <= e.nextAttemptAt.value <= closesAt
    && e.nextDueAt == RoundAfter(d.slot, openedAt)
    && (n > 0 && last.Some? ==> e.nextAttemptAt.value >= NextPush(openedAt, n, closesAt, last.value.recordedAt))
  }

  function LastAttempt(attempts: map<(RoundId, nat), Attempt>, id: RoundId, n: nat): Option<Attempt> {
    if (id, n) in attempts then Some(attempts[(id, n)]) else None
  }

  ghost predicate EnrolmentOk(db: Db, d: DeviceId)
    requires d in db.checks
  {
    var e := db.checks[d];
    && d in db.devices
    && d in db.closings
    && (!e.enabled ==> e.roundId.None? && e.nextAttemptAt.None?)
    && (e.enabled && e.roundId.None? ==> e.nextAttemptAt == Some(e.nextDueAt))
    && (e.roundId.Some? ==>
          && e.roundId.value in db.rounds
          && var r := db.rounds[e.roundId.value];
          && r.device == d
          && r.result.None?
          && TimerOk(e, d, r.openedAt, r.closesAt, r.attempts, LastAttempt(db.attempts, e.roundId.value, r.attempts)))
  }

  /** A handout of a round that still has its row is one of that round's attempts. */
  ghost predicate HandoutOk(db: Db, handout: (RoundId, nat)) {
    handout.0 < db.nextRound && (handout.0 in db.rounds ==> 1 <= handout.1 <= db.rounds[handout.0].attempts)
  }

  /** Like `At`, for positions in the log of handouts. */
  ghost predicate InLog(i: int) { true }

  /** No attempt was handed to a sender twice. */
  ghost predicate HandedOk(db: Db) {
    && (forall i, j {:trigger InLog(i), InLog(j)} :: InLog(i) && InLog(j) && 0 <= i < j < |db.handed| ==>
          db.handed[i] != db.handed[j])
    && (forall i {:trigger InLog(i)} :: InLog(i) && 0 <= i < |db.handed| ==> HandoutOk(db, db.handed[i]))
  }

  /**
   Names the element at which an invariant is used. The quantifiers of `Inv` are instantiated only where a
   proof says `At(..)`, which keeps every proof to the rows it is about.
   */
  ghost predicate At<T>(x: T) { true }

  ghost predicate DeviceOk(db: Db, d: DeviceId)
    requires d in db.checks
  {
    EnrolmentOk(db, d) && ScoreMatches(db.checks[d], LogOf(db.closings, d))
  }

  ghost predicate RowOk(db: Db, id: RoundId)
    requires id in db.rounds
  {
    RoundOk(db, id) && RoundAttemptsOk(db, id)
  }

  ghost predicate Inv(db: Db) {
    && (forall d: DeviceId {:trigger At(d)} :: At(d) && d in db.checks ==> DeviceOk(db, d))
    && (forall id: RoundId {:trigger At(id)} :: At(id) && id in db.rounds ==> RowOk(db, id))
    && (forall key: (RoundId, nat) {:trigger At(key)} :: At(key) && key in db.attempts ==> key.0 in db.rounds)
    && HandedOk(db)
  }

  // ---------------------------------------------------------------- the counters

  /** The incremental update of the counters agrees with recounting the whole history. */
  lemma ScoreKeepsMatching(e: Enrolment, log: seq<Closing>, c: Closing)
    requires ScoreMatches(e, log)
    ensures ScoreMatches(Score(e, c.result, c.closedAt), log + [c])
  {
    var counted := Counted(log);
    var k: nat :| RunStartsAt(counted, k) && MissesFrom(e, counted, k);
    if c.result == Received {
      assert RunStartsAt(counted + [c], |counted| + 1);
    } else if c.result != Skipped {
      assert RunStartsAt(counted + [c], k);
      assert MissesFrom(Score(e, c.result, c.closedAt), counted + [c], k);
    } else {
      assert counted + [] == counted;
    }
  }

  // ---------------------------------------------------------------- rows that a step rewrites in place

  /** What the invariant looks at in a round row. */
  ghost predicate SameRow(r: Round, r': Round) {
    (r'.device, r'.openedAt, r'.closesAt, r'.closedAt, r'.attempts, r'.result, r'.reason) ==
    (r.device, r.openedAt, r.closesAt, r.closedAt, r.attempts, r.result, r.reason)
  }

  // ---------------------------------------------------------------- closing

  lemma CloseKeepsDevice(db: Db, id: RoundId, result: RoundResult, reason: Option<SkipReason>, closedAt: int,
                         d: DeviceId)
    requires id in db.rounds && RoundOk(db, id)
    requires d in db.checks && DeviceOk(db, d)
    ensures d in CloseRound(db, id, result, reason, closedAt).checks
    ensures DeviceOk(CloseRound(db, id, result, reason, closedAt), d)
  {
    ScoreKeepsMatching(Unname(db.checks[d], id), LogOf(db.closings, d), Closing(id, result, closedAt));
  }

  lemma CloseKeepsRowOk(db: Db, id: RoundId, result: RoundResult, reason: Option<SkipReason>, closedAt: int, i: RoundId)
    requires id in db.rounds && RoundOk(db, id)
    requires i in db.rounds && RowOk(db, i)
    requires result == Skipped <==> reason.Some?
    ensures RowOk(CloseRound(db, id, result, reason, closedAt), i)
  {
  }

  lemma CloseKeepsInv(db: Db, id: RoundId, result: RoundResult, reason: Option<SkipReason>, closedAt: int)
    requires Inv(db) && id in db.rounds
    requires result == Skipped <==> reason.Some?
    ensures Inv(CloseRound(db, id, result, reason, closedAt))
  {
    var db' := CloseRound(db, id, result, reason, closedAt);
    NothingHandedOut(db, db');
    assert At(id);
    forall d | d in db'.checks ensures DeviceOk(db', d) {
      assert At(d);
      CloseKeepsDevice(db, id, result, reason, closedAt, d);
    }
    forall i | i in db'.rounds ensures RowOk(db', i) {
      assert At(i);
      CloseKeepsRowOk(db, id, result, reason, closedAt, i);
    }
  }

  /**
   A result is written once: closing again, with whatever result, changes nothing. The first closing leaves the device
   with no round, its timer at its next due time, and the counters of its log with this closing at the end.
   */
  lemma ClosesOnce(db: Db, id: RoundId, result: RoundResult, reason: Option<SkipReason>, closedAt: int,
                   again: RoundResult, reasonAgain: Option<SkipReason>, closedAgain: int)
    requires Inv(db) && id in db.rounds
    ensures var closed := CloseRound(db, id, result, reason, closedAt);
            && CloseRound(closed, id, again, reasonAgain, closedAgain) == closed
            && if db.rounds[id].result.Some? then closed == db
                else ClosedFirst(db, closed, Closing(id, result, closedAt))
  {
    assert At(id);
    var d := db.rounds[id].device;
    assert At(d);
    CloseKeepsDevice(db, id, result, reason, closedAt, d);
  }

  ghost predicate ClosedFirst(db: Db, closed: Db, c: Closing)
    requires c.id in db.rounds
  {
    var d := db.rounds[c.id].device;
    && closed.rounds.Keys == db.rounds.Keys
    && (closed.rounds[c.id].result, closed.rounds[c.id].closedAt) == (Some(c.result), Some(c.closedAt))
    && (forall other :: other in db.rounds && other != c.id ==> closed.rounds[other] == db.rounds[other])
    && closed.checks.Keys == db.checks.Keys && d in db.checks
    && (forall other :: other in db.checks && other != d ==> closed.checks[other] == db.checks[other])
    && var e := closed.checks[d];
    && e.roundId.None? && e.nextDueAt == db.checks[d].nextDueAt
    && e.nextAttemptAt == (if e.enabled then Some(e.nextDueAt) else None)
    && (e.enabled, e.lastSentAt) == (db.checks[d].enabled, db.checks[d].lastSentAt)
    && e.lastReceivedAt == (if c.result == Received then Some(c.closedAt) else db.checks[d].lastReceivedAt)
    && LogOf(closed.closings, d) == LogOf(db.closings, d) + [c] && ScoreMatches(e, LogOf(closed.closings, d))
  }

  lemma ExpireKeepsInv(db: Db, id: RoundId)
    requires Inv(db) && id in db.rounds
    ensures Inv(Expire(db, id))
  {
    var r := db.rounds[id];
    CloseKeepsInv(db, id, ExpiryResult(db.attempts, id),
                  ExpiryReason(db.attempts, id, r, LastAlarm(db.devices, r.device)), r.closesAt);
  }

  // ---------------------------------------------------------------- a round written down or opened

  lemma NoAttemptsYet(db: Db)
    requires Inv(db)
    ensures db.nextRound !in db.rounds
    ensures forall k: nat :: (db.nextRound, k) !in db.attempts
  {
    assert At(db.nextRound);
    forall k: nat ensures (db.nextRound, k) !in db.attempts {
      assert At((db.nextRound, k));
    }
  }

  lemma SkipKeepsThisDevice(db: Db, d: DeviceId, reason: SkipReason, now: int)
    requires d in db.checks && db.checks[d].enabled && db.checks[d].roundId.None? && DeviceOk(db, d)
    ensures d in Skip(db, d, None, reason, now).checks
    ensures DeviceOk(Skip(db, d, None, reason, now), d)
  {
    ScoreKeepsMatching(db.checks[d], LogOf(db.closings, d), Closing(db.nextRound, Skipped, now));
  }

  lemma SkipKeepsDevice(db: Db, d: DeviceId, reason: SkipReason, now: int, d1: DeviceId)
    requires d in db.checks && db.checks[d].enabled && db.checks[d].roundId.None?
    requires d1 in db.checks && DeviceOk(db, d1)
    requires db.nextRound !in db.rounds
    ensures d1 in Skip(db, d, None, reason, now).checks
    ensures DeviceOk(Skip(db, d, None, reason, now), d1)
  {
    if d1 == d {
      SkipKeepsThisDevice(db, d, reason, now);
    }
  }

  lemma SkipKeepsRowOk(db: Db, d: DeviceId, reason: SkipReason, now: int, id: RoundId)
    requires d in db.checks && db.checks[d].roundId.None?
    requires id in db.rounds && id != db.nextRound && RowOk(db, id)
    ensures RowOk(Skip(db, d, None, reason, now), id)
  {
  }

  /** A round written down as skipped, with none open. */
  lemma SkipKeepsInv(db: Db, d: DeviceId, reason: SkipReason, now: int)
    requires Inv(db) && d in db.checks && db.checks[d].enabled && db.checks[d].roundId.None?
    ensures Inv(Skip(db, d, None, reason, now))
  {
    var db' := Skip(db, d, None, reason, now);
    NothingHandedOut(db, db');
    NoAttemptsYet(db);
    forall d1 | d1 in db'.checks ensures DeviceOk(db', d1) {
      assert At(d1);
      SkipKeepsDevice(db, d, reason, now, d1);
    }
    forall id | id in db'.rounds ensures RowOk(db', id) {
      assert At(id);
      if id != db.nextRound {
        SkipKeepsRowOk(db, d, reason, now, id);
      }
    }
  }

  /** A round opened by the scan, its first push due at once. */
  lemma OpenKeepsInv(db: Db, d: DeviceId, now: int)
    requires Inv(db) && d in db.checks && db.checks[d].enabled && db.checks[d].roundId.None?
    ensures Inv(SetNextAttempt(Open(db, d, now), d, now))
  {
    var db' := SetNextAttempt(Open(db, d, now), d, now);
    NothingHandedOut(db, db');
    NoAttemptsYet(db);
    forall d1 | d1 in db'.checks ensures DeviceOk(db', d1) {
      assert At(d1);
    }
    forall id | id in db'.rounds ensures RowOk(db', id) {
      assert At(id);
    }
  }

  // ---------------------------------------------------------------- a push held or put on record

  /** The open round `id` of device `d`, when its turn has come and its close has not. */
  ghost predicate Turn(db: Db, d: DeviceId, id: RoundId, now: int) {
    && Due(db, d, now)
    && db.checks[d].roundId == Some(id)
    && id in db.rounds
    && now < db.rounds[id].closesAt
  }

  lemma HoldKeepsInv(db: Db, d: DeviceId, id: RoundId, now: int, until: int)
    requires Inv(db) && Turn(db, d, id, now) && now < until
    ensures Inv(HoldPush(db, d, id, until))
  {
    var db' := HoldPush(db, d, id, until);
    NothingHandedOut(db, db');
    assert At(d);
    forall d1 | d1 in db'.checks ensures DeviceOk(db', d1) {
      assert At(d1);
    }
    forall i | i in db'.rounds ensures RowOk(db', i) {
      assert At(i);
    }
  }

  /**
   An open round whose turn has come always has an attempt left, its key is free, its time has come, and one
   of the round's three times lies between the last push and now. So `attempt > MAX_ATTEMPTS` never happens.
   */
  lemma AttemptsLeft(db: Db, d: DeviceId, id: RoundId, now: int)
    requires Inv(db) && Turn(db, d, id, now)
    ensures var r := db.rounds[id];
            && r.attempts < MAX_ATTEMPTS
            && (id, r.attempts + 1) !in db.attempts
            && r.openedAt + ATTEMPT_OFFSETS_S[r.attempts] <= now
            && (r.attempts > 0 ==> (id, r.attempts) in db.attempts)
            && (r.attempts > 0 ==> OffsetBetween(r.openedAt, db.attempts[(id, r.attempts)].recordedAt, now))
  {
    assert At(d) && At(id);
  }

  lemma RecordAttemptKeepsDevice(db: Db, d: DeviceId, id: RoundId, now: int, d1: DeviceId)
    requires Turn(db, d, id, now) && DeviceOk(db, d)
    requires d1 in db.checks && DeviceOk(db, d1)
    ensures DeviceOk(RecordAttempt(db, d, id, now), d1)
  {
  }

  lemma RecordAttemptKeepsThisRow(db: Db, d: DeviceId, id: RoundId, now: int)
    requires Turn(db, d, id, now) && RowOk(db, id)
    requires var r := db.rounds[id];
             && r.attempts < MAX_ATTEMPTS && r.openedAt + ATTEMPT_OFFSETS_S[r.attempts] <= now
             && (r.attempts > 0 ==> (id, r.attempts) in db.attempts)
             && (r.attempts > 0 ==> OffsetBetween(r.openedAt, db.attempts[(id, r.attempts)].recordedAt, now))
    ensures RowOk(RecordAttempt(db, d, id, now), id)
  {
    var r := db.rounds[id];
  }

  /** No attempt is ever handed out twice. */
  lemma HandOut(db: Db, d: DeviceId, id: RoundId, now: int)
    requires HandedOk(db) && id in db.rounds && id < db.nextRound && d in db.checks
    ensures HandedOk(RecordAttempt(db, d, id, now))
  {
  }

  /** A step that hands nothing out, and changes no count of attempts, keeps the log in order. */
  lemma NothingHandedOut(db: Db, db': Db)
    requires HandedOk(db) && db'.handed == db.handed && db.nextRound <= db'.nextRound
    requires forall id :: id in db'.rounds && id < db.nextRound ==>
                            id in db.rounds && db'.rounds[id].attempts == db.rounds[id].attempts
    ensures HandedOk(db')
  {
  }

  lemma RecordAttemptKeepsInv(db: Db, d: DeviceId, id: RoundId, now: int)
    requires Inv(db) && Turn(db, d, id, now)
    ensures Inv(RecordAttempt(db, d, id, now))
  {
    var db' := RecordAttempt(db, d, id, now);
    AttemptsLeft(db, d, id, now);
    assert At(d) && At(id);
    forall d1 | d1 in db'.checks ensures DeviceOk(db', d1) {
      assert At(d1);
      RecordAttemptKeepsDevice(db, d, id, now, d1);
    }
    forall i | i in db'.rounds ensures RowOk(db', i) {
      assert At(i);
      if i == id {
        RecordAttemptKeepsThisRow(db, d, id, now);
      }
    }
    HandOut(db, d, id, now);
  }

  // ---------------------------------------------------------------- the scan's turn

  lemma SkippedKeepsInv(db: Db, d: DeviceId, open: Option<RoundId>, reason: SkipReason, now: int)
    requires Inv(db) && d in db.checks && db.checks[d].enabled && open == db.checks[d].roundId
    requires open.Some? ==> open.value in db.rounds
    ensures Inv(Skip(db, d, open, reason, now))
  {
    if open.Some? {
      CloseKeepsInv(db, open.value, Skipped, Some(reason), now);
    } else {
      SkipKeepsInv(db, d, reason, now);
    }
  }

  /** The last part of a turn: hold the push, or put it on record. */
  function Push(db: Db, d: DeviceId, id: RoundId, now: int): Db
    requires d in db.checks && d in db.devices && id in db.rounds
  {
    if OnHold(db.devices[d].lastAlarmPushAt, now)
    then HoldPush(db, d, id, db.devices[d].lastAlarmPushAt.value + ALARM_HOLD_S)
    else RecordAttempt(db, d, id, now)
  }

  lemma PushKeepsInv(db: Db, d: DeviceId, id: RoundId, now: int)
    requires Inv(db) && Turn(db, d, id, now) && d in db.devices
    ensures db.rounds[id].attempts < MAX_ATTEMPTS
    ensures (id, db.rounds[id].attempts + 1) !in db.attempts
    ensures Inv(Push(db, d, id, now))
  {
    AttemptsLeft(db, d, id, now);
    if OnHold(db.devices[d].lastAlarmPushAt, now) {
      var until := db.devices[d].lastAlarmPushAt.value + ALARM_HOLD_S;
      HoldKeepsInv(db, d, id, now, until);
      assert Push(db, d, id, now) == HoldPush(db, d, id, until);
    } else {
      RecordAttemptKeepsInv(db, d, id, now);
      assert Push(db, d, id, now) == RecordAttempt(db, d, id, now);
    }
  }

  /** A round opened in this turn has its first push held or put on record like any other. */
  lemma OpensThenPushes(db: Db, d: DeviceId, now: int)
    requires d in db.checks && d in db.devices && (db.nextRound, 1) !in db.attempts
    ensures PushOn(db, Open(db, d, now), d, db.nextRound, now).0 ==
            Push(SetNextAttempt(Open(db, d, now), d, now), d, db.nextRound, now)
  {
    var ready := Open(db, d, now);
    if OnHold(db.devices[d].lastAlarmPushAt, now) {
      TimerIsOverwritten(db, d, now, db.devices[d].lastAlarmPushAt.value + ALARM_HOLD_S);
    } else {
      TimerIsOverwritten(db, d, now, 0);
      assert PushOn(db, ready, d, db.nextRound, now).0 == RecordAttempt(ready, d, db.nextRound, now);
    }
  }

  /** A turn that opens a round goes on as if the round had been open with its first push due now. */
  lemma PlanOpensThenPushes(db: Db, d: DeviceId, now: int)
    requires Due(db, d, now) && d in db.devices && db.checks[d].roundId.None?
    requires (db.nextRound, 1) !in db.attempts
    requires GetsChecks(db.tiers, db.devices[d].account) && db.devices[d].pushToken != ""
    ensures Turn(SetNextAttempt(Open(db, d, now), d, now), d, db.nextRound, now)
    ensures Plan(db, d, now).0 == Push(SetNextAttempt(Open(db, d, now), d, now), d, db.nextRound, now)
  {
    OpensThenPushes(db, d, now);
    assert Plan(db, d, now) == PushOn(db, Open(db, d, now), d, db.nextRound, now);
  }

  lemma TimerIsOverwritten(db: Db, d: DeviceId, now: int, until: int)
    requires d in db.checks
    ensures var ready := Open(db, d, now);
            var db1 := SetNextAttempt(ready, d, now);
            && HoldPush(ready, d, db.nextRound, until) == HoldPush(db1, d, db.nextRound, until)
            && RecordAttempt(ready, d, db.nextRound, now) == RecordAttempt(db1, d, db.nextRound, now)
  {
  }

  lemma PlanKeepsInv(db: Db, d: DeviceId, now: int)
    requires Inv(db)
    ensures Inv(Plan(db, d, now).0)
  {
    if Due(db, d, now) && d in db.devices {
      var device := db.devices[d];
      assert At(d);
      var open := OpenRound(db.rounds, db.checks[d]);
      assert open == db.checks[d].roundId;
      if open.Some? && now >= db.rounds[open.value].closesAt {
        ExpireKeepsInv(db, open.value);
      } else if !GetsChecks(db.tiers, device.account) {
        SkippedKeepsInv(db, d, open, TierLost, now);
      } else if device.pushToken == "" {
        SkippedKeepsInv(db, d, open, NoToken, now);
      } else if open.Some? {
        PushKeepsInv(db, d, open.value, now);
      } else {
        NoAttemptsYet(db);
        PlanOpensThenPushes(db, d, now);
        OpenKeepsInv(db, d, now);
        PushKeepsInv(SetNextAttempt(Open(db, d, now), d, now), d, db.nextRound, now);
      }
    }
  }

  /** A confirmation that closes the round closes it for one of four reasons. */
  function ConfirmReason(db: Db, d: DeviceId): SkipReason
    requires d in db.checks && d in db.devices
  {
    if !db.checks[d].enabled then Disabled
    else if !GetsChecks(db.tiers, db.devices[d].account) then TierLost
    else NoToken
  }

  lemma ConfirmKeepsInv(db: Db, planned: PlannedCheck, now: int)
    requires Inv(db)
    ensures Inv(Confirm(db, planned, now).0)
  {
    var id := planned.roundId;
    if id in db.rounds && db.rounds[id].device in db.checks && db.rounds[id].device in db.devices {
      CloseKeepsInv(db, id, Skipped, Some(ConfirmReason(db, db.rounds[id].device)), now);
      if db.checks[db.rounds[id].device].enabled && now >= db.rounds[id].closesAt {
        ExpireKeepsInv(db, id);
      }
    }
  }

  // ---------------------------------------------------------------- answers and receipts

  /** Writing what came of an attempt changes neither which attempts there are nor when they were made. */
  lemma OutcomeKeepsInv(db: Db, id: RoundId, attempt: nat, row: Attempt)
    requires Inv(db) && (id, attempt) in db.attempts
    requires row.recordedAt == db.attempts[(id, attempt)].recordedAt
    ensures Inv(db.(attempts := db.attempts[(id, attempt) := row]))
  {
  }

  /** A new enrolment row that keeps its round, and either keeps its timers or has no round open. */
  ghost predicate Retimed(e: Enrolment, e': Enrolment) {
    && e' == e.(enabled := e'.enabled, nextAttemptAt := e'.nextAttemptAt, nextDueAt := e'.nextDueAt,
                lastSentAt := e'.lastSentAt)
    && (e' == e.(lastSentAt := e'.lastSentAt) ||
        (e.roundId.None? && e'.nextAttemptAt == if e'.enabled then Some(e'.nextDueAt) else None))
  }

  lemma RetimedKeepsInv(db: Db, d: DeviceId, e: Enrolment)
    requires Inv(db) && d in db.checks && Retimed(db.checks[d], e)
    ensures Inv(db.(checks := db.checks[d := e]))
  {
  }

  lemma RecordKeepsInv(db: Db, id: RoundId, attempt: nat, outcome: AttemptOutcome, status: int, now: int)
    requires Inv(db)
    ensures Inv(Record(db, id, attempt, outcome, status, now))
  {
    if (id, attempt) in db.attempts && db.attempts[(id, attempt)].outcome.None? {
      var row := db.attempts[(id, attempt)].(outcome := Some(outcome), status := Some(status));
      var db1 := db.(attempts := db.attempts[(id, attempt) := row]);
      OutcomeKeepsInv(db, id, attempt, row);
      if id in db.rounds {
        var d := db.rounds[id].device;
        if outcome == Accepted && d in db.checks {
          RetimedKeepsInv(db1, d, db.checks[d].(lastSentAt := Some(now)));
        }
        if outcome == TokenRefused {
          CloseKeepsInv(db1, id, Refused, None, now);
        }
      }
    }
  }

  /** Notes on a round row that decide nothing. */
  lemma NotesKeepInv(db: Db, id: RoundId, r: Round)
    requires Inv(db) && id in db.rounds && SameRow(db.rounds[id], r)
    ensures Inv(db.(rounds := db.rounds[id := r]))
  {
  }

  lemma LateReceiptKeepsInv(db: Db, id: RoundId, now: int)
    requires Inv(db) && id in db.rounds
    ensures Inv(NoteLate(db, id, now))
  {
    NotesKeepInv(db, id, NoteLate(db, id, now).rounds[id]);
  }

  lemma CountedReceiptKeepsInv(db: Db, id: RoundId, note: Option<int>, time: Option<int>, now: int)
    requires Inv(db) && id in db.rounds
    ensures Inv(CountReceipt(db, id, note, time, now))
  {
    CloseKeepsInv(db, id, Received, None, now);
    NotesKeepInv(CloseRound(db, id, Received, None, now), id, CountReceipt(db, id, note, time, now).rounds[id]);
  }

  /** A receipt settles the round first, then counts or comes late. */
  lemma ReceiptIs(db: Db, d: DeviceId, id: RoundId, note: Option<int>, time: Option<int>, now: int)
    requires id in db.rounds && db.rounds[id].device == d
    ensures var r := db.rounds[id];
            Receipt(db, d, Some(id), note, time, now).0 ==
            if r.result == Some(Received) then db
            else if r.result.Some? then NoteLate(db, id, now)
            else if now >= r.closesAt then NoteLate(Expire(db, id), id, now)
            else CountReceipt(db, id, note, time, now)
  {
  }

  lemma ReceiptKeepsInv(db: Db, d: DeviceId, checkId: Option<RoundId>, note: Option<int>, time: Option<int>, now: int)
    requires Inv(db)
    ensures Inv(Receipt(db, d, checkId, note, time, now).0)
  {
    if checkId.Some? && checkId.value in db.rounds && db.rounds[checkId.value].device == d {
      var id := checkId.value;
      ReceiptIs(db, d, id, note, time, now);
      if db.rounds[id].result.Some? {
        LateReceiptKeepsInv(db, id, now);
      } else if now >= db.rounds[id].closesAt {
        ExpireKeepsInv(db, id);
        LateReceiptKeepsInv(Expire(db, id), id, now);
      } else {
        CountedReceiptKeepsInv(db, id, note, time, now);
      }
    }
  }

  // ---------------------------------------------------------------- switching on and off

  lemma EnableKeepsInv(db: Db, d: DeviceId, now: int)
    requires Inv(db)
    ensures Inv(Enable(db, d, now))
  {
    assert At(d);
    if d in db.checks {
      RetimedKeepsInv(db, d, Enable(db, d, now).checks[d]);
    } else if d in db.devices {
      var db' := Enable(db, d, now);
      NothingHandedOut(db, db');
      forall d1 | d1 in db'.checks ensures DeviceOk(db', d1) {
        assert At(d1);
        if d1 == d {
          assert RunStartsAt([], 0) && MissesFrom(db'.checks[d], [], 0);
        }
      }
      forall i | i in db'.rounds ensures RowOk(db', i) {
        assert At(i);
      }
    }
  }

  /** Switching off before the close leaves the same rows as closing first and switching off after. */
  lemma DisableClosesThenSwitches(db: Db, d: DeviceId, id: RoundId, now: int)
    requires d in db.checks && db.checks[d].enabled && db.checks[d].roundId == Some(id)
    requires id in db.rounds && db.rounds[id].device == d && db.rounds[id].result.None?
    ensures var closed := if now >= db.rounds[id].closesAt then Expire(db, id)
                          else CloseRound(db, id, Skipped, Some(Disabled), now);
            && d in closed.checks && closed.checks[d].roundId.None?
            && Disable(db, d, now) == closed.(checks := closed.checks[d := SwitchedOff(closed.checks[d])])
  {
    var r := db.rounds[id];
    CloseOffCommutes(db, d, id, ExpiryResult(db.attempts, id),
                     ExpiryReason(db.attempts, id, r, LastAlarm(db.devices, d)), r.closesAt);
    CloseOffCommutes(db, d, id, Skipped, Some(Disabled), now);
  }

  function SwitchedOff(e: Enrolment): Enrolment {
    e.(enabled := false, nextAttemptAt := None)
  }

  lemma CloseOffCommutes(db: Db, d: DeviceId, id: RoundId, result: RoundResult, reason: Option<SkipReason>,
                         closedAt: int)
    requires d in db.checks && db.checks[d].roundId == Some(id)
    requires id in db.rounds && db.rounds[id].device == d && db.rounds[id].result.None?
    ensures var off := db.(checks := db.checks[d := SwitchedOff(db.checks[d])]);
            var closed := CloseRound(db, id, result, reason, closedAt);
            && d in closed.checks && closed.checks[d].roundId.None?
            && CloseRound(off, id, result, reason, closedAt) ==
                closed.(checks := closed.checks[d := SwitchedOff(closed.checks[d])])
  {
  }

  lemma DisableKeepsInv(db: Db, d: DeviceId, now: int)
    requires Inv(db)
    ensures Inv(Disable(db, d, now))
  {
    if d in db.checks && db.checks[d].enabled {
      assert At(d);
      var open := OpenRound(db.rounds, db.checks[d]);
      if open.None? {
        RetimedKeepsInv(db, d, SwitchedOff(db.checks[d]));
      } else {
        var closed := if now >= db.rounds[open.value].closesAt then Expire(db, open.value)
                      else CloseRound(db, open.value, Skipped, Some(Disabled), now);
        ExpireKeepsInv(db, open.value);
        CloseKeepsInv(db, open.value, Skipped, Some(Disabled), now);
        DisableClosesThenSwitches(db, d, open.value, now);
        RetimedKeepsInv(closed, d, SwitchedOff(closed.checks[d]));
      }
    }
  }

  lemma CloseKeepsOff(db: Db, id: RoundId, result: RoundResult, reason: Option<SkipReason>, closedAt: int, d: DeviceId)
    requires id in db.rounds && d in db.checks && !db.checks[d].enabled
    ensures var closed := CloseRound(db, id, result, reason, closedAt);
            d in closed.checks && !closed.checks[d].enabled
  {
  }

  lemma DisabledIsOff(db: Db, d: DeviceId, now: int)
    requires d in db.checks
    ensures d in Disable(db, d, now).checks && !Disable(db, d, now).checks[d].enabled
  {
    var open := OpenRound(db.rounds, db.checks[d]);
    if db.checks[d].enabled && open.Some? {
      var off, r := db.(checks := db.checks[d := SwitchedOff(db.checks[d])]), db.rounds[open.value];
      CloseKeepsOff(off, open.value, Skipped, Some(Disabled), now, d);
      CloseKeepsOff(off, open.value, ExpiryResult(off.attempts, open.value),
                    ExpiryReason(off.attempts, open.value, r, LastAlarm(off.devices, r.device)), r.closesAt, d);
    }
  }

  lemma OffIsQuiet(db: Db, d: DeviceId)
    requires Inv(db) && d in db.checks && !db.checks[d].enabled
    ensures db.checks[d].roundId.None? && db.checks[d].nextAttemptAt.None?
    ensures forall id :: id in db.rounds && db.rounds[id].device == d ==> db.rounds[id].result.Some?
  {
    assert At(d);
    assert DeviceOk(db, d);
    forall id | id in db.rounds && db.rounds[id].device == d ensures db.rounds[id].result.Some? {
      assert At(id);
      assert RowOk(db, id);
    }
  }

  /** Switched off, a device has no timer and every round of it is closed. */
  lemma DisabledIsQuiet(db: Db, d: DeviceId, now: int)
    requires Inv(db) && d in db.checks
    ensures var off := Disable(db, d, now);
            && Inv(off) && d in off.checks
            && !off.checks[d].enabled && off.checks[d].roundId.None? && off.checks[d].nextAttemptAt.None?
            && forall id :: id in off.rounds && off.rounds[id].device == d ==> off.rounds[id].result.Some?
  {
    DisableKeepsInv(db, d, now);
    DisabledIsOff(db, d, now);
    OffIsQuiet(Disable(db, d, now), d);
  }

  lemma SettleKeepsInv(db: Db, d: DeviceId, now: int)
    requires Inv(db)
    ensures Inv(Settle(db, d, now))
  {
    if d in db.checks && OpenRound(db.rounds, db.checks[d]).Some? {
      ExpireKeepsInv(db, OpenRound(db.rounds, db.checks[d]).value);
    }
  }

  // ---------------------------------------------------------------- deleting rows, and the other tables

  /** Only closed rounds, or all of a device's rounds together with the device, are ever deleted. */
  lemma DroppingRoundsKeepsInv(db: Db, db': Db, gone: set<DeviceId>)
    requires Inv(db)
    requires db' == db.(devices := db.devices - gone, checks := db.checks - gone, rounds := db'.rounds,
                        attempts := KeepAttempts(db.attempts, db'.rounds), closings := db.closings - gone)
    requires db'.rounds.Keys <= db.rounds.Keys && forall id :: id in db'.rounds ==> db'.rounds[id] == db.rounds[id]
    requires forall id :: id in db'.rounds ==> db.rounds[id].device !in gone
    requires forall id :: id in db.rounds && id !in db'.rounds ==>
             db.rounds[id].result.Some? || db.rounds[id].device in gone
    ensures Inv(db')
  {
    forall d | d in db'.checks ensures DeviceOk(db', d) {
      assert At(d);
    }
    forall i | i in db'.rounds ensures RowOk(db', i) {
      assert At(i);
    }
  }

  lemma OtherTablesKeepInv(db: Db, db': Db)
    requires Inv(db) && db' == db.(tiers := db'.tiers, devices := db'.devices) && db.devices.Keys <= db'.devices.Keys
    ensures Inv(db')
  {
  }

  lemma PruneKeepsInv(db: Db, now: int)
    requires Inv(db)
    ensures Inv(Prune(db, now))
  {
    assert db.devices - {} == db.devices && db.checks - {} == db.checks && db.closings - {} == db.closings;
    DroppingRoundsKeepsInv(db, Prune(db, now), {});
  }

  lemma NewTokenKeepsInv(db: Db, d: DeviceId, token: PushToken, now: int)
    requires Inv(db)
    ensures Inv(NewToken(db, d, token, now))
  {
    if d in db.devices && db.devices[d].pushToken != token {
      var db1 := db.(devices := db.devices[d := db.devices[d].(pushToken := token)]);
      OtherTablesKeepInv(db, db1);
      if NewTokenHook(db1, d, now) != db1 {
        RetimedKeepsInv(db1, d, db.checks[d].(nextDueAt := now, nextAttemptAt := Some(now)));
      }
    }
  }

  // ---------------------------------------------------------------- every step, every run

  /** The steps of `CheckStore`; the rest of `Step` is what other parts of the server do to its tables. */
  predicate StoreStep(step: Step) {
    step.EnableStep? || step.DisableStep? || step.SettleStep? || step.ReceiptStep? || step.PlanStep? ||
    step.ConfirmStep? || step.RecordStep?
  }

  lemma StoreStepKeepsInv(db: Db, step: Step)
    requires Inv(db) && StoreStep(step)
    ensures Inv(Apply(db, step))
  {
    match step
    case EnableStep(d, now) => EnableKeepsInv(db, d, now);
    case DisableStep(d, now) => DisableKeepsInv(db, d, now);
    case SettleStep(d, now) => SettleKeepsInv(db, d, now);
    case ReceiptStep(d, checkId, note, time, now) => ReceiptKeepsInv(db, d, checkId, note, time, now);
    case PlanStep(d, now) => PlanKeepsInv(db, d, now);
    case ConfirmStep(planned, now) => ConfirmKeepsInv(db, planned, now);
    case RecordStep(id, attempt, outcome, status, now) => RecordKeepsInv(db, id, attempt, outcome, status, now);
  }

  lemma OtherStepKeepsInv(db: Db, step: Step)
    requires Inv(db) && !StoreStep(step)
    ensures Inv(Apply(db, step))
  {
    match step
    case NewTokenStep(d, token, now) => NewTokenKeepsInv(db, d, token, now);
    case AlarmNoteStep(d, at) => OtherTablesKeepInv(db, WriteAlarmNote(db, d, at));
    case PruneStep(now) => PruneKeepsInv(db, now);
    case TierStep(account, tier) => OtherTablesKeepInv(db, SetTier(db, account, tier));
    case MoveStep(d, account) => OtherTablesKeepInv(db, Move(db, d, account));
    case RegisterStep(d, account, token) => OtherTablesKeepInv(db, Register(db, d, account, token));
    case ReleaseStep(d) => DroppingRoundsKeepsInv(db, Release(db, d), {d});
    case Crash =>
  }

  /** The check invariant survives every step, whatever the clock says. */
  lemma StepKeepsInv(db: Db, step: Step)
    requires Inv(db)
    ensures Inv(Apply(db, step))
  {
    if StoreStep(step) {
      StoreStepKeepsInv(db, step);
    } else {
      OtherStepKeepsInv(db, step);
    }
  }

  lemma {:induction false} RunKeepsInv(db: Db, steps: seq<Step>)
    requires Inv(db)
    ensures Inv(Run(db, steps))
    decreases |steps|
  {
    if steps != [] {
      StepKeepsInv(db, steps[0]);
      RunKeepsInv(Apply(db, steps[0]), steps[1..]);
    }
  }
}
