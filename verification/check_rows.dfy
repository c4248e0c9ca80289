/**
 What the remaining transactions of the weekly check write, and what they leave: answers of the providers, switching on
 and off, new tokens, notes of alarms, and the deletions.
 */
module CheckRows {
  import opened Common
  import opened Schedule
  import opened Tiers
  import opened CheckModel
  import opened CheckInvariant
  import opened CheckNotice
  import opened CheckClosings

  // ---------------------------------------------------------------- what a provider said

  ghost predicate Unanswered(db: Db, id: RoundId, k: nat) {
    (id, k) in db.attempts && db.attempts[(id, k)].outcome.None?
  }

  /** The first answer to an attempt is written; an acceptance is also the time a push last went out. */
  lemma AnswerIsWritten(db: Db, id: RoundId, k: nat, outcome: AttemptOutcome, status: int, now: int, d: DeviceId)
    requires Inv(db)
    ensures var db' := Record(db, id, k, outcome, status, now);
            && (!Unanswered(db, id, k) ==> db' == db)
            && (Unanswered(db, id, k) ==>
                  db'.attempts == db.attempts[(id, k) := Attempt(db.attempts[(id, k)].recordedAt, Some(outcome),
                                                                Some(status))])
            && (d in db.checks ==>
                  && d in db'.checks && db'.checks[d].lastReceivedAt == db.checks[d].lastReceivedAt
                  && db'.checks[d].lastSentAt ==
                     (if Unanswered(db, id, k) && id in db.rounds && db.rounds[id].device == d && outcome == Accepted
                      then Some(now) else db.checks[d].lastSentAt))
  {
    if Unanswered(db, id, k) {
      assert At((id, k)) && At(id);
    }
  }

  /** The second answer to an attempt changes nothing, whatever it says. */
  lemma FirstAnswerStands(db: Db, id: RoundId, k: nat, outcome: AttemptOutcome, status: int, now: int,
                          again: AttemptOutcome, statusAgain: int, later: int)
    ensures var db' := Record(db, id, k, outcome, status, now);
            Record(db', id, k, again, statusAgain, later) == db'
  {
    AnsweredStays(db, id, k, outcome, status, now);
  }

  lemma AnsweredStays(db: Db, id: RoundId, k: nat, outcome: AttemptOutcome, status: int, now: int)
    ensures !Unanswered(Record(db, id, k, outcome, status, now), id, k)
  {
  }

  // ---------------------------------------------------------------- switching on and off

  /** A device is due at once when it enrols for the first time, with nothing missed and nothing closed yet. */
  lemma EnrolsAtOnce(db: Db, d: DeviceId, now: int)
    requires d in db.devices && d !in db.checks
    ensures var db' := Enable(db, d, now);
            && db' == db.(checks := db'.checks, closings := db'.closings) && db'.checks.Keys == db.checks.Keys + {d}
            && (forall other :: other in db.checks ==> db'.checks[other] == db.checks[other])
            && db'.checks[d].enabled && Due(db', d, now) && !Due(db', d, now - 1)
            && db'.checks[d].nextDueAt == now && db'.checks[d].misses == 0 && db'.checks[d].roundId.None?
            && StateOf(db'.checks[d]) == Waiting
  {
  }

  /** Switching off and on again asks for no push: the device waits for the time it had, and its counters stay. */
  lemma SwitchingGainsNothing(db: Db, d: DeviceId, now: int, later: int)
    requires Inv(db) && d in db.checks
    ensures var db' := Enable(Disable(db, d, now), d, later);
            && d in db'.checks && db'.checks[d].enabled && db'.checks[d].nextDueAt == db.checks[d].nextDueAt
            && (db.checks[d].enabled ==>
                  db'.checks[d].roundId.None? && db'.checks[d].nextAttemptAt == Some(db.checks[d].nextDueAt))
            && (db.checks[d].lastSentAt, db.checks[d].lastReceivedAt) ==
               (db'.checks[d].lastSentAt, db'.checks[d].lastReceivedAt)
  {
    assert At(d);
    DisabledIsOff(db, d, now);
    DisableKeepsInv(db, d, now);
    OffIsQuiet(Disable(db, d, now), d);
    DisableKeepsTimes(db, d, now);
  }

  ghost predicate KeepsTimes(db: Db, db': Db, d: DeviceId)
    requires d in db.checks
  {
    && d in db'.checks
    && (db'.checks[d].nextDueAt, db'.checks[d].lastSentAt) == (db.checks[d].nextDueAt, db.checks[d].lastSentAt)
    && db'.checks[d].lastReceivedAt == db.checks[d].lastReceivedAt
  }

  lemma CloseKeepsTimes(db: Db, id: RoundId, result: RoundResult, reason: Option<SkipReason>, closedAt: int,
                        d: DeviceId)
    requires id in db.rounds && d in db.checks && result != Received
    ensures KeepsTimes(db, CloseRound(db, id, result, reason, closedAt), d)
  {
  }

  lemma DisableKeepsTimes(db: Db, d: DeviceId, now: int)
    requires Inv(db) && d in db.checks
    ensures KeepsTimes(db, Disable(db, d, now), d)
  {
    assert At(d);
    if db.checks[d].enabled && db.checks[d].roundId.Some? {
      var id := db.checks[d].roundId.value;
      var r := db.rounds[id];
      DisableClosesThenSwitches(db, d, id, now);
      CloseKeepsTimes(db, id, Skipped, Some(Disabled), now, d);
      CloseKeepsTimes(db, id, ExpiryResult(db.attempts, id),
                      ExpiryReason(db.attempts, id, r, LastAlarm(db.devices, r.device)), r.closesAt, d);
    }
  }

  /** Switching on what is on, or off what is off, changes nothing; nor does it touch a device nobody knows. */
  lemma SwitchingTwice(db: Db, d: DeviceId, now: int)
    ensures d in db.checks && db.checks[d].enabled ==> Enable(db, d, now) == db
    ensures d in db.checks && !db.checks[d].enabled ==> Disable(db, d, now) == db
    ensures d !in db.checks ==> Disable(db, d, now) == db
    ensures d !in db.devices && d !in db.checks ==> Enable(db, d, now) == db
  {
  }

  // ---------------------------------------------------------------- a round that was due and is not wanted

  /** A device that is due but not paid for, or has no token, gets no round: it is written down and the next one due. */
  lemma DueRoundIsSkipped(db: Db, d: DeviceId, now: int)
    requires Inv(db) && Due(db, d, now) && db.checks[d].roundId.None? && !(PaysForChecks(db, d) && HasToken(db, d))
    ensures var (db', planned) := Plan(db, d, now);
            && planned.None? && db'.attempts == db.attempts && db'.rounds.Keys == db.rounds.Keys + {db.nextRound}
            && (forall id :: id in db.rounds ==> db'.rounds[id] == db.rounds[id])
            && var r := db'.rounds[db.nextRound];
            && (r.device, r.openedAt, r.attempts, r.result, r.closedAt) == (d, now, 0, Some(Skipped), Some(now))
            && r.reason == Some(if PaysForChecks(db, d) then NoToken else TierLost)
            && d in db'.checks
            && db'.checks[d] == db.checks[d].(nextDueAt := RoundAfter(d.slot, now),
                                              nextAttemptAt := Some(RoundAfter(d.slot, now)))
  {
    assert At(d);
    NoAttemptsYet(db);
  }

  // ---------------------------------------------------------------- tokens and alarms

  /** Only a device with misses and no open round is hurried by a new token, and then it is due at once. */
  lemma NewTokenHurriesIff(db: Db, d: DeviceId, token: PushToken, now: int)
    ensures var db' := NewToken(db, d, token, now);
            var hurried := d in db.devices && db.devices[d].pushToken != token && d in db.checks
                           && db.checks[d].enabled && db.checks[d].misses != 0 && db.checks[d].roundId.None?;
            && db' == db.(devices := db'.devices, checks := db'.checks)
            && db'.devices == (if d in db.devices then db.devices[d := db.devices[d].(pushToken := token)]
                               else db.devices)
            && db'.checks == if hurried then db.checks[d := db.checks[d].(nextDueAt := now, nextAttemptAt := Some(now))]
                             else db.checks
  {
    if d in db.devices && db.devices[d].pushToken == token {
      assert db.devices[d := db.devices[d].(pushToken := token)] == db.devices;
    }
  }

  function LaterNote(noted: Option<int>, at: int): int {
    if noted.Some? && noted.value > at then noted.value else at
  }

  function Noted(devices: map<DeviceId, Device>, d: DeviceId, at: int): map<DeviceId, Device> {
    if d in devices
    then devices[d := devices[d].(lastAlarmPushAt := Some(LaterNote(devices[d].lastAlarmPushAt, at)))] else devices
  }

  /** A device keeps the time of its newest alarm. */
  lemma AlarmNoteIsNewest(db: Db, d: DeviceId, at: int)
    ensures WriteAlarmNote(db, d, at) == db.(devices := Noted(db.devices, d, at))
  {
    if d in db.devices {
      assert db.devices[d := db.devices[d]] == db.devices;
    }
  }

  lemma NotesCommute(devices: map<DeviceId, Device>, d: DeviceId, at: int, e: DeviceId, later: int)
    ensures Noted(Noted(devices, d, at), e, later) == Noted(Noted(devices, e, later), d, at)
    ensures Noted(Noted(devices, d, at), d, at) == Noted(devices, d, at)
  {
  }

  /** So notes may be written in any order, and again. */
  lemma AlarmNotesCommute(db: Db, d: DeviceId, at: int, e: DeviceId, later: int)
    ensures WriteAlarmNote(WriteAlarmNote(db, d, at), e, later) == WriteAlarmNote(WriteAlarmNote(db, e, later), d, at)
    ensures WriteAlarmNote(WriteAlarmNote(db, d, at), d, at) == WriteAlarmNote(db, d, at)
  {
    var first, second := WriteAlarmNote(db, d, at), WriteAlarmNote(db, e, later);
    AlarmNoteIsNewest(db, d, at);
    AlarmNoteIsNewest(db, e, later);
    AlarmNoteIsNewest(first, e, later);
    AlarmNoteIsNewest(first, d, at);
    AlarmNoteIsNewest(second, d, at);
    NotesCommute(db.devices, d, at, e, later);
  }

  // ---------------------------------------------------------------- deletions

  /** Of the attempts exactly those of the rounds that are left stay. */
  ghost predicate KeepsAttemptsOf(db: Db, db': Db) {
    && (forall id, k :: (id, k) in db'.attempts <==> (id, k) in db.attempts && id in db'.rounds)
    && forall id, k :: (id, k) in db'.attempts ==> db'.attempts[(id, k)] == db.attempts[(id, k)]
  }

  /** Exactly the closed rounds that opened more than 90 days ago go, each with its attempts. */
  lemma PruneDropsIff(db: Db, now: int)
    ensures var db' := Prune(db, now);
            && db' == db.(rounds := db'.rounds, attempts := db'.attempts) && KeepsAttemptsOf(db, db')
            && (forall id :: id in db'.rounds <==>
                  id in db.rounds && (db.rounds[id].result.None? || now - db.rounds[id].openedAt <= 90 * 86_400))
            && forall id :: id in db'.rounds ==> db'.rounds[id] == db.rounds[id]
  {
  }

  /** A device that is released takes its enrolment and its rounds with it, and nobody else's. */
  lemma ReleaseDropsIff(db: Db, d: DeviceId)
    ensures var db' := Release(db, d);
            && (db'.tiers, db'.nextRound, db'.handed) == (db.tiers, db.nextRound, db.handed) && KeepsAttemptsOf(db, db')
            && (forall e :: e in db'.devices <==> e in db.devices && e != d)
            && (forall e :: e in db'.checks <==> e in db.checks && e != d)
            && (forall e :: e in db'.devices ==> db'.devices[e] == db.devices[e])
            && (forall e :: e in db'.checks ==> db'.checks[e] == db.checks[e])
            && (forall id :: id in db'.rounds <==> id in db.rounds && db.rounds[id].device != d)
            && forall id :: id in db'.rounds ==> db'.rounds[id] == db.rounds[id]
  {
  }

  /** Moving a device, as linking and merging accounts do, changes who pays for it and nothing of its checks. */
  lemma MoveChangesAccount(db: Db, d: DeviceId, account: AccountId)
    ensures var db' := Move(db, d, account);
            && db' == db.(devices := db'.devices) && db'.devices.Keys == db.devices.Keys
            && forall e :: e in db.devices ==>
                 && (db'.devices[e].lastAlarmPushAt, db'.devices[e].pushToken) ==
                    (db.devices[e].lastAlarmPushAt, db.devices[e].pushToken)
                 && db'.devices[e].account == if e == d then account else db.devices[e].account
  {
  }

  // ---------------------------------------------------------------- the view

  /**
   What the app shows: nothing of a device that is off or not paid for, else its state, and when to expect a check.
   */
  lemma ViewTells(db: Db, d: DeviceId, account: AccountId, now: int)
    ensures var view := ViewOf(db, d, account, now);
            && (view.enabled <==> d in db.checks && db.checks[d].enabled)
            && (view.state == Off <==> !view.enabled || !(account in db.tiers && db.tiers[account] == Hosted))
            && (view.state == Off <==> view.nextDueAt.None?) && (view.state == Off <==> view.noticeAfter.None?)
            && (view.state != Off ==>
                  && view.nextDueAt == Some(db.checks[d].nextDueAt)
                  && view.noticeAfter == Some(NoticeOf(d.slot, OutlookOf(db, d), now))
                  && (view.state == TokenMissing <==> !HasToken(db, d))
                  && (HasToken(db, d) ==> view.state == StateOf(db.checks[d])))
  {
    if d in db.checks {
      NoticeIs(db, d, now);
    }
  }
}
