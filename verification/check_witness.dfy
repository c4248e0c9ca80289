/** Runs from empty tables that reach the exceptions to what `notice_after` promises, for a device on any slot. */
module CheckWitnesses {
  import opened Common
  import opened Schedule
  import opened Tiers
  import opened CheckModel
  import opened CheckInvariant
  import opened CheckRounds
  import opened CheckNotice
  import opened CheckPrompt

  lemma {:induction false} RunThen(db: Db, steps: seq<Step>, step: Step)
    ensures Run(db, steps + [step]) == Apply(Run(db, steps), step)
    decreases |steps|
  {
    if steps == [] {
      RunFrom(db, step, [], 0);
      assert [] + [step] == [step] + [];
    } else {
      assert (steps + [step])[1..] == steps[1..] + [step];
      RunThen(Apply(db, steps[0]), steps[1..], step);
    }
  }

  lemma ThenReached(steps: seq<Step>, db: Db, step: Step, after: Db)
    requires Run(EMPTY, steps) == db && Apply(db, step) == after
    ensures Run(EMPTY, steps + [step]) == after
  {
    RunThen(EMPTY, steps, step);
  }

  /** A device whose account gets checks has just switched them on. */
  function Started(d: DeviceId): Db {
    Db(map[0 := Hosted], map[d := Device(0, None, "token")],
       map[d := Enrolment(true, Some(0), 0, None, 0, None, None, None, None)],
       map[], map[], 0, [], map[d := []])
  }

  lemma StartRun(d: DeviceId) returns (steps: seq<Step>)
    ensures Run(EMPTY, steps) == Started(d)
  {
    var register, hosted, enable := RegisterStep(d, 0, "token"), TierStep(0, Hosted), EnableStep(d, 0);
    RunThen(EMPTY, [], register);
    RunThen(EMPTY, [] + [register], hosted);
    RunThen(EMPTY, [] + [register] + [hosted], enable);
    steps := [] + [register] + [hosted] + [enable];
  }

  /** The first round opened at the start, with its first push on record. */
  function FirstPush(d: DeviceId): Db {
    RecordAttempt(Open(Started(d), d, 0), d, 0, 0)
  }

  lemma FirstPushRun(d: DeviceId) returns (steps: seq<Step>)
    ensures Run(EMPTY, steps) == FirstPush(d)
  {
    var start := StartRun(d);
    RunThen(EMPTY, start, PlanStep(d, 0));
    steps := start + [PlanStep(d, 0)];
  }

  // ---------------------------------------------------------------- a value told while a round is overdue

  /** The first round received, the second opened when it was due. */
  function SecondOpen(d: DeviceId, due: int): Db {
    Plan(CountReceipt(FirstPush(d), 0, None, None, 1), d, due).0
  }

  lemma ReceivedRun(d: DeviceId) returns (steps: seq<Step>)
    ensures Run(EMPTY, steps) == CountReceipt(FirstPush(d), 0, None, None, 1)
  {
    var first := FirstPushRun(d);
    ThenReached(first, FirstPush(d), ReceiptStep(d, Some(0), None, None, 1),
                CountReceipt(FirstPush(d), 0, None, None, 1));
    steps := first + [ReceiptStep(d, Some(0), None, None, 1)];
  }

  lemma SecondOpenRun(d: DeviceId, due: int) returns (steps: seq<Step>)
    ensures Run(EMPTY, steps) == SecondOpen(d, due)
  {
    var received := ReceivedRun(d);
    PlanThen(received, CountReceipt(FirstPush(d), 0, None, None, 1), d, due);
    steps := received + [PlanStep(d, due)];
  }

  lemma PlanThen(steps: seq<Step>, db: Db, d: DeviceId, now: int)
    requires Run(EMPTY, steps) == db
    ensures Run(EMPTY, steps + [PlanStep(d, now)]) == Plan(db, d, now).0
  {
    RunThen(EMPTY, steps, PlanStep(d, now));
  }

  lemma SecondOpenShape(d: DeviceId)
    ensures var due := RoundAfter(d.slot, 0);
            var db := SecondOpen(d, due);
            && d in db.checks && d in db.devices && db.tiers == map[0 := Hosted] && db.devices[d].account == 0
            && 0 in db.rounds && db.rounds[0].device == d && db.rounds[0].result == Some(Received)
            && 1 in db.rounds && db.rounds[1].result.None?
            && db.checks[d].enabled && db.checks[d].roundId == Some(1) && db.checks[d].misses == 0
            && db.checks[d].nextDueAt == RoundAfter(d.slot, due)
  {
    RoundAfterSpacing(d.slot, 0);
  }

  /**
   The server answers a second receipt of the first round while the second round is still open although the third is
   due: it tells a second that counts on the third round opening when it was due, which is over.
   */
  lemma OverdueIsTold(d: DeviceId) returns (steps: seq<Step>, now: int)
    ensures var db := Run(EMPTY, steps);
            var (after, counted) := Receipt(db, d, Some(0), None, None, now);
            && counted == Some(true) && d in after.checks && Overdue(OutlookOf(after, d), now)
            && after.checks[d].nextDueAt < now
            && ViewOf(after, d, 0, now).noticeAfter == Some(after.checks[d].nextDueAt + ROUND_LENGTH_S)
  {
    steps := SecondOpenRun(d, RoundAfter(d.slot, 0));
    SecondOpenShape(d);
    now := RoundAfter(d.slot, RoundAfter(d.slot, 0)) + 1;
  }

  // ---------------------------------------------------------------- the two steps that take time away

  /** The push of the first round refused at once: one miss, and no round open. */
  function RefusedFirst(d: DeviceId): Db {
    Record(FirstPush(d), 0, 1, TokenRefused, 410, 0)
  }

  lemma RefusedFirstRun(d: DeviceId) returns (steps: seq<Step>)
    ensures Run(EMPTY, steps) == RefusedFirst(d)
  {
    var first := FirstPushRun(d);
    RunThen(EMPTY, first, RecordStep(0, 1, TokenRefused, 410, 0));
    steps := first + [RecordStep(0, 1, TokenRefused, 410, 0)];
  }

  lemma RefusedFirstShape(d: DeviceId)
    ensures var db := RefusedFirst(d);
            && d in db.checks && d in db.devices && db.devices[d].pushToken == "token"
            && db.checks[d].enabled && db.checks[d].misses == 1 && db.checks[d].roundId.None?
            && db.checks[d].nextDueAt == RoundAfter(d.slot, 0)
  {
  }

  /** A new push token after one miss makes the device due at once, and `notice_after` falls. */
  lemma NewTokenLowers(d: DeviceId) returns (steps: seq<Step>, step: Step)
    ensures Fall(Run(EMPTY, steps), step, d) && step.NewTokenStep?
  {
    steps := RefusedFirstRun(d);
    step := NewTokenStep(d, "other", 1);
    RefusedFirstShape(d);
    RoundAfterSpacing(d.slot, 0);
    ReachableInv(steps);
    LoweringFalls(Run(EMPTY, steps), step, d);
  }

  /** The step names a time of its own, and the value told just after it is less than just before. */
  ghost predicate Fall(db: Db, step: Step, d: DeviceId) {
    && Lowers(db, step, d) && d in db.checks && d in Apply(db, step).checks
    && NoticeAfter(Apply(db, step), d, StepTime(step, 0)) < NoticeAfter(db, d, StepTime(step, 0))
  }

  lemma LoweringFalls(db: Db, step: Step, d: DeviceId)
    requires Inv(db) && d in db.checks && db.checks[d].misses < 2 && Lowers(db, step, d) && d in Apply(db, step).checks
    ensures Fall(db, step, d)
  {
    var now := StepTime(step, 0);
    NoticeMovesBackIff(db, step, d, now);
  }

  /** The second round opened when it was due, with its first push on record. */
  function SecondPush(d: DeviceId, due: int): Db {
    RecordAttempt(Open(RefusedFirst(d), d, due), d, 1, due)
  }

  lemma SecondPushRun(d: DeviceId, due: int) returns (steps: seq<Step>)
    requires due == RoundAfter(d.slot, 0)
    ensures Run(EMPTY, steps) == SecondPush(d, due)
  {
    var first := RefusedFirstRun(d);
    PlanThen(first, RefusedFirst(d), d, due);
    SecondPushIs(d, due);
    steps := first + [PlanStep(d, due)];
  }

  lemma SecondPushIs(d: DeviceId, due: int)
    requires due == RoundAfter(d.slot, 0)
    ensures Plan(RefusedFirst(d), d, due).0 == SecondPush(d, due)
  {
  }

  /** The push of the second round refused before its close, after one miss, lowers it too. */
  lemma RefusalLowers(d: DeviceId) returns (steps: seq<Step>, step: Step)
    ensures Fall(Run(EMPTY, steps), step, d) && step.RecordStep?
  {
    var due := RoundAfter(d.slot, 0);
    steps := SecondPushRun(d, due);
    step := RecordStep(1, 1, TokenRefused, 410, due);
    ReachableInv(steps);
    SecondPushLowers(d, due);
    LoweringFalls(Run(EMPTY, steps), step, d);
  }

  lemma SecondPushLowers(d: DeviceId, due: int)
    ensures var db, step := SecondPush(d, due), RecordStep(1, 1, TokenRefused, 410, due);
            Lowers(db, step, d) && d in db.checks && db.checks[d].misses < 2 && d in Apply(db, step).checks
  {
  }
}
