/** One scan over a list of due timers that goes stale while it is worked through, and runs of requests and scans. */
module IncidentScan {
  import opened Common
  import opened IncidentModel
  import opened IncidentInvariant

  /** The clock is read again for every timer; `n` readings of it are not before `at`. */
  ghost predicate ReadAfter(clock: nat -> int, n: nat, at: int) {
    forall k: nat :: k < n ==> clock(k) >= at
  }

  ghost predicate Touched(due: seq<Due>, k: nat, id: IncidentId)
    requires k <= |due|
  {
    exists j :: 0 <= j < k && due[j].id == id
  }

  /** Whatever the list still holds for this incident has nothing left to do. */
  ghost predicate NothingLeft(due: seq<Due>, k: nat, id: IncidentId, i: Incident)
    requires k <= |due|
  {
    forall j :: k <= j < |due| && due[j].id == id ==> due[j].kind == Repeat && i.state.Expired?
  }

  /** An open incident's window was not over at `low`. */
  ghost predicate WindowIsOn(i: Incident, low: int) {
    i.state.Open? ==> RingUntil(i) > low
  }

  /** How far a scan has come for one incident. */
  ghost predicate IncidentSoFar(before: Db, due: seq<Due>, k: nat, low: int, db: Db, events: seq<Event>, id: IncidentId)
    requires k <= |due| && id in before.incidents && id in db.incidents
  {
    if Touched(due, k, id) then NothingLeft(due, k, id, db.incidents[id]) && WindowIsOn(db.incidents[id], low)
    else db.incidents[id] == before.incidents[id] && forall e :: e in events ==> e.incident != id
  }

  /** An event that rings says until when, and that was not over at `low`. */
  ghost predicate RingsInWindow(db: Db, event: Event, low: int) {
    && event.incident in db.incidents
    && (event.kind.Repeated? || event.kind.Reopened? ==>
          event.ringUntil == Some(RingUntil(db.incidents[event.incident])) &&
              RingUntil(db.incidents[event.incident]) > low)
  }

  ghost predicate OneEventEach(events: seq<Event>) {
    forall a, b :: 0 <= a < b < |events| ==> events[a].incident != events[b].incident
  }

  ghost predicate SoFar(before: Db, due: seq<Due>, k: nat, low: int, db: Db, events: seq<Event>)
    requires k <= |due|
  {
    && Inv(db) && db.topics == before.topics && db.incidents.Keys == before.incidents.Keys
    && OneEventEach(events)
    && (forall e :: e in events ==> RingsInWindow(db, e, low))
    && (forall id :: id in before.incidents ==> IncidentSoFar(before, due, k, low, db, events, id))
  }

  // ---------------------------------------------------------------- one row

  /** A row that comes too late changes nothing. */
  lemma StaleRow(db: Db, row: Due, now: int)
    requires Inv(db) && row.id in db.incidents && row.kind == Repeat && db.incidents[row.id].state.Expired?
    ensures Process(db, row, now) == (db, None)
  {
    assert db.incidents[row.id := db.incidents[row.id]] == db.incidents;
  }

  /**
   A repeat that is handled as the first row of its incident is inside the window: the end of it would have come
   first.
   */
  lemma RepeatIsInside(before: Db, due: seq<Due>, k: nat, at: int)
    requires Inv(before) && IsDueList(before, due, at) && k < |due|
    requires due[k].kind == Repeat && !Touched(due, k, due[k].id)
    ensures before.incidents[due[k].id].state.Open? && RingUntil(before.incidents[due[k].id]) > at
    ensures forall j :: k < j < |due| ==> due[j].id != due[k].id
  {
    var id := due[k].id;
    assert IsRow(before, due[k]);
    assert !IsDue(before, id, Expire, at);
    forall j | k < j < |due| ensures due[j].id != id {
      assert IsRow(before, due[j]);
    }
  }

  /** The row is the one the query made of this incident, and comes while its window is still on if it rings again. */
  ghost predicate IsTimely(i: Incident, row: Due, at: int) {
    && row.kind in i.timers && i.timers[row.kind] == row.timer && row.timer.fireAt <= at
    && row.openedAt == i.openedAt && row.maxRing == i.maxRing
    && (row.kind == Repeat ==> i.state.Open? && RingUntil(i) > at)
  }

  /**
   A timely row does its work: one event, and an incident whose window is not over at `low`, if the clock never was
   before it.
   */
  lemma TimelyRow(i: Incident, row: Due, at: int, low: int, now: int, next: TimerId)
    requires Sound(i) && IsTimely(i, row, at) && low <= at && low <= now
    ensures var (i', _, event) := Handle(i, row, now, next);
            && event.Some? && event.value.incident == row.id && WindowIsOn(i', low)
            && (row.kind == Expire ==> i'.state.Expired?)
            && (event.value.kind.Repeated? || event.value.kind.Reopened? ==>
                  event.value.ringUntil == Some(RingUntil(i')) && RingUntil(i') > low)
  {
  }

  /** The first row of an incident is timely, and what follows it on the list is at most a repeat after the expiry. */
  lemma FirstRow(before: Db, due: seq<Due>, k: nat, at: int)
    requires Inv(before) && IsDueList(before, due, at) && k < |due| && !Touched(due, k, due[k].id)
    ensures IsTimely(before.incidents[due[k].id], due[k], at)
    ensures forall j :: k < j < |due| && due[j].id == due[k].id ==> due[j].kind == Repeat && due[k].kind == Expire
  {
    var row := due[k];
    var i := before.incidents[row.id];
    assert IsRow(before, row) && Sound(i);
    forall j | k < j < |due| && due[j].id == row.id ensures due[j].kind in i.timers && due[j].kind != row.kind {
      assert IsRow(before, due[j]);
    }
    if row.kind == Repeat {
      RepeatIsInside(before, due, k, at);
    }
  }

  // ---------------------------------------------------------------- the whole list

  /** What a timely row has done: its incident alone moved, and one event tells of it. */
  ghost predicate Advanced(db: Db, row: Due, low: int, after: Db, event: Event) {
    && Inv(after) && after.topics == db.topics && after.incidents.Keys == db.incidents.Keys && row.id in after.incidents
    && (forall id :: id in db.incidents && id != row.id ==> after.incidents[id] == db.incidents[id])
    && event.incident == row.id && RingsInWindow(after, event, low) && WindowIsOn(after.incidents[row.id], low)
    && (row.kind == Expire ==> after.incidents[row.id].state.Expired?)
  }

  lemma TimelyRowAdvances(db: Db, row: Due, at: int, low: int, now: int)
    requires Inv(db) && row.id in db.incidents && IsTimely(db.incidents[row.id], row, at) && low <= at && low <= now
    ensures var (after, event) := Process(db, row, now);
            event.Some? && Advanced(db, row, low, after, event.value)
  {
    TimelyRow(db.incidents[row.id], row, at, low, now, db.nextTimer);
    ProcessKeepsInv(db, row, now);
  }

  lemma AdvancedSoFar(before: Db, due: seq<Due>, k: nat, low: int, db: Db, events: seq<Event>, after: Db, event: Event)
    requires k < |due| && due[k].id in before.incidents && !Touched(due, k, due[k].id)
    requires forall j :: k < j < |due| && due[j].id == due[k].id ==> due[j].kind == Repeat && due[k].kind == Expire
    requires SoFar(before, due, k, low, db, events) && Advanced(db, due[k], low, after, event)
    ensures SoFar(before, due, k + 1, low, after, events + [event])
  {
    var row, events' := due[k], events + [event];
    assert IncidentSoFar(before, due, k, low, db, events, row.id);
    forall id | id in before.incidents ensures IncidentSoFar(before, due, k + 1, low, after, events', id) {
      if id == row.id {
        assert Touched(due, k + 1, id);
      }
    }
    EventsSoFar(db, after, events, event, low);
  }

  lemma StaleSoFar(before: Db, due: seq<Due>, k: nat, low: int, db: Db, events: seq<Event>)
    requires k < |due| && due[k].id in before.incidents && Touched(due, k, due[k].id)
    requires SoFar(before, due, k, low, db, events)
    ensures due[k].kind == Repeat && db.incidents[due[k].id].state.Expired?
    ensures SoFar(before, due, k + 1, low, db, events)
  {
    assert IncidentSoFar(before, due, k, low, db, events, due[k].id);
    forall id | id in before.incidents ensures IncidentSoFar(before, due, k + 1, low, db, events, id) {
    }
  }

  lemma NextRow(before: Db, due: seq<Due>, k: nat, at: int, low: int, db: Db, events: seq<Event>, now: int)
    requires Inv(before) && IsDueList(before, due, at) && k < |due| && low <= at && low <= now
    requires SoFar(before, due, k, low, db, events)
    ensures var (after, event) := Process(db, due[k], now);
            SoFar(before, due, k + 1, low, after, if event.Some? then events + [event.value] else events)
  {
    var row := due[k];
    assert IsRow(before, row);
    if Touched(due, k, row.id) {
      StaleSoFar(before, due, k, low, db, events);
      StaleRow(db, row, now);
    } else {
      assert IncidentSoFar(before, due, k, low, db, events, row.id);
      FirstRow(before, due, k, at);
      TimelyRowAdvances(db, row, at, low, now);
      var (after, event) := Process(db, row, now);
      AdvancedSoFar(before, due, k, low, db, events, after, event.value);
    }
  }

  lemma EventsSoFar(db: Db, after: Db, events: seq<Event>, event: Event, low: int)
    requires OneEventEach(events) &&
             (forall e :: e in events ==> RingsInWindow(db, e, low) && e.incident != event.incident)
    requires RingsInWindow(after, event, low)
    requires forall id :: id in db.incidents && id != event.incident ==>
             id in after.incidents && after.incidents[id] == db.incidents[id]
    ensures OneEventEach(events + [event])
    ensures forall e :: e in events + [event] ==> RingsInWindow(after, e, low)
  {
  }

  lemma ProcessOneMore(before: Db, due: seq<Due>, clock: nat -> int, k: nat)
    requires k < |due|
    ensures var (db, events) := ProcessAll(before, due[..k], clock);
            var (after, event) := Process(db, due[k], clock(k));
            ProcessAll(before, due[..k + 1], clock) == (after, if event.Some? then events + [event.value] else events)
  {
    assert due[..k + 1][..k] == due[..k];
  }

  ghost predicate ScannedSoFar(before: Db, due: seq<Due>, clock: nat -> int, k: nat, low: int)
    requires k <= |due|
  {
    var (db, events) := ProcessAll(before, due[..k], clock);
    SoFar(before, due, k, low, db, events)
  }

  lemma ScanOneMore(before: Db, due: seq<Due>, clock: nat -> int, k: nat, at: int, low: int)
    requires Inv(before) && IsDueList(before, due, at) && k < |due| && low <= at && low <= clock(k)
    requires ScannedSoFar(before, due, clock, k, low)
    ensures ScannedSoFar(before, due, clock, k + 1, low)
  {
    var (db, events) := ProcessAll(before, due[..k], clock);
    ProcessOneMore(before, due, clock, k);
    NextRow(before, due, k, at, low, db, events, clock(k));
  }

  lemma {:induction false} ScanSoFar(before: Db, due: seq<Due>, clock: nat -> int, k: nat, at: int, low: int)
    requires Inv(before) && IsDueList(before, due, at) && low <= at && ReadAfter(clock, |due|, low) && k <= |due|
    ensures ScannedSoFar(before, due, clock, k, low)
    decreases k
  {
    if k == 0 {
    } else {
      ScanSoFar(before, due, clock, k - 1, at, low);
      ScanOneMore(before, due, clock, k - 1, at, low);
    }
  }

  /**
   One scan whose clock never reads earlier than `low`, a time no later than the query's own: no incident has two
   events, no incident is left open whose window was over at `low`, and everything that rings says the end of a
   window that was not. With a clock that does not run back `low` is the time of the query.
   */
  lemma ScanIsSound(before: Db, due: seq<Due>, clock: nat -> int, at: int, low: int)
    requires Inv(before) && IsDueList(before, due, at) && low <= at && ReadAfter(clock, |due|, low)
    ensures var (db, events) := ProcessAll(before, due, clock);
            && Inv(db) && db.topics == before.topics && db.incidents.Keys == before.incidents.Keys
            && OneEventEach(events)
            && (forall e :: e in events ==> RingsInWindow(db, e, low))
            && (forall id :: id in db.incidents ==> WindowIsOn(db.incidents[id], low))
  {
    ScanSoFar(before, due, clock, |due|, at, low);
    assert due[..|due|] == due;
    var (db, events) := ProcessAll(before, due, clock);
    forall id | id in db.incidents ensures WindowIsOn(db.incidents[id], low) {
      assert IncidentSoFar(before, due, |due|, low, db, events, id);
      if !Touched(due, |due|, id) && before.incidents[id].state.Open? {
        assert Sound(before.incidents[id]);
        assert !IsDue(before, id, Expire, at);
      }
    }
  }

  lemma {:induction false} EarliestReading(clock: nat -> int, n: nat, at: int) returns (low: int)
    ensures low <= at && ReadAfter(clock, n, low)
    decreases n
  {
    low := at;
    if n > 0 {
      low := EarliestReading(clock, n - 1, at);
      low := if clock(n - 1) < low then clock(n - 1) else low;
    }
  }

  /** However the clock jumps while the list is worked through, an incident has at most one event of a scan. */
  lemma OneEventPerScan(before: Db, due: seq<Due>, clock: nat -> int, at: int)
    requires Inv(before) && IsDueList(before, due, at)
    ensures OneEventEach(ProcessAll(before, due, clock).1)
  {
    var low := EarliestReading(clock, |due|, at);
    ScanIsSound(before, due, clock, at, low);
  }

  // ---------------------------------------------------------------- the pace of a window

  lemma TimelyRowKeepsPace(i: Incident, row: Due, at: int, now: int, next: TimerId)
    requires Sound(i) && Paced(i) && IsTimely(i, row, at) && at <= now
    ensures Paced(Handle(i, row, now, next).0)
  {
    if row.kind == Repeat {
      RingKeepsPace(i, at, now, row.interval);
    }
  }

  lemma NextRowKeepsPace(before: Db, due: seq<Due>, k: nat, at: int, db: Db, events: seq<Event>, now: int)
    requires Inv(before) && IsDueList(before, due, at) && k < |due| && at <= now
    requires SoFar(before, due, k, at, db, events) && AllPaced(db)
    ensures AllPaced(Process(db, due[k], now).0)
  {
    var row := due[k];
    assert IsRow(before, row);
    if Touched(due, k, row.id) {
      StaleSoFar(before, due, k, at, db, events);
      StaleRow(db, row, now);
    } else {
      assert IncidentSoFar(before, due, k, at, db, events, row.id);
      FirstRow(before, due, k, at);
      TimelyRowKeepsPace(db.incidents[row.id], row, at, now, db.nextTimer);
    }
  }

  ghost predicate PacedSoFar(before: Db, due: seq<Due>, clock: nat -> int, k: nat)
    requires k <= |due|
  {
    AllPaced(ProcessAll(before, due[..k], clock).0)
  }

  lemma PaceOneMore(before: Db, due: seq<Due>, clock: nat -> int, k: nat, at: int)
    requires Inv(before) && IsDueList(before, due, at) && k < |due| && at <= clock(k)
    requires ScannedSoFar(before, due, clock, k, at) && PacedSoFar(before, due, clock, k)
    ensures PacedSoFar(before, due, clock, k + 1)
  {
    var (db, events) := ProcessAll(before, due[..k], clock);
    ProcessOneMore(before, due, clock, k);
    NextRowKeepsPace(before, due, k, at, db, events, clock(k));
  }

  lemma {:induction false} ScanKeepsPace(before: Db, due: seq<Due>, clock: nat -> int, k: nat, at: int)
    requires Inv(before) && AllPaced(before) && IsDueList(before, due, at) && ReadAfter(clock, |due|, at) && k <= |due|
    ensures PacedSoFar(before, due, clock, k)
    decreases k
  {
    if k > 0 {
      ScanKeepsPace(before, due, clock, k - 1, at);
      ScanSoFar(before, due, clock, k - 1, at, at);
      PaceOneMore(before, due, clock, k - 1, at);
    }
  }

  // ---------------------------------------------------------------- how often a window rings

  lemma {:induction false} SumAtLeast(intervals: seq<int>, least: nat)
    requires forall k :: 0 <= k < |intervals| ==> intervals[k] >= least
    ensures Sum(intervals) >= |intervals| * least
    decreases |intervals|
  {
    if intervals != [] {
      SumAtLeast(intervals[..|intervals| - 1], least);
    }
  }

  /** With intervals of at least `least` seconds, a window holds at most (max_ring_s - 1) / least repeats. */
  lemma RepeatsFitTheWindow(i: Incident, least: nat)
    requires Sound(i) && Paced(i) && least > 0 && forall k :: 0 <= k < |Elapsed(i)| ==> Elapsed(i)[k] >= least
    ensures Repeats(i.events) <= (i.maxRing - 1) / least
  {
    SumAtLeast(Elapsed(i), least);
    var repeats := |Elapsed(i)|;
    assert repeats * least <= i.maxRing - 1;
    AtMostQuotient(repeats, least, i.maxRing - 1);
  }

  lemma AtMostQuotient(n: nat, d: nat, whole: int)
    requires d > 0 && n * d <= whole
    ensures n <= whole / d
  {
    var quotient := whole / d;
    assert whole < (quotient + 1) * d;
  }

  // ---------------------------------------------------------------- runs

  datatype Step =
    | Publishes(topic: TopicId, interval: int, maxRing: int, active: Option<IncidentId>, drawn: IncidentId, now: int)
    | Acknowledges(account: AccountId, id: IncidentId, now: int)
    | Closes(account: AccountId, id: IncidentId, now: int)
    | Prunes(account: AccountId, cutoff: int)
    | Patches(topic: TopicId, interval: int, maxRing: int, deskTimer: int)
    | Scans(due: seq<Due>, at: int, clock: nat -> int)
    | Creates(topic: TopicId, settings: Topic)

  ghost predicate CanStep(db: Db, step: Step) {
    match step
    case Publishes(topic, interval, maxRing, active, drawn, now) =>
      topic in db.topics && maxRing > 0 && IsActiveAnswer(db, topic, active) && drawn !in db.incidents
    case Scans(due, at, clock) => IsDueList(db, due, at)
    case _ => true
  }

  ghost function Next(db: Db, step: Step): Db
    requires CanStep(db, step)
  {
    match step
    case Publishes(topic, interval, maxRing, active, drawn, now) =>
      Publish(db, topic, interval, maxRing, active, drawn, now).0
    case Acknowledges(account, id, now) => Acknowledge(db, account, id, now).0
    case Closes(account, id, now) => Close(db, account, id, now).0
    case Prunes(account, cutoff) => Prune(db, account, cutoff)
    case Patches(topic, interval, maxRing, deskTimer) => Patch(db, topic, interval, maxRing, deskTimer)
    case Scans(due, at, clock) => ProcessAll(db, due, clock).0
    case Creates(topic, settings) => db.(topics := db.topics[topic := settings])
  }

  /** Every step keeps the invariant, a scan during which the clock jumps either way too. */
  lemma StepKeepsInv(db: Db, step: Step)
    requires Inv(db) && CanStep(db, step)
    ensures Inv(Next(db, step))
  {
    match step
    case Publishes(topic, interval, maxRing, active, drawn, now) =>
      PublishKeepsInv(db, topic, interval, maxRing, active, drawn, now);
    case Acknowledges(account, id, now) => AcknowledgeKeepsInv(db, account, id, now);
    case Closes(account, id, now) => CloseKeepsInv(db, account, id, now);
    case Prunes(account, cutoff) => PruneKeepsInv(db, account, cutoff);
    case Patches(topic, interval, maxRing, deskTimer) =>
    case Scans(due, at, clock) => ProcessAllKeepsInv(db, due, clock);
    case Creates(topic, settings) =>
  }

  /** During a scan the clock does not read earlier than the query did. */
  ghost predicate ScansForward(step: Step) {
    step.Scans? ==> ReadAfter(step.clock, |step.due|, step.at)
  }

  lemma StepKeepsPace(db: Db, step: Step)
    requires Inv(db) && AllPaced(db) && CanStep(db, step) && ScansForward(step)
    ensures AllPaced(Next(db, step))
  {
    match step
    case Publishes(topic, interval, maxRing, active, drawn, now) =>
      PublishKeepsPace(db, topic, interval, maxRing, active, drawn, now);
    case Acknowledges(account, id, now) => AcknowledgeKeepsInv(db, account, id, now);
    case Closes(account, id, now) => CloseKeepsInv(db, account, id, now);
    case Prunes(account, cutoff) => PruneKeepsInv(db, account, cutoff);
    case Patches(topic, interval, maxRing, deskTimer) =>
    case Scans(due, at, clock) =>
      ScanKeepsPace(db, due, clock, |due|, at);
      assert due[..|due|] == due;
    case Creates(topic, settings) =>
  }

  ghost predicate IsRun(trace: seq<Db>, steps: seq<Step>) {
    && |trace| == |steps| + 1
    && trace[0] == Db(map[], map[], 0)
    && forall i: nat {:trigger steps[i]} :: i < |steps| ==>
        CanStep(trace[i], steps[i]) && trace[i + 1] == Next(trace[i], steps[i])
  }

  /**
   Over every run, in any order and on any clock: at most one active incident a topic, the right timers, and events
   that spell the state.
   */
  lemma {:induction false} RunKeepsInv(trace: seq<Db>, steps: seq<Step>, k: nat)
    requires IsRun(trace, steps) && k < |trace|
    ensures Inv(trace[k])
  {
    if k > 0 {
      RunKeepsInv(trace, steps, k - 1);
      StepKeepsInv(trace[k - 1], steps[k - 1]);
    }
  }

  lemma {:induction false} RunKeepsPace(trace: seq<Db>, steps: seq<Step>, k: nat)
    requires IsRun(trace, steps) && k < |trace| && forall i :: 0 <= i < k ==> ScansForward(steps[i])
    ensures AllPaced(trace[k])
  {
    if k > 0 {
      RunKeepsInv(trace, steps, k - 1);
      RunKeepsPace(trace, steps, k - 1);
      StepKeepsPace(trace[k - 1], steps[k - 1]);
    }
  }

  /**
   Over every run whose scans do not see the clock run back, no ringing window holds more repeats than fit into it.
   */
  lemma RepeatsFitOverRuns(trace: seq<Db>, steps: seq<Step>, k: nat, id: IncidentId, least: nat)
    requires IsRun(trace, steps) && k < |trace| && forall i :: 0 <= i < k ==> ScansForward(steps[i])
    requires id in trace[k].incidents && least > 0
    ensures var i := trace[k].incidents[id];
            && i.intervals != []
            && ((forall j :: 0 <= j < |Elapsed(i)| ==> Elapsed(i)[j] >= least) ==>
                Repeats(i.events) <= (i.maxRing - 1) / least)
  {
    RunKeepsInv(trace, steps, k);
    RunKeepsPace(trace, steps, k);
    var i := trace[k].incidents[id];
    if forall j :: 0 <= j < |Elapsed(i)| ==> Elapsed(i)[j] >= least {
      RepeatsFitTheWindow(i, least);
    }
  }
}
