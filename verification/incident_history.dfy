/**
 The columns of an incident as its history gives them: every time in the row is that of an event emitted for it, and
 every timer stands one interval after the event that set it.
 */
module IncidentHistory {
  import opened Common
  import opened IncidentModel
  import opened IncidentInvariant
  import opened IncidentScan

  // ---------------------------------------------------------------- the row, from the history

  /** When the last event of one of these kinds was emitted. */
  function LastAt(events: seq<EventKind>, at: seq<int>, kinds: set<EventKind>): Option<int>
    requires |at| == |events|
  {
    if events == [] then None
    else
      var n := |events| - 1;
      if events[n] in kinds then Some(at[n]) else LastAt(events[..n], at[..n], kinds)
  }

  const RINGS: set<EventKind> := {Opened, Reopened, Repeated}
  const CHANGES: set<EventKind> := {Opened, Reopened, Message, Acknowledged, ClosedBy, Expiring}

  /**
   Every time of the row is told by its history. The repeat timer stands one interval after the last ring, and the
   window ends `max_ring_s` after it began.
   */
  ghost predicate Stamped(i: Incident) {
    && |i.at| == |i.events| && i.intervals != []
    && Some(i.openedAt) == LastAt(i.events, i.at, {Opened, Reopened})
    && Some(i.lastMessageAt) == LastAt(i.events, i.at, {Opened, Message})
    && Some(i.updatedAt) == LastAt(i.events, i.at, CHANGES)
    && i.ackedAt == (if i.state.Acked? || i.state.Closed? then LastAt(i.events, i.at, {Acknowledged}) else None)
    && i.closedAt == (if IsPending(i) then None else LastAt(i.events, i.at, {ClosedBy, Expiring}))
    && (i.state.Open? && Repeat in i.timers && Expire in i.timers ==>
          && Some(i.timers[Repeat].fireAt - i.intervals[|i.intervals| - 1]) == LastAt(i.events, i.at, RINGS)
          && Some(i.timers[Expire].fireAt - i.maxRing) == LastAt(i.events, i.at, {Opened, Reopened}))
  }

  /** A row that finds its incident in another state deletes the timer it is about, if that is still there. */
  lemma StaleRowDrops(i: Incident, row: Due, now: int, next: TimerId)
    ensures var (i', drawn, event) := Handle(i, row, now, next);
            if (if row.kind.Desk? then i.state.Acked? else i.state.Open?) then event.Some?
            else
              && event.None? && i' == i.(timers := i'.timers)
              && forall kind ::
                   && (kind in i'.timers <==>
                       kind in i.timers && (kind != row.kind || i.timers[kind].id != row.timer.id))
                   && (kind in i'.timers ==> i'.timers[kind] == i.timers[kind])
  {
  }

  /** The list of a scan: ends of windows first, then desk timers, then repeats, each by time and then by id. */
  lemma DueListInOrder(db: Db, due: seq<Due>, at: int, j: nat, k: nat)
    requires IsDueList(db, due, at) && j < k < |due|
    ensures due[k].kind.Expire? ==> due[j].kind.Expire?
    ensures due[k].kind.Desk? ==> !due[j].kind.Repeat?
    ensures due[j].kind == due[k].kind ==>
              due[j].timer.fireAt < due[k].timer.fireAt ||
              (due[j].timer.fireAt == due[k].timer.fireAt && due[j].timer.id <= due[k].timer.id)
  {
    assert !ComesBefore(due[k], due[j]);
  }

  /** One more event, at `now`, of the kind that is told. */
  ghost predicate Told(i: Incident, i': Incident, kind: EventKind, now: int) {
    i'.events == i.events + [kind] && i'.at == i.at + [now]
  }

  lemma LastOfTold(i: Incident, i': Incident, kind: EventKind, now: int, kinds: set<EventKind>)
    requires |i.at| == |i.events| && Told(i, i', kind, now)
    ensures LastAt(i'.events, i'.at, kinds) == if kind in kinds then Some(now) else LastAt(i.events, i.at, kinds)
  {
    assert i'.events[..|i.events|] == i.events && i'.at[..|i.at|] == i.at;
  }

  lemma AllOfTold(i: Incident, i': Incident, kind: EventKind, now: int)
    requires |i.at| == |i.events| && Told(i, i', kind, now)
    ensures forall kinds :: LastAt(i'.events, i'.at, kinds) ==
                            if kind in kinds then Some(now) else LastAt(i.events, i.at, kinds)
  {
    forall kinds ensures LastAt(i'.events, i'.at, kinds) ==
                         if kind in kinds then Some(now) else LastAt(i.events, i.at, kinds) {
      LastOfTold(i, i', kind, now, kinds);
    }
  }

  lemma BeginIsStamped(topic: TopicId, now: int, interval: int, maxRing: int, next: TimerId)
    ensures Stamped(Begin(topic, now, interval, maxRing, next))
  {
    var i := Begin(topic, now, interval, maxRing, next);
    assert i.events[..0] == [] && i.at[..0] == [];
  }

  lemma RequestKeepsStamped(i: Incident, now: int, deskTimer: int, next: TimerId)
    requires Sound(i) && Stamped(i)
    ensures IsPending(i) ==> Stamped(Hear(i, now)) && Told(i, Hear(i, now), Message, now)
    ensures var acked := Ack(i, now, deskTimer, next);
            i.state.Open? ==> Stamped(acked) && Told(i, acked, Acknowledged, now)
    ensures i.state.Acked? ==> Stamped(Shut(i, now)) && Told(i, Shut(i, now), ClosedBy, now)
  {
    AllOfTold(i, Hear(i, now), Message, now);
    AllOfTold(i, Ack(i, now, deskTimer, next), Acknowledged, now);
    AllOfTold(i, Shut(i, now), ClosedBy, now);
  }

  /** A row that comes in time tells one event, and the incident's times and timers are moved by it. */
  lemma TimelyRowKeepsStamped(i: Incident, row: Due, at: int, now: int, next: TimerId)
    requires Sound(i) && Stamped(i) && IsTimely(i, row, at)
    ensures var (i', _, event) := Handle(i, row, now, next);
            && Stamped(i') && event.Some? && Told(i, i', event.value.kind, now)
            && (event.value.maxRing, event.value.critical) == (i.maxRing, row.critical)
            && (event.value.kind.Expiring? ==> event.value.ringUntil.None?)
            && (event.value.kind in {Repeated, Reopened} ==> i'.intervals[|i'.intervals| - 1] == row.interval)
  {
    var (i', _, event) := Handle(i, row, now, next);
    AllOfTold(i, i', event.value.kind, now);
  }

  // ---------------------------------------------------------------- one scan

  ghost predicate AllStamped(db: Db) {
    forall id :: id in db.incidents ==> Stamped(db.incidents[id])
  }

  /** What a step told of an incident that was there before is what its history gained. */
  ghost predicate EventsTell(before: Db, db: Db, events: seq<Event>) {
    forall id :: id in before.incidents && id in db.incidents ==>
      && ((forall e :: e in events ==> e.incident != id) ==> db.incidents[id] == before.incidents[id])
      && forall e :: e in events && e.incident == id ==>
           db.incidents[id].events == before.incidents[id].events + [e.kind]
  }

  /** What a scan tells carries the topic's flag and the incident's own window. */
  ghost predicate EventsMatch(before: Db, events: seq<Event>) {
    forall e :: e in events ==>
      && e.incident in before.incidents && before.incidents[e.incident].topic in before.topics
      && e.critical == before.topics[before.incidents[e.incident].topic].critical
      && e.maxRing == before.incidents[e.incident].maxRing
  }

  ghost predicate StampedSoFar(before: Db, due: seq<Due>, clock: nat -> int, k: nat)
    requires k <= |due|
  {
    var (db, events) := ProcessAll(before, due[..k], clock);
    AllStamped(db) && EventsTell(before, db, events) && EventsMatch(before, events)
  }

  lemma TellsNext(before: Db, row: Due, db: Db, after: Db, events: seq<Event>, event: Event)
    requires EventsTell(before, db, events) && row.id in db.incidents && row.id in after.incidents
    requires after.incidents == db.incidents[row.id := after.incidents[row.id]] && event.incident == row.id
    requires row.id in before.incidents ==> db.incidents[row.id] == before.incidents[row.id]
    requires forall e :: e in events ==> e.incident != row.id
    requires after.incidents[row.id].events == db.incidents[row.id].events + [event.kind]
    ensures EventsTell(before, after, events + [event])
  {
    assert forall e :: e in events + [event] <==> e in events || e == event;
  }

  lemma TimelyRowStamps(before: Db, row: Due, at: int, db: Db, events: seq<Event>, now: int)
    requires Inv(db) && AllStamped(db) && EventsTell(before, db, events)
    requires row.id in db.incidents && IsTimely(db.incidents[row.id], row, at)
    requires row.id in before.incidents ==> db.incidents[row.id] == before.incidents[row.id]
    requires forall e :: e in events ==> e.incident != row.id
    ensures var (after, event) := Process(db, row, now);
            && event.Some? && AllStamped(after) && EventsTell(before, after, events + [event.value])
            && event.value.incident == row.id
            && (event.value.maxRing, event.value.critical) == (db.incidents[row.id].maxRing, row.critical)
  {
    TimelyRowKeepsStamped(db.incidents[row.id], row, at, now, db.nextTimer);
    var (after, event) := Process(db, row, now);
    TellsNext(before, row, db, after, events, event.value);
  }

  lemma MatchesNext(before: Db, row: Due, events: seq<Event>, event: Event)
    requires EventsMatch(before, events) && IsRow(before, row) && event.incident == row.id
    requires (event.maxRing, event.critical) == (before.incidents[row.id].maxRing, row.critical)
    ensures EventsMatch(before, events + [event])
  {
  }

  lemma NextRowStamps(before: Db, due: seq<Due>, k: nat, at: int, low: int, db: Db, events: seq<Event>, now: int)
    requires Inv(before) && IsDueList(before, due, at) && k < |due| && low <= at && low <= now
    requires SoFar(before, due, k, low, db, events) && AllStamped(db) && EventsTell(before, db, events)
    requires EventsMatch(before, events)
    ensures var (after, event) := Process(db, due[k], now);
            && AllStamped(after)
            && EventsTell(before, after, if event.Some? then events + [event.value] else events)
            && EventsMatch(before, if event.Some? then events + [event.value] else events)
  {
    var row := due[k];
    assert IsRow(before, row);
    assert IncidentSoFar(before, due, k, low, db, events, row.id);
    if Touched(due, k, row.id) {
      StaleSoFar(before, due, k, low, db, events);
      StaleRow(db, row, now);
    } else {
      FirstRow(before, due, k, at);
      TimelyRowStamps(before, row, at, db, events, now);
      MatchesNext(before, row, events, Process(db, row, now).1.value);
    }
  }

  lemma StampsOneMore(before: Db, due: seq<Due>, clock: nat -> int, k: nat, at: int, low: int)
    requires Inv(before) && IsDueList(before, due, at) && k < |due| && low <= at && low <= clock(k)
    requires ScannedSoFar(before, due, clock, k, low) && StampedSoFar(before, due, clock, k)
    ensures StampedSoFar(before, due, clock, k + 1)
  {
    var (db, events) := ProcessAll(before, due[..k], clock);
    ProcessOneMore(before, due, clock, k);
    NextRowStamps(before, due, k, at, low, db, events, clock(k));
  }

  lemma {:induction false} ScanStamps(before: Db, due: seq<Due>, clock: nat -> int, k: nat, at: int, low: int)
    requires Inv(before) && AllStamped(before) && IsDueList(before, due, at) && k <= |due|
    requires low <= at && ReadAfter(clock, |due|, low)
    ensures StampedSoFar(before, due, clock, k)
    decreases k
  {
    if k == 0 {
    } else {
      ScanStamps(before, due, clock, k - 1, at, low);
      ScanSoFar(before, due, clock, k - 1, at, low);
      StampsOneMore(before, due, clock, k - 1, at, low);
    }
  }

  /** However the clock jumps, what a scan returns is what its incidents' histories gained. */
  lemma ScanTells(before: Db, due: seq<Due>, clock: nat -> int, at: int)
    requires Inv(before) && AllStamped(before) && IsDueList(before, due, at)
    ensures var (db, events) := ProcessAll(before, due, clock);
            AllStamped(db) && EventsTell(before, db, events) && EventsMatch(before, events)
  {
    var low := EarliestReading(clock, |due|, at);
    ScanStamps(before, due, clock, |due|, at, low);
    assert due[..|due|] == due;
  }

  // ---------------------------------------------------------------- every run

  lemma RequestTells(db: Db, step: Step)
    requires Inv(db) && AllStamped(db) && CanStep(db, step)
    requires step.Publishes? || step.Acknowledges? || step.Closes?
    ensures AllStamped(Next(db, step))
  {
    match step
    case Publishes(topic, interval, maxRing, active, drawn, now) =>
      if active.Some? {
        RequestKeepsStamped(db.incidents[active.value], now, 0, 0);
      } else {
        BeginIsStamped(topic, now, interval, maxRing, db.nextTimer);
      }
    case Acknowledges(account, id, now) =>
      if InScope(db, account, id) {
        RequestKeepsStamped(db.incidents[id], now, db.topics[db.incidents[id].topic].deskTimer, db.nextTimer);
      }
    case Closes(account, id, now) =>
      if InScope(db, account, id) {
        RequestKeepsStamped(db.incidents[id], now, 0, 0);
      }
  }

  lemma StepKeepsStamped(db: Db, step: Step)
    requires Inv(db) && AllStamped(db) && CanStep(db, step)
    ensures AllStamped(Next(db, step))
  {
    match step
    case Publishes(_, _, _, _, _, _) => RequestTells(db, step);
    case Acknowledges(_, _, _) => RequestTells(db, step);
    case Closes(_, _, _) => RequestTells(db, step);
    case Scans(due, at, clock) => ScanTells(db, due, clock, at);
    case _ =>
  }

  /**
   Over every run, on any clock: every time in an incident's row is that of the event it stands for, an open incident
   rings next one interval after its last ring, and its window ends `max_ring_s` after it began.
   */
  lemma {:induction false} RunIsStamped(trace: seq<Db>, steps: seq<Step>, k: nat)
    requires IsRun(trace, steps) && k < |trace|
    ensures AllStamped(trace[k])
  {
    if k > 0 {
      RunKeepsInv(trace, steps, k - 1);
      RunIsStamped(trace, steps, k - 1);
      StepKeepsStamped(trace[k - 1], steps[k - 1]);
    }
  }

  /** What a request tells is what the history of its incident gained. */
  lemma RequestsTell(db: Db, step: Step)
    requires Inv(db) && CanStep(db, step)
    ensures match step
            case Publishes(topic, interval, maxRing, active, drawn, now) =>
              var (db', event) := Publish(db, topic, interval, maxRing, active, drawn, now);
              && EventsTell(db, db', [event])
              && (event.incident !in db.incidents ==> db'.incidents[event.incident].events == [event.kind])
            case Acknowledges(account, id, now) =>
              var (db', answer) := Acknowledge(db, account, id, now);
              EventsTell(db, db', if answer.Done? then [answer.event] else [])
            case Closes(account, id, now) =>
              var (db', answer) := Close(db, account, id, now);
              EventsTell(db, db', if answer.Done? then [answer.event] else [])
            case _ => true
  {
  }

  /** A patch sets the three times of a topic, all of them positive, and touches no incident. */
  lemma PatchSets(db: Db, topic: TopicId, interval: int, maxRing: int, deskTimer: int)
    ensures var db' := Patch(db, topic, interval, maxRing, deskTimer);
            && db'.incidents == db.incidents && db'.topics.Keys == db.topics.Keys
            && (forall t :: t in db.topics && t != topic ==> db'.topics[t] == db.topics[t])
            && (topic in db.topics ==>
                  var t, t' := db.topics[topic], db'.topics[topic];
                  && (t'.account, t'.critical) == (t.account, t.critical)
                  && (t'.repeatInterval, t'.maxRing, t'.deskTimer) ==
                     if 0 < interval && 0 < maxRing && 0 < deskTimer then (interval, maxRing, deskTimer)
                     else (t.repeatInterval, t.maxRing, t.deskTimer))
  {
  }

  // ---------------------------------------------------------------- timer ids

  ghost predicate HasTimer(db: Db, id: IncidentId, kind: Kind) {
    id in db.incidents && kind in db.incidents[id].timers
  }

  /** No two timers share an id, and the next id drawn is new. */
  ghost predicate TimersApart(db: Db) {
    && (forall id, kind :: HasTimer(db, id, kind) ==> db.incidents[id].timers[kind].id < db.nextTimer)
    && forall a, ka, b, kb ::
         HasTimer(db, a, ka) && HasTimer(db, b, kb) && (a != b || ka != kb) ==>
           db.incidents[a].timers[ka].id != db.incidents[b].timers[kb].id
  }

  /** Each timer keeps the id its kind had, or takes one of the `drawn` new ones, no two the same. */
  ghost predicate DrawsTimers(had: map<Kind, Timer>, has: map<Kind, Timer>, next: TimerId, drawn: nat) {
    && (forall kind :: kind in has ==>
          next <= has[kind].id < next + drawn || (kind in had && had[kind].id == has[kind].id))
    && forall kind, other :: kind in has && other in has && kind != other && has[kind].id >= next ==>
         has[other].id != has[kind].id
  }

  lemma PutKeepsTimers(db: Db, id: IncidentId, i: Incident, drawn: nat)
    requires TimersApart(db)
    requires DrawsTimers(if id in db.incidents then db.incidents[id].timers else map[], i.timers, db.nextTimer, drawn)
    ensures TimersApart(Put(db, id, i, drawn))
  {
  }

  lemma HandleDraws(i: Incident, row: Due, now: int, next: TimerId)
    requires forall kind :: kind in i.timers ==> i.timers[kind].id < next
    ensures var (i', drawn, _) := Handle(i, row, now, next);
            DrawsTimers(i.timers, i'.timers, next, drawn)
  {
  }

  /** A row draws an id for each timer of a reopened incident, and none otherwise. */
  lemma HandleCounts(i: Incident, row: Due, now: int, next: TimerId)
    ensures var (i', drawn, event) := Handle(i, row, now, next);
            drawn == if event.Some? && event.value.kind.Reopened? then |i'.timers| else 0
  {
  }

  lemma ProcessKeepsTimers(db: Db, row: Due, now: int)
    requires TimersApart(db)
    ensures TimersApart(Process(db, row, now).0)
  {
    if row.id in db.incidents {
      forall kind | kind in db.incidents[row.id].timers ensures HasTimer(db, row.id, kind) {
      }
      var (i, drawn, _) := Handle(db.incidents[row.id], row, now, db.nextTimer);
      HandleDraws(db.incidents[row.id], row, now, db.nextTimer);
      PutKeepsTimers(db, row.id, i, drawn);
    }
  }

  lemma {:induction false} ProcessAllKeepsTimers(db: Db, due: seq<Due>, clock: nat -> int)
    requires TimersApart(db)
    ensures TimersApart(ProcessAll(db, due, clock).0)
    decreases |due|
  {
    if due != [] {
      var n := |due| - 1;
      ProcessAllKeepsTimers(db, due[..n], clock);
      ProcessKeepsTimers(ProcessAll(db, due[..n], clock).0, due[n], clock(n));
    }
  }

  lemma StepKeepsTimers(db: Db, step: Step)
    requires TimersApart(db) && CanStep(db, step)
    ensures TimersApart(Next(db, step))
  {
    match step
    case Publishes(topic, interval, maxRing, active, drawn, now) =>
      if active.None? {
        PutKeepsTimers(db, drawn, Begin(topic, now, interval, maxRing, db.nextTimer), 2);
      } else {
        PutKeepsTimers(db, active.value, Hear(db.incidents[active.value], now), 0);
      }
    case Acknowledges(account, id, now) =>
      if Acknowledge(db, account, id, now).0 != db {
        PutKeepsTimers(db, id, Ack(db.incidents[id], now, db.topics[db.incidents[id].topic].deskTimer, db.nextTimer),
                       1);
      }
    case Closes(account, id, now) =>
      if Close(db, account, id, now).0 != db {
        PutKeepsTimers(db, id, Shut(db.incidents[id], now), 0);
      }
    case Scans(due, at, clock) => ProcessAllKeepsTimers(db, due, clock);
    case _ =>
  }

  /** Over every run no two timers share an id, so a scan that names a timer by its id names one. */
  lemma {:induction false} RunKeepsTimersApart(trace: seq<Db>, steps: seq<Step>, k: nat)
    requires IsRun(trace, steps) && k < |trace|
    ensures TimersApart(trace[k])
  {
    if k > 0 {
      RunKeepsTimersApart(trace, steps, k - 1);
      StepKeepsTimers(trace[k - 1], steps[k - 1]);
    }
  }
}
