/**
 Incidents and their timers as values, and every transaction on them as a function (src/incident/service.ts).
 The rows of `timers` are kept with their incident: the table allows one row per incident and kind.
 */
module IncidentModel {
  import opened Common

  type IncidentId = string
  type TopicId = string
  type AccountId = string
  type TimerId = nat

  datatype State = Open | Acked | Closed | Expired
  datatype Kind = Repeat | Expire | Desk
  datatype Timer = Timer(id: TimerId, fireAt: int)

  /** The columns of `topics` an incident reads. */
  datatype Topic = Topic(account: AccountId, repeatInterval: int, maxRing: int, deskTimer: int, critical: bool)

  datatype EventKind = Opened | Repeated | Reopened | Message | Acknowledged | ClosedBy | Expiring

  /** A delivery event. Its text is the latest message's and is not part of the model. */
  datatype Event = Event(kind: EventKind, incident: IncidentId, maxRing: int, ringUntil: Option<int>, critical: bool)

  /**
   An incident with its timers. History: `events`, the kinds emitted for it, `at`, when each was, and `intervals`, the
   repeat intervals scheduled in the present ringing window, the last of them still to pass.
   */
  datatype Incident = Incident(
    topic: TopicId,
    state: State,
    openedAt: int,
    ackedAt: Option<int>,
    closedAt: Option<int>,
    lastMessageAt: int,
    updatedAt: int,
    maxRing: int,
    timers: map<Kind, Timer>,
    events: seq<EventKind>,
    at: seq<int>,
    intervals: seq<int>)

  datatype Db = Db(topics: map<TopicId, Topic>, incidents: map<IncidentId, Incident>, nextTimer: TimerId)

  predicate IsActive(i: Incident) {
    i.state.Open? || i.state.Acked?
  }

  function RingUntil(i: Incident): int {
    i.openedAt + i.maxRing
  }

  // ---------------------------------------------------------------- one incident

  /** The two timers of a ringing window. */
  function RingTimers(next: TimerId, now: int, interval: int, maxRing: int): map<Kind, Timer> {
    map[Repeat := Timer(next, now + interval), Expire := Timer(next + 1, now + maxRing)]
  }

  function Begin(topic: TopicId, now: int, interval: int, maxRing: int, next: TimerId): Incident {
    Incident(topic, Open, now, None, None, now, now, maxRing, RingTimers(next, now, interval, maxRing), [Opened],
             [now], [interval])
  }

  function Hear(i: Incident, now: int): Incident {
    i.(lastMessageAt := now, updatedAt := now, events := i.events + [Message], at := i.at + [now])
  }

  function Ack(i: Incident, now: int, deskTimer: int, next: TimerId): Incident {
    i.(state := Acked, ackedAt := Some(now), updatedAt := now, timers := map[Desk := Timer(next, now + deskTimer)],
       events := i.events + [Acknowledged], at := i.at + [now])
  }

  function Shut(i: Incident, now: int): Incident {
    i.(state := Closed, closedAt := Some(now), updatedAt := now, timers := map[], events := i.events + [ClosedBy],
       at := i.at + [now])
  }

  function ExpireNow(i: Incident, now: int): Incident {
    i.(state := Expired, closedAt := Some(now), updatedAt := now, timers := map[], events := i.events + [Expiring],
       at := i.at + [now])
  }

  function Reopen(i: Incident, now: int, interval: int, next: TimerId): Incident {
    i.(state := Open, openedAt := now, ackedAt := None, updatedAt := now,
       timers := RingTimers(next, now, interval, i.maxRing), events := i.events + [Reopened], at := i.at + [now],
           intervals := [interval])
  }

  /** The row with this id is rescheduled, if it is still there. */
  function Ring(i: Incident, timer: TimerId, now: int, interval: int): Incident {
    i.(timers := if Repeat in i.timers && i.timers[Repeat].id == timer
       then i.timers[Repeat := Timer(timer, now + interval)] else i.timers,
       events := i.events + [Repeated], at := i.at + [now], intervals := i.intervals + [interval])
  }

  /** `DELETE FROM timers WHERE id = ?`. */
  function DropTimer(i: Incident, kind: Kind, timer: TimerId): Incident {
    if kind in i.timers && i.timers[kind].id == timer then i.(timers := i.timers - {kind}) else i
  }

  // ---------------------------------------------------------------- requests

  function Put(db: Db, id: IncidentId, i: Incident, timers: nat): Db {
    db.(incidents := db.incidents[id := i], nextTimer := db.nextTimer + timers)
  }

  predicate ActiveOf(db: Db, topic: TopicId, id: IncidentId) {
    id in db.incidents && db.incidents[id].topic == topic && IsActive(db.incidents[id])
  }

  /**
   `publishCritical`. The topic's settings come with the request. `active` is the incident the query found and
   `drawn` the id made when it found none.
   */
  function Publish(db: Db, topic: TopicId, interval: int, maxRing: int, active: Option<IncidentId>, drawn: IncidentId,
                   now: int): (Db, Event)
    requires active.Some? ==> active.value in db.incidents
  {
    if active.None? then
      (Put(db, drawn, Begin(topic, now, interval, maxRing, db.nextTimer), 2),
       Event(Opened, drawn, maxRing, Some(now + maxRing), true))
    else
      var i := db.incidents[active.value];
      (Put(db, active.value, Hear(i, now), 0),
       Event(Message, active.value, i.maxRing, Some(RingUntil(i)), !i.state.Acked?))
  }

  datatype Answer = Done(event: Event) | NotFound | Conflict

  predicate InScope(db: Db, account: AccountId, id: IncidentId) {
    id in db.incidents && db.incidents[id].topic in db.topics && db.topics[db.incidents[id].topic].account == account
  }

  function Acknowledge(db: Db, account: AccountId, id: IncidentId, now: int): (Db, Answer) {
    if !InScope(db, account, id) then (db, NotFound)
    else
      var i, topic := db.incidents[id], db.topics[db.incidents[id].topic];
      if !i.state.Open? then (db, Conflict)
      else (Put(db, id, Ack(i, now, topic.deskTimer, db.nextTimer), 1),
            Done(Event(Acknowledged, id, i.maxRing, None, topic.critical)))
  }

  function Close(db: Db, account: AccountId, id: IncidentId, now: int): (Db, Answer) {
    if !InScope(db, account, id) then (db, NotFound)
    else
      var i, topic := db.incidents[id], db.topics[db.incidents[id].topic];
      if !i.state.Acked? then (db, Conflict)
      else (Put(db, id, Shut(i, now), 0), Done(Event(ClosedBy, id, i.maxRing, None, topic.critical)))
  }

  /** Old incidents go once they are closed or expired, with the messages of each. */
  function Prune(db: Db, account: AccountId, cutoff: int): Db {
    db.(incidents := map id | id in db.incidents &&
        !(InScope(db, account, id) && !IsActive(db.incidents[id]) && db.incidents[id].openedAt < cutoff)
                       :: db.incidents[id])
  }

  /** `patchTopic`, as far as timers see it; a patch takes positive values only. */
  function Patch(db: Db, topic: TopicId, interval: int, maxRing: int, deskTimer: int): Db {
    if topic !in db.topics || interval <= 0 || maxRing <= 0 || deskTimer <= 0 then db
    else db.(topics := db.topics[topic := db.topics[topic].(repeatInterval := interval, maxRing := maxRing,
                                                            deskTimer := deskTimer)])
  }

  // ---------------------------------------------------------------- the scan

  /** A row of the query: a due timer, and its incident and topic as they were when the query ran. */
  datatype Due = Due(id: IncidentId, kind: Kind, timer: Timer, openedAt: int, maxRing: int, interval: int,
                     critical: bool)

  function Order(kind: Kind): nat {
    match kind
    case Expire => 0
    case Desk => 1
    case Repeat => 2
  }

  predicate ComesBefore(a: Due, b: Due) {
    Order(a.kind) < Order(b.kind)
    || (a.kind == b.kind && (a.timer.fireAt < b.timer.fireAt ||
                             (a.timer.fireAt == b.timer.fireAt && a.timer.id < b.timer.id)))
  }

  /** The row the query makes of a timer. */
  predicate IsRow(db: Db, row: Due) {
    && row.id in db.incidents && db.incidents[row.id].topic in db.topics
    && var i := db.incidents[row.id];
    && row.kind in i.timers && i.timers[row.kind] == row.timer
    && row.openedAt == i.openedAt && row.maxRing == i.maxRing
    && row.interval == db.topics[i.topic].repeatInterval && row.critical == db.topics[i.topic].critical
  }

  /** What a row of the list makes of its incident, the timers it draws, and the event it emits. */
  function Handle(i: Incident, row: Due, now: int, next: TimerId): (Incident, nat, Option<Event>) {
    match row.kind
    case Expire =>
      if !i.state.Open? then (DropTimer(i, Expire, row.timer.id), 0, None)
      else (ExpireNow(i, now), 0, Some(Event(Expiring, row.id, row.maxRing, None, row.critical)))
    case Desk =>
      if !i.state.Acked? then (DropTimer(i, Desk, row.timer.id), 0, None)
      else (Reopen(i, now, row.interval, next), 2,
            Some(Event(Reopened, row.id, row.maxRing, Some(now + row.maxRing), row.critical)))
    case Repeat =>
      if !i.state.Open? then (DropTimer(i, Repeat, row.timer.id), 0, None)
      else (Ring(i, row.timer.id, now, row.interval), 0,
            Some(Event(Repeated, row.id, row.maxRing, Some(row.openedAt + row.maxRing), row.critical)))
  }

  /** `processTimer`, in a transaction of its own: the incident is read again, the rest of the row is as it was. */
  function Process(db: Db, row: Due, now: int): (Db, Option<Event>) {
    if row.id !in db.incidents then (db, None)
    else
      var (i, drawn, event) := Handle(db.incidents[row.id], row, now, db.nextTimer);
      (Put(db, row.id, i, drawn), event)
  }

  /** The rows one after the other; the clock reads `clock(k)` when row `k` is handled. */
  function ProcessAll(db: Db, due: seq<Due>, clock: nat -> int): (Db, seq<Event>) {
    if due == [] then (db, [])
    else
      var n := |due| - 1;
      var (before, events) := ProcessAll(db, due[..n], clock);
      var (after, event) := Process(before, due[n], clock(n));
      (after, if event.Some? then events + [event.value] else events)
  }

  ghost predicate IsDue(db: Db, id: IncidentId, kind: Kind, at: int) {
    && id in db.incidents && db.incidents[id].topic in db.topics
    && kind in db.incidents[id].timers && db.incidents[id].timers[kind].fireAt <= at
  }

  /** What the query returns at `at`: every timer that is due, each once, windows that end before all else. */
  ghost predicate IsDueList(db: Db, due: seq<Due>, at: int) {
    && (forall k :: 0 <= k < |due| ==> IsRow(db, due[k]) && due[k].timer.fireAt <= at)
    && (forall id, kind :: IsDue(db, id, kind, at) ==>
        exists k :: 0 <= k < |due| && due[k].id == id && due[k].kind == kind)
    && (forall j, k :: 0 <= j < k < |due| ==>
        !ComesBefore(due[k], due[j]) && (due[j].id != due[k].id || due[j].kind != due[k].kind))
  }
}
