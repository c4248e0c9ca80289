/** What every step keeps of incidents and timers, and what one scan does. */
module IncidentInvariant {
  import opened Common
  import opened IncidentModel

  // ---------------------------------------------------------------- the automaton

  function Move(state: Option<State>, event: EventKind): Option<State> {
    match (state, event)
    case (None, Opened) => Some(Open)
    case (Some(Open), Repeated) => Some(Open)
    case (Some(Open), Message) => Some(Open)
    case (Some(Acked), Message) => Some(Acked)
    case (Some(Open), Acknowledged) => Some(Acked)
    case (Some(Acked), ClosedBy) => Some(Closed)
    case (Some(Acked), Reopened) => Some(Open)
    case (Some(Open), Expiring) => Some(Expired)
    case _ => None
  }

  /** The state the emitted events spell, or none if they spell nothing. */
  function Replay(events: seq<EventKind>): Option<State> {
    if events == [] then None else Move(Replay(events[..|events| - 1]), events[|events| - 1])
  }

  // ---------------------------------------------------------------- one incident

  /** Its timers are those of its state, and the events emitted for it spell its state. */
  ghost predicate Sound(i: Incident) {
    && i.maxRing > 0 && Replay(i.events) == Some(i.state)
    && match i.state
       case Open => i.timers.Keys == {Repeat, Expire} && i.timers[Expire].fireAt == RingUntil(i)
       case Acked => i.timers.Keys == {Desk}
       case _ => i.timers == map[]
  }

  function Sum(intervals: seq<int>): int {
    if intervals == [] then 0 else Sum(intervals[..|intervals| - 1]) + intervals[|intervals| - 1]
  }

  /** The intervals between the start of the window and its last repeat. */
  function Elapsed(i: Incident): seq<int>
    requires i.intervals != []
  {
    i.intervals[..|i.intervals| - 1]
  }

  /** Repeats emitted since the window began. */
  function Repeats(events: seq<EventKind>): nat {
    if events == [] then 0
    else
      match events[|events| - 1]
      case Repeated => Repeats(events[..|events| - 1]) + 1
      case Opened => 0
      case Reopened => 0
      case _ => Repeats(events[..|events| - 1])
  }

  /** The repeats of the window fit into it, and the next one is not due before its turn. */
  ghost predicate Paced(i: Incident) {
    && i.intervals != [] && Repeats(i.events) == |Elapsed(i)|
    && (Elapsed(i) == [] || Sum(Elapsed(i)) < i.maxRing)
    && (i.state.Open? && Repeat in i.timers ==> i.timers[Repeat].fireAt >= i.openedAt + Sum(i.intervals))
  }

  // ---------------------------------------------------------------- what happens to one incident

  lemma ShutKeepsSound(i: Incident, now: int)
    requires Sound(i) && i.state.Acked?
    ensures Sound(Shut(i, now)) && (Paced(i) ==> Paced(Shut(i, now)))
  {
  }

  /** A row of a scan, however stale and whatever the clock says. */
  lemma HandleKeepsSound(i: Incident, row: Due, now: int, next: TimerId)
    requires Sound(i)
    ensures var (i', _, event) := Handle(i, row, now, next);
            Sound(i') && i'.topic == i.topic && (IsPending(i') ==> IsPending(i)) && (event.None? ==> i' == i)
  {
    assert i.timers - {row.kind} == i.timers || row.kind in i.timers;
  }

  /** A repeat that was due at `at`, inside the window, and is rescheduled no earlier. */
  lemma RingKeepsPace(i: Incident, at: int, now: int, interval: int)
    requires Sound(i) && Paced(i) && i.state.Open? && i.timers[Repeat].fireAt <= at < RingUntil(i) && at <= now
    ensures Paced(Ring(i, i.timers[Repeat].id, now, interval))
  {
  }

  // ---------------------------------------------------------------- all of them

  ghost predicate AllSound(db: Db) {
    forall id :: id in db.incidents ==> Sound(db.incidents[id]) && db.incidents[id].topic in db.topics
  }

  ghost predicate AllPaced(db: Db) {
    forall id :: id in db.incidents ==> Paced(db.incidents[id])
  }

  /** Neither closed nor expired. */
  predicate IsPending(i: Incident) {
    !i.state.Closed? && !i.state.Expired?
  }

  ghost predicate OneActive(db: Db) {
    forall a, b ::
      a in db.incidents && b in db.incidents && a != b && IsPending(db.incidents[a]) && IsPending(db.incidents[b]) ==>
        db.incidents[a].topic != db.incidents[b].topic
  }

  ghost predicate Inv(db: Db) {
    AllSound(db) && OneActive(db)
  }

  lemma PutKeepsInv(db: Db, id: IncidentId, i: Incident, drawn: nat)
    requires Inv(db) && Sound(i) && i.topic in db.topics
    requires IsPending(i) ==> forall other :: other != id ==> !ActiveOf(db, i.topic, other)
    ensures Inv(Put(db, id, i, drawn))
  {
    var after := Put(db, id, i, drawn);
    forall a, b | a in after.incidents && b in after.incidents && a != b && IsPending(after.incidents[a]) &&
        IsPending(after.incidents[b])
      ensures after.incidents[a].topic != after.incidents[b].topic {
      if a == id {
        assert !ActiveOf(db, i.topic, b);
      }
      if b == id {
        assert !ActiveOf(db, i.topic, a);
      }
    }
  }

  // ---------------------------------------------------------------- requests

  ghost predicate IsActiveAnswer(db: Db, topic: TopicId, active: Option<IncidentId>) {
    match active
    case Some(id) => ActiveOf(db, topic, id)
    case None => forall id :: !ActiveOf(db, topic, id)
  }

  /** Every other incident is as it was. */
  ghost predicate OthersStay(db: Db, db': Db, id: IncidentId) {
    && db'.topics == db.topics && db'.incidents.Keys == db.incidents.Keys + {id}
    && forall other :: other in db.incidents && other != id ==> db'.incidents[other] == db.incidents[other]
  }

  /** A window that begins at `now`: its repeat and its end are timed from it. */
  ghost predicate WindowFrom(i: Incident, now: int, interval: int, maxRing: int) {
    && i.state.Open? && i.openedAt == now && i.maxRing == maxRing && i.timers.Keys == {Repeat, Expire}
    && i.timers[Repeat].fireAt == now + interval && i.timers[Expire].fireAt == now + maxRing
  }

  /**
   A message joins the pending incident of its topic, or opens the only one, which starts to ring at once. Its event
   carries the end of the stored window, and makes no noise if somebody has acknowledged.
   */
  ghost predicate Published(db: Db, db': Db, topic: TopicId, interval: int, maxRing: int, drawn: IncidentId, now: int,
                            event: Event) {
    var id := event.incident;
    && id in db'.incidents && OthersStay(db, db', id)
    && var i := db'.incidents[id];
    && i.topic == topic && i.lastMessageAt == now && event.maxRing == i.maxRing
    && event.ringUntil == Some(i.openedAt + i.maxRing) && (event.critical <==> i.state.Open?)
    && if event.kind.Opened? then
         && id == drawn && id !in db.incidents && WindowFrom(i, now, interval, maxRing)
         && db'.nextTimer == db.nextTimer + 2
       else
         && id in db.incidents && IsPending(db.incidents[id]) && event.kind.Message?
         && db'.nextTimer == db.nextTimer
         && var was := db.incidents[id];
         (i.state, i.openedAt, i.maxRing, i.timers, i.topic) ==
         (was.state, was.openedAt, was.maxRing, was.timers, was.topic)
  }

  lemma PublishIs(db: Db, topic: TopicId, interval: int, maxRing: int, active: Option<IncidentId>, drawn: IncidentId,
                  now: int)
    requires IsActiveAnswer(db, topic, active) && drawn !in db.incidents
    ensures var (db', event) := Publish(db, topic, interval, maxRing, active, drawn, now);
            Published(db, db', topic, interval, maxRing, drawn, now, event)
  {
  }

  /** Publishing opens at most one incident for a topic, and its event carries the end of the stored window. */
  lemma PublishKeepsInv(db: Db, topic: TopicId, interval: int, maxRing: int, active: Option<IncidentId>,
                        drawn: IncidentId, now: int)
    requires Inv(db) && topic in db.topics && maxRing > 0 && IsActiveAnswer(db, topic, active) && drawn !in db.incidents
    ensures var (db', event) := Publish(db, topic, interval, maxRing, active, drawn, now);
            Inv(db') && Published(db, db', topic, interval, maxRing, drawn, now, event)
  {
    PublishIs(db, topic, interval, maxRing, active, drawn, now);
    if active.None? {
      PutKeepsInv(db, drawn, Begin(topic, now, interval, maxRing, db.nextTimer), 2);
    } else {
      PutKeepsInv(db, active.value, Hear(db.incidents[active.value], now), 0);
    }
  }

  lemma PublishKeepsPace(db: Db, topic: TopicId, interval: int, maxRing: int, active: Option<IncidentId>,
                         drawn: IncidentId, now: int)
    requires Inv(db) && AllPaced(db) && maxRing > 0 && IsActiveAnswer(db, topic, active)
    ensures AllPaced(Publish(db, topic, interval, maxRing, active, drawn, now).0)
  {
  }

  /** The topic of the incident is one of the account's. */
  ghost predicate BelongsTo(db: Db, account: AccountId, id: IncidentId) {
    && id in db.incidents
    && exists t :: t in db.topics && db.topics[t].account == account && db.incidents[id].topic == t
  }

  /** A request that was done moved this incident alone, left it in `state` and told so without ringing. */
  ghost predicate DoneTo(db: Db, db': Db, id: IncidentId, state: State, kind: EventKind, event: Event) {
    && id in db.incidents && OthersStay(db, db', id)
    && var i, i' := db.incidents[id], db'.incidents[id];
    && db'.nextTimer == db.nextTimer + |i'.timers| && i'.state == state &&
        (i'.topic, i'.openedAt, i'.maxRing) == (i.topic, i.openedAt, i.maxRing)
    && i.topic in db.topics && event == Event(kind, id, i.maxRing, None, db.topics[i.topic].critical)
  }

  lemma AcknowledgeIs(db: Db, account: AccountId, id: IncidentId, now: int)
    requires InScope(db, account, id) && db.incidents[id].state.Open?
    ensures var (db', answer) := Acknowledge(db, account, id, now);
            && answer.Done? && DoneTo(db, db', id, Acked, Acknowledged, answer.event)
            && db'.incidents[id].timers.Keys == {Desk}
            && db'.incidents[id].timers[Desk].fireAt == now + db.topics[db.incidents[id].topic].deskTimer
  {
  }

  lemma AcknowledgePuts(db: Db, account: AccountId, id: IncidentId, now: int)
    requires Inv(db) && InScope(db, account, id) && db.incidents[id].state.Open?
    ensures Inv(Acknowledge(db, account, id, now).0)
    ensures AllPaced(db) ==> AllPaced(Acknowledge(db, account, id, now).0)
  {
    var i, topic := db.incidents[id], db.topics[db.incidents[id].topic];
    PutKeepsInv(db, id, Ack(i, now, topic.deskTimer, db.nextTimer), 1);
  }

  /**
   Only an open incident of the account is acknowledged: it stops ringing, and its desk timer, one `desk_timer_s` away,
   is all that is left. Any other answer changes nothing.
   */
  lemma AcknowledgeKeepsInv(db: Db, account: AccountId, id: IncidentId, now: int)
    requires Inv(db)
    ensures var (db', answer) := Acknowledge(db, account, id, now);
            && Inv(db') && (AllPaced(db) ==> AllPaced(db'))
            && (answer.NotFound? <==> !BelongsTo(db, account, id))
            && (answer.Done? <==> BelongsTo(db, account, id) && db.incidents[id].state.Open?)
            && (!answer.Done? ==> db' == db)
            && (answer.Done? ==>
                  && DoneTo(db, db', id, Acked, Acknowledged, answer.event) && db'.incidents[id].timers.Keys == {Desk}
                  && db'.incidents[id].timers[Desk].fireAt == now + db.topics[db.incidents[id].topic].deskTimer)
  {
    assert BelongsTo(db, account, id) <==> InScope(db, account, id);
    if InScope(db, account, id) && db.incidents[id].state.Open? {
      AcknowledgeIs(db, account, id, now);
      AcknowledgePuts(db, account, id, now);
    }
  }

  /** Only an acknowledged incident is closed, and no timer of it is left; any other answer changes nothing. */
  lemma CloseKeepsInv(db: Db, account: AccountId, id: IncidentId, now: int)
    requires Inv(db)
    ensures var (db', answer) := Close(db, account, id, now);
            && Inv(db') && (AllPaced(db) ==> AllPaced(db'))
            && (answer.NotFound? <==> !BelongsTo(db, account, id))
            && (answer.Done? <==> BelongsTo(db, account, id) && db.incidents[id].state.Acked?)
            && (!answer.Done? ==> db' == db)
            && (answer.Done? ==>
                  DoneTo(db, db', id, Closed, ClosedBy, answer.event) && db'.incidents[id].timers == map[])
  {
    assert BelongsTo(db, account, id) <==> InScope(db, account, id);
    if InScope(db, account, id) && db.incidents[id].state.Acked? {
      ShutKeepsSound(db.incidents[id], now);
      PutKeepsInv(db, id, Shut(db.incidents[id], now), 0);
    }
  }

  /**
   Of an account's incidents exactly those go that are over and opened before the cutoff; the rest stay as they are.
   */
  lemma PruneKeepsInv(db: Db, account: AccountId, cutoff: int)
    requires Inv(db)
    ensures Inv(Prune(db, account, cutoff)) && (AllPaced(db) ==> AllPaced(Prune(db, account, cutoff)))
    ensures var db' := Prune(db, account, cutoff);
            && db'.topics == db.topics && db'.incidents.Keys <= db.incidents.Keys
            && forall id :: id in db.incidents ==>
                 && (id !in db'.incidents <==>
                     BelongsTo(db, account, id) && !IsPending(db.incidents[id]) && db.incidents[id].openedAt < cutoff)
                 && (id in db'.incidents ==> db'.incidents[id] == db.incidents[id])
  {
    forall id ensures BelongsTo(db, account, id) <==> InScope(db, account, id) {
    }
  }

  /** One row of a scan, whichever it is and whatever the clock says. */
  lemma ProcessKeepsInv(db: Db, row: Due, now: int)
    requires Inv(db)
    ensures var (db', event) := Process(db, row, now);
            && Inv(db') && db'.topics == db.topics && db'.incidents.Keys == db.incidents.Keys
            && (forall id :: id in db.incidents && id != row.id ==> db'.incidents[id] == db.incidents[id])
  {
    if row.id in db.incidents {
      var (i, drawn, event) := Handle(db.incidents[row.id], row, now, db.nextTimer);
      HandleKeepsSound(db.incidents[row.id], row, now, db.nextTimer);
      PutKeepsInv(db, row.id, i, drawn);
    }
  }

  /** Any list of rows, true to the tables or not, handled at any times. */
  lemma {:induction false} ProcessAllKeepsInv(db: Db, due: seq<Due>, clock: nat -> int)
    requires Inv(db)
    ensures Inv(ProcessAll(db, due, clock).0)
    decreases |due|
  {
    if due != [] {
      var n := |due| - 1;
      ProcessAllKeepsInv(db, due[..n], clock);
      ProcessKeepsInv(ProcessAll(db, due[..n], clock).0, due[n], clock(n));
    }
  }
}
