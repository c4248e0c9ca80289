/** `IncidentService`, proved to run exactly the transactions of the model (src/incident/service.ts). */
module IncidentServices {
  import opened Common
  import opened IncidentModel
  import opened IncidentInvariant

  // ---------------------------------------------------------------- the order of a scan

  ghost predicate IsSorted(due: seq<Due>) {
    forall j, k :: 0 <= j < k < |due| ==> !ComesBefore(due[k], due[j])
  }

  /** Puts a row where the query's order has it. */
  function Insert(due: seq<Due>, row: Due): (placed: seq<Due>)
    ensures multiset(placed) == multiset(due) + multiset{row}
  {
    if due == [] || ComesBefore(row, due[0]) then [row] + due
    else
      assert due == [due[0]] + due[1..];
      [due[0]] + Insert(due[1..], row)
  }

  lemma {:induction false} InsertSorts(due: seq<Due>, row: Due)
    requires IsSorted(due)
    ensures IsSorted(Insert(due, row))
  {
    if due == [] {
    } else if ComesBefore(row, due[0]) {
      forall k | 0 <= k < |due| ensures !ComesBefore(due[k], row) {
      }
    } else {
      InsertSorts(due[1..], row);
      var rest := Insert(due[1..], row);
      forall k | 0 <= k < |rest| ensures !ComesBefore(rest[k], due[0]) {
        assert rest[k] in multiset(rest);
        assert rest[k] in due[1..] || rest[k] == row;
      }
    }
  }

  class IncidentService {
    var topics: map<TopicId, Topic>
    var incidents: map<IncidentId, Incident>
    var nextTimer: TimerId

    ghost function Tables(): Db
      reads this
    {
      Db(topics, incidents, nextTimer)
    }

    constructor (topics: map<TopicId, Topic>)
      ensures Tables() == Db(topics, map[], 0)
    {
      this.topics, incidents, nextTimer := topics, map[], 0;
    }

    method FindActive(topic: TopicId) returns (active: Option<IncidentId>)
      ensures IsActiveAnswer(Tables(), topic, active)
    {
      var left := incidents.Keys;
      while left != {}
        invariant left <= incidents.Keys
        invariant forall id :: id !in left ==> !ActiveOf(Tables(), topic, id)
        decreases left
      {
        var id :| id in left;
        if incidents[id].topic == topic && (incidents[id].state.Open? || incidents[id].state.Acked?) {
          return Some(id);
        }
        left := left - {id};
      }
      return None;
    }

    method InsertTimer(i: Incident, kind: Kind, fireAt: int) returns (next: Incident)
      modifies this`nextTimer
      ensures next == i.(timers := i.timers[kind := Timer(old(nextTimer), fireAt)]) && nextTimer == old(nextTimer) + 1
    {
      next := i.(timers := i.timers[kind := Timer(nextTimer, fireAt)]);
      nextTimer := nextTimer + 1;
    }

    /** `drawn` is the id that is made when no incident is active. */
    method PublishCritical(topic: TopicId, interval: int, maxRing: int, drawn: IncidentId, now: int)
        returns (event: Event)
      modifies this
      ensures exists active :: IsActiveAnswer(old(Tables()), topic, active)
                               && Publish(old(Tables()), topic, interval, maxRing, active, drawn, now) ==
                                   (Tables(), event)
    {
      var active := FindActive(topic);
      ghost var before := Tables();
      if active.None? {
        var i := Incident(topic, Open, now, None, None, now, now, maxRing, map[], [Opened], [now], [interval]);
        i := InsertTimer(i, Repeat, now + interval);
        i := InsertTimer(i, Expire, now + maxRing);
        incidents := incidents[drawn := i];
        event := Event(Opened, drawn, maxRing, Some(now + maxRing), true);
        assert i == Begin(topic, now, interval, maxRing, before.nextTimer);
      } else {
        var i := incidents[active.value];
        incidents := incidents[active.value := i.(lastMessageAt := now, updatedAt := now,
                                                  events := i.events + [Message], at := i.at + [now])];
        event := Event(Message, active.value, i.maxRing, Some(i.openedAt + i.maxRing), !i.state.Acked?);
      }
      assert Publish(before, topic, interval, maxRing, active, drawn, now) == (Tables(), event);
    }

    method AcknowledgeIncident(account: AccountId, id: IncidentId, now: int) returns (answer: Answer)
      modifies this
      ensures Acknowledge(old(Tables()), account, id, now) == (Tables(), answer)
    {
      if id !in incidents || incidents[id].topic !in topics || topics[incidents[id].topic].account != account {
        return NotFound;
      }
      var i, topic := incidents[id], topics[incidents[id].topic];
      if !i.state.Open? {
        return Conflict;
      }
      var next := i.(state := Acked, ackedAt := Some(now), updatedAt := now, timers := map[],
                     events := i.events + [Acknowledged], at := i.at + [now]);
      next := InsertTimer(next, Desk, now + topic.deskTimer);
      incidents := incidents[id := next];
      return Done(Event(Acknowledged, id, i.maxRing, None, topic.critical));
    }

    method CloseIncident(account: AccountId, id: IncidentId, now: int) returns (answer: Answer)
      modifies this
      ensures Close(old(Tables()), account, id, now) == (Tables(), answer)
    {
      if id !in incidents || incidents[id].topic !in topics || topics[incidents[id].topic].account != account {
        return NotFound;
      }
      var i := incidents[id];
      if !i.state.Acked? {
        return Conflict;
      }
      incidents := incidents[id := i.(state := Closed, closedAt := Some(now), updatedAt := now, timers := map[],
                                      events := i.events + [ClosedBy], at := i.at + [now])];
      return Done(Event(ClosedBy, id, i.maxRing, None, topics[i.topic].critical));
    }

    // ---------------------------------------------------------------- the scan

    method ProcessTimer(row: Due, now: int) returns (event: Option<Event>)
      modifies this
      ensures Process(old(Tables()), row, now) == (Tables(), event)
    {
      if row.id !in incidents {
        return None;
      }
      var i := incidents[row.id];
      match row.kind
      case Expire =>
        if !i.state.Open? {
          incidents := incidents[row.id := DropTimer(i, Expire, row.timer.id)];
          return None;
        }
        incidents := incidents[row.id := i.(state := Expired, closedAt := Some(now), updatedAt := now,
                                            timers := map[], events := i.events + [Expiring], at := i.at + [now])];
        return Some(Event(Expiring, row.id, row.maxRing, None, row.critical));
      case Desk =>
        if !i.state.Acked? {
          incidents := incidents[row.id := DropTimer(i, Desk, row.timer.id)];
          return None;
        }
        ghost var drawn := nextTimer;
        var next := i.(state := Open, openedAt := now, ackedAt := None, updatedAt := now, timers := map[],
                       events := i.events + [Reopened], at := i.at + [now], intervals := [row.interval]);
        next := InsertTimer(next, Repeat, now + row.interval);
        next := InsertTimer(next, Expire, now + i.maxRing);
        assert next == Reopen(i, now, row.interval, drawn);
        incidents := incidents[row.id := next];
        return Some(Event(Reopened, row.id, row.maxRing, Some(now + row.maxRing), row.critical));
      case Repeat =>
        if !i.state.Open? {
          incidents := incidents[row.id := DropTimer(i, Repeat, row.timer.id)];
          return None;
        }
        incidents := incidents[row.id := Ring(i, row.timer.id, now, row.interval)];
        return Some(Event(Repeated, row.id, row.maxRing, Some(row.openedAt + row.maxRing), row.critical));
    }

    /** The query of a scan: every due timer in the order of the query. */
    method QueryDue(at: int) returns (due: seq<Due>)
      ensures IsDueList(Tables(), due, at)
    {
      due := [];
      var left := set id, kind | id in incidents && kind in incidents[id].timers :: (id, kind);
      ghost var all := left;
      while left != {}
        invariant left <= all
        invariant IsSorted(due)
        invariant forall k :: 0 <= k < |due| ==>
                  IsRow(Tables(), due[k]) && due[k].timer.fireAt <= at && (due[k].id, due[k].kind) !in left
        invariant Apart(due)
        invariant forall id, kind :: IsDue(Tables(), id, kind, at) && (id, kind) !in left ==>
                  exists k :: 0 <= k < |due| && due[k].id == id && due[k].kind == kind
        decreases left
      {
        var key :| key in left;
        left := left - {key};
        var i := incidents[key.0];
        var timer := i.timers[key.1];
        if i.topic in topics && timer.fireAt <= at {
          var topic := topics[i.topic];
          var row := Due(key.0, key.1, timer, i.openedAt, i.maxRing, topic.repeatInterval, topic.critical);
          AddRow(Tables(), due, row, left, at);
          due := Insert(due, row);
        }
      }
    }

    /** `scanDue`: the list is read once, then each row is handled at its own reading of the clock. */
    method ScanDue(at: int, clock: nat -> int) returns (events: seq<Event>, ghost due: seq<Due>)
      modifies this
      ensures IsDueList(old(Tables()), due, at)
      ensures ProcessAll(old(Tables()), due, clock) == (Tables(), events)
    {
      var rows := QueryDue(at);
      due := rows;
      ghost var before := Tables();
      events := [];
      var k := 0;
      while k < |rows|
        invariant 0 <= k <= |rows|
        invariant ProcessAll(before, rows[..k], clock) == (Tables(), events)
      {
        var event := ProcessTimer(rows[k], clock(k));
        assert rows[..k + 1][..k] == rows[..k];
        k := k + 1;
        if event.Some? {
          events := events + [event.value];
        }
      }
      assert rows[..k] == rows;
    }
  }

  lemma AddRow(db: Db, due: seq<Due>, row: Due, left: set<(IncidentId, Kind)>, at: int)
    requires IsSorted(due) && IsRow(db, row) && row.timer.fireAt <= at && (row.id, row.kind) !in left
    requires forall k :: 0 <= k < |due| ==>
             IsRow(db, due[k]) && due[k].timer.fireAt <= at && (due[k].id, due[k].kind) !in left + {(row.id, row.kind)}
    requires Apart(due)
    ensures var placed := Insert(due, row);
            && IsSorted(placed)
            && (forall k :: 0 <= k < |placed| ==>
                IsRow(db, placed[k]) && placed[k].timer.fireAt <= at && (placed[k].id, placed[k].kind) !in left)
            && Apart(placed)
            && (forall k :: 0 <= k < |due| ==> due[k] in placed) && row in placed
  {
    InsertSorts(due, row);
    var placed := Insert(due, row);
    assert multiset(placed) == multiset(due) + multiset{row};
    forall k | 0 <= k < |placed| ensures placed[k] in due || placed[k] == row {
      assert placed[k] in multiset(placed);
    }
    forall k | 0 <= k < |due| ensures due[k] in placed {
      assert due[k] in multiset(placed);
    }
    assert row in multiset(placed);
    InsertKeepsApart(due, row);
  }

  ghost predicate Apart(due: seq<Due>) {
    forall j, k :: 0 <= j < k < |due| ==> due[j].id != due[k].id || due[j].kind != due[k].kind
  }

  lemma {:induction false} InsertKeepsApart(due: seq<Due>, row: Due)
    requires Apart(due) && forall k :: 0 <= k < |due| ==> due[k].id != row.id || due[k].kind != row.kind
    ensures Apart(Insert(due, row))
  {
    if due == [] || ComesBefore(row, due[0]) {
    } else {
      InsertKeepsApart(due[1..], row);
      var rest := Insert(due[1..], row);
      forall k | 0 <= k < |rest| ensures rest[k].id != due[0].id || rest[k].kind != due[0].kind {
        assert rest[k] in multiset(rest);
        assert rest[k] in due[1..] || rest[k] == row;
      }
    }
  }
}
