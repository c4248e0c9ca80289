/** How often an incident rings when the scan runs every second: neither less nor more than its interval asks for. */
module IncidentRinging {
  import opened Common
  import opened IncidentModel
  import opened IncidentInvariant
  import opened IncidentScan

  /** Row `j` is the only one of the list for this incident. */
  ghost predicate OnlyRow(due: seq<Due>, j: nat, id: IncidentId) {
    j < |due| && due[j].id == id && forall k :: 0 <= k < |due| && k != j ==> due[k].id != id
  }

  /** A scan touches no incident its list does not name. */
  lemma {:induction false} UnnamedStays(before: Db, due: seq<Due>, clock: nat -> int, id: IncidentId)
    requires id in before.incidents && forall k :: 0 <= k < |due| ==> due[k].id != id
    ensures var db := ProcessAll(before, due, clock).0;
            id in db.incidents && db.incidents[id] == before.incidents[id]
    decreases |due|
  {
    if due != [] {
      UnnamedStays(before, due[..|due| - 1], clock, id);
    }
  }

  /** The only row of an incident finds it as the scan found it, and leaves it as the scan does. */
  lemma {:induction false} NamedOnce(before: Db, due: seq<Due>, clock: nat -> int, j: nat, id: IncidentId)
      returns (next: TimerId)
    requires id in before.incidents && OnlyRow(due, j, id)
    ensures var db := ProcessAll(before, due, clock).0;
            id in db.incidents && db.incidents[id] == Handle(before.incidents[id], due[j], clock(j), next).0
    decreases |due|
  {
    var n := |due| - 1;
    if j == n {
      UnnamedStays(before, due[..n], clock, id);
      next := ProcessAll(before, due[..n], clock).0.nextTimer;
    } else {
      next := NamedOnce(before, due[..n], clock, j, id);
    }
  }

  /** The scan reads one second all through. */
  ghost predicate ReadsOnly(clock: nat -> int, n: nat, at: int) {
    forall k: nat :: k < n ==> clock(k) == at
  }

  /** An open incident whose next ring is `rings` and whose window ends at `over`. */
  ghost predicate Rings(db: Db, id: IncidentId, count: nat, rings: int, over: int) {
    && id in db.incidents && db.incidents[id].topic in db.topics
    && var i := db.incidents[id];
    && i.state.Open? && i.timers.Keys == {Repeat, Expire} && Repeats(i.events) == count
    && i.timers[Repeat].fireAt == rings && i.timers[Expire].fireAt == over
  }

  lemma DueOnce(before: Db, due: seq<Due>, at: int, id: IncidentId, count: nat, rings: int, over: int) returns (j: nat)
    requires Inv(before) && IsDueList(before, due, at) && Rings(before, id, count, rings, over) && rings <= at < over
    ensures OnlyRow(due, j, id) && due[j].kind == Repeat && IsRow(before, due[j])
  {
    assert IsDue(before, id, Repeat, at);
    j :| 0 <= j < |due| && due[j].id == id && due[j].kind == Repeat;
    forall k | 0 <= k < |due| && k != j ensures due[k].id != id {
      assert IsRow(before, due[k]) && IsRow(before, due[j]);
    }
  }

  lemma RowRings(i: Incident, row: Due, now: int, next: TimerId)
    requires i.state.Open? && row.kind == Repeat && Repeat in i.timers && i.timers[Repeat] == row.timer
    ensures var i' := Handle(i, row, now, next).0;
            && i'.state.Open? && i'.topic == i.topic && i'.timers.Keys == i.timers.Keys
            && i'.timers == i.timers[Repeat := Timer(row.timer.id, now + row.interval)]
            && Repeats(i'.events) == Repeats(i.events) + 1
  {
    var i' := Handle(i, row, now, next).0;
    assert i'.events[..|i.events|] == i.events;
  }

  /** A scan before the end of the window rings if and only if the ring is due, and sets the next one interval on. */
  lemma ScanRings(before: Db, due: seq<Due>, clock: nat -> int, at: int, id: IncidentId, count: nat, rings: int,
                  over: int)
    requires Inv(before) && IsDueList(before, due, at) && ReadsOnly(clock, |due|, at)
    requires Rings(before, id, count, rings, over) && at < over
    ensures var r, db := before.topics[before.incidents[id].topic].repeatInterval, ProcessAll(before, due, clock).0;
            if rings <= at then Rings(db, id, count + 1, at + r, over) else Rings(db, id, count, rings, over)
  {
    ProcessAllKeepsTopics(before, due, clock);
    if rings <= at {
      var j := DueOnce(before, due, at, id, count, rings, over);
      var next := NamedOnce(before, due, clock, j, id);
      RowRings(before.incidents[id], due[j], clock(j), next);
    } else {
      forall k | 0 <= k < |due| ensures due[k].id != id {
        assert IsRow(before, due[k]);
      }
      UnnamedStays(before, due, clock, id);
    }
  }

  lemma {:induction false} ProcessAllKeepsTopics(before: Db, due: seq<Due>, clock: nat -> int)
    ensures ProcessAll(before, due, clock).0.topics == before.topics
    decreases |due|
  {
    if due != [] {
      ProcessAllKeepsTopics(before, due[..|due| - 1], clock);
    }
  }

  // ---------------------------------------------------------------- the end of the window

  /** The window is over, after `count` repeats. */
  ghost predicate IsOver(db: Db, id: IncidentId, count: nat) {
    id in db.incidents && db.incidents[id].state.Expired? && Repeats(db.incidents[id].events) == count
  }

  ghost predicate OverSoFar(before: Db, due: seq<Due>, clock: nat -> int, k: nat, id: IncidentId, count: nat)
    requires k <= |due| && id in before.incidents
  {
    var db := ProcessAll(before, due[..k], clock).0;
    if Touched(due, k, id) then IsOver(db, id, count)
    else id in db.incidents && db.incidents[id] == before.incidents[id]
  }

  /** The first row of an incident whose window is over is its expiry. */
  lemma ExpiryIsFirst(before: Db, due: seq<Due>, k: nat, at: int, id: IncidentId)
    requires Inv(before) && IsDueList(before, due, at) && k < |due| && due[k].id == id && !Touched(due, k, id)
    requires id in before.incidents && before.incidents[id].state.Open? && RingUntil(before.incidents[id]) <= at
    ensures due[k].kind == Expire
  {
    FirstRow(before, due, k, at);
    assert IsRow(before, due[k]) && Sound(before.incidents[id]);
  }

  lemma ExpiringEnds(i: Incident, row: Due, now: int, next: TimerId)
    requires i.state.Open? && row.kind == Expire
    ensures var i' := Handle(i, row, now, next).0;
            i'.state.Expired? && Repeats(i'.events) == Repeats(i.events)
  {
    var i' := Handle(i, row, now, next).0;
    assert i'.events[..|i.events|] == i.events;
  }

  lemma FirstRowEnds(before: Db, due: seq<Due>, k: nat, at: int, db: Db, now: int, id: IncidentId, count: nat)
    requires Inv(before) && IsDueList(before, due, at) && k < |due| && due[k].id == id && !Touched(due, k, id)
    requires id in before.incidents && before.incidents[id].state.Open? && RingUntil(before.incidents[id]) <= at
    requires id in db.incidents && db.incidents[id] == before.incidents[id]
    requires Repeats(before.incidents[id].events) == count
    ensures IsOver(Process(db, due[k], now).0, id, count)
  {
    ExpiryIsFirst(before, due, k, at, id);
    ExpiringEnds(db.incidents[id], due[k], now, db.nextTimer);
  }

  lemma LaterRowEnds(before: Db, due: seq<Due>, k: nat, at: int, db: Db, now: int, id: IncidentId, count: nat)
    requires Inv(before) && IsDueList(before, due, at) && k < |due| && due[k].id == id && Touched(due, k, id)
    requires IsOver(db, id, count)
    ensures IsOver(Process(db, due[k], now).0, id, count)
  {
    var first := FirstTouch(due, k, id);
    FirstRow(before, due, first, at);
    assert due[k].kind == Repeat;
  }

  lemma {:induction false} FirstTouch(due: seq<Due>, k: nat, id: IncidentId) returns (first: nat)
    requires k <= |due| && Touched(due, k, id)
    ensures first < k && due[first].id == id && !Touched(due, first, id)
    decreases k
  {
    first := k - 1;
    if Touched(due, k - 1, id) {
      first := FirstTouch(due, k - 1, id);
    }
  }

  lemma OverOneMore(before: Db, due: seq<Due>, clock: nat -> int, k: nat, at: int, id: IncidentId, count: nat)
    requires Inv(before) && IsDueList(before, due, at) && k < |due|
    requires id in before.incidents && before.incidents[id].state.Open? && RingUntil(before.incidents[id]) <= at
    requires Repeats(before.incidents[id].events) == count
    requires OverSoFar(before, due, clock, k, id, count)
    ensures OverSoFar(before, due, clock, k + 1, id, count)
  {
    ProcessOneMore(before, due, clock, k);
    var db := ProcessAll(before, due[..k], clock).0;
    if due[k].id == id {
      assert Touched(due, k + 1, id);
      if Touched(due, k, id) {
        LaterRowEnds(before, due, k, at, db, clock(k), id, count);
      } else {
        FirstRowEnds(before, due, k, at, db, clock(k), id, count);
      }
    } else {
      OtherRowEnds(due, k, db, clock(k), id);
    }
  }

  lemma OtherRowEnds(due: seq<Due>, k: nat, db: Db, now: int, id: IncidentId)
    requires k < |due| && due[k].id != id && id in db.incidents
    ensures Touched(due, k + 1, id) <==> Touched(due, k, id)
    ensures id in Process(db, due[k], now).0.incidents && Process(db, due[k], now).0.incidents[id] == db.incidents[id]
  {
  }

  /** The first scan at or after the end of the window expires it, and rings no more. */
  lemma {:induction false} ScanEnds(before: Db, due: seq<Due>, clock: nat -> int, k: nat, at: int, id: IncidentId,
                                    count: nat)
    requires Inv(before) && IsDueList(before, due, at) && k <= |due|
    requires id in before.incidents && before.incidents[id].state.Open? && RingUntil(before.incidents[id]) <= at
    requires Repeats(before.incidents[id].events) == count
    ensures OverSoFar(before, due, clock, k, id, count)
    decreases k
  {
    if k > 0 {
      ScanEnds(before, due, clock, k - 1, at, id, count);
      OverOneMore(before, due, clock, k - 1, at, id, count);
    }
  }

  // ---------------------------------------------------------------- second after second

  /** How many of the first `k` steps were scans. */
  function Seconds(steps: seq<Step>, k: nat): nat
    requires k <= |steps|
  {
    if k == 0 then 0 else Seconds(steps, k - 1) + if steps[k - 1].Scans? then 1 else 0
  }

  /** A scan `t` + 1 seconds after `from` that finds the interval `r` and reads the one second all through. */
  ghost predicate ScansSecond(db: Db, step: Step, id: IncidentId, from: int, r: int, t: nat)
    requires step.Scans?
  {
    && step.at == from + t + 1 && ReadsOnly(step.clock, |step.due|, step.at)
    && (id in db.incidents && db.incidents[id].topic in db.topics ==>
          db.topics[db.incidents[id].topic].repeatInterval == r)
  }

  /** The next second's scan, or anything else but an acknowledgement of this incident. */
  ghost predicate IsNext(db: Db, step: Step, db': Db, id: IncidentId, from: int, r: int, t: nat) {
    && CanStep(db, step) && db' == Next(db, step)
    && (step.Scans? ==> ScansSecond(db, step, id, from, r, t)) && (step.Acknowledges? ==> step.id != id)
  }

  /** Step `k` of a trace, as many seconds after `from` as scans came before it. */
  ghost predicate NextAt(trace: seq<Db>, steps: seq<Step>, id: IncidentId, from: int, r: int, k: nat)
    requires k < |steps| == |trace| - 1
  {
    IsNext(trace[k], steps[k], trace[k + 1], id, from, r, Seconds(steps, k))
  }

  /** From `from` on a scan runs every second; between scans anything may happen but the acknowledgement. */
  ghost predicate EverySecond(trace: seq<Db>, steps: seq<Step>, id: IncidentId, from: int, r: int) {
    && |trace| == |steps| + 1
    && forall k: nat {:trigger NextAt(trace, steps, id, from, r, k)} :: k < |steps| ==>
         NextAt(trace, steps, id, from, r, k)
  }

  /** No request but its acknowledgement moves an open incident's timers. */
  lemma RequestsKeepRinging(db: Db, step: Step, id: IncidentId, count: nat, rings: int, over: int)
    requires Inv(db) && CanStep(db, step) && !step.Scans? && (step.Acknowledges? ==> step.id != id)
    requires Rings(db, id, count, rings, over)
    ensures Rings(Next(db, step), id, count, rings, over)
  {
    if step.Publishes? && step.active == Some(id) {
      var i, i' := db.incidents[id], Hear(db.incidents[id], step.now);
      assert i'.events[..|i.events|] == i.events;
    }
  }

  /** `n` whole intervals of `r` have passed in `t` seconds. */
  ghost predicate Whole(t: int, r: int, n: nat) {
    n * r <= t < (n + 1) * r
  }

  lemma LessByFactor(a: int, b: int, r: int)
    requires r > 0 && a * r < b * r
    ensures a < b
  {
  }

  lemma WholeIsQuotient(t: nat, r: int, n: nat)
    requires r > 0 && Whole(t, r, n)
    ensures n == t / r
  {
    AtMostQuotient(n, r, t);
    LessByFactor(t / r, n + 1, r);
  }

  lemma NextWhole(t: int, r: int, n: nat)
    requires r > 0 && Whole(t, r, n)
    ensures if (n + 1) * r <= t + 1 then t + 1 == (n + 1) * r && Whole(t + 1, r, n + 1) else Whole(t + 1, r, n)
    ensures (n + 1) * r + r == (n + 2) * r
  {
  }

  /** One scan more, one second later. */
  lemma SecondRings(db: Db, step: Step, t: nat, id: IncidentId, from: int, r: int, over: int, n: nat)
      returns (more: nat)
    requires r > 0 && Inv(db) && step.Scans? && CanStep(db, step) && ScansSecond(db, step, id, from, r, t)
    requires from + t + 1 < over && Whole(t, r, n) && Rings(db, id, n, from + (n + 1) * r, over)
    ensures Whole(t + 1, r, more) && Rings(Next(db, step), id, more, from + (more + 1) * r, over)
  {
    NextWhole(t, r, n);
    ScanRings(db, step.due, step.clock, step.at, id, n, from + (n + 1) * r, over);
    more := if (n + 1) * r <= t + 1 then n + 1 else n;
  }

  lemma StepRings(db: Db, step: Step, db': Db, t: nat, id: IncidentId, from: int, r: int, over: int, n: nat)
      returns (more: nat)
    requires r > 0 && Inv(db) && IsNext(db, step, db', id, from, r, t)
    requires step.Scans? ==> from + t + 1 < over
    requires Whole(t, r, n) && Rings(db, id, n, from + (n + 1) * r, over)
    ensures Inv(db') && Whole(if step.Scans? then t + 1 else t, r, more)
    ensures Rings(db', id, more, from + (more + 1) * r, over)
  {
    StepKeepsInv(db, step);
    more := n;
    if step.Scans? {
      more := SecondRings(db, step, t, id, from, r, over, n);
    } else {
      RequestsKeepRinging(db, step, id, n, from + (n + 1) * r, over);
    }
  }

  lemma {:induction false} RingsAlong(trace: seq<Db>, steps: seq<Step>, id: IncidentId, from: int, r: int, maxRing: int,
                                      k: nat) returns (n: nat)
    requires r > 0 && EverySecond(trace, steps, id, from, r) && Inv(trace[0])
    requires Rings(trace[0], id, 0, from + r, from + maxRing)
    requires k <= |steps| && Seconds(steps, k) < maxRing
    ensures Inv(trace[k]) && Whole(Seconds(steps, k), r, n)
    ensures Rings(trace[k], id, n, from + (n + 1) * r, from + maxRing)
    decreases k
  {
    if k == 0 {
      return 0;
    }
    n := RingsAlong(trace, steps, id, from, r, maxRing, k - 1);
    assert NextAt(trace, steps, id, from, r, k - 1);
    n := StepRings(trace[k - 1], steps[k - 1], trace[k], Seconds(steps, k - 1), id, from, r, from + maxRing, n);
  }

  /**
   Scanned every second and not acknowledged, a window of `max_ring_s` seconds that began at `from` has rung exactly
   t / r times after t of them, and is due to ring next at the next whole interval.
   */
  lemma RingsEveryInterval(trace: seq<Db>, steps: seq<Step>, id: IncidentId, from: int, r: int, maxRing: int, k: nat)
    requires r > 0 && EverySecond(trace, steps, id, from, r) && Inv(trace[0])
    requires Rings(trace[0], id, 0, from + r, from + maxRing)
    requires k <= |steps| && Seconds(steps, k) < maxRing
    ensures var n := Seconds(steps, k) / r;
            Rings(trace[k], id, n, from + (n + 1) * r, from + maxRing)
  {
    var n := RingsAlong(trace, steps, id, from, r, maxRing, k);
    WholeIsQuotient(Seconds(steps, k), r, n);
  }

  /** The scan at the end of the window expires it: it has rung exactly (max_ring_s - 1) / r times. */
  lemma WindowRings(trace: seq<Db>, steps: seq<Step>, id: IncidentId, from: int, r: int, maxRing: int, k: nat)
    requires r > 0 && EverySecond(trace, steps, id, from, r) && Inv(trace[0])
    requires Rings(trace[0], id, 0, from + r, from + maxRing)
    requires k < |steps| && steps[k].Scans? && Seconds(steps, k) == maxRing - 1
    ensures IsOver(trace[k + 1], id, (maxRing - 1) / r)
  {
    var n := RingsAlong(trace, steps, id, from, r, maxRing, k);
    WholeIsQuotient(Seconds(steps, k), r, n);
    assert NextAt(trace, steps, id, from, r, k);
    var db, step := trace[k], steps[k];
    assert IsDue(db, id, Expire, step.at);
    ScanEnds(db, step.due, step.clock, |step.due|, step.at, id, n);
    assert step.due[..|step.due|] == step.due;
  }
}
