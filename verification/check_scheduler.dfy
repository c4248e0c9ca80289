/** The alarm notes (src/check/device-hooks.ts) and the scan that sends checks (src/check/scheduler.ts). */
module CheckSchedulers {
  import opened Common
  import opened CheckModel
  import opened CheckInvariant
  import opened CheckStores

  // ---------------------------------------------------------------- runs of steps

  lemma {:induction false} RunAppends(db: Db, first: seq<Step>, second: seq<Step>)
    ensures Run(db, first + second) == Run(Run(db, first), second)
    decreases |first|
  {
    if first == [] {
      assert first + second == second;
    } else {
      assert (first + second)[1..] == first[1..] + second;
      RunAppends(Apply(db, first[0]), first[1..], second);
    }
  }

  /** Steps of the server, whoever took them, lead from one state to the other. */
  ghost predicate Ran(before: Db, after: Db) {
    exists steps :: Run(before, steps) == after
  }

  lemma RanNowhere(db: Db)
    ensures Ran(db, db)
  {
    assert Run(db, []) == db;
  }

  lemma RanOn(before: Db, mid: Db, after: Db)
    requires Ran(before, mid) && Ran(mid, after)
    ensures Ran(before, after)
  {
    var first :| Run(before, first) == mid;
    var second :| Run(mid, second) == after;
    RunAppends(before, first, second);
  }

  lemma RanStep(before: Db, db: Db, step: Step)
    requires Ran(before, db)
    ensures Ran(before, Apply(db, step))
  {
    assert Run(db, [step]) == Run(Apply(db, step), []);
    RanOn(before, db, Apply(db, step));
  }

  lemma RanKeeps(before: Db, after: Db)
    requires Ran(before, after)
    ensures before.handed <= after.handed && (Inv(before) ==> Inv(after))
  {
    var steps :| Run(before, steps) == after;
    RunKeepsHandouts(before, steps);
    if Inv(before) {
      RunKeepsInv(before, steps);
    }
  }

  // ---------------------------------------------------------------- alarm notes

  /** A device row after a note was written to it: only a newer time is kept. */
  function Noted(device: Device, at: int): Device {
    if device.lastAlarmPushAt.None? || device.lastAlarmPushAt.value < at
    then device.(lastAlarmPushAt := Some(at)) else device
  }

  /** The devices after every note in `notes` was written. */
  function AllNoted(devices: map<DeviceId, Device>, notes: map<DeviceId, int>): map<DeviceId, Device> {
    map d | d in devices :: if d in notes then Noted(devices[d], notes[d]) else devices[d]
  }

  lemma NothingNoted(db: Db, notes: map<DeviceId, int>)
    requires notes == map[]
    ensures db.(devices := AllNoted(db.devices, notes)) == db
  {
    assert AllNoted(db.devices, notes) == db.devices;
  }

  /** Writing one more note, or leaving it because its write fails. */
  lemma NoteWritten(db: Db, notes: map<DeviceId, int>, left: set<DeviceId>, broken: set<DeviceId>, d: DeviceId)
    requires d in left && left <= notes.Keys
    ensures var noted := db.(devices := AllNoted(db.devices, notes - (left + broken)));
            db.(devices := AllNoted(db.devices, notes - (left - {d} + broken))) ==
            if d in broken then noted else WriteAlarmNote(noted, d, notes[d])
  {
    var noted := db.(devices := AllNoted(db.devices, notes - (left + broken)));
    if d in broken {
      assert left - {d} + broken == left + broken;
    } else {
      assert AllNoted(db.devices, notes - (left - {d} + broken)) == WriteAlarmNote(noted, d, notes[d]).devices;
    }
  }

  /** Writing notes down is a run of steps, one for each. */
  lemma {:induction false} NotesRan(db: Db, notes: map<DeviceId, int>)
    ensures Ran(db, db.(devices := AllNoted(db.devices, notes)))
    decreases notes.Keys
  {
    if notes == map[] {
      NothingNoted(db, notes);
      RanNowhere(db);
    } else {
      var d :| d in notes;
      var others := notes - {d};
      NotesRan(db, others);
      NoteWritten(db, notes, {d}, {}, d);
      assert {d} + {} == {d} && notes - ({d} - {d} + {}) == notes;
      RanStep(db, db.(devices := AllNoted(db.devices, others)), AlarmNoteStep(d, notes[d]));
    }
  }

  class AlarmNotes {
    var latest: map<DeviceId, int>

    constructor ()
      ensures latest == map[]
    {
      latest := map[];
    }

    /** Only the newest time per device is kept. */
    method Add(d: DeviceId, at: int)
      modifies this
      ensures latest.Keys == old(latest).Keys + {d}
      ensures latest[d] == if d in old(latest) then Max(old(latest)[d], at) else at
      ensures forall other :: other in old(latest) && other != d ==> latest[other] == old(latest)[other]
    {
      if d !in latest || at > latest[d] {
        latest := latest[d := at];
      }
    }

    /** Writes every note down. A write that fails (`broken`) keeps its note for the next flush. */
    method Flush(store: CheckStore, broken: set<DeviceId>)
      modifies this, store
      ensures latest.Keys == old(latest).Keys * broken
      ensures forall d :: d in latest ==> latest[d] == old(latest)[d]
      ensures store.Tables() == old(store.Tables()).(devices := AllNoted(old(store.devices), old(latest) - broken))
      ensures Ran(old(store.Tables()), store.Tables())
    {
      var left := latest.Keys;
      ghost var notes := latest;
      ghost var before := store.Tables();
      NothingNoted(before, notes - (left + broken));
      while left != {}
        invariant left <= notes.Keys
        invariant latest == notes - (notes.Keys - left - broken)
        invariant store.Tables() == before.(devices := AllNoted(before.devices, notes - (left + broken)))
        decreases left
      {
        var d :| d in left;
        var at := latest[d];
        NoteWritten(before, notes, left, broken, d);
        if d !in broken {
          store.NoteAlarm(d, at);
          if latest[d] == at {
            latest := latest - {d};
          }
        }
        left := left - {d};
      }
      assert {} + broken == broken;
      NotesRan(before, notes - broken);
    }
  }

  // ---------------------------------------------------------------- the log of handouts

  lemma PlanKeepsHandouts(db: Db, d: DeviceId, now: int)
    ensures var (db', planned) := Plan(db, d, now);
            db'.handed == db.handed + if planned.Some? then [(planned.value.roundId, planned.value.attempt)] else []
  {
  }

  lemma ReceiptKeepsHandouts(db: Db, d: DeviceId, checkId: Option<RoundId>, note: Option<int>, time: Option<int>,
                             now: int)
    ensures Receipt(db, d, checkId, note, time, now).0.handed == db.handed
  {
  }

  lemma StepKeepsHandouts(db: Db, step: Step)
    ensures db.handed <= Apply(db, step).handed
  {
    match step
    case PlanStep(d, now) => PlanKeepsHandouts(db, d, now);
    case ReceiptStep(d, checkId, note, time, now) => ReceiptKeepsHandouts(db, d, checkId, note, time, now);
    case _ =>
  }

  lemma {:induction false} RunKeepsHandouts(db: Db, steps: seq<Step>)
    ensures db.handed <= Run(db, steps).handed
    decreases |steps|
  {
    if steps != [] {
      StepKeepsHandouts(db, steps[0]);
      RunKeepsHandouts(Apply(db, steps[0]), steps[1..]);
    }
  }

  // ---------------------------------------------------------------- what a scan does

  /** One device's turn in a scan, and the tables just before it. */
  datatype Visit = Visit(before: Db, d: DeviceId, now: int)

  function After(v: Visit): (Db, Option<PlannedCheck>) {
    Plan(v.before, v.d, v.now)
  }

  /** Turn after turn, with any steps of the server before, between and after them. */
  ghost predicate Chained(first: Db, visits: seq<Visit>, last: Db) {
    if visits == [] then Ran(first, last)
    else
      var n := |visits| - 1;
      Chained(first, visits[..n], visits[n].before) && Ran(After(visits[n]).0, last)
  }

  /** The devices of the list in their order, as far as the scan came. */
  ghost predicate InOrder(visits: seq<Visit>, list: seq<DeviceId>) {
    |visits| <= |list| && forall i :: 0 <= i < |visits| ==> visits[i].d == list[i]
  }

  /** The attempts the turns put on record. */
  function HandedBy(visits: seq<Visit>): seq<(RoundId, nat)> {
    if visits == [] then []
    else
      var n := |visits| - 1;
      var planned := After(visits[n]).1;
      HandedBy(visits[..n]) + if planned.Some? then [(planned.value.roundId, planned.value.attempt)] else []
  }

  lemma VisitOnce(first: Db, visits: seq<Visit>, db: Db, v: Visit, last: Db)
    requires Chained(first, visits, db) && v.before == db && Ran(After(v).0, last)
    ensures Chained(first, visits + [v], last)
    ensures HandedBy(visits + [v]) ==
            HandedBy(visits) + if After(v).1.Some? then [(After(v).1.value.roundId, After(v).1.value.attempt)] else []
  {
    assert (visits + [v])[..|visits|] == visits;
  }

  lemma ChainedOn(first: Db, visits: seq<Visit>, db: Db, last: Db)
    requires Chained(first, visits, db) && Ran(db, last)
    ensures Chained(first, visits, last)
  {
    if visits == [] {
      RanOn(first, db, last);
    } else {
      RanOn(After(visits[|visits| - 1]).0, db, last);
    }
  }

  lemma {:induction false} ChainedRuns(first: Db, visits: seq<Visit>, last: Db)
    requires Chained(first, visits, last)
    ensures Ran(first, last)
    decreases |visits|
  {
    if visits != [] {
      var v := visits[|visits| - 1];
      ChainedRuns(first, visits[..|visits| - 1], v.before);
      VisitRuns(first, v, last);
    }
  }

  lemma VisitRuns(first: Db, v: Visit, last: Db)
    requires Ran(first, v.before) && Ran(After(v).0, last)
    ensures Ran(first, last)
  {
    StepRuns(first, v.before, PlanStep(v.d, v.now), last);
  }

  lemma StepRuns(first: Db, before: Db, step: Step, last: Db)
    requires Ran(first, before) && Ran(Apply(before, step), last)
    ensures Ran(first, last)
  {
    var next := Apply(before, step);
    RanStep(first, before, step);
    RanOn(first, next, last);
  }

  lemma HandoutIsNew(db: Db, d: DeviceId, now: int)
    requires Inv(db) && Plan(db, d, now).1.Some?
    ensures var planned := Plan(db, d, now).1.value;
            (planned.roundId, planned.attempt) !in db.handed
  {
    var planned := Plan(db, d, now).1.value;
    PlanKeepsInv(db, d, now);
    PlanKeepsHandouts(db, d, now);
    FreshHandout(Plan(db, d, now).0, (planned.roundId, planned.attempt));
  }

  /** What the turns of a scan put on record was not on record when it began, and is put there once. */
  lemma {:induction false} ScanHandsOutNew(first: Db, visits: seq<Visit>, last: Db)
    requires Inv(first) && Chained(first, visits, last)
    ensures Inv(last) && NewHandouts(HandedBy(visits), first.handed, last.handed)
    decreases |visits|
  {
    if visits == [] {
      RanKeeps(first, last);
    } else {
      var n := |visits| - 1;
      var v := visits[n];
      ScanHandsOutNew(first, visits[..n], v.before);
      PlanKeepsInv(v.before, v.d, v.now);
      PlanKeepsHandouts(v.before, v.d, v.now);
      RanKeeps(After(v).0, last);
      if After(v).1.Some? {
        HandoutIsNew(v.before, v.d, v.now);
      }
      NewHandoutsGrow(HandedBy(visits), first.handed, After(v).0.handed, last.handed);
    }
  }

  lemma FreshHandout(db: Db, h: (RoundId, nat))
    requires HandedOk(db) && db.handed != [] && db.handed[|db.handed| - 1] == h
    ensures h !in db.handed[..|db.handed| - 1]
  {
    forall i | 0 <= i < |db.handed| - 1 ensures db.handed[i] != h {
      assert InLog(i) && InLog(|db.handed| - 1);
    }
  }

  /** Attempts put on record since `before`, each once. */
  ghost predicate NewHandouts(mine: seq<(RoundId, nat)>, before: seq<(RoundId, nat)>, handed: seq<(RoundId, nat)>) {
    && before <= handed
    && (forall m :: m in mine ==> m in handed && m !in before)
    && (forall i, j :: 0 <= i < j < |mine| ==> mine[i] != mine[j])
  }

  lemma NewHandoutsGrow(mine: seq<(RoundId, nat)>, before: seq<(RoundId, nat)>, handed: seq<(RoundId, nat)>,
                        more: seq<(RoundId, nat)>)
    requires NewHandouts(mine, before, handed) && handed <= more
    ensures NewHandouts(mine, before, more)
  {
  }

  // ---------------------------------------------------------------- the scan

  class CheckScheduler {
    const store: CheckStore
    const notes: AlarmNotes
    const batch: nat
    var running: bool

    constructor (store: CheckStore, notes: AlarmNotes, batch: nat)
      ensures this.store == store && this.notes == notes && this.batch == batch && !running
    {
      this.store, this.notes, this.batch, running := store, notes, batch, false;
    }

    /** What other requests, and other schedulers, do while this one waits: any steps at all. */
    method Others()
      modifies store
      ensures Ran(old(store.Tables()), store.Tables())
    {
      RanNowhere(store.Tables());
    }

    /** Sends a planned push. The sender asks `confirm` just before the bytes leave; what it answers is arbitrary. */
    method Send(planned: PlannedCheck, configured: bool) returns (outcome: AttemptOutcome, status: int)
      modifies store
      ensures Ran(old(store.Tables()), store.Tables())
      ensures !configured ==> outcome == Failed && status == 501 && store.Tables() == old(store.Tables())
    {
      ghost var before := store.Tables();
      RanNowhere(before);
      if !configured {
        return Failed, 501;
      }
      Others();
      var asked: bool, now: int := *, *;
      if asked {
        RanStep(before, store.Tables(), ConfirmStep(planned, now));
        var send := store.Confirm(planned, now);
        if !send {
          return Cancelled, 0;
        }
      }
      ghost var mid := store.Tables();
      Others();
      RanOn(before, mid, store.Tables());
      outcome, status := *, *;
    }

    /**
     One pass: flush, then for each due device flush, plan, send and record. It counts the attempts it put on
     record. None of them was on record before, none is counted twice, and a pass that starts while another
     is running does nothing. `list` is what the query returned over the tables `asked`; every device on it has
     its turn, in its order, unless the pass is cut short by its time budget.
     */
    method Scan(broken: set<DeviceId>)
      returns (planned: nat, ghost asked: Db, ghost list: seq<DeviceId>, ghost visits: seq<Visit>, ghost cut: bool)
      modifies this, store, notes
      ensures running == old(running)
      ensures old(running) ==> planned == 0 && store.Tables() == old(store.Tables())
      ensures !old(running) ==>
                && Ran(old(store.Tables()), asked) && (exists at :: IsDueList(asked, list, batch, at))
                && Chained(asked, visits, store.Tables()) && InOrder(visits, list) && (!cut ==> |visits| == |list|)
                && planned == |HandedBy(visits)|
      ensures !old(running) && Inv(old(store.Tables())) ==>
                Inv(store.Tables()) && NewHandouts(HandedBy(visits), old(store.handed), store.handed)
    {
      planned, asked, list, visits, cut := 0, store.Tables(), [], [], false;
      if running {
        return;
      }
      running := true;
      notes.Flush(store, broken);
      asked := store.Tables();
      RanNowhere(asked);
      var now: int := *;
      var due := store.DueNow(batch, now);
      list := due;
      var i := 0;
      while i < |due|
        invariant running && 0 <= i <= |due|
        invariant Chained(asked, visits, store.Tables()) && InOrder(visits, due) && |visits| == i
        invariant planned == |HandedBy(visits)|
      {
        var overBudget: bool := *;
        if overBudget {
          cut := true;
          break;
        }
        ghost var before := store.Tables();
        var handed, visit := TakeTurn(due[i], broken);
        ChainedOn(asked, visits, before, visit.before);
        VisitOnce(asked, visits, visit.before, visit, store.Tables());
        visits, i := visits + [visit], i + 1;
        if handed {
          planned := planned + 1;
        }
      }
      running := false;
      if Inv(old(store.Tables())) {
        RanKeeps(old(store.Tables()), asked);
        ScanHandsOutNew(asked, visits, store.Tables());
      }
    }

    /** Flush, plan, and send and record what is planned. */
    method TakeTurn(d: DeviceId, broken: set<DeviceId>) returns (handed: bool, ghost visit: Visit)
      modifies store, notes
      ensures Ran(old(store.Tables()), visit.before) && visit.d == d && Ran(After(visit).0, store.Tables())
      ensures handed <==> After(visit).1.Some?
    {
      notes.Flush(store, broken);
      var now: int := *;
      visit := Visit(store.Tables(), d, now);
      var next := store.Plan(d, now);
      handed := next.Some?;
      if handed {
        SendAndRecord(next.value);
      } else {
        RanNowhere(store.Tables());
      }
    }

    method SendAndRecord(planned: PlannedCheck)
      modifies store
      ensures Ran(old(store.Tables()), store.Tables())
    {
      ghost var before := store.Tables();
      var configured: bool := *;
      var outcome, status := Send(planned, configured);
      var now: int := *;
      RanStep(before, store.Tables(), RecordStep(planned.roundId, planned.attempt, outcome, status, now));
      store.Record(planned.roundId, planned.attempt, outcome, status, now);
    }
  }
}
