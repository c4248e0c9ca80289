/** The numbers of the weekly check and its slot arithmetic (src/check/schedule.ts). */
module Schedule {
  import opened Common

  const HOUR_S: int := 3_600
  const DAY_S: int := 86_400
  const WEEK_S: int := 7 * DAY_S
  const ROUND_LENGTH_S: int := DAY_S
  const ATTEMPT_OFFSETS_S: seq<int> := [0, 6 * HOUR_S, 18 * HOUR_S]
  const MAX_ATTEMPTS: nat := |ATTEMPT_OFFSETS_S|
  const ALARM_HOLD_S: int := 30 * 60
  const MIN_ROUND_GAP_S: int := 3 * DAY_S
  const ROUND_RETENTION_S: int := 90 * DAY_S
  const FIRST_MONDAY_S: int := 4 * DAY_S

  /** A device's second of the week. `slotFor` hashes the device id; any value in the range can come out. */
  type Slot = s: int | 0 <= s < WEEK_S witness 0

  /** JavaScript's `%`: the remainder takes the sign of the dividend. */
  function JsMod(a: int, b: int): (r: int)
    requires b > 0
    ensures -b < r < b
    ensures a >= 0 ==> r >= 0
    ensures a <= 0 ==> r <= 0
  {
    if a >= 0 then a % b else -((-a) % b)
  }

  /** Whether a second of time falls on a slot, counted from Monday, 5 January 1970, in plain modular arithmetic. */
  ghost predicate OnSlot(slot: Slot, time: int) {
    (time - 345_600 - slot) % 604_800 == 0
  }

  function SlotAtOrAfter(slot: Slot, time: int): int {
    var into := JsMod(JsMod(time - FIRST_MONDAY_S - slot, WEEK_S) + WEEK_S, WEEK_S);
    if into == 0 then time else time + (WEEK_S - into)
  }

  function RoundAfter(slot: Slot, openedAt: int): int {
    SlotAtOrAfter(slot, openedAt + MIN_ROUND_GAP_S)
  }

  /** The first of a round's three times that is still ahead of `now`. */
  function OffsetAhead(openedAt: int, now: int): (r: Option<int>)
    ensures r.Some? ==> r.value > now
    ensures r.Some? <==> now < openedAt + ATTEMPT_OFFSETS_S[MAX_ATTEMPTS - 1]
    ensures r.Some? ==> exists i :: 0 <= i < MAX_ATTEMPTS && r.value == openedAt + ATTEMPT_OFFSETS_S[i]
    ensures forall i :: 0 <= i < MAX_ATTEMPTS && openedAt + ATTEMPT_OFFSETS_S[i] > now ==>
                          r.Some? && r.value <= openedAt + ATTEMPT_OFFSETS_S[i]
  {
    if openedAt + ATTEMPT_OFFSETS_S[0] > now then Some(openedAt + ATTEMPT_OFFSETS_S[0])
    else if openedAt + ATTEMPT_OFFSETS_S[1] > now then Some(openedAt + ATTEMPT_OFFSETS_S[1])
    else if openedAt + ATTEMPT_OFFSETS_S[2] > now then Some(openedAt + ATTEMPT_OFFSETS_S[2])
    else None
  }

  /** The doubled truncating remainder is the ordinary remainder, whatever the sign. */
  lemma JsModTwice(a: int)
    ensures JsMod(JsMod(a, WEEK_S) + WEEK_S, WEEK_S) == a % WEEK_S
  {
  }

  /** `slotAtOrAfter` is the least second at or after `time` on the slot, before the epoch too. */
  lemma SlotIsLeast(slot: Slot, time: int)
    ensures var r := SlotAtOrAfter(slot, time);
            && time <= r < time + WEEK_S
            && OnSlot(slot, r)
            && forall t :: time <= t < r ==> !OnSlot(slot, t)
  {
    var a := time - FIRST_MONDAY_S - slot;
    JsModTwice(a);
    var into := a % WEEK_S;
    var r := SlotAtOrAfter(slot, time);
    assert a == (a / WEEK_S) * WEEK_S + into;
    if into != 0 {
      assert r - FIRST_MONDAY_S - slot == (a / WEEK_S + 1) * WEEK_S;
    }
    forall t | time <= t < r ensures !OnSlot(slot, t) {
      assert t - FIRST_MONDAY_S - slot == (a / WEEK_S) * WEEK_S + (into + (t - time));
      assert 0 < into + (t - time) < WEEK_S;
    }
  }

  /** Two seconds on one slot are a whole number of weeks apart. */
  lemma SlotsApart(slot: Slot, s: int, t: int)
    requires OnSlot(slot, s)
    ensures OnSlot(slot, t) <==> (t - s) % WEEK_S == 0
  {
  }

  lemma SlotMonotone(slot: Slot, s: int, t: int)
    requires s <= t
    ensures SlotAtOrAfter(slot, s) <= SlotAtOrAfter(slot, t)
  {
    SlotIsLeast(slot, s);
    SlotIsLeast(slot, t);
  }

  /** A round that opened on its slot is followed exactly a week later; any other in [3, 10) days. */
  lemma RoundAfterSpacing(slot: Slot, openedAt: int)
    ensures openedAt + MIN_ROUND_GAP_S <= RoundAfter(slot, openedAt) < openedAt + MIN_ROUND_GAP_S + WEEK_S
    ensures OnSlot(slot, RoundAfter(slot, openedAt))
    ensures OnSlot(slot, openedAt) <==> RoundAfter(slot, openedAt) == openedAt + WEEK_S
  {
    SlotIsLeast(slot, openedAt + MIN_ROUND_GAP_S);
    var r := RoundAfter(slot, openedAt);
    SlotsApart(slot, r, openedAt);
    assert 3 * DAY_S <= r - openedAt < 10 * DAY_S;
    assert (openedAt - r) % WEEK_S == 0 <==> r - openedAt == WEEK_S;
  }
}
