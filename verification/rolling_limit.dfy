/** The rolling window of the rate limits, with its two sweep rules (src/rate-limit.ts, `RollingLimit`). */
module RollingLimits {
  type Key = string

  function Times(table: map<Key, seq<int>>, key: Key): seq<int> {
    if key in table then table[key] else []
  }

  /** The times still inside the window that ends at `now`. */
  function Live(times: seq<int>, now: int, window: int): (live: seq<int>)
    ensures |live| <= |times|
    ensures forall at :: at in live <==> at in times && at > now - window
  {
    if times == [] then []
    else
      var before, at := Live(times[..|times| - 1], now, window), times[|times| - 1];
      assert times == times[..|times| - 1] + [at];
      if at > now - window then before + [at] else before
  }

  /** How many of the times lie after `lo` and not after `hi`. */
  function CountIn(times: seq<int>, lo: int, hi: int): nat {
    if times == [] then 0
    else CountIn(times[..|times| - 1], lo, hi) + if lo < times[|times| - 1] <= hi then 1 else 0
  }

  // ---------------------------------------------------------------- the simple form: a log nobody sweeps

  /** Every call that counted, per key and in order. */
  type Log = map<Key, seq<int>>

  predicate Admits(log: Log, key: Key, now: int, limit: int, window: int) {
    |Live(Times(log, key), now, window)| < limit
  }

  function Noted(log: Log, key: Key, now: int): Log {
    log[key := Times(log, key) + [now]]
  }

  /** `allow` on the log. */
  function Allowing(log: Log, key: Key, now: int, limit: int, window: int): (Log, bool) {
    if Admits(log, key, now, limit, window) then (Noted(log, key, now), true) else (log, false)
  }

  /** Accepted calls of a key in the window that ends at `t`. */
  function WindowCount(log: Log, key: Key, t: int, window: int): nat {
    CountIn(Times(log, key), t - window, t)
  }

  ghost predicate WithinLimit(log: Log, limit: nat, window: nat) {
    forall key, t: int :: WindowCount(log, key, t, window) <= limit
  }

  ghost predicate UpTo(log: Log, now: int) {
    forall key, at :: at in Times(log, key) ==> at <= now
  }

  lemma {:induction false} CountWithinLive(times: seq<int>, lo: int, hi: int, now: int, window: int)
    requires lo >= now - window
    ensures CountIn(times, lo, hi) <= |Live(times, now, window)|
  {
    if times != [] {
      CountWithinLive(times[..|times| - 1], lo, hi, now, window);
    }
  }

  /** No window of any key, wherever it ends, ever holds more accepted calls than the limit. */
  lemma AllowingStaysWithinLimit(log: Log, key: Key, now: int, limit: nat, window: nat)
    requires WithinLimit(log, limit, window) && UpTo(log, now)
    ensures var (after, _) := Allowing(log, key, now, limit, window);
            WithinLimit(after, limit, window) && UpTo(after, now)
  {
    var (after, allowed) := Allowing(log, key, now, limit, window);
    if allowed {
      forall other, t: int ensures WindowCount(after, other, t, window) <= limit {
        if other == key {
          AdmittedFits(log, key, now, limit, window, t);
        } else {
          assert WindowCount(log, other, t, window) <= limit;
        }
      }
      NotedIsUpTo(log, key, now);
    }
  }

  /** A call that is admitted overfills no window of its key. */
  lemma AdmittedFits(log: Log, key: Key, now: int, limit: nat, window: nat, t: int)
    requires WithinLimit(log, limit, window) && UpTo(log, now) && Admits(log, key, now, limit, window)
    ensures WindowCount(Noted(log, key, now), key, t, window) <= limit
  {
    assert WindowCount(log, key, t, window) <= limit;
    if t >= now {
      CountWithinLive(Times(log, key), t - window, t, now, window);
    }
  }

  lemma NotedIsUpTo(log: Log, key: Key, now: int)
    requires UpTo(log, now)
    ensures UpTo(Noted(log, key, now), now)
  {
    forall other, at | at in Times(Noted(log, key, now), other) ensures at <= now {
      assert at in Times(log, other) || at == now;
    }
  }

  datatype Call = Call(key: Key, now: int)

  /** The log after any number of calls. */
  function AllowAll(calls: seq<Call>, limit: int, window: int): Log {
    if calls == [] then map[]
    else
      var last := calls[|calls| - 1];
      Allowing(AllowAll(calls[..|calls| - 1], limit, window), last.key, last.now, limit, window).0
  }

  ghost predicate ClockRuns(calls: seq<Call>) {
    forall i, j :: 0 <= i <= j < |calls| ==> calls[i].now <= calls[j].now
  }

  lemma {:induction false} NoWindowExceedsTheLimit(calls: seq<Call>, limit: nat, window: nat)
    requires ClockRuns(calls)
    ensures WithinLimit(AllowAll(calls, limit, window), limit, window)
    ensures calls != [] ==> UpTo(AllowAll(calls, limit, window), calls[|calls| - 1].now)
    decreases |calls|
  {
    if calls == [] {
      assert forall key, t: int :: WindowCount(map[], key, t, window) == 0;
    } else {
      var n := |calls| - 1;
      NoWindowExceedsTheLimit(calls[..n], limit, window);
      var log := AllowAll(calls[..n], limit, window);
      assert UpTo(log, calls[n].now) by {
        if n > 0 {
          assert calls[..n][n - 1] == calls[n - 1];
        }
      }
      AllowingStaysWithinLimit(log, calls[n].key, calls[n].now, limit, window);
    }
  }

  // ---------------------------------------------------------------- which calls are refused

  /** The answers to the calls, in order. */
  function Answers(calls: seq<Call>, limit: int, window: int): (answers: seq<bool>)
    ensures |answers| == |calls|
  {
    if calls == [] then []
    else
      var n := |calls| - 1;
      var log := AllowAll(calls[..n], limit, window);
      Answers(calls[..n], limit, window) + [Allowing(log, calls[n].key, calls[n].now, limit, window).1]
  }

  /** Of the first `k` calls, those of `key` after `lo` and not after `hi` that were allowed. */
  ghost function AllowedIn(calls: seq<Call>, answers: seq<bool>, k: nat, key: Key, lo: int, hi: int): set<nat>
    requires k <= |calls| == |answers|
  {
    set i: nat | i < k && answers[i] && calls[i].key == key && lo < calls[i].now <= hi
  }

  /** Call `k` is allowed if and only if its window holds fewer than `limit` calls of its key allowed before it. */
  ghost predicate RoomAt(calls: seq<Call>, answers: seq<bool>, limit: int, window: int, k: nat)
    requires k < |calls| == |answers|
  {
    var c := calls[k];
    answers[k] <==> |AllowedIn(calls, answers, k, c.key, c.now - window, c.now)| < limit
  }

  lemma AllowedOneMore(calls: seq<Call>, answers: seq<bool>, k: nat, key: Key, lo: int, hi: int)
    requires k < |calls| == |answers|
    ensures |AllowedIn(calls, answers, k + 1, key, lo, hi)| == |AllowedIn(calls, answers, k, key, lo, hi)| +
            if answers[k] && calls[k].key == key && lo < calls[k].now <= hi then 1 else 0
  {
    var before, after := AllowedIn(calls, answers, k, key, lo, hi), AllowedIn(calls, answers, k + 1, key, lo, hi);
    assert after == before || after == before + {k};
    if answers[k] && calls[k].key == key && lo < calls[k].now <= hi {
      assert k in after && k !in before;
    }
  }

  lemma AllowedOfPrefix(calls: seq<Call>, answers: seq<bool>, n: nat, k: nat, key: Key, lo: int, hi: int)
    requires k <= n <= |calls| == |answers|
    ensures AllowedIn(calls[..n], answers[..n], k, key, lo, hi) == AllowedIn(calls, answers, k, key, lo, hi)
  {
  }

  lemma AllowingCounts(log: Log, c: Call, limit: int, window: int, key: Key, lo: int, hi: int)
    ensures var (after, allowed) := Allowing(log, c.key, c.now, limit, window);
            CountIn(Times(after, key), lo, hi) ==
            CountIn(Times(log, key), lo, hi) + if allowed && c.key == key && lo < c.now <= hi then 1 else 0
  {
    assert (Times(log, key) + [c.now])[..|Times(log, key)|] == Times(log, key);
  }

  /** The log counts exactly the calls that were allowed, each once: a refused call leaves no trace. */
  lemma {:induction false} CountsTheAllowed(calls: seq<Call>, limit: int, window: int, key: Key, lo: int, hi: int)
    ensures CountIn(Times(AllowAll(calls, limit, window), key), lo, hi) ==
            |AllowedIn(calls, Answers(calls, limit, window), |calls|, key, lo, hi)|
    decreases |calls|
  {
    var answers := Answers(calls, limit, window);
    if calls == [] {
      assert AllowedIn(calls, answers, 0, key, lo, hi) == {};
    } else {
      var n := |calls| - 1;
      CountsTheAllowed(calls[..n], limit, window, key, lo, hi);
      AllowingCounts(AllowAll(calls[..n], limit, window), calls[n], limit, window, key, lo, hi);
      CountsOneMore(calls, answers, n, key, lo, hi);
      assert answers[..n] == Answers(calls[..n], limit, window);
    }
  }

  lemma CountsOneMore(calls: seq<Call>, answers: seq<bool>, n: nat, key: Key, lo: int, hi: int)
    requires |calls| == |answers| == n + 1
    ensures |AllowedIn(calls, answers, n + 1, key, lo, hi)| ==
            |AllowedIn(calls[..n], answers[..n], n, key, lo, hi)| +
            if answers[n] && calls[n].key == key && lo < calls[n].now <= hi then 1 else 0
  {
    AllowedOfPrefix(calls, answers, n, n, key, lo, hi);
    AllowedOneMore(calls, answers, n, key, lo, hi);
  }

  lemma {:induction false} LiveIsCount(times: seq<int>, now: int, window: int)
    requires forall at :: at in times ==> at <= now
    ensures |Live(times, now, window)| == CountIn(times, now - window, now)
  {
    if times != [] {
      var n := |times| - 1;
      assert forall at :: at in times[..n] ==> at in times;
      assert times[n] in times;
      LiveIsCount(times[..n], now, window);
    }
  }

  lemma {:induction false} LogIsUpTo(calls: seq<Call>, limit: int, window: int, now: int)
    requires ClockRuns(calls) && (calls != [] ==> calls[|calls| - 1].now <= now)
    ensures UpTo(AllowAll(calls, limit, window), now)
    decreases |calls|
  {
    if calls != [] {
      var n := |calls| - 1;
      assert n > 0 ==> calls[n - 1].now <= calls[n].now;
      LogIsUpTo(calls[..n], limit, window, calls[n].now);
      NotedIsUpTo(AllowAll(calls[..n], limit, window), calls[n].key, calls[n].now);
    }
  }

  lemma AllowingIff(log: Log, c: Call, limit: int, window: int)
    requires UpTo(log, c.now)
    ensures Allowing(log, c.key, c.now, limit, window).1 <==> WindowCount(log, c.key, c.now, window) < limit
  {
    LiveIsCount(Times(log, c.key), c.now, window);
  }

  lemma LastAllowedIff(calls: seq<Call>, limit: int, window: int)
    requires ClockRuns(calls) && calls != []
    ensures var log, c := AllowAll(calls[..|calls| - 1], limit, window), calls[|calls| - 1];
            Allowing(log, c.key, c.now, limit, window).1 <==> WindowCount(log, c.key, c.now, window) < limit
  {
    var n := |calls| - 1;
    assert n > 0 ==> calls[n - 1].now <= calls[n].now;
    LogIsUpTo(calls[..n], limit, window, calls[n].now);
    AllowingIff(AllowAll(calls[..n], limit, window), calls[n], limit, window);
  }

  lemma LastCount(calls: seq<Call>, limit: int, window: int, key: Key, lo: int, hi: int)
    requires calls != []
    ensures CountIn(Times(AllowAll(calls[..|calls| - 1], limit, window), key), lo, hi) ==
            |AllowedIn(calls, Answers(calls, limit, window), |calls| - 1, key, lo, hi)|
  {
    var n, answers := |calls| - 1, Answers(calls, limit, window);
    assert answers[..n] == Answers(calls[..n], limit, window);
    CountsTheAllowed(calls[..n], limit, window, key, lo, hi);
    AllowedOfPrefix(calls, answers, n, n, key, lo, hi);
  }

  lemma LastRefusedIffFull(calls: seq<Call>, limit: int, window: int)
    requires ClockRuns(calls) && calls != []
    ensures RoomAt(calls, Answers(calls, limit, window), limit, window, |calls| - 1)
  {
    var c := calls[|calls| - 1];
    LastAllowedIff(calls, limit, window);
    LastCount(calls, limit, window, c.key, c.now - window, c.now);
  }

  lemma RoomOfPrefix(calls: seq<Call>, answers: seq<bool>, limit: int, window: int, n: nat, k: nat)
    requires k < n <= |calls| == |answers| && RoomAt(calls[..n], answers[..n], limit, window, k)
    ensures RoomAt(calls, answers, limit, window, k)
  {
    AllowedOfPrefix(calls, answers, n, k, calls[k].key, calls[k].now - window, calls[k].now);
  }

  /** A call is refused if and only if its window is full. */
  lemma {:induction false} RefusedIffFull(calls: seq<Call>, limit: int, window: int, k: nat)
    requires ClockRuns(calls) && k < |calls|
    ensures RoomAt(calls, Answers(calls, limit, window), limit, window, k)
    decreases |calls|
  {
    var n, answers := |calls| - 1, Answers(calls, limit, window);
    if k < n {
      RefusedIffFull(calls[..n], limit, window, k);
      assert answers[..n] == Answers(calls[..n], limit, window);
      RoomOfPrefix(calls, answers, limit, window, n, k);
    } else {
      LastRefusedIffFull(calls, limit, window);
    }
  }

  /** So the answers are the only ones that refuse exactly at a full window. */
  lemma {:induction false} AnswersAreUnique(calls: seq<Call>, limit: int, window: int, other: seq<bool>, k: nat)
    requires ClockRuns(calls) && |other| == |calls| && k <= |calls|
    requires forall i :: 0 <= i < |calls| ==> RoomAt(calls, other, limit, window, i)
    ensures other[..k] == Answers(calls, limit, window)[..k]
    decreases k
  {
    if k > 0 {
      var c, answers := calls[k - 1], Answers(calls, limit, window);
      AnswersAreUnique(calls, limit, window, other, k - 1);
      RefusedIffFull(calls, limit, window, k - 1);
      assert RoomAt(calls, other, limit, window, k - 1);
      AllowedOfPrefix(calls, other, k - 1, k - 1, c.key, c.now - window, c.now);
      AllowedOfPrefix(calls, answers, k - 1, k - 1, c.key, c.now - window, c.now);
      assert other[..k] == other[..k - 1] + [other[k - 1]];
    }
  }

  // ---------------------------------------------------------------- the swept form

  /** What leaves the window never comes back into it. */
  lemma {:induction false} LiveOfLive(times: seq<int>, now: int, later: int, window: int)
    requires now <= later
    ensures Live(Live(times, now, window), later, window) == Live(times, later, window)
  {
    if times != [] {
      var before, at := times[..|times| - 1], times[|times| - 1];
      LiveOfLive(before, now, later, window);
    }
  }

  lemma RecordAgrees(times: seq<int>, full: seq<int>, now: int, window: int)
    requires Live(times, now, window) == Live(full, now, window)
    ensures Live(Live(times, now, window) + [now], now, window) == Live(full + [now], now, window)
  {
    LiveOfLive(times, now, now, window);
  }

  lemma {:induction false} LiveIsEmptyIff(times: seq<int>, now: int, window: int)
    ensures Live(times, now, window) == [] <==> forall at :: at in times ==> at <= now - window
  {
    if Live(times, now, window) != [] {
      assert Live(times, now, window)[0] in times;
    }
  }

  class RollingLimit {
    const limit: int
    const window: int
    const sweepAbove: nat
    var hits: map<Key, seq<int>>
    var sweptAt: int
    ghost var log: Log
    ghost var last: int

    constructor (limit: int, window: int, sweepAbove: nat, ghost start: int)
      ensures this.limit == limit && this.window == window && this.sweepAbove == sweepAbove
      ensures Valid() && log == map[] && last == start
    {
      this.limit, this.window, this.sweepAbove := limit, window, sweepAbove;
      hits, sweptAt, log, last := map[], 0, map[], start;
    }

    /** The table still knows every time that is inside the window. */
    ghost predicate Valid()
      reads this
    {
      && UpTo(log, last)
      && forall key :: Live(Times(hits, key), last, window) == Live(Times(log, key), last, window)
    }

    lemma LaterIsValid(now: int, key: Key)
      requires Valid() && last <= now
      ensures Live(Times(hits, key), now, window) == Live(Times(log, key), now, window)
    {
      LiveOfLive(Times(hits, key), last, now, window);
      LiveOfLive(Times(log, key), last, now, window);
    }

    /** Drops the keys with nothing left in the window. */
    method Sweep(now: int)
      requires Valid() && last <= now
      modifies this`hits, this`sweptAt, this`last
      ensures Valid() && last == now
    {
      forall key ensures Live(Times(hits, key), now, window) == Live(Times(log, key), now, window) {
        LaterIsValid(now, key);
      }
      sweptAt := now;
      last := now;
      ghost var before := hits;
      var left := hits.Keys;
      while left != {}
        invariant last == now && left <= before.Keys
        invariant forall key :: key in left ==> key in hits && hits[key] == before[key]
        invariant forall key :: Live(Times(hits, key), now, window) == Live(Times(log, key), now, window)
        decreases left
      {
        var other :| other in left;
        left := left - {other};
        if !exists at :: at in hits[other] && at > now - window {
          LiveIsEmptyIff(hits[other], now, window);
          hits := hits - {other};
        }
      }
    }

    method Allowed(key: Key, now: int) returns (ok: bool)
      requires Valid() && last <= now
      modifies this`hits, this`sweptAt, this`last
      ensures Valid() && last == now
      ensures ok == Admits(log, key, now, limit, window)
      ensures ok <==> WindowCount(log, key, now, window) < limit
    {
      LiveIsCount(Times(log, key), now, window);
      if now - sweptAt >= window || (|hits| > sweepAbove && now != sweptAt) {
        Sweep(now);
      }
      LaterIsValid(now, key);
      var live := Live(if key in hits then hits[key] else [], now, window);
      ok := |live| < limit;
      forall other ensures Live(Times(hits, other), now, window) == Live(Times(log, other), now, window) {
        LaterIsValid(now, other);
      }
      last := now;
    }

    method Record(key: Key, now: int)
      requires Valid() && last <= now
      modifies this`hits, this`log, this`last
      ensures Valid() && last == now
      ensures log == Noted(old(log), key, now)
    {
      LaterIsValid(now, key);
      RecordAgrees(Times(hits, key), Times(log, key), now, window);
      forall other | other != key
        ensures Live(Times(hits, other), now, window) == Live(Times(log, other), now, window) {
        LaterIsValid(now, other);
      }
      NotedIsUpTo(log, key, now);
      ghost var before, noted := hits, log;
      hits := hits[key := Live(if key in hits then hits[key] else [], now, window) + [now]];
      log := Noted(log, key, now);
      last := now;
      forall other ensures Live(Times(hits, other), now, window) == Live(Times(log, other), now, window) {
        if other != key {
          assert Times(hits, other) == Times(before, other) && Times(log, other) == Times(noted, other);
        }
      }
    }

    /** Sweeping is never felt: the answer and the calls counted are those of the log nobody sweeps. */
    method Allow(key: Key, now: int) returns (ok: bool)
      requires Valid() && last <= now
      modifies this`hits, this`sweptAt, this`log, this`last
      ensures Valid() && last == now
      ensures (log, ok) == Allowing(old(log), key, now, limit, window)
      ensures ok <==> WindowCount(old(log), key, now, window) < limit
      ensures log == if ok then old(log)[key := Times(old(log), key) + [now]] else old(log)
    {
      ok := Allowed(key, now);
      if ok {
        Record(key, now);
      }
    }
  }
}
