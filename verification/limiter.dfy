/** The sliding-window limiter: pruned deques and an amortised sweep, against the full log of every hit
    ever admitted. */
module Limiter {

  const SWEEP_EVERY: nat := 1024

  datatype Hit = Hit(key: string, at: real)

  /** When a key was admitted, oldest first. */
  function Times(log: seq<Hit>, key: string): seq<real> {
    if log == [] then []
    else
      var last := log[|log| - 1];
      Times(log[..|log| - 1], key) + if last.key == key then [last.at] else []
  }

  lemma TimesAppend(log: seq<Hit>, h: Hit, key: string)
    ensures Times(log + [h], key) == if h.key == key then Times(log, key) + [h.at] else Times(log, key)
  {
    assert (log + [h])[..|log|] == log;
    assert Times(log, key) + [] == Times(log, key);
  }

  /** How many of these times lie in the closed window that ends now. */
  function InWindow(ts: seq<real>, now: real, window: real): nat {
    if ts == [] then 0
    else InWindow(ts[..|ts| - 1], now, window) + if now - ts[|ts| - 1] <= window then 1 else 0
  }

  /** What the sweep keeps: keys with an admitted hit still in the window. */
  function LiveKeys(log: seq<Hit>, now: real, window: real): set<string> {
    set h | h in log && now - h.at <= window :: h.key
  }

  // ---- one key ------------------------------------------------------------------------

  predicate Sorted(ts: seq<real>) {
    forall i, j | 0 <= i < j < |ts| :: ts[i] <= ts[j]
  }

  /** The deque is what is left of the key's log after dropping hits that are out of the window for good. */
  predicate Pruned(kept: seq<real>, all: seq<real>, clock: real, window: real) {
    && |kept| <= |all|
    && kept == all[|all| - |kept|..]
    && (forall i | 0 <= i < |all| - |kept| :: clock - all[i] > window)
    && (forall i | 0 <= i < |all| :: all[i] <= clock)
    && Sorted(all)
  }

  /** Each hit was admitted with fewer than `limit` before it in its window. */
  ghost predicate Paced(ts: seq<real>, limit: nat, window: real) {
    forall i {:trigger ts[..i]} | 0 <= i < |ts| :: InWindow(ts[..i], ts[i], window) < limit
  }

  ghost predicate Tracked(kept: seq<real>, all: seq<real>, clock: real, limit: nat, window: real) {
    Pruned(kept, all, clock, window) && Paced(all, limit, window)
  }

  /** Old hits do not count, and a front that is in the window brings the whole sorted deque with it. */
  lemma {:induction false} PrunedCounts(kept: seq<real>, all: seq<real>, now: real, window: real)
    requires |kept| <= |all| && kept == all[|all| - |kept|..] && Sorted(all)
    requires forall i | 0 <= i < |all| - |kept| :: now - all[i] > window
    requires kept != [] ==> now - kept[0] <= window
    ensures InWindow(all, now, window) == |kept|
    decreases |all|
  {
    if all != [] {
      var n := |all| - 1;
      var front := if kept == [] then [] else kept[..|kept| - 1];
      assert kept != [] ==> kept[|kept| - 1] == all[n] && kept[0] <= all[n];
      assert front == all[..n][n - |front|..];
      PrunedCounts(front, all[..n], now, window);
    }
  }

  /** Time passes: what was out of the window stays out. */
  lemma Aged(kept: seq<real>, all: seq<real>, clock: real, now: real, limit: nat, window: real)
    requires Tracked(kept, all, clock, limit, window) && clock <= now
    ensures Tracked(kept, all, now, limit, window)
  {
  }

  lemma FrontPopped(kept: seq<real>, all: seq<real>, now: real, limit: nat, window: real)
    requires Tracked(kept, all, now, limit, window) && kept != [] && now - kept[0] > window
    ensures Tracked(kept[1..], all, now, limit, window)
  {
  }

  /** A deque whose last hit is old holds nothing but old hits. */
  lemma WholeDropped(kept: seq<real>, all: seq<real>, now: real, limit: nat, window: real)
    requires Tracked(kept, all, now, limit, window) && (kept == [] || now - kept[|kept| - 1] > window)
    ensures Tracked([], all, now, limit, window)
  {
    if kept != [] {
      assert kept[|kept| - 1] == all[|all| - 1];
      assert forall i | 0 <= i < |all| :: all[i] <= all[|all| - 1];
    }
  }

  lemma PacedAppend(all: seq<real>, now: real, limit: nat, window: real)
    requires Paced(all, limit, window) && InWindow(all, now, window) < limit
    ensures Paced(all + [now], limit, window)
  {
    var ts := all + [now];
    forall i {:trigger ts[..i]} | 0 <= i < |ts| ensures InWindow(ts[..i], ts[i], window) < limit {
      if i < |all| {
        assert ts[..i] == all[..i] && ts[i] == all[i];
      } else {
        assert ts[..i] == all;
      }
    }
  }

  lemma PrunedAppend(kept: seq<real>, all: seq<real>, now: real, window: real)
    requires Pruned(kept, all, now, window)
    ensures Pruned(kept + [now], all + [now], now, window)
  {
    var n := |all| - |kept|;
    assert (all + [now])[n..] == all[n..] + [now];
  }

  lemma HitAppended(kept: seq<real>, all: seq<real>, now: real, limit: nat, window: real)
    requires Tracked(kept, all, now, limit, window) && InWindow(all, now, window) < limit
    ensures Tracked(kept + [now], all + [now], now, limit, window)
  {
    PrunedAppend(kept, all, now, window);
    PacedAppend(all, now, limit, window);
  }

  function CountBetween(ts: seq<real>, from: real, to: real): nat {
    if ts == [] then 0
    else CountBetween(ts[..|ts| - 1], from, to) + if from <= ts[|ts| - 1] <= to then 1 else 0
  }

  lemma {:induction false} WindowCovers(ts: seq<real>, from: real, to: real, now: real, window: real)
    requires now - from <= window
    ensures CountBetween(ts, from, to) <= InWindow(ts, now, window)
  {
    if ts != [] {
      WindowCovers(ts[..|ts| - 1], from, to, now, window);
    }
  }

  /** The cap itself: no window, wherever it is laid, holds more than `limit` admitted hits of a key. */
  lemma {:induction false} RateIsCapped(ts: seq<real>, limit: nat, window: real, from: real)
    requires Paced(ts, limit, window)
    ensures CountBetween(ts, from, from + window) <= limit
  {
    if ts != [] {
      var n := |ts| - 1;
      var front := ts[..n];
      forall i {:trigger front[..i]} | 0 <= i < n ensures InWindow(front[..i], front[i], window) < limit {
        assert front[..i] == ts[..i];
      }
      RateIsCapped(front, limit, window, from);
      assert InWindow(front, ts[n], window) < limit;
      if from <= ts[n] <= from + window {
        WindowCovers(front, from, from + window, ts[n], window);
      }
    }
  }

  /** What a key's deque holds, empty if it has none. */
  function Deque(hits: map<string, seq<real>>, key: string): seq<real> {
    if key in hits then hits[key] else []
  }

  /** What admitting one hit does to each key's deque and log. */
  lemma OneMoreHit(
    hits: map<string, seq<real>>, log: seq<Hit>, key: string, now: real, limit: nat, window: real, k: string)
    requires key in hits && Tracked(Deque(hits, k), Times(log, k), now, limit, window)
    requires InWindow(Times(log, key), now, window) < limit
    ensures Tracked(Deque(hits[key := hits[key] + [now]], k), Times(log + [Hit(key, now)], k), now, limit, window)
  {
    TimesAppend(log, Hit(key, now), k);
    var next := hits[key := hits[key] + [now]];
    if k == key {
      HitAppended(hits[key], Times(log, key), now, limit, window);
      assert Deque(next, k) == hits[key] + [now];
    } else {
      assert Deque(next, k) == Deque(hits, k);
    }
  }

  // ---- the limiter ----------------------------------------------------------------------

  class SlidingWindowLimiter {
    const limit: nat
    const window: real
    var hits: map<string, seq<real>>
    var opsSinceSweep: nat
    ghost var log: seq<Hit>   // every hit ever admitted
    ghost var clock: real     // the last reading of the monotonic clock
    ghost var sweptLog: nat   // how much of the log there was at the last sweep
    ghost var sweptAt: real   // and when that was

    constructor (limit: nat, window: real, ghost start: real)
      ensures Valid() && this.limit == limit && this.window == window && clock == start && log == [] && hits == map[]
    {
      this.limit, this.window := limit, window;
      hits, opsSinceSweep, log, clock, sweptLog, sweptAt := map[], 0, [], start, 0, start;
    }

    /** Every deque is its key's log, pruned; every log is within the cap. */
    ghost predicate Core()
      reads this
    {
      && (forall k {:trigger Deque(hits, k)} :: Tracked(Deque(hits, k), Times(log, k), clock, limit, window))
      && opsSinceSweep < SWEEP_EVERY
      && sweptLog <= |log|
    }

    /** How many keys were live at the last sweep. */
    ghost function LiveAtSweep(): nat
      reads this
      requires sweptLog <= |log|
    {
      |LiveKeys(log[..sweptLog], sweptAt, window)|
    }

    ghost predicate Valid()
      reads this
    {
      Core() && |hits| <= LiveAtSweep() + opsSinceSweep + 1
    }

    /** The answer is the full-log limiter's answer: forgetting old hits and stale keys never shows. And
        the map never holds more keys than were live at the last sweep plus the sweep period. */
    method Allow(key: string, now: real) returns (ok: bool)
      requires Valid() && clock <= now
      modifies this
      ensures Valid() && clock == now
      ensures ok <==> InWindow(Times(old(log), key), now, window) < limit
      ensures log == if ok then old(log) + [Hit(key, now)] else old(log)
      ensures |hits| <= LiveAtSweep() + 1024
      ensures if old(opsSinceSweep) + 1 == 1024 then sweptLog == |old(log)| && sweptAt == now
              else sweptLog == old(sweptLog) && sweptAt == old(sweptAt)
    {
      SweepIfDue(now);
      Prune(key, now);
      assert Tracked(Deque(hits, key), Times(log, key), clock, limit, window);
      PrunedCounts(hits[key], Times(log, key), now, window);
      if |hits[key]| >= limit {
        return false;
      }
      Admit(key, now);
      ok := true;
    }

    /** Whatever the requests and their times, no window of the limiter's length ever held more admitted hits
        of a key than the limit. */
    lemma CapHolds(key: string, from: real)
      requires Valid()
      ensures CountBetween(Times(log, key), from, from + window) <= limit
    {
      assert Tracked(Deque(hits, key), Times(log, key), clock, limit, window);
      RateIsCapped(Times(log, key), limit, window, from);
    }

    /** Make sure the key has a deque, and pop what has left the window. */
    method Prune(key: string, now: real)
      requires Core() && now == clock && |hits| <= LiveAtSweep() + opsSinceSweep
      modifies `hits
      ensures Core() && |hits| <= LiveAtSweep() + opsSinceSweep + 1
      ensures key in hits && (hits[key] != [] ==> clock - hits[key][0] <= window)
    {
      hits := hits[key := Deque(hits, key)];
      assert forall k :: Deque(hits, k) == Deque(old(hits), k);
      while hits[key] != [] && now - hits[key][0] > window
        invariant Core() && key in hits && |hits| <= LiveAtSweep() + opsSinceSweep + 1
        decreases |hits[key]|
      {
        assert hits[key] == Deque(hits, key);
        FrontPopped(hits[key], Times(log, key), clock, limit, window);
        label Popping:
        hits := hits[key := hits[key][1..]];
        assert forall k :: Deque(hits, k) == if k == key then old@Popping(hits[key])[1..] else Deque(old@Popping(hits), k);
      }
    }

    /** One more hit. */
    method Admit(key: string, now: real)
      requires Valid() && now == clock && key in hits && InWindow(Times(log, key), clock, window) < limit
      modifies `hits, `log
      ensures Valid() && log == old(log) + [Hit(key, clock)]
      ensures LiveAtSweep() == old(LiveAtSweep())
    {
      forall k
        ensures Tracked(Deque(hits[key := hits[key] + [now]], k), Times(log + [Hit(key, now)], k), clock, limit, window)
      {
        OneMoreHit(hits, log, key, now, limit, window, k);
      }
      hits := hits[key := hits[key] + [now]];
      log := log + [Hit(key, now)];
      assert log[..sweptLog] == old(log)[..sweptLog];
    }

    /** Every so many calls, drop each key whose last hit is out of the window: what stays is exactly the
        keys that are live. */
    method SweepIfDue(now: real)
      requires Valid() && clock <= now
      modifies this
      ensures Core() && clock == now && log == old(log)
      ensures |hits| <= LiveAtSweep() + opsSinceSweep
      ensures if old(opsSinceSweep) + 1 == 1024
              then sweptLog == |log| && sweptAt == now && hits.Keys == LiveKeys(log, now, window)
              else sweptLog == old(sweptLog) && sweptAt == old(sweptAt) && hits == old(hits)
    {
      TimePasses(now);
      opsSinceSweep := opsSinceSweep + 1;
      if opsSinceSweep < SWEEP_EVERY {
        return;
      }
      opsSinceSweep := 0;
      DropStale(now);
      sweptLog, sweptAt := |log|, now;
      assert log[..sweptLog] == log;
    }

    ghost method TimePasses(now: real)
      requires Core() && clock <= now
      modifies `clock
      ensures Core() && clock == now
    {
      forall k ensures Tracked(Deque(hits, k), Times(log, k), now, limit, window) {
        Aged(Deque(hits, k), Times(log, k), clock, now, limit, window);
      }
      clock := now;
    }

    method DropStale(now: real)
      requires Core() && now == clock
      modifies `hits
      ensures Core() && hits.Keys == LiveKeys(log, clock, window)
    {
      var stale := set k | k in hits && (hits[k] == [] || now - hits[k][|hits[k]| - 1] > window);
      forall k
        ensures k in hits && k !in stale <==> k in LiveKeys(log, clock, window)
        ensures Tracked(if k in stale then [] else Deque(hits, k), Times(log, k), clock, limit, window)
      {
        StaleIffDead(k, Deque(hits, k), log, clock, window);
        if k in stale {
          WholeDropped(Deque(hits, k), Times(log, k), clock, limit, window);
        }
      }
      hits := hits - stale;
      assert forall k :: Deque(hits, k) == if k in stale then [] else Deque(old(hits), k);
    }
  }

  lemma {:induction false} TimesAreHits(log: seq<Hit>, key: string, at: real)
    ensures at in Times(log, key) <==> Hit(key, at) in log
  {
    if log != [] {
      TimesAreHits(log[..|log| - 1], key, at);
      assert log == log[..|log| - 1] + [log[|log| - 1]];
    }
  }

  lemma LastOfPruned(kept: seq<real>, all: seq<real>, now: real, window: real)
    requires Pruned(kept, all, now, window) && kept != []
    ensures all != [] && kept[|kept| - 1] == all[|all| - 1]
  {
  }

  /** A hit in the window is never dropped, so the last of the deque is at least as recent. */
  lemma RecentIsKept(kept: seq<real>, all: seq<real>, now: real, window: real, i: nat)
    requires Pruned(kept, all, now, window) && i < |all| && now - all[i] <= window
    ensures kept != [] && now - kept[|kept| - 1] <= window
  {
    assert i >= |all| - |kept|;
    LastOfPruned(kept, all, now, window);
    assert all[i] <= all[|all| - 1];
  }

  lemma StaleIffDead(key: string, kept: seq<real>, log: seq<Hit>, now: real, window: real)
    requires Pruned(kept, Times(log, key), now, window)
    ensures key in LiveKeys(log, now, window) <==> kept != [] && now - kept[|kept| - 1] <= window
  {
    var all := Times(log, key);
    if kept != [] && now - kept[|kept| - 1] <= window {
      LastOfPruned(kept, all, now, window);
      TimesAreHits(log, key, all[|all| - 1]);
    }
    if key in LiveKeys(log, now, window) {
      var h :| h in log && now - h.at <= window && h.key == key;
      TimesAreHits(log, key, h.at);
      var i :| 0 <= i < |all| && all[i] == h.at;
      RecentIsKept(kept, all, now, window, i);
    }
  }
}
