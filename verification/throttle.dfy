/** The login throttle: five consecutive failures lock a username for a minute, and each failure after that
    locks it for another. */
module Throttle {
  import opened Common

  const MAX_FAILURES: nat := 5
  const LOCKOUT: real := 60.0

  /** A failed attempt that got past the lock: when the lock was read, and when the failure was recorded. */
  datatype Pass = Pass(checked: real, recorded: real)

  /** What verifying the credential comes to. */
  datatype Verdict = UnknownUser | WrongPassword | Correct

  // ---- the failures of one username since its last success -----------------------------------

  /** The clock never goes back, and past the fifth failure each pass comes a lockout after the one before. */
  predicate Spaced(ps: seq<Pass>) {
    ps == [] || (Spaced(ps[..|ps| - 1]) && Follows(ps[..|ps| - 1], ps[|ps| - 1]))
  }

  predicate Follows(ps: seq<Pass>, next: Pass) {
    && next.checked <= next.recorded
    && (ps != [] ==> ps[|ps| - 1].recorded <= next.checked)
    && (|ps| >= MAX_FAILURES ==> ps[|ps| - 1].recorded + LOCKOUT <= next.checked)
  }

  /** Locked: five failures or more, the last less than a lockout ago. */
  predicate LockedOut(ps: seq<Pass>, now: real) {
    |ps| >= MAX_FAILURES && now < ps[|ps| - 1].recorded + LOCKOUT
  }

  function CountIn(ps: seq<Pass>, from: real, to: real): nat {
    if ps == [] then 0
    else CountIn(ps[..|ps| - 1], from, to) + if from <= ps[|ps| - 1].checked <= to then 1 else 0
  }

  lemma {:induction false} NoneBefore(ps: seq<Pass>, from: real, to: real)
    requires Spaced(ps) && ps != [] && ps[|ps| - 1].checked < from
    ensures CountIn(ps, from, to) == 0
  {
    if |ps| > 1 {
      NoneBefore(ps[..|ps| - 1], from, to);
    }
  }

  lemma {:induction false} AtMostAll(ps: seq<Pass>, from: real, to: real)
    ensures CountIn(ps, from, to) <= |ps|
  {
    if ps != [] {
      AtMostAll(ps[..|ps| - 1], from, to);
    }
  }

  /** Every pass in an interval beyond the fifth has cost the attacker a whole lockout since its start. */
  lemma {:induction false} EachCostsALockout(ps: seq<Pass>, from: real, to: real)
    requires Spaced(ps) && ps != [] && from <= ps[|ps| - 1].checked <= to
    ensures ps[|ps| - 1].checked - from >= LOCKOUT * (CountIn(ps, from, to) - MAX_FAILURES) as real
  {
    var n := |ps| - 1;
    var front := ps[..n];
    if n < MAX_FAILURES {
      AtMostAll(ps, from, to);
    } else if front[n - 1].checked < from {
      NoneBefore(front, from, to);
    } else {
      EachCostsALockout(front, from, to);
    }
  }

  /** The brake: between two successes, the failed attempts on a username that get past the lock within any
      interval of `t` seconds number at most five plus one for each full minute. */
  lemma {:induction false} AttemptsAreBraked(ps: seq<Pass>, from: real, t: real)
    requires Spaced(ps) && t >= 0.0
    ensures CountIn(ps, from, from + t) <= 5 + (t / 60.0).Floor
    decreases |ps|
  {
    if ps != [] {
      var last := ps[|ps| - 1].checked;
      if from <= last <= from + t {
        EachCostsALockout(ps, from, from + t);
        FullMinutes(CountIn(ps, from, from + t), t);
      } else {
        AttemptsAreBraked(ps[..|ps| - 1], from, t);
      }
    }
  }

  lemma FullMinutes(count: nat, t: real)
    requires t >= 0.0 && t >= LOCKOUT * (count - MAX_FAILURES) as real
    ensures count <= MAX_FAILURES + (t / LOCKOUT).Floor
  {
    assert t / LOCKOUT >= (count - MAX_FAILURES) as real;
  }

  /** Five at once, then one a minute. */
  function Hammering(minutes: nat): (ps: seq<Pass>)
    ensures |ps| == MAX_FAILURES + minutes
    ensures ps[|ps| - 1] == Pass(LOCKOUT * minutes as real, LOCKOUT * minutes as real)
  {
    if minutes == 0 then seq(MAX_FAILURES, _ => Pass(0.0, 0.0))
    else Hammering(minutes - 1) + [Pass(LOCKOUT * minutes as real, LOCKOUT * minutes as real)]
  }

  /** The bound is met: for every `t` some spacing the throttle allows reaches it. */
  lemma {:induction false} BoundIsMet(t: real)
    requires t >= 0.0
    ensures var ps := Hammering((t / LOCKOUT).Floor);
      Spaced(ps) && CountIn(ps, 0.0, t) == 5 + (t / 60.0).Floor
  {
    HammeringCounts((t / LOCKOUT).Floor, t);
  }

  lemma {:induction false} HammeringCounts(minutes: nat, t: real)
    requires LOCKOUT * minutes as real <= t
    ensures Spaced(Hammering(minutes)) && CountIn(Hammering(minutes), 0.0, t) == MAX_FAILURES + minutes
  {
    if minutes == 0 {
      BurstCounts(Hammering(0), t);
    } else {
      HammeringCounts(minutes - 1, t);
      var front, at := Hammering(minutes - 1), LOCKOUT * minutes as real;
      assert (front + [Pass(at, at)])[..|front|] == front;
      assert front[|front| - 1].recorded + LOCKOUT == at;
    }
  }

  lemma {:induction false} BurstCounts(ps: seq<Pass>, t: real)
    requires t >= 0.0 && forall p | p in ps :: p.checked == 0.0
    requires |ps| <= MAX_FAILURES && forall p | p in ps :: p.recorded == 0.0
    ensures CountIn(ps, 0.0, t) == |ps| && Spaced(ps)
  {
    if ps != [] {
      assert ps[|ps| - 1] in ps;
      assert forall p | p in ps[..|ps| - 1] :: p in ps;
      BurstCounts(ps[..|ps| - 1], t);
    }
  }

  /** The lock refuses nothing more than it must: an attempt gets past it exactly when, counted as a failure,
      it keeps the failures so spaced. */
  lemma LockIsExact(ps: seq<Pass>, checked: real, recorded: real)
    requires Spaced(ps) && checked <= recorded && (ps != [] ==> ps[|ps| - 1].recorded <= checked)
    ensures LockedOut(ps, checked) <==> !Spaced(ps + [Pass(checked, recorded)])
  {
    assert (ps + [Pass(checked, recorded)])[..|ps|] == ps;
  }

  // ---- the service ---------------------------------------------------------------------------

  class AuthService {
    var failures: map<string, (nat, real)>      // username -> consecutive failures, locked until
    ghost var passes: map<string, seq<Pass>>    // every failure since the last success
    ghost var clock: real

    constructor (ghost start: real)
      ensures Valid() && clock == start && failures == map[]
    {
      failures, passes, clock := map[], map[], start;
    }

    ghost function Passes(username: string): seq<Pass>
      reads this
    {
      if username in passes then passes[username] else []
    }

    /** The counter and the timestamp are all that is needed of the failures. */
    ghost predicate Kept(username: string)
      reads this
    {
      var ps := Passes(username);
      && Spaced(ps)
      && (ps == [] <==> username !in failures)
      && (ps != [] ==>
            ps[|ps| - 1].recorded <= clock && failures[username] == (|ps|, ps[|ps| - 1].recorded + LOCKOUT))
    }

    ghost predicate Valid()
      reads this
    {
      forall username :: Kept(username)
    }

    /** The brake, as the service keeps it for every username. */
    lemma BrakeHolds(username: string, from: real, t: real)
      requires Valid() && t >= 0.0
      ensures CountIn(Passes(username), from, from + t) <= 5 + (t / 60.0).Floor
    {
      assert Kept(username);
      AttemptsAreBraked(Passes(username), from, t);
    }

    method Locked(username: string, now: real) returns (locked: bool)
      requires Valid()
      ensures locked <==> LockedOut(Passes(username), now)
    {
      assert Kept(username);
      locked := username in failures && failures[username].0 >= MAX_FAILURES && now < failures[username].1;
    }

    method RecordFailure(username: string, now: real, ghost checked: real)
      requires Valid() && clock <= checked <= now && !LockedOut(Passes(username), checked)
      modifies this
      ensures Valid() && clock == now
      ensures Passes(username) == old(Passes(username)) + [Pass(checked, now)]
      ensures forall u | u != username :: Passes(u) == old(Passes(u))
    {
      ghost var ps := Passes(username);
      assert Kept(username);
      LockIsExact(ps, checked, now);
      var count := (if username in failures then failures[username].0 else 0) + 1;
      failures := failures[username := (count, now + LOCKOUT)];
      passes := passes[username := Passes(username) + [Pass(checked, now)]];
      clock := now;
      assert Passes(username) == ps + [Pass(checked, now)] && count == |ps| + 1;
      forall u ensures Kept(u) {
        assert old(Kept(u)) && (u != username ==> Passes(u) == old(Passes(u)));
      }
    }

    /** A locked attempt is refused unseen; a failed one is counted; a correct password clears the count,
        whether or not the merchant is active enough to be given a session. */
    method Login(username: string, verdict: Verdict, active: bool, checked: real, recorded: real) returns (session: bool)
      requires Valid() && clock <= checked <= recorded
      modifies this
      ensures Valid() && clock <= recorded
      ensures forall u | u != username :: Passes(u) == old(Passes(u))
      ensures var before := old(Passes(username));
        if LockedOut(before, checked) then !session && Passes(username) == before
        else if verdict == Correct then session == active && Passes(username) == []
        else !session && Passes(username) == before + [Pass(checked, recorded)]
    {
      var locked := Locked(username, checked);
      if locked {
        return false;
      }
      if verdict != Correct {
        RecordFailure(username, recorded, checked);
        return false;
      }
      assert forall u :: Kept(u);
      failures := failures - {username};
      passes := passes - {username};
      forall u ensures Kept(u) {
        assert old(Kept(u));
      }
      session := active;
    }
  }
}
