/** The rolling failure window of one login and its temporary lock. */
module LoginGuard {
  /** Seconds; zero is the zero time. */
  type Time = nat

  const LOCK_FAILURES: nat := 5
  const LOCK_DURATION: nat := 15 * 60

  /** The failures later than `after`, in their order. */
  function Recent(failures: seq<Time>, after: int): (r: seq<Time>)
    ensures |r| <= |failures|
  {
    if failures == [] then [] else
      var front, last := Recent(failures[..|failures| - 1], after), failures[|failures| - 1];
      if last > after then front + [last] else front
  }

  class LoginGuard {
    var buffer: array<Time>
    var count: nat
    var lockedUntil: Time

    ghost predicate Valid()
      reads this
    {
      count <= buffer.Length
    }

    function Failures(): seq<Time>
      requires Valid()
      reads this, buffer
    {
      buffer[..count]
    }

    constructor ()
      ensures Valid() && fresh(buffer) && Failures() == [] && lockedUntil == 0
    {
      buffer, count, lockedUntil := new Time[0], 0, 0;
    }

    /** The end of a lock is exclusive. */
    predicate Locked(now: Time)
      reads this
    {
      now < lockedUntil
    }

    /** Keeps recent failures by moving them to the front of their own buffer. */
    method KeepRecent(after: int)
      requires Valid()
      modifies this`count, buffer
      ensures Valid() && Failures() == Recent(old(Failures()), after)
    {
      ghost var was := Failures();
      var kept := 0;
      for i := 0 to count
        invariant kept <= i <= count == |was|
        invariant buffer[..kept] == Recent(was[..i], after)
        invariant forall j :: i <= j < count ==> buffer[j] == was[j]
      {
        assert was[..i + 1][..i] == was[..i];
        if buffer[i] > after {
          buffer[kept] := buffer[i];
          kept := kept + 1;
        }
      }
      assert was[..count] == was;
      count := kept;
    }

    method Append(t: Time)
      requires Valid()
      modifies this, buffer
      ensures Valid() && Failures() == old(Failures()) + [t] && lockedUntil == old(lockedUntil)
      ensures buffer == old(buffer) || fresh(buffer)
    {
      if count == buffer.Length {
        var larger := new Time[2 * count + 1];
        forall i | 0 <= i < count {
          larger[i] := buffer[i];
        }
        buffer := larger;
      }
      buffer[count] := t;
      count := count + 1;
    }

    /** Records one failure, unless the login is locked. */
    method Fail(now: Time)
      requires Valid()
      modifies this, buffer
      ensures Valid() && Guard(Failures(), lockedUntil) == AfterFailure(Guard(old(Failures()), old(lockedUntil)), now)
    {
      if Locked(now) {
        return;
      }
      if lockedUntil != 0 {
        count := 0;
        lockedUntil := 0;
      }
      KeepRecent(now - LOCK_DURATION);
      Append(now);
      if count >= LOCK_FAILURES {
        lockedUntil := now + LOCK_DURATION;
      }
    }
  }

  // Runs.

  datatype Guard = Guard(failures: seq<Time>, lockedUntil: Time)

  function AfterFailure(g: Guard, now: Time): Guard {
    if now < g.lockedUntil then g else
      var failures := Recent(if g.lockedUntil == 0 then g.failures else [], now - LOCK_DURATION) + [now];
      Guard(failures, if |failures| >= LOCK_FAILURES then now + LOCK_DURATION else 0)
  }

  predicate Sorted(ts: seq<Time>) {
    forall i, j :: 0 <= i < j < |ts| ==> ts[i] <= ts[j]
  }

  /** The guard and every failure it ever recorded, after attempts at the given times. */
  function Run(ts: seq<Time>): (Guard, seq<Time>) {
    if ts == [] then (Guard([], 0), []) else
      var (g, recorded) := Run(ts[..|ts| - 1]);
      var now := ts[|ts| - 1];
      (AfterFailure(g, now), if now < g.lockedUntil then recorded else recorded + [now])
  }

  /** What the guard knows: of all it recorded, exactly the failures of the window that ended with the last one. */
  ghost predicate Knows(g: Guard, recorded: seq<Time>) {
    && Sorted(recorded)
    && (recorded == [] ==> g == Guard([], 0))
    && (recorded != [] ==>
          var last := recorded[|recorded| - 1];
          && g.failures == Recent(recorded, last - LOCK_DURATION)
          && 1 <= |g.failures| <= LOCK_FAILURES
          && g.lockedUntil == if |g.failures| == LOCK_FAILURES then last + LOCK_DURATION else 0)
  }

  /** No half-open window of the lock duration holds more failures than it takes to lock. */
  ghost predicate Limited(recorded: seq<Time>) {
    forall i :: 0 <= i && i + LOCK_FAILURES < |recorded| ==> recorded[i] + LOCK_DURATION <= recorded[i + LOCK_FAILURES]
  }

  // The filter.

  /** Forgetting old failures twice is forgetting them once. */
  lemma {:induction false} RecentTwice(s: seq<Time>, a: int, b: int)
    requires a <= b
    ensures Recent(Recent(s, a), b) == Recent(s, b)
  {
    if s != [] {
      var front, last := s[..|s| - 1], s[|s| - 1];
      RecentTwice(front, a, b);
      if last > a {
        assert (Recent(front, a) + [last])[..|Recent(front, a)|] == Recent(front, a);
      }
    }
  }

  lemma {:induction false} RecentNone(s: seq<Time>, after: int)
    requires forall i :: 0 <= i < |s| ==> s[i] <= after
    ensures Recent(s, after) == []
  {
    if s != [] {
      RecentNone(s[..|s| - 1], after);
    }
  }

  lemma RecentAppend(s: seq<Time>, t: Time, after: int)
    requires t > after
    ensures Recent(s + [t], after) == Recent(s, after) + [t]
  {
    assert (s + [t])[..|s|] == s;
  }

  /** In a sorted record whatever is not kept comes first. */
  lemma {:induction false} RecentIsSuffix(s: seq<Time>, after: int)
    requires Sorted(s)
    ensures Recent(s, after) == s[|s| - |Recent(s, after)|..]
    ensures forall i :: 0 <= i < |s| - |Recent(s, after)| ==> s[i] <= after
    ensures forall i :: |s| - |Recent(s, after)| <= i < |s| ==> s[i] > after
  {
    if s != [] {
      var front, last := s[..|s| - 1], s[|s| - 1];
      RecentIsSuffix(front, after);
      if last > after {
        assert s == front + [last];
      } else {
        RecentNone(front, after);
      }
    }
  }

  /** Whether by filtering or by the reset after a lock, exactly the failures outside the window are forgotten. */
  lemma ForgetsOutside(g: Guard, recorded: seq<Time>, now: Time)
    requires Knows(g, recorded) && now >= g.lockedUntil && Last(recorded) <= now
    ensures var after := now - LOCK_DURATION;
            && Recent(if g.lockedUntil == 0 then g.failures else [], after) == Recent(recorded, after)
            && |Recent(recorded, after)| < LOCK_FAILURES
  {
    var after := now - LOCK_DURATION;
    assert Recent([], after) == [];
    hide Recent;
    if recorded != [] {
      if g.lockedUntil == 0 {
        hide Sorted;
        RecentTwice(recorded, Last(recorded) - LOCK_DURATION, after);
      } else {
        RecentNone(recorded, after);
      }
    }
  }

  lemma SortedAppend(recorded: seq<Time>, now: Time)
    requires Sorted(recorded) && Last(recorded) <= now
    ensures Sorted(recorded + [now])
  {
  }

  lemma NextFailure(g: Guard, recorded: seq<Time>, now: Time)
    requires Knows(g, recorded) && now >= g.lockedUntil && Last(recorded) <= now
    ensures Knows(AfterFailure(g, now), recorded + [now])
  {
    ForgetsOutside(g, recorded, now);
    SortedAppend(recorded, now);
    RecentAppend(recorded, now, now - LOCK_DURATION);
    hide Recent, Sorted;
  }

  lemma StillLimited(recorded: seq<Time>, now: Time)
    requires Sorted(recorded + [now]) && Limited(recorded)
    requires |Recent(recorded + [now], now - LOCK_DURATION)| <= LOCK_FAILURES
    ensures Limited(recorded + [now])
  {
    var all := recorded + [now];
    RecentIsSuffix(all, now - LOCK_DURATION);
    forall i | 0 <= i && i + LOCK_FAILURES < |all| ensures all[i] + LOCK_DURATION <= all[i + LOCK_FAILURES] {
      if i + LOCK_FAILURES < |recorded| {
        assert recorded[i] + LOCK_DURATION <= recorded[i + LOCK_FAILURES];
      }
    }
  }

  function Last(recorded: seq<Time>): Time {
    if recorded == [] then 0 else recorded[|recorded| - 1]
  }

  lemma FailureKnown(g: Guard, recorded: seq<Time>, now: Time)
    requires Knows(g, recorded) && Limited(recorded) && now >= g.lockedUntil && Last(recorded) <= now
    ensures Knows(AfterFailure(g, now), recorded + [now]) && Limited(recorded + [now]) && Last(recorded + [now]) == now
  {
    NextFailure(g, recorded, now);
    hide AfterFailure;
    StillLimited(recorded, now);
  }

  /** At non-decreasing times the guard always knows exactly the current window, and windows stay limited. */
  lemma {:induction false} RunKnows(ts: seq<Time>)
    requires Sorted(ts)
    ensures Knows(Run(ts).0, Run(ts).1) && Limited(Run(ts).1) && Last(Run(ts).1) <= Last(ts)
  {
    hide Knows, Limited, AfterFailure;
    if ts == [] {
      NothingKnown();
    } else {
      var front, now := ts[..|ts| - 1], ts[|ts| - 1];
      RunKnows(front);
      var g, recorded := Run(front).0, Run(front).1;
      assert Last(front) <= now;
      if now >= g.lockedUntil {
        FailureKnown(g, recorded, now);
      } else {
        assert AfterFailure(g, now) == g by {
          LockedKeeps(g, now);
        }
      }
    }
  }

  lemma NothingKnown()
    ensures Knows(Guard([], 0), []) && Limited([])
  {
  }

  lemma LockedKeeps(g: Guard, now: Time)
    requires now < g.lockedUntil
    ensures AfterFailure(g, now) == g
  {
  }

  /** How many recorded failures fall into the half-open window that starts at `from`. */
  function InWindow(recorded: seq<Time>, from: Time): nat {
    if recorded == [] then 0 else
      InWindow(recorded[..|recorded| - 1], from)
      + if from <= recorded[|recorded| - 1] < from + LOCK_DURATION then 1 else 0
  }

  lemma {:induction false} InWindowIs(recorded: seq<Time>, from: Time)
    ensures InWindow(recorded, from) == |Recent(recorded, from - 1)| - |Recent(recorded, from + LOCK_DURATION - 1)|
  {
    if recorded != [] {
      InWindowIs(recorded[..|recorded| - 1], from);
    }
  }

  lemma WindowBound(recorded: seq<Time>, from: Time)
    requires Sorted(recorded) && Limited(recorded)
    ensures InWindow(recorded, from) <= LOCK_FAILURES
  {
    InWindowIs(recorded, from);
    RecentIsSuffix(recorded, from - 1);
    RecentIsSuffix(recorded, from + LOCK_DURATION - 1);
    var first := |recorded| - |Recent(recorded, from - 1)|;
    assert first + LOCK_FAILURES < |recorded| ==> recorded[first] + LOCK_DURATION <= recorded[first + LOCK_FAILURES];
  }

  /** Over every run: no window of 15 minutes holds more than five recorded failures. */
  lemma AtMostFive(ts: seq<Time>, from: Time)
    requires Sorted(ts)
    ensures InWindow(Run(ts).1, from) <= LOCK_FAILURES
  {
    RunKnows(ts);
    WindowBound(Run(ts).1, from);
  }

  lemma RunAppend(ts: seq<Time>, now: Time)
    ensures Run(ts + [now]).0 == AfterFailure(Run(ts).0, now)
    ensures Run(ts + [now]).1 == if now < Run(ts).0.lockedUntil then Run(ts).1 else Run(ts).1 + [now]
  {
    assert (ts + [now])[..|ts|] == ts;
  }

  /**
    Over every run: a failure that is recorded locks the login exactly when it is the fifth of its window, and
    what the guard has forgotten, by filtering or by the reset after a lock, lies outside that window.
   */
  lemma LocksAtFifth(ts: seq<Time>, now: Time)
    requires Sorted(ts + [now])
    ensures var before, g, all := Run(ts).0, Run(ts + [now]).0, Run(ts + [now]).1;
            if now < before.lockedUntil then g == before && all == Run(ts).1
            else
              && all == Run(ts).1 + [now]
              && g.failures == Recent(all, now - LOCK_DURATION)
              && (g.lockedUntil != 0 <==> |g.failures| == LOCK_FAILURES)
              && (g.lockedUntil != 0 ==> g.lockedUntil == now + LOCK_DURATION)
  {
    hide Run, Recent, Limited, Sorted, AfterFailure;
    RunAppend(ts, now);
    RunKnows(ts + [now]);
    if now < Run(ts).0.lockedUntil {
      LockedKeeps(Run(ts).0, now);
    }
  }
}
