/**
  The in-memory rate limiter (src/api/security.py): a queue of grant times per
  key, pruned from the left before each decision.
*/
module SlidingWindow {
  type Key(==, !new, 0)

  predicate Nondecreasing(s: seq<real>) {
    forall i, j :: 0 <= i < j < |s| ==> s[i] <= s[j]
  }

  /** The queue without its leading times that are not after the cutoff. */
  function Prune(times: seq<real>, cutoff: real): seq<real> {
    if times != [] && times[0] <= cutoff then Prune(times[1..], cutoff) else times
  }

  /** The times after the cutoff, wherever they stand. */
  function After(times: seq<real>, cutoff: real): seq<real> {
    if times == [] then []
    else if times[0] > cutoff then [times[0]] + After(times[1..], cutoff)
    else After(times[1..], cutoff)
  }

  datatype Limit = Limit(requests: nat, window: nat)
  {
    predicate Valid() {
      1 <= requests && 1 <= window
    }

    function Cutoff(now: real): real {
      now - window as real
    }
  }

  datatype Decision = Decision(times: seq<real>, allowed: bool, retryAfter: int)

  /** Truncation toward zero. */
  function Truncate(x: real): int {
    if x >= 0.0 then x.Floor else -((-x).Floor)
  }

  function RetryAfter(limit: Limit, oldest: real, now: real): int {
    var wait := Truncate(limit.window as real - (now - oldest));
    if wait > 1 then wait else 1
  }

  function Decide(limit: Limit, times: seq<real>, now: real): Decision
    requires limit.Valid()
  {
    var pruned := Prune(times, limit.Cutoff(now));
    if |pruned| >= limit.requests then Decision(pruned, false, RetryAfter(limit, pruned[0], now))
    else Decision(pruned + [now], true, 0)
  }

  class InMemoryRateLimiter {
    const limit: Limit
    var events: map<Key, seq<real>>

    constructor (limit: Limit)
      requires limit.requests >= 1 && limit.window >= 1
      ensures limit.Valid()
      ensures this.limit == limit && events == map[]
    {
      this.limit := limit;
      events := map[];
    }

    /** The queue of a key. */
    function Queue(key: Key): seq<real>
      reads this
    {
      if key in events then events[key] else []
    }

    method Allow(key: Key, now: real) returns (allowed: bool, retryAfter: int)
      requires limit.Valid()
      modifies this
      ensures Decision(Queue(key), allowed, retryAfter) == Decide(limit, old(Queue(key)), now)
      ensures forall other :: other != key ==> Queue(other) == old(Queue(other))
    {
      var times := Queue(key);
      var cutoff := limit.Cutoff(now);
      while times != [] && times[0] <= cutoff
        invariant Prune(times, cutoff) == Prune(old(Queue(key)), cutoff)
        decreases |times|
      {
        times := times[1..];
      }
      if |times| >= limit.requests {
        events := events[key := times];
        return false, RetryAfter(limit, times[0], now);
      }
      events := events[key := times + [now]];
      return true, 0;
    }
  }

  // ---------- runs of one key ----------

  /** The queue and all grants ever made. */
  datatype Past = Past(times: seq<real>, grants: seq<real>)

  function Run(limit: Limit, calls: seq<real>): Past
    requires limit.Valid()
  {
    if calls == [] then Past([], [])
    else
      var past, now := Run(limit, calls[..|calls| - 1]), calls[|calls| - 1];
      var decision := Decide(limit, past.times, now);
      Past(decision.times, if decision.allowed then past.grants + [now] else past.grants)
  }

  lemma {:induction false} PruneIsAfter(times: seq<real>, cutoff: real)
    requires Nondecreasing(times)
    ensures Prune(times, cutoff) == After(times, cutoff)
    decreases |times|
  {
    if times == [] {
    } else {
      assert Nondecreasing(times[1..]);
      PruneIsAfter(times[1..], cutoff);
      if times[0] > cutoff {
        assert times == [times[0]] + times[1..];
        if |times| > 1 {
          assert times[1..][0] > cutoff;
        }
      }
    }
  }

  /**
    What one call answers and leaves of an ordered queue: the times within the
    window stay, and a request is granted, and its own time added, exactly when
    there are fewer of them than configured.
  */
  lemma AllowOutcome(limit: Limit, times: seq<real>, now: real)
    requires limit.Valid() && Nondecreasing(times)
    ensures var live, decision := After(times, now - limit.window as real), Decide(limit, times, now);
            if |live| < limit.requests then decision == Decision(live + [now], true, 0)
            else
              var seconds := (live[0] + limit.window as real - now).Floor;
              decision == Decision(live, false, if seconds <= 1 then 1 else seconds)
  {
    PruneIsAfter(times, now - limit.window as real);
    PrunedStart(times, now - limit.window as real);
  }

  lemma {:induction false} PrunedStart(times: seq<real>, cutoff: real)
    ensures var live := Prune(times, cutoff); live != [] ==> live[0] > cutoff
    decreases |times|
  {
    if times == [] || times[0] > cutoff {
    } else {
      PrunedStart(times[1..], cutoff);
    }
  }

  lemma {:induction false} PruneTwice(times: seq<real>, cutoff: real, cutoff': real)
    requires cutoff <= cutoff'
    ensures Prune(Prune(times, cutoff), cutoff') == Prune(times, cutoff')
    decreases |times|
  {
    if times == [] || times[0] > cutoff {
    } else {
      PruneTwice(times[1..], cutoff, cutoff');
    }
  }

  lemma {:induction false} PruneAppend(times: seq<real>, cutoff: real, now: real)
    requires now > cutoff
    ensures Prune(times + [now], cutoff) == Prune(times, cutoff) + [now]
    decreases |times|
  {
    if times == [] || times[0] > cutoff {
    } else {
      assert (times + [now])[1..] == times[1..] + [now];
      PruneAppend(times[1..], cutoff, now);
    }
  }

  /** Pruning is a suffix: everything before it is at most the cutoff. */
  lemma {:induction false} PruneSuffix(times: seq<real>, cutoff: real)
    ensures var k := |times| - |Prune(times, cutoff)|;
            && 0 <= k <= |times| && Prune(times, cutoff) == times[k..]
            && (forall i :: 0 <= i < k ==> times[i] <= cutoff)
            && (k < |times| ==> times[k] > cutoff)
    decreases |times|
  {
    if times == [] || times[0] > cutoff {
    } else {
      PruneSuffix(times[1..], cutoff);
      var k := |times| - |Prune(times, cutoff)|;
      forall i | 0 <= i < k ensures times[i] <= cutoff {
        if i > 0 {
          assert times[i] == times[1..][i - 1];
        }
      }
    }
  }

  /** Every grant is a window after the grant `requests` places before it. */
  ghost predicate Spaced(limit: Limit, grants: seq<real>) {
    forall i :: 0 <= i && i + limit.requests < |grants| ==>
      grants[i] + limit.window as real <= grants[i + limit.requests]
  }

  ghost predicate Kept(limit: Limit, calls: seq<real>, past: Past) {
    && Nondecreasing(past.grants)
    && Spaced(limit, past.grants)
    && |past.times| <= limit.requests
    && (calls == [] ==> past == Past([], []))
    && (calls != [] ==>
          var now := calls[|calls| - 1];
          && past.times == Prune(past.grants, limit.Cutoff(now))
          && (forall i :: 0 <= i < |past.grants| ==> past.grants[i] <= now))
  }

  lemma GrantSpaced(limit: Limit, grants: seq<real>, now: real)
    requires limit.Valid() && Spaced(limit, grants)
    requires |Prune(grants, limit.Cutoff(now))| < limit.requests
    ensures Spaced(limit, grants + [now])
  {
    PruneSuffix(grants, limit.Cutoff(now));
  }

  lemma {:induction false} RunKept(limit: Limit, calls: seq<real>)
    requires limit.Valid() && Nondecreasing(calls)
    ensures Kept(limit, calls, Run(limit, calls))
    decreases |calls|
  {
    if calls == [] {
    } else {
      var n := |calls| - 1;
      var past, now := Run(limit, calls[..n]), calls[n];
      RunKept(limit, calls[..n]);
      PrunedAgain(limit, calls, past);
      if Decide(limit, past.times, now).allowed {
        GrantSpaced(limit, past.grants, now);
        PruneAppend(past.grants, limit.Cutoff(now), now);
      }
    }
  }

  lemma PrunedAgain(limit: Limit, calls: seq<real>, past: Past)
    requires limit.Valid() && calls != [] && Nondecreasing(calls) && Kept(limit, calls[..|calls| - 1], past)
    ensures var now := calls[|calls| - 1];
            && Prune(past.times, limit.Cutoff(now)) == Prune(past.grants, limit.Cutoff(now))
            && |Prune(past.times, limit.Cutoff(now))| <= limit.requests
            && forall i :: 0 <= i < |past.grants| ==> past.grants[i] <= now
  {
    var n := |calls| - 1;
    PruneSuffix(past.times, limit.Cutoff(calls[n]));
    if n > 0 {
      PruneTwice(past.grants, limit.Cutoff(calls[n - 1]), limit.Cutoff(calls[n]));
      assert calls[n - 1] <= calls[n];
    }
  }

  /**
    On a clock that does not run backwards the pruned queue decides exactly as
    a limiter that filters the whole history of grants.
  */
  lemma DecidesByHistory(limit: Limit, calls: seq<real>, now: real)
    requires limit.Valid() && Nondecreasing(calls + [now])
    ensures var past := Run(limit, calls);
            Decide(limit, past.times, now).allowed <==> |After(past.grants, limit.Cutoff(now))| < limit.requests
  {
    var past := Run(limit, calls);
    assert (calls + [now])[..|calls|] == calls;
    forall i, j | 0 <= i < j < |calls| ensures calls[i] <= calls[j] {
      assert (calls + [now])[i] <= (calls + [now])[j];
    }
    RunKept(limit, calls);
    PrunedAgain(limit, calls + [now], past);
    PruneIsAfter(past.grants, limit.Cutoff(now));
  }

  /** The grants in the window (t - W, t], by position. */
  function InWindow(limit: Limit, grants: seq<real>, t: real): set<int> {
    set i | 0 <= i < |grants| && limit.Cutoff(t) < grants[i] <= t
  }

  function Interval(a: int, n: nat): (r: set<int>)
    ensures |r| == n && forall i :: i in r <==> a <= i < a + n
  {
    if n == 0 then {} else Interval(a, n - 1) + {a + n - 1}
  }

  lemma SubsetSize(s: set<int>, r: set<int>)
    requires s <= r
    ensures |s| <= |r|
  {
    assert r == s + (r - s);
  }

  /** Any window of the configured length, aligned or not, holds at most the configured grants. */
  lemma WindowHolds(limit: Limit, calls: seq<real>, t: real)
    requires limit.Valid() && Nondecreasing(calls)
    ensures |InWindow(limit, Run(limit, calls).grants, t)| <= limit.requests
  {
    RunKept(limit, calls);
    var grants := Run(limit, calls).grants;
    PruneSuffix(grants, limit.Cutoff(t));
    var a := |grants| - |Prune(grants, limit.Cutoff(t))|;
    if a + limit.requests < |grants| {
      assert grants[a] + limit.window as real <= grants[a + limit.requests];
    }
    forall i | i in InWindow(limit, grants, t) ensures i in Interval(a, limit.requests) {
    }
    SubsetSize(InWindow(limit, grants, t), Interval(a, limit.requests));
  }

  /** When the truncated wait covers what is missing. */
  lemma TruncatedWait(missing: real)
    requires missing > 0.0
    ensures var wait := if Truncate(missing) > 1 then Truncate(missing) else 1;
            missing <= wait as real <==> missing <= 1.0 || missing == missing.Floor as real
  {
  }

  /** A full queue lets a caller in exactly when its oldest grant has left the window. */
  lemma FullQueue(limit: Limit, times: seq<real>, later: real)
    requires limit.Valid() && |times| == limit.requests
    ensures Decide(limit, times, later).allowed <==> times[0] <= limit.Cutoff(later)
  {
    PruneSuffix(times, limit.Cutoff(later));
  }

  /** A refused caller finds a full queue whose oldest grant is inside the window. */
  lemma RefusedQueue(limit: Limit, calls: seq<real>, now: real)
    requires limit.Valid() && Nondecreasing(calls + [now])
    requires !Decide(limit, Run(limit, calls).times, now).allowed
    ensures var times := Decide(limit, Run(limit, calls).times, now).times;
            |times| == limit.requests && times[0] > limit.Cutoff(now)
  {
    var past := Run(limit, calls);
    assert (calls + [now])[..|calls|] == calls;
    forall i, j | 0 <= i < j < |calls| ensures calls[i] <= calls[j] {
      assert (calls + [now])[i] <= (calls + [now])[j];
    }
    RunKept(limit, calls);
    PrunedAgain(limit, calls + [now], past);
    PruneSuffix(past.times, limit.Cutoff(now));
  }

  /**
    The retry hint is truncated: coming back after exactly that many seconds is
    enough if and only if at most one second was missing, or a whole number.
  */
  lemma RetrySuffices(limit: Limit, calls: seq<real>, now: real)
    requires limit.Valid() && Nondecreasing(calls + [now])
    requires !Decide(limit, Run(limit, calls).times, now).allowed
    ensures var decision := Decide(limit, Run(limit, calls).times, now);
            && |decision.times| == limit.requests
            && var missing := decision.times[0] - limit.Cutoff(now);
               Decide(limit, decision.times, now + decision.retryAfter as real).allowed
               <==> missing <= 1.0 || missing == missing.Floor as real
  {
    var decision := Decide(limit, Run(limit, calls).times, now);
    RefusedQueue(limit, calls, now);
    FullQueue(limit, decision.times, now + decision.retryAfter as real);
    TruncatedWait(decision.times[0] - limit.Cutoff(now));
  }

  /**
    The truncated hint can be too short: with one request in two seconds, a
    caller refused half a second after a grant is told to wait one second and is
    refused again when it does.
  */
  lemma HintTooShort()
    ensures var limit, past := Limit(1, 2), Run(Limit(1, 2), [0.0]);
            && Decide(limit, past.times, 0.5) == Decision([0.0], false, 1)
            && !Decide(limit, [0.0], 1.5).allowed
  {
    var limit := Limit(1, 2);
    assert [0.0][..0] == [];
    assert Run(limit, []) == Past([], []);
    assert Run(limit, [0.0]).times == [0.0];
    assert RetryAfter(limit, 0.0, 0.5) == 1;
  }
}
