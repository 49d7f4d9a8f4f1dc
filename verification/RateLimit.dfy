/** The strict sliding-window limiter (proxy/core/rate_limit.py).  Time is a
    real number; the body under the lock is one atomic attempt. */
module RateLimit {
  import opened Common

  datatype Config = Config(limit: nat, window: real)

  predicate ValidConfig(c: Config) {
    c.limit > 0 && c.window > 0.0
  }

  // --- attempts, as functions --------------------------------------------------------------------

  /** The times that have not left the window at `cutoff`. */
  function Expire(times: seq<real>, cutoff: real): seq<real> {
    if times != [] && times[0] <= cutoff then Expire(times[1..], cutoff) else times
  }

  datatype Attempt = Acquired | MustWait(time: real)

  function Try(c: Config, times: seq<real>, now: real): (seq<real>, Attempt)
    requires ValidConfig(c)
  {
    var kept := Expire(times, now - c.window);
    if |kept| < c.limit then (kept + [now], Acquired)
    else (kept, MustWait(if kept[0] + c.window - now > 0.0 then kept[0] + c.window - now else 0.0))
  }

  /** The deque after attempts by any callers at the times `calls`, in order. */
  function Times(c: Config, calls: seq<real>): seq<real>
    requires ValidConfig(c)
  {
    if calls == [] then [] else Try(c, Times(c, calls[..|calls| - 1]), calls[|calls| - 1]).0
  }

  /** When those attempts acquired. */
  function Log(c: Config, calls: seq<real>): seq<real>
    requires ValidConfig(c)
  {
    if calls == [] then []
    else
      var before, now := calls[..|calls| - 1], calls[|calls| - 1];
      if Try(c, Times(c, before), now).1.Acquired? then Log(c, before) + [now] else Log(c, before)
  }

  predicate Sorted(times: seq<real>) {
    forall i, k | 0 <= i < k < |times| :: times[i] <= times[k]
  }

  // --- what the deque holds ----------------------------------------------------------------------------

  lemma {:induction false} ExpireIsSuffix(times: seq<real>, cutoff: real) returns (n: nat)
    requires Sorted(times)
    ensures n <= |times| && Expire(times, cutoff) == times[n..]
    ensures forall i | 0 <= i < n :: times[i] <= cutoff
    ensures forall i | n <= i < |times| :: cutoff < times[i]
  {
    if times != [] && times[0] <= cutoff {
      n := ExpireIsSuffix(times[1..], cutoff);
      assert times[1..][n..] == times[n + 1..];
      assert forall i | 1 <= i < |times| :: times[i] == times[1..][i - 1];
      n := n + 1;
    } else {
      n := 0;
    }
  }

  /** The deque is the end of the log; all before it has left the window. */
  ghost predicate Reflects(c: Config, times: seq<real>, log: seq<real>, now: real) {
    && |times| <= |log| && |times| <= c.limit
    && times == log[|log| - |times|..]
    && Sorted(log)
    && (forall i | 0 <= i < |log| :: log[i] <= now)
    && (forall i | 0 <= i < |log| - |times| :: log[i] <= now - c.window)
  }

  /** Acquisitions `limit` apart are at least a window apart. */
  ghost predicate Spaced(c: Config, log: seq<real>) {
    forall i | 0 <= i < |log| - c.limit :: log[i] + c.window <= log[i + c.limit]
  }

  lemma ExpireKeeps(c: Config, times: seq<real>, log: seq<real>, earlier: real, now: real)
    requires ValidConfig(c) && Reflects(c, times, log, earlier) && earlier <= now
    ensures Reflects(c, Expire(times, now - c.window), log, now)
  {
    var gone := |log| - |times|;
    assert forall i | 0 <= i < |times| :: times[i] == log[gone + i];
    var n := ExpireIsSuffix(times, now - c.window);
    assert times[n..] == log[gone + n..];
    forall i | 0 <= i < gone + n
      ensures log[i] <= now - c.window
    {
      if i >= gone {
        assert log[i] == times[i - gone];
      }
    }
  }

  lemma AppendKeeps(c: Config, kept: seq<real>, log: seq<real>, now: real)
    requires ValidConfig(c) && Reflects(c, kept, log, now) && |kept| < c.limit
    ensures Reflects(c, kept + [now], log + [now], now)
  {
    var gone := |log| - |kept|;
    assert kept + [now] == (log + [now])[gone..];
  }

  /** A new acquisition finds the one `limit` before it expired. */
  lemma AppendSpaced(c: Config, kept: seq<real>, log: seq<real>, now: real)
    requires ValidConfig(c) && Reflects(c, kept, log, now) && |kept| < c.limit && Spaced(c, log)
    ensures Spaced(c, log + [now])
  {
    var longer := log + [now];
    forall i | 0 <= i < |longer| - c.limit
      ensures longer[i] + c.window <= longer[i + c.limit]
    {
      if i + c.limit == |log| {
        assert i < |log| - |kept|;
      }
    }
  }

  lemma TryKeeps(c: Config, times: seq<real>, log: seq<real>, earlier: real, now: real)
    requires ValidConfig(c) && Reflects(c, times, log, earlier) && Spaced(c, log) && earlier <= now
    ensures var (next, attempt) := Try(c, times, now); var longer := if attempt.Acquired? then log + [now] else log;
            Reflects(c, next, longer, now) && Spaced(c, longer)
  {
    ExpireKeeps(c, times, log, earlier, now);
    hide Reflects, Spaced, Expire;
    var kept := Expire(times, now - c.window);
    if |kept| < c.limit {
      AppendKeeps(c, kept, log, now);
      AppendSpaced(c, kept, log, now);
    }
  }

  lemma ReflectsLater(c: Config, times: seq<real>, log: seq<real>, earlier: real, now: real)
    requires Reflects(c, times, log, earlier) && earlier <= now
    ensures Reflects(c, times, log, now)
  {
  }

  lemma {:induction false} RunReflects(c: Config, calls: seq<real>, now: real)
    requires ValidConfig(c) && Sorted(calls) && forall i | 0 <= i < |calls| :: calls[i] <= now
    ensures Reflects(c, Times(c, calls), Log(c, calls), now) && Spaced(c, Log(c, calls))
  {
    if calls != [] {
      hide Reflects, Spaced, Try;
      var before, last := calls[..|calls| - 1], calls[|calls| - 1];
      RunReflects(c, before, last);
      TryKeeps(c, Times(c, before), Log(c, before), last, last);
      ReflectsLater(c, Times(c, calls), Log(c, calls), last, now);
    }
  }

  // --- the guarantee ----------------------------------------------------------------------------------------

  /** Acquisition i + limit comes at least a window after acquisition i. */
  lemma AcquisitionsAreSpaced(c: Config, calls: seq<real>, i: nat)
    requires ValidConfig(c) && Sorted(calls) && i + c.limit < |Log(c, calls)|
    ensures Log(c, calls)[i] + c.window <= Log(c, calls)[i + c.limit]
  {
    RunReflects(c, calls, if calls == [] then 0.0 else calls[|calls| - 1]);
  }

  function Within(log: seq<real>, from: real, length: real): set<nat> {
    set i: nat | i < |log| && from <= log[i] < from + length
  }

  /** At most `limit` acquisitions in any half-open interval of the window's length. */
  lemma AtMostLimitInWindow(c: Config, calls: seq<real>, from: real)
    requires ValidConfig(c) && Sorted(calls)
    ensures |Within(Log(c, calls), from, c.window)| <= c.limit
  {
    RunReflects(c, calls, if calls == [] then 0.0 else calls[|calls| - 1]);
    var log := Log(c, calls);
    var inside := Within(log, from, c.window);
    if inside != {} {
      var first := Least(inside);
      var range := Range(first, c.limit);
      forall i | first + c.limit <= i < |log|
        ensures log[first] + c.window <= log[i]
      {
        assert log[first] + c.window <= log[first + c.limit];
      }
      RangeSize(first, c.limit);
      assert inside <= range;
      Fewer(inside, range);
    }
  }

  lemma {:induction false} Least(items: set<nat>) returns (least: nat)
    requires items != {}
    ensures least in items && forall i | i in items :: least <= i
    decreases items
  {
    least := Member(items);
    if items != {least} {
      var rest := Least(items - {least});
      var smaller := if least <= rest then least else rest;
      forall i | i in items
        ensures smaller <= i
      {
        assert i == least || i in items - {least};
      }
      least := smaller;
    }
  }

  function Range(first: nat, size: nat): set<nat> {
    if size == 0 then {} else Range(first, size - 1) + {first + size - 1}
  }

  lemma {:induction false} RangeSize(first: nat, size: nat)
    ensures |Range(first, size)| == size && forall i: nat :: i in Range(first, size) <==> first <= i < first + size
  {
    if size > 0 {
      RangeSize(first, size - 1);
    }
  }

  /** The acquisitions in the last window, now included. */
  function Recent(log: seq<real>, now: real, window: real): set<nat> {
    set i: nat | i < |log| && now - window < log[i] <= now
  }

  lemma RecentFrom(log: seq<real>, now: real, window: real, m: nat)
    requires m <= |log| && forall i | 0 <= i < m :: log[i] <= now - window
    requires forall i | m <= i < |log| :: now - window < log[i] <= now
    ensures |Recent(log, now, window)| == |log| - m
  {
    RangeSize(m, |log| - m);
    assert Recent(log, now, window) == Range(m, |log| - m);
  }

  lemma RecentIsKept(c: Config, times: seq<real>, log: seq<real>, now: real)
    requires ValidConfig(c) && Reflects(c, times, log, now)
    ensures |Recent(log, now, c.window)| == |Expire(times, now - c.window)|
  {
    hide Recent;
    ExpireKeeps(c, times, log, now, now);
    var gone := |log| - |times|;
    assert forall i | 0 <= i < |times| :: times[i] == log[gone + i];
    var n := ExpireIsSuffix(times, now - c.window);
    assert forall i | gone + n <= i < |log| :: log[i] == times[i - gone];
    RecentFrom(log, now, c.window, gone + n);
  }

  lemma TryVerdict(c: Config, times: seq<real>, now: real)
    requires ValidConfig(c) && Sorted(times) && |times| <= c.limit && forall i | 0 <= i < |times| :: times[i] <= now
    ensures var (kept, attempt) := Try(c, times, now);
            && (attempt.MustWait? <==> |Expire(times, now - c.window)| == c.limit)
            && (attempt.MustWait? ==>
                  kept == times && 0.0 < attempt.time <= c.window && attempt.time == times[0] + c.window - now)
  {
    var n := ExpireIsSuffix(times, now - c.window);
    if n == 0 {
      assert times[n..] == times;
    }
  }

  lemma TimesAreSorted(c: Config, times: seq<real>, log: seq<real>, now: real)
    requires Reflects(c, times, log, now)
    ensures Sorted(times) && |times| <= c.limit && forall i | 0 <= i < |times| :: times[i] <= now
  {
    assert forall i | 0 <= i < |times| :: times[i] == log[|log| - |times| + i];
  }

  /** An attempt is put off exactly when `limit` acquisitions lie in the last
      window, and then always for a positive time. */
  lemma WaitsOnlyWhenFull(c: Config, calls: seq<real>, now: real)
    requires ValidConfig(c) && Sorted(calls) && forall i | 0 <= i < |calls| :: calls[i] <= now
    ensures var attempt := Try(c, Times(c, calls), now).1;
            && (attempt.MustWait? <==> |Recent(Log(c, calls), now, c.window)| == c.limit)
            && (attempt.MustWait? ==> 0.0 < attempt.time <= c.window)
  {
    RunReflects(c, calls, now);
    hide Times, Log, Reflects, Expire, Recent, Sorted, Try;
    RecentIsKept(c, Times(c, calls), Log(c, calls), now);
    TimesAreSorted(c, Times(c, calls), Log(c, calls), now);
    TryVerdict(c, Times(c, calls), now);
  }

  lemma WaitVerdict(c: Config, times: seq<real>, now: real, later: real)
    requires ValidConfig(c) && Sorted(times) && |times| <= c.limit && (forall i | 0 <= i < |times| :: times[i] <= now)
             && now <= later
    requires Try(c, times, now).1.MustWait?
    ensures var (kept, attempt) := Try(c, times, now);
            Try(c, kept, later).1.Acquired? <==> now + attempt.time <= later
  {
    TryVerdict(c, times, now);
    var n := ExpireIsSuffix(times, later - c.window);
  }

  /** If nobody else acquires, the time to wait is exactly right: attempts before
      it has passed are put off again, an attempt after it acquires. */
  lemma WaitIsExact(c: Config, calls: seq<real>, now: real, later: real)
    requires ValidConfig(c) && Sorted(calls) && (forall i | 0 <= i < |calls| :: calls[i] <= now) && now <= later
    requires Try(c, Times(c, calls), now).1.MustWait?
    ensures var (times, attempt) := Try(c, Times(c, calls), now);
            Try(c, times, later).1.Acquired? <==> now + attempt.time <= later
  {
    RunReflects(c, calls, now);
    hide Times, Log, Reflects, Expire, Sorted, Try;
    TimesAreSorted(c, Times(c, calls), Log(c, calls), now);
    WaitVerdict(c, Times(c, calls), now, later);
  }

  // --- the limiter as an object ---------------------------------------------------------------------------------

  class StrictSlidingWindowLimiter {
    const config: Config
    var times: seq<real>
    ghost var calls: seq<real>

    ghost predicate Valid()
      reads this
    {
      ValidConfig(config) && Sorted(calls) && times == Times(config, calls)
    }

    /** `rate_limit` and `rate_window` must be positive. */
    constructor (limit: nat, window: real)
      requires ValidConfig(Config(limit, window))
      ensures Valid() && config == Config(limit, window) && calls == []
    {
      config := Config(limit, window);
      times, calls := [], [];
    }

    /** What `acquire` does each time it holds the lock. */
    method TryAcquire(now: real) returns (attempt: Attempt)
      requires Valid() && forall i | 0 <= i < |calls| :: calls[i] <= now
      modifies this
      ensures Valid() && calls == old(calls) + [now]
      ensures attempt == Try(config, old(times), now).1
      ensures Log(config, calls) == Log(config, old(calls)) + if attempt.Acquired? then [now] else []
    {
      var cutoff := now - config.window;
      while times != [] && times[0] <= cutoff
        invariant Expire(times, cutoff) == Expire(old(times), cutoff) && calls == old(calls)
        decreases |times|
      {
        times := times[1..];
      }
      assert (calls + [now])[..|calls|] == calls;
      calls := calls + [now];
      if |times| < config.limit {
        times := times + [now];
        return Acquired;
      }
      var wait := times[0] + config.window - now;
      return MustWait(if wait > 0.0 then wait else 0.0);
    }
  }
}
