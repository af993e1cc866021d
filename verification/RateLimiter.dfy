/** The sliding-window rate limiter. Time is in nanoseconds of a clock that never goes back. */
module RateLimiters {
  import opened Core
  import opened Ledgers

  const SECOND := 1_000_000_000

  type Windows = map<Address, seq<int>>

  /** The timestamps after `since`, in order. */
  function Since(ts: seq<int>, since: int): seq<int> {
    if ts == [] then [] else
      var before, last := Since(ts[..|ts| - 1], since), ts[|ts| - 1];
      if last > since then before + [last] else before
  }

  predicate Allows(w: Windows, maxTps: nat, a: Address, now: int) {
    |Since(Lookup(w, a, []), now - SECOND)| < maxTps
  }

  function AfterCheck(w: Windows, maxTps: nat, a: Address, now: int): Windows {
    var recent := Since(Lookup(w, a, []), now - SECOND);
    w[a := if |recent| < maxTps then recent + [now] else recent]
  }

  function AfterCleanup(w: Windows, now: int): Windows {
    map a | a in w && Since(w[a], now - SECOND) != [] :: Since(w[a], now - SECOND)
  }

  class RateLimiter {
    const maxTps: nat
    var windows: Windows

    constructor (maxTps: nat)
      ensures this.maxTps == maxTps && windows == map[]
    {
      this.maxTps := maxTps;
      windows := map[];
    }

    method Check(a: Address, now: int) returns (allowed: bool)
      modifies this
      ensures allowed <==> Allows(old(windows), maxTps, a, now)
      ensures windows == AfterCheck(old(windows), maxTps, a, now)
    {
      var recent := Retain(Lookup(windows, a, []), now - SECOND);
      windows := windows[a := recent];
      if |recent| >= maxTps {
        return false;
      }
      windows := windows[a := recent + [now]];
      allowed := true;
    }

    method Cleanup(now: int)
      modifies this
      ensures windows == AfterCleanup(old(windows), now)
    {
      var rest, kept := windows, map[];
      while rest != map[]
        invariant forall a :: a in rest ==> a in windows && rest[a] == windows[a] && a !in kept
        invariant forall a :: a in kept ==> a in windows && kept[a] == Since(windows[a], now - SECOND) != []
        invariant forall a :: a in windows && a !in rest && Since(windows[a], now - SECOND) != [] ==> a in kept
        invariant windows == old(windows)
        decreases |rest|
      {
        var a :| a in rest;
        var recent := Retain(rest[a], now - SECOND);
        if recent != [] {
          kept := kept[a := recent];
        }
        rest := rest - {a};
      }
      windows := kept;
    }

    /** `Vec::retain` on a list of timestamps. */
    static method Retain(ts: seq<int>, since: int) returns (kept: seq<int>)
      ensures kept == Since(ts, since)
    {
      kept := [];
      for i := 0 to |ts|
        invariant kept == Since(ts[..i], since)
      {
        assert ts[..i + 1][..i] == ts[..i];
        if ts[i] > since {
          kept := kept + [ts[i]];
        }
      }
      assert ts[..|ts|] == ts;
    }
  }

  // ---- Every run of checks and cleanups --------------------------------------------------------

  datatype Call = Check(a: Address, now: int) | Cleanup(now: int)

  function Run(maxTps: nat, calls: seq<Call>): Windows {
    if calls == [] then map[] else
      var before := Run(maxTps, calls[..|calls| - 1]);
      match calls[|calls| - 1]
      case Check(a, now) => AfterCheck(before, maxTps, a, now)
      case Cleanup(now) => AfterCleanup(before, now)
  }

  /** Whether call `i` of a run is an accepted check. */
  predicate Accepted(maxTps: nat, calls: seq<Call>, i: nat)
    requires i < |calls|
  {
    calls[i].Check? && Allows(Run(maxTps, calls[..i]), maxTps, calls[i].a, calls[i].now)
  }

  /** The times at which `a` was accepted, in order. */
  ghost function Times(maxTps: nat, calls: seq<Call>, a: Address): seq<int> {
    if calls == [] then [] else
      var n := |calls| - 1;
      var before := Times(maxTps, calls[..n], a);
      if Accepted(maxTps, calls, n) && calls[n].a == a then before + [calls[n].now] else before
  }

  /** No call is earlier than the one before it. */
  ghost predicate Monotone(calls: seq<Call>) {
    |calls| <= 1 ||
      var n := |calls| - 1;
      Monotone(calls[..n]) && calls[n - 1].now <= calls[n].now
  }

  lemma {:induction false} SinceSince(ts: seq<int>, s: int, t: int)
    requires s <= t
    ensures Since(Since(ts, s), t) == Since(ts, t)
  {
    if ts != [] {
      var init, last := ts[..|ts| - 1], ts[|ts| - 1];
      SinceSince(init, s, t);
      if last > s {
        SinceSnoc(Since(init, s), last, t);
      }
      assert last <= s ==> Since(ts, s) == Since(init, s);
      assert last <= t ==> Since(ts, t) == Since(init, t);
    }
  }

  lemma SinceSnoc(ts: seq<int>, x: int, t: int)
    ensures Since(ts + [x], t) == if x > t then Since(ts, t) + [x] else Since(ts, t)
  {
    assert (ts + [x])[..|ts|] == ts;
  }

  lemma WindowAfter(w: Windows, maxTps: nat, c: Call, a: Address, since: int)
    requires since >= c.now - SECOND
    ensures var after := match c
                         case Check(b, now) => AfterCheck(w, maxTps, b, now)
                         case Cleanup(now) => AfterCleanup(w, now);
            var recent := Since(Lookup(w, a, []), since);
            Since(Lookup(after, a, []), since)
            == if c.Check? && c.a == a && Allows(w, maxTps, a, c.now) && c.now > since then recent + [c.now] else recent
  {
    var before := Lookup(w, a, []);
    SinceSince(before, c.now - SECOND, since);
    if c.Check? && c.a == a {
      SinceSnoc(Since(before, c.now - SECOND), c.now, since);
    }
  }

  lemma TimesSnoc(maxTps: nat, calls: seq<Call>, c: Call, a: Address)
    ensures Run(maxTps, calls + [c]) == match c
              case Check(b, now) => AfterCheck(Run(maxTps, calls), maxTps, b, now)
              case Cleanup(now) => AfterCleanup(Run(maxTps, calls), now)
    ensures Times(maxTps, calls + [c], a) ==
            if c.Check? && c.a == a && Allows(Run(maxTps, calls), maxTps, a, c.now)
            then Times(maxTps, calls, a) + [c.now]
            else Times(maxTps, calls, a)
  {
    assert (calls + [c])[..|calls|] == calls;
  }

  lemma MonotoneSnoc(calls: seq<Call>, c: Call)
    ensures Monotone(calls + [c]) <==> Monotone(calls) && (calls != [] ==> calls[|calls| - 1].now <= c.now)
  {
    assert (calls + [c])[..|calls|] == calls;
  }

  /** At any later moment, the stored window of an address and the full list of its accepted times
      hold the same recent entries: forgetting old ones, in checks or cleanups, loses nothing. */
  lemma {:induction false} WindowIsRecentTimes(maxTps: nat, calls: seq<Call>, a: Address, since: int)
    requires Monotone(calls) && (calls != [] ==> since >= calls[|calls| - 1].now - SECOND)
    ensures Since(Lookup(Run(maxTps, calls), a, []), since) == Since(Times(maxTps, calls, a), since)
  {
    if calls != [] {
      var init, last := calls[..|calls| - 1], calls[|calls| - 1];
      SplitLast(calls);
      MonotoneSnoc(init, last);
      WindowIsRecentTimes(maxTps, init, a, since);
      TimesSnoc(maxTps, init, last, a);
      WindowAfter(Run(maxTps, init), maxTps, last, a, since);
      SinceSnoc(Times(maxTps, init, a), last.now, since);
    }
  }

  /** A check is refused exactly when the last second already holds max_tps accepted ones. */
  lemma RefusedIffFull(maxTps: nat, calls: seq<Call>, a: Address, now: int)
    requires Monotone(calls + [Check(a, now)])
    ensures Allows(Run(maxTps, calls), maxTps, a, now)
       <==> InWindow(Times(maxTps, calls, a), now - 1_000_000_000) < maxTps
  {
    MonotoneSnoc(calls, Check(a, now));
    WindowIsRecentTimes(maxTps, calls, a, now - SECOND);
    TimesBefore(maxTps, calls, a, now);
    SinceIsWindow(Times(maxTps, calls, a), now);
  }

  lemma {:induction false} TimesBefore(maxTps: nat, calls: seq<Call>, a: Address, now: int)
    requires Monotone(calls) && (calls != [] ==> calls[|calls| - 1].now <= now)
    ensures forall i :: 0 <= i < |Times(maxTps, calls, a)| ==> Times(maxTps, calls, a)[i] <= now
  {
    if calls != [] {
      var init, last := calls[..|calls| - 1], calls[|calls| - 1];
      SplitLast(calls);
      MonotoneSnoc(init, last);
      TimesSnoc(maxTps, init, last, a);
      TimesBefore(maxTps, init, a, last.now);
    }
  }

  /** Of times up to now, those of the last second are those after one second ago. */
  lemma {:induction false} SinceIsWindow(ts: seq<int>, now: int)
    requires forall i :: 0 <= i < |ts| ==> ts[i] <= now
    ensures |Since(ts, now - SECOND)| == InWindow(ts, now - 1_000_000_000)
  {
    if ts != [] {
      SinceIsWindow(ts[..|ts| - 1], now);
    }
  }

  /** The accepted times in the window (x, x + 1s], in nanoseconds. */
  ghost function InWindow(ts: seq<int>, x: int): nat {
    if ts == [] then 0 else
      InWindow(ts[..|ts| - 1], x) + (if x < ts[|ts| - 1] <= x + 1_000_000_000 then 1 else 0)
  }

  lemma {:induction false} WindowWithinSince(ts: seq<int>, x: int, since: int)
    requires since <= x
    ensures InWindow(ts, x) <= |Since(ts, since)|
  {
    if ts != [] {
      WindowWithinSince(ts[..|ts| - 1], x, since);
    }
  }

  /** No window of one second ever holds more than max_tps accepted checks of one address. */
  lemma {:induction false} NoWindowOverflows(maxTps: nat, calls: seq<Call>, a: Address, x: int)
    requires Monotone(calls)
    ensures InWindow(Times(maxTps, calls, a), x) <= maxTps
  {
    if calls != [] {
      var init, last := calls[..|calls| - 1], calls[|calls| - 1];
      SplitLast(calls);
      MonotoneSnoc(init, last);
      NoWindowOverflows(maxTps, init, a, x);
      TimesSnoc(maxTps, init, last, a);
      if last.Check? && last.a == a {
        assert last == Check(a, last.now);
        InWindowSnoc(Times(maxTps, init, a), last.now, x);
        if Allows(Run(maxTps, init), maxTps, a, last.now) && last.now <= x + SECOND {
          AcceptedFits(maxTps, init, a, last.now, x);
        }
      }
    }
  }

  /** An accepted check finds room in every window of a second it is in. */
  lemma AcceptedFits(maxTps: nat, calls: seq<Call>, a: Address, now: int, x: int)
    requires Monotone(calls + [Check(a, now)]) && now <= x + SECOND && Allows(Run(maxTps, calls), maxTps, a, now)
    ensures InWindow(Times(maxTps, calls, a), x) < maxTps
  {
    MonotoneSnoc(calls, Check(a, now));
    WindowIsRecentTimes(maxTps, calls, a, now - SECOND);
    WindowWithinSince(Times(maxTps, calls, a), x, now - SECOND);
  }

  lemma InWindowSnoc(ts: seq<int>, t: int, x: int)
    ensures InWindow(ts + [t], x) == InWindow(ts, x) + (if x < t <= x + SECOND then 1 else 0)
  {
    assert (ts + [t])[..|ts|] == ts;
  }

  ghost function WithoutCleanups(calls: seq<Call>): seq<Call> {
    if calls == [] then [] else
      var before, last := WithoutCleanups(calls[..|calls| - 1]), calls[|calls| - 1];
      if last.Check? then before + [last] else before
  }

  lemma {:induction false} WithoutCleanupsMonotone(calls: seq<Call>)
    requires Monotone(calls)
    ensures Monotone(WithoutCleanups(calls))
    ensures var checks := WithoutCleanups(calls);
            checks != [] ==> checks[|checks| - 1].now <= calls[|calls| - 1].now
  {
    if calls != [] {
      var init, last := calls[..|calls| - 1], calls[|calls| - 1];
      SplitLast(calls);
      MonotoneSnoc(init, last);
      WithoutCleanupsMonotone(init);
      MonotoneSnoc(WithoutCleanups(init), last);
    }
  }

  lemma WithoutCleanupsSnoc(calls: seq<Call>, c: Call)
    ensures WithoutCleanups(calls + [c]) == if c.Check? then WithoutCleanups(calls) + [c] else WithoutCleanups(calls)
  {
    assert (calls + [c])[..|calls|] == calls;
  }

  /** Cleanups, however many and wherever, change no answer: every address is accepted at the same
      times as in the run without them. */
  lemma {:induction false} CleanupsInvisible(maxTps: nat, calls: seq<Call>, a: Address)
    requires Monotone(calls)
    ensures Times(maxTps, calls, a) == Times(maxTps, WithoutCleanups(calls), a)
  {
    if calls != [] {
      CleanupsInvisible(maxTps, calls[..|calls| - 1], a);
      LastInvisible(maxTps, calls, a);
    }
  }

  lemma LastInvisible(maxTps: nat, calls: seq<Call>, a: Address)
    requires calls != [] && Monotone(calls)
    requires var init := calls[..|calls| - 1]; Times(maxTps, init, a) == Times(maxTps, WithoutCleanups(init), a)
    ensures Times(maxTps, calls, a) == Times(maxTps, WithoutCleanups(calls), a)
  {
    SplitLast(calls);
    CleanupsStayInvisible(maxTps, calls[..|calls| - 1], calls[|calls| - 1], a);
  }

  lemma CleanupsStayInvisible(maxTps: nat, calls: seq<Call>, c: Call, a: Address)
    requires Monotone(calls + [c]) && Times(maxTps, calls, a) == Times(maxTps, WithoutCleanups(calls), a)
    ensures Times(maxTps, calls + [c], a) == Times(maxTps, WithoutCleanups(calls + [c]), a)
  {
    WithoutCleanupsSnoc(calls, c);
    WithoutCleanupsMonotone(calls + [c]);
    if c.Check? {
      CheckAnsweredAlike(maxTps, calls, WithoutCleanups(calls), c, a);
    } else {
      TimesSnoc(maxTps, calls, c, a);
    }
  }

  /** A check is answered by the accepted times of its address alone. */
  lemma CheckAnsweredAlike(maxTps: nat, calls: seq<Call>, others: seq<Call>, c: Call, a: Address)
    requires c.Check? && Monotone(calls + [c]) && Monotone(others + [c])
    requires Times(maxTps, calls, a) == Times(maxTps, others, a)
    ensures Times(maxTps, calls + [c], a) == Times(maxTps, others + [c], a)
  {
    TimesSnoc(maxTps, calls, c, a);
    TimesSnoc(maxTps, others, c, a);
    if c.a == a {
      AllowedAlike(maxTps, calls, others, a, c.now);
    }
  }

  lemma AllowedAlike(maxTps: nat, calls: seq<Call>, others: seq<Call>, a: Address, now: int)
    requires Monotone(calls + [Check(a, now)]) && Monotone(others + [Check(a, now)])
    requires Times(maxTps, calls, a) == Times(maxTps, others, a)
    ensures Allows(Run(maxTps, calls), maxTps, a, now) <==> Allows(Run(maxTps, others), maxTps, a, now)
  {
    RefusedIffFull(maxTps, calls, a, now);
    RefusedIffFull(maxTps, others, a, now);
  }
}
