/** Adaptive polling: the next interval, and the rolling request budget that bounds it. */
module Polling {
  import opened Domain

  const WINDOW: nat := 3600

  // ----- the rolling budget -----

  function Age(now: nat, t: nat): nat { if now >= t then now - t else 0 }

  /** The timestamps still inside the window that ends now. */
  function Kept(timestamps: seq<nat>, now: nat): seq<nat> {
    if timestamps == [] then []
    else
      var last := timestamps[|timestamps| - 1];
      Kept(timestamps[..|timestamps| - 1], now) + if Age(now, last) < WINDOW then [last] else []
  }

  class RequestBudget {
    const limit: nat
    var timestamps: seq<nat>

    constructor (limit: nat)
      ensures this.limit == limit && timestamps == []
    {
      this.limit := limit;
      timestamps := [];
    }

    method TryConsume(now: nat) returns (granted: bool)
      modifies this
      ensures granted <==> |Kept(old(timestamps), now)| < limit
      ensures timestamps == Kept(old(timestamps), now) + if granted then [now] else []
    {
      var kept: seq<nat> := [];
      for i := 0 to |timestamps|
        invariant timestamps == old(timestamps)
        invariant kept == Kept(timestamps[..i], now)
      {
        assert timestamps[..i + 1][..i] == timestamps[..i];
        if Age(now, timestamps[i]) < WINDOW {
          kept := kept + [timestamps[i]];
        }
      }
      assert timestamps[..|timestamps|] == timestamps;
      timestamps := kept;
      if |timestamps| >= limit {
        return false;
      }
      timestamps := timestamps + [now];
      granted := true;
    }
  }

  // ----- any sequence of calls -----

  /** The remembered timestamps, and all the grants ever made. */
  datatype History = History(timestamps: seq<nat>, grants: seq<nat>)

  function Called(limit: nat, h: History, now: nat): History {
    var kept := Kept(h.timestamps, now);
    if |kept| < limit then History(kept + [now], h.grants + [now]) else History(kept, h.grants)
  }

  /** After the calls made at `times`, in order. */
  function After(limit: nat, times: seq<nat>): History {
    if times == [] then History([], [])
    else Called(limit, After(limit, times[..|times| - 1]), times[|times| - 1])
  }

  predicate NonDecreasing(times: seq<nat>) { forall i, j | 0 <= i < j < |times| :: times[i] <= times[j] }

  predicate AllAtMost(times: seq<nat>, bound: nat) { forall i | 0 <= i < |times| :: times[i] <= bound }

  lemma KeptAppend(a: seq<nat>, x: nat, now: nat)
    ensures Kept(a + [x], now) == Kept(a, now) + if Age(now, x) < WINDOW then [x] else []
  {
    assert (a + [x])[..|a|] == a;
  }

  /** What has left the window by some time never comes back later. */
  lemma {:induction false} KeptTwice(timestamps: seq<nat>, now: nat, later: nat)
    requires now <= later && AllAtMost(timestamps, now)
    ensures Kept(Kept(timestamps, now), later) == Kept(timestamps, later)
  {
    if timestamps != [] {
      var init, last := timestamps[..|timestamps| - 1], timestamps[|timestamps| - 1];
      KeptTwice(init, now, later);
      if Age(now, last) < WINDOW {
        KeptAppend(Kept(init, now), last, later);
      } else {
        assert Kept(timestamps, now) == Kept(init, now);
        assert Kept(timestamps, later) == Kept(init, later);
      }
    }
  }

  lemma {:induction false} GrantsArePast(limit: nat, times: seq<nat>, now: nat)
    requires AllAtMost(times, now)
    ensures AllAtMost(After(limit, times).grants, now)
  {
    if times != [] { GrantsArePast(limit, times[..|times| - 1], now); }
  }

  /** The pruned vector is exactly the grants inside the window that ends at the last call. */
  lemma {:induction false} RememberedExactly(limit: nat, times: seq<nat>)
    requires NonDecreasing(times) && times != []
    ensures var h := After(limit, times); h.timestamps == Kept(h.grants, times[|times| - 1])
    decreases |times|, 0
  {
    var init, now := times[..|times| - 1], times[|times| - 1];
    var before := After(limit, init);
    PrunedIsWindow(limit, init, now);
    KeptAppend(before.grants, now, now);
  }

  /** At any later call the remembered timestamps prune to the grants of the last hour. */
  lemma {:induction false} PrunedIsWindow(limit: nat, times: seq<nat>, now: nat)
    requires NonDecreasing(times) && (times == [] || times[|times| - 1] <= now)
    ensures Kept(After(limit, times).timestamps, now) == Kept(After(limit, times).grants, now)
    decreases |times|, 1
  {
    if times != [] {
      RememberedExactly(limit, times);
      GrantsArePast(limit, times, times[|times| - 1]);
      KeptTwice(After(limit, times).grants, times[|times| - 1], now);
    }
  }

  /** A call is refused exactly when the hour that ends at it already holds `limit` grants. */
  lemma RefusedIff(limit: nat, times: seq<nat>, now: nat)
    requires NonDecreasing(times + [now])
    ensures After(limit, times + [now]).grants == After(limit, times).grants
       <==> |Kept(After(limit, times).grants, now)| >= limit
  {
    assert (times + [now])[..|times|] == times;
    if times != [] { assert (times + [now])[|times| - 1] <= (times + [now])[|times|]; }
    assert NonDecreasing(times) by {
      forall i, j | 0 <= i < j < |times| ensures times[i] <= times[j] {
        assert (times + [now])[i] <= (times + [now])[j];
      }
    }
    PrunedIsWindow(limit, times, now);
  }

  /** The grants from `start` on, for one hour. */
  function InWindow(grants: seq<nat>, start: nat): nat {
    if grants == [] then 0
    else
      var last := grants[|grants| - 1];
      InWindow(grants[..|grants| - 1], start) + if start <= last < start + WINDOW then 1 else 0
  }

  lemma {:induction false} WindowWithinKept(grants: seq<nat>, start: nat, now: nat)
    requires start <= now < start + WINDOW && AllAtMost(grants, now)
    ensures InWindow(grants, start) <= |Kept(grants, now)|
  {
    if grants != [] { WindowWithinKept(grants[..|grants| - 1], start, now); }
  }

  /** No hour, wherever it starts, holds more than `limit` grants. */
  lemma {:induction false} EveryHourBounded(limit: nat, times: seq<nat>, start: nat)
    requires NonDecreasing(times)
    ensures InWindow(After(limit, times).grants, start) <= limit
  {
    if times != [] {
      var init, now := times[..|times| - 1], times[|times| - 1];
      var before := After(limit, init);
      EveryHourBounded(limit, init, start);
      if start <= now < start + WINDOW {
        GrantsArePast(limit, init, now);
        WindowWithinKept(before.grants, start, now);
        PrunedIsWindow(limit, init, now);
      }
      assert (before.grants + [now])[..|before.grants|] == before.grants;
    }
  }

  lemma AfterAppend(limit: nat, times: seq<nat>, now: nat)
    ensures After(limit, times + [now]) == Called(limit, After(limit, times), now)
  {
    assert (times + [now])[..|times|] == times;
  }

  lemma InWindowAppend(grants: seq<nat>, g: nat, start: nat)
    ensures InWindow(grants + [g], start) == InWindow(grants, start) + if start <= g < start + WINDOW then 1 else 0
  {
    assert (grants + [g])[..|grants|] == grants;
  }

  // ----- clocks that go back -----

  /** Whatever the clock does, no hour ever holds more grants than the limit. */
  ghost predicate BoundedUnderAnyClock(limit: nat) {
    forall times: seq<nat>, start: nat :: InWindow(After(limit, times).grants, start) <= limit
  }

  lemma {:induction false} NoneBefore(grants: seq<nat>, bound: nat, start: nat)
    requires AllAtMost(grants, bound) && bound < start
    ensures InWindow(grants, start) == 0
  {
    if grants != [] { NoneBefore(grants[..|grants| - 1], bound, start); }
  }

  /** A limit of one remembers its last grant, and grants ever later. */
  ghost predicate RemembersLast(h: History) {
    if h.grants == [] then h.timestamps == []
    else h.timestamps == [h.grants[|h.grants| - 1]] && AllAtMost(h.grants, h.grants[|h.grants| - 1])
  }

  lemma {:induction false} OneGrantRemembered(times: seq<nat>, start: nat)
    ensures RemembersLast(After(1, times)) && InWindow(After(1, times).grants, start) <= 1
  {
    if times != [] {
      var init, now := times[..|times| - 1], times[|times| - 1];
      OneGrantRemembered(init, start);
      OneMoreCall(After(1, init), now, start);
    }
  }

  lemma OneMoreCall(h: History, now: nat, start: nat)
    requires RemembersLast(h) && InWindow(h.grants, start) <= 1
    ensures RemembersLast(Called(1, h, now)) && InWindow(Called(1, h, now).grants, start) <= 1
  {
    InWindowAppend(h.grants, now, start);
    if h.grants != [] {
      var last := h.grants[|h.grants| - 1];
      KeptAppend([], last, now);
      assert [] + [last] == [last];
      if now >= last + WINDOW && start <= now < start + WINDOW { NoneBefore(h.grants, last, start); }
    }
  }

  lemma {:induction false} NothingGranted(times: seq<nat>)
    ensures After(0, times) == History([], [])
  {
    if times != [] { NothingGranted(times[..|times| - 1]); }
  }

  predicate AllAt(calls: seq<nat>, t: nat) { forall i | 0 <= i < |calls| :: calls[i] == t }

  lemma {:induction false} KeptAllAt(calls: seq<nat>, t: nat, now: nat)
    requires AllAt(calls, t)
    ensures Kept(calls, now) == if Age(now, t) < WINDOW then calls else []
  {
    if calls != [] { KeptAllAt(calls[..|calls| - 1], t, now); }
  }

  lemma {:induction false} InWindowAllAt(calls: seq<nat>, t: nat)
    requires AllAt(calls, t)
    ensures InWindow(calls, t) == |calls|
  {
    if calls != [] { InWindowAllAt(calls[..|calls| - 1], t); }
  }

  lemma CallGranted(limit: nat, times: seq<nat>, h: History, now: nat, kept: seq<nat>)
    requires After(limit, times) == h && Kept(h.timestamps, now) == kept && |kept| < limit
    ensures After(limit, times + [now]) == History(kept + [now], h.grants + [now])
  {
    AfterAppend(limit, times, now);
  }

  lemma LastAt(calls: seq<nat>, t: nat)
    requires calls != [] && AllAt(calls, t)
    ensures calls == calls[..|calls| - 1] + [t] && AllAt(calls[..|calls| - 1], t)
  {
  }

  /** Calls at one time are granted until the limit is reached. */
  lemma {:induction false} AllAtGranted(limit: nat, calls: seq<nat>, t: nat)
    requires AllAt(calls, t) && |calls| <= limit
    ensures After(limit, calls) == History(calls, calls)
  {
    if calls != [] {
      var init := calls[..|calls| - 1];
      LastAt(calls, t);
      AllAtGranted(limit, init, t);
      KeptAllAt(init, t, t);
      CallGranted(limit, init, History(init, init), t, init);
    }
  }

  /** One call an hour later clears the memory, and a call back at the first time is granted as well. */
  lemma BackInTimeGranted(limit: nat, t: nat, times: seq<nat>)
    requires limit >= 2 && After(limit, times) == History(times, times) && Kept(times, t + WINDOW) == []
    ensures After(limit, times + [t + WINDOW] + [t]).grants == times + [t + WINDOW] + [t]
  {
    var later := t + WINDOW;
    CallGranted(limit, times, History(times, times), later, []);
    assert [] + [later] == [later];
    KeptSingle(later, t);
    CallGranted(limit, times + [later], History([later], times + [later]), t, [later]);
  }

  lemma KeptSingle(later: nat, now: nat)
    requires now <= later
    ensures Kept([later], now) == [later]
  {
    KeptAppend([], later, now);
    assert [] + [later] == [later];
  }

  /** So one hour holds one grant too many. */
  lemma BackInTimeExceeds(limit: nat, calls: seq<nat>, t: nat)
    requires limit >= 2 && |calls| == limit && AllAt(calls, t)
    ensures InWindow(After(limit, calls + [t + WINDOW] + [t]).grants, t) == limit + 1
  {
    AllAtGranted(limit, calls, t);
    InWindowAllAt(calls, t);
    KeptAllAt(calls, t, t + WINDOW);
    BackInTimeGranted(limit, t, calls);
    InWindowAppend(calls, t + WINDOW, t);
    InWindowAppend(calls + [t + WINDOW], t, t);
  }

  lemma BoundedBelowTwo(limit: nat, times: seq<nat>, start: nat)
    requires limit <= 1
    ensures InWindow(After(limit, times).grants, start) <= limit
  {
    if limit == 0 { NothingGranted(times); } else { OneGrantRemembered(times, start); }
  }

  /** The bound survives a clock that goes back exactly when the limit is at most one. */
  lemma BoundedUnderAnyClockIff(limit: nat)
    ensures BoundedUnderAnyClock(limit) <==> limit <= 1
  {
    if limit >= 2 {
      BackInTimeExceeds(limit, seq(limit, _ => 0), 0);
    } else {
      forall times: seq<nat>, start: nat ensures InWindow(After(limit, times).grants, start) <= limit {
        BoundedBelowTwo(limit, times, start);
      }
    }
  }

  // ----- the next interval -----

  datatype Signals = Signals(rateLimited: bool, failures: nat, campaignActive: bool, recentChange: bool,
                             retryAfter: Option<nat>)

  function Min(a: nat, b: nat): nat { if a <= b then a else b }

  function Max(a: nat, b: nat): nat { if a >= b then a else b }

  function Doubled(interval: nat, times: nat): nat { interval * Pow2(times) }

  /** With no jitter: obey a rate limit, else back off after failures, else poll by interest. */
  function NextInterval(normal: nat, active: nat, backoffMax: nat, s: Signals): nat {
    if s.rateLimited then Max(Min(s.retryAfter.GetOr(backoffMax), backoffMax), normal)
    else if s.failures > 0 then Min(Doubled(normal, Min(s.failures - 1, 16)), backoffMax)
    else if s.campaignActive || s.recentChange then active
    else normal
  }

  lemma {:induction false} DoubledMonotone(interval: nat, a: nat, b: nat)
    requires a <= b
    ensures interval <= Doubled(interval, a) <= Doubled(interval, b)
    decreases b
  {
    if a < b {
      DoubledMonotone(interval, a, b - 1);
      assert Doubled(interval, b) == 2 * Doubled(interval, b - 1);
    } else if b > 0 {
      DoubledMonotone(interval, 0, b - 1);
      assert Doubled(interval, b) == 2 * Doubled(interval, b - 1);
    }
  }

  /** More failures never shorten the wait, which stays under the ceiling and, where there is room, above normal. */
  lemma IntervalBounded(normal: nat, active: nat, backoffMax: nat, s: Signals, more: Signals)
    requires more == s.(failures := more.failures) && 0 < s.failures <= more.failures
    ensures NextInterval(normal, active, backoffMax, s) <= NextInterval(normal, active, backoffMax, more)
            <= Max(normal, backoffMax)
    ensures normal <= backoffMax ==> normal <= NextInterval(normal, active, backoffMax, s)
  {
    DoubledMonotone(normal, Min(s.failures - 1, 16), Min(more.failures - 1, 16));
  }
}
