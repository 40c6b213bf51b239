/** The operational quality score of a source, from truncated basis-point ratios. */
module Quality {
  import opened Arithmetic
  import opened Domain
  import opened Orders

  const WHOLE: int := 10000
  const I64_MAX: int := 0x7FFF_FFFF_FFFF_FFFF
  const I64_MIN: int := -0x8000_0000_0000_0000
  const I32_MAX: int := 0x7FFF_FFFF
  const I32_MIN: int := -0x8000_0000

  function Saturate(x: int): int { if x > I64_MAX then I64_MAX else if x < I64_MIN then I64_MIN else x }

  /** Parts per 10 000, absent when the denominator is zero or the result does not fit. */
  function FromRatio(numerator: int, denominator: int): Option<int> {
    if denominator == 0 then None
    else
      var scaled := Truncate(numerator * WHOLE, denominator);
      if I64_MIN <= scaled <= I64_MAX then Some(scaled) else None
  }

  /** `budget` scaled by a ratio. */
  function Scale(basisPoints: int, budget: int): int {
    var scaled := Truncate(basisPoints * budget, WHOLE);
    if scaled > I32_MAX then I32_MAX else if scaled < I32_MIN then I32_MIN else scaled
  }

  datatype Counters = Counters(
    runs: int, successfulRuns: int, failedRuns: int, candidates: int, newItems: int, updatedItems: int,
    parseErrors: int, rateLimitIncidents: int)
  {
    /** What the run log can hold: no negative counts, at most one failure and one incident a run, no overflow. */
    predicate Plausible() {
      && 0 <= runs <= I64_MAX && 0 <= successfulRuns && 0 <= failedRuns <= runs
      && 0 <= candidates && 0 <= newItems && 0 <= updatedItems && 0 <= parseErrors
      && candidates + parseErrors <= I64_MAX && newItems <= I64_MAX && updatedItems <= I64_MAX
      && 0 <= rateLimitIncidents <= runs
    }
  }

  datatype Stats = Stats(
    runs: int, successfulRuns: int, newItems: int, updatedItems: int, newUniqueVouchers: int,
    staleRate: Option<int>, parseFailureRate: Option<int>, runsPerDiscovery: Option<int>,
    rateLimitRate: Option<int>, failureRate: Option<int>)

  function StatsFrom(c: Counters, newUniqueVouchers: int): Stats {
    var seen := Saturate(c.candidates + c.parseErrors);
    var useful := Saturate(c.newItems + c.updatedItems);
    var left := Saturate(c.candidates - useful);
    var stale := if left > 0 then left else 0;
    Stats(c.runs, c.successfulRuns, c.newItems, c.updatedItems, newUniqueVouchers,
          FromRatio(stale, c.candidates), FromRatio(c.parseErrors, seen), FromRatio(c.runs, useful),
          FromRatio(c.rateLimitIncidents, c.runs), FromRatio(c.failedRuns, c.runs))
  }

  datatype Component = Component(delta: int, reason: string)

  const BASELINE: int := 100
  const MIN_RUNS: int := 10
  const WASTEFUL_RUNS: int := 50

  function PenaltyOf(rate: Option<int>, budget: int): int {
    if rate.None? then 0
    else
      var p := Scale(rate.value, budget);
      if p > 0 then p else 0
  }

  function Penalized(rate: Option<int>, budget: int, reason: string): seq<Component> {
    if PenaltyOf(rate, budget) > 0 then [Component(-PenaltyOf(rate, budget), reason)] else []
  }

  function Flat(applies: bool, delta: int, reason: string): seq<Component> {
    if applies then [Component(delta, reason)] else []
  }

  predicate Unproductive(s: Stats) { !(s.newItems > 0 || s.updatedItems > 0 || s.newUniqueVouchers > 0) }

  predicate Wasteful(s: Stats) {
    s.runsPerDiscovery.Some? && Truncate(s.runsPerDiscovery.value, WHOLE) >= WASTEFUL_RUNS
  }

  function RateComponents(s: Stats): seq<Component> {
    Penalized(s.parseFailureRate, 40, "parse failures") + Penalized(s.failureRate, 25, "failed runs")
    + Penalized(s.rateLimitRate, 20, "rate limiting") + Penalized(s.staleRate, 10, "already-known candidates")
  }

  /** The penalties in the order they are examined. */
  function Components(s: Stats): seq<Component> {
    if s.runs < MIN_RUNS then []
    else
      RateComponents(s)
      + Flat(s.successfulRuns <= 0, -30, "no successful run") + Flat(Unproductive(s), -20, "no voucher discovered")
      + Flat(Wasteful(s), -10, "runs per discovery")
  }

  function SumDeltas(components: seq<Component>): int {
    if components == [] then 0
    else SumDeltas(components[..|components| - 1]) + components[|components| - 1].delta
  }

  predicate DeltaLeq(a: Component, b: Component) { a.delta <= b.delta }

  datatype Score = Score(value: int, enoughEvidence: bool, components: seq<Component>)

  method Penalize(before: seq<Component>, rate: Option<int>, budget: int, reason: string)
    returns (components: seq<Component>)
    ensures components == before + Penalized(rate, budget, reason)
    ensures |components| == |before| + if rate.Some? && Scale(rate.value, budget) > 0 then 1 else 0
    ensures forall i | |before| <= i < |components| :: components[i].delta < 0 && components[i].reason == reason
  {
    components := before;
    if rate.None? {
      return;
    }
    var penalty := Scale(rate.value, budget);
    if penalty > 0 {
      components := components + [Component(-penalty, reason)];
    }
  }

  method CollectRates(s: Stats) returns (components: seq<Component>)
    ensures components == RateComponents(s)
  {
    components := [];
    components := Penalize(components, s.parseFailureRate, 40, "parse failures");
    components := Penalize(components, s.failureRate, 25, "failed runs");
    components := Penalize(components, s.rateLimitRate, 20, "rate limiting");
    components := Penalize(components, s.staleRate, 10, "already-known candidates");
  }

  method Collect(s: Stats) returns (components: seq<Component>)
    ensures components == Components(s)
  {
    components := [];
    if s.runs >= MIN_RUNS {
      components := CollectRates(s);
      components := components + Flat(s.successfulRuns <= 0, -30, "no successful run");
      components := components + Flat(Unproductive(s), -20, "no voucher discovered");
      components := components + Flat(Wasteful(s), -10, "runs per discovery");
    }
  }

  method Sum(components: seq<Component>) returns (sum: int)
    ensures sum == SumDeltas(components)
  {
    sum := 0;
    for i := 0 to |components|
      invariant sum == SumDeltas(components[..i])
    {
      assert components[..i + 1][..i] == components[..i];
      sum := sum + components[i].delta;
    }
    assert components[..|components|] == components;
  }

  /** The value is the baseline plus exactly the components shown, most punishing first. */
  method QualityScore(s: Stats) returns (score: Score)
    ensures score.value == BASELINE + SumDeltas(Components(s))
    ensures score.components == SortBy(DeltaLeq, Components(s)) && SortedBy(DeltaLeq, score.components)
    ensures score.value == BASELINE + SumDeltas(score.components)
    ensures score.enoughEvidence <==> s.runs >= MIN_RUNS
  {
    var components := Collect(s);
    var sum := Sum(components);
    SortBySorts(DeltaLeq, components);
    SumDeltasPermute(SortBy(DeltaLeq, components), components);
    score := Score(BASELINE + sum, s.runs >= MIN_RUNS, SortBy(DeltaLeq, components));
  }

  lemma {:induction false} SumDeltasWithout(s: seq<Component>, k: nat)
    requires k < |s|
    ensures SumDeltas(s) == SumDeltas(s[..k] + s[k + 1..]) + s[k].delta
  {
    var last := |s| - 1;
    if k == last {
      assert s[..k] + s[k + 1..] == s[..k];
    } else {
      SumDeltasWithout(s[..last], k);
      WithoutInit(s, k);
    }
  }

  lemma DeltaTakenOut(s: seq<Component>, x: Component) returns (rest: seq<Component>)
    requires x in s
    ensures |rest| < |s| && multiset(rest) == multiset(s) - multiset{x}
    ensures SumDeltas(s) == SumDeltas(rest) + x.delta
  {
    var k :| 0 <= k < |s| && s[k] == x;
    rest := s[..k] + s[k + 1..];
    MultisetWithout(s, k);
    SumDeltasWithout(s, k);
  }

  lemma {:induction false} SumDeltasPermute(a: seq<Component>, b: seq<Component>)
    requires multiset(a) == multiset(b)
    ensures SumDeltas(a) == SumDeltas(b)
    decreases |a|
  {
    if a == [] {
      assert |b| == |multiset(b)| == 0;
    } else {
      assert a[0] in multiset(b);
      var restA := DeltaTakenOut(a, a[0]);
      var restB := DeltaTakenOut(b, a[0]);
      SumDeltasPermute(restA, restB);
    }
  }

  // ----- the range of the score -----

  lemma SumDeltasConcat(a: seq<Component>, b: seq<Component>)
    requires |b| <= 1
    ensures SumDeltas(a + b) == SumDeltas(a) + SumDeltas(b)
  {
    if |b| == 1 {
      assert (a + b)[..|a|] == a && b[..0] == [];
    } else {
      assert a + b == a;
    }
  }

  function FlatOf(applies: bool, amount: int): int { if applies then amount else 0 }

  lemma SumOfComponents(s: Stats)
    requires s.runs >= MIN_RUNS
    ensures SumDeltas(Components(s)) ==
            -PenaltyOf(s.parseFailureRate, 40) - PenaltyOf(s.failureRate, 25) - PenaltyOf(s.rateLimitRate, 20)
            - PenaltyOf(s.staleRate, 10)
            - FlatOf(s.successfulRuns <= 0, 30) - FlatOf(Unproductive(s), 20) - FlatOf(Wasteful(s), 10)
  {
    var p1, p2 := Penalized(s.parseFailureRate, 40, "parse failures"), Penalized(s.failureRate, 25, "failed runs");
    var p3 := Penalized(s.rateLimitRate, 20, "rate limiting");
    var p4 := Penalized(s.staleRate, 10, "already-known candidates");
    var f1 := Flat(s.successfulRuns <= 0, -30, "no successful run");
    var f2 := Flat(Unproductive(s), -20, "no voucher discovered");
    var f3 := Flat(Wasteful(s), -10, "runs per discovery");
    SumDeltasConcat(p1, p2);
    SumDeltasConcat(p1 + p2, p3);
    SumDeltasConcat(p1 + p2 + p3, p4);
    SumDeltasConcat(p1 + p2 + p3 + p4, f1);
    SumDeltasConcat(p1 + p2 + p3 + p4 + f1, f2);
    SumDeltasConcat(p1 + p2 + p3 + p4 + f1 + f2, f3);
    SingleDeltas(s.parseFailureRate, 40, "parse failures");
    SingleDeltas(s.failureRate, 25, "failed runs");
    SingleDeltas(s.rateLimitRate, 20, "rate limiting");
    SingleDeltas(s.staleRate, 10, "already-known candidates");
    FlatDeltas(s.successfulRuns <= 0, -30, "no successful run");
    FlatDeltas(Unproductive(s), -20, "no voucher discovered");
    FlatDeltas(Wasteful(s), -10, "runs per discovery");
  }

  lemma SingleDeltas(rate: Option<int>, budget: int, reason: string)
    ensures SumDeltas(Penalized(rate, budget, reason)) == -PenaltyOf(rate, budget)
  {
    if PenaltyOf(rate, budget) > 0 { assert Penalized(rate, budget, reason)[..0] == []; }
  }

  lemma FlatDeltas(applies: bool, delta: int, reason: string)
    ensures SumDeltas(Flat(applies, delta, reason)) == if applies then delta else 0
  {
    if applies { assert Flat(applies, delta, reason)[..0] == []; }
  }

  lemma ShareArithmetic(part: int, whole: int)
    requires 0 <= part <= whole && whole > 0
    ensures 0 <= part * WHOLE / whole <= WHOLE
    ensures part * WHOLE / whole == WHOLE ==> part == whole
  {
    var q := part * WHOLE / whole;
    DivBounds(part * WHOLE, whole);
    if q > WHOLE { TooLarge(q, whole, part); }
    if q == WHOLE { assert q * whole == WHOLE * whole; }
  }

  /** A share of a whole lies between zero and one, and is one only when the part is everything. */
  lemma ShareBounds(part: int, whole: int)
    requires 0 <= part <= whole && whole > 0
    ensures FromRatio(part, whole).Some? && 0 <= FromRatio(part, whole).value <= WHOLE
    ensures FromRatio(part, whole).value == WHOLE ==> part == whole
  {
    ShareArithmetic(part, whole);
    TruncatePositive(part * WHOLE, whole);
  }

  lemma TooLarge(q: int, whole: int, part: int)
    requires 0 <= part <= whole && whole > 0 && q > WHOLE
    ensures q * whole > part * WHOLE
  {
    assert q * whole >= (WHOLE + 1) * whole by { assert (q - WHOLE - 1) * whole >= 0; }
  }

  /** A rate's penalty is at most its budget; only a full rate costs the full budget. */
  lemma PenaltyBounds(rate: Option<int>, budget: int)
    requires budget in {10, 20, 25, 40} && (rate.Some? ==> 0 <= rate.value <= WHOLE)
    ensures 0 <= PenaltyOf(rate, budget) <= budget
    ensures PenaltyOf(rate, budget) == budget ==> rate == Some(WHOLE)
  {
  }

  /** Unparsable items and re-reported items cannot both cost their whole budgets. */
  lemma ParseAndStaleExclusive(c: Counters, unique: int)
    requires c.Plausible()
    ensures var s := StatsFrom(c, unique);
            0 <= PenaltyOf(s.parseFailureRate, 40) && 0 <= PenaltyOf(s.staleRate, 10)
            && PenaltyOf(s.parseFailureRate, 40) + PenaltyOf(s.staleRate, 10) <= 49
  {
    var s := StatsFrom(c, unique);
    var useful := Saturate(c.newItems + c.updatedItems);
    var stale := if c.candidates - useful > 0 then c.candidates - useful else 0;
    if c.candidates > 0 { ShareBounds(stale, c.candidates); }
    if c.candidates + c.parseErrors > 0 { ShareBounds(c.parseErrors, c.candidates + c.parseErrors); }
    PenaltyBounds(s.parseFailureRate, 40);
    PenaltyBounds(s.staleRate, 10);
  }

  /** The score the counters yield. */
  function Value(c: Counters, unique: int): int { BASELINE + SumDeltas(Components(StatsFrom(c, unique))) }

  /** For plausible counters the score lies between -44 and 100. */
  lemma ScoreRange(c: Counters, unique: int)
    requires c.Plausible() && unique >= 0
    ensures -44 <= Value(c, unique) <= 100
  {
    var s := StatsFrom(c, unique);
    if s.runs >= MIN_RUNS {
      SumOfComponents(s);
      ParseAndStaleExclusive(c, unique);
      ShareBounds(c.failedRuns, c.runs);
      ShareBounds(c.rateLimitIncidents, c.runs);
      PenaltyBounds(s.failureRate, 25);
      PenaltyBounds(s.rateLimitRate, 20);
      assert Wasteful(s) ==> !Unproductive(s);
    }
  }

  const WORST_CASE := Counters(10, 0, 10, 1, 0, 0, 39, 10)

  /** Both ends are reached: by a source that fails in every way at once, and by one that never fails. */
  lemma RangeAttained()
    ensures WORST_CASE.Plausible() && Value(WORST_CASE, 0) == -44
    ensures var best := Counters(10, 10, 0, 10, 10, 0, 0, 0); best.Plausible() && Value(best, 10) == 100
  {
    var w := StatsFrom(WORST_CASE, 0);
    assert w.parseFailureRate == Some(9750) && w.staleRate == Some(10000);
    assert w.failureRate == Some(10000) && w.rateLimitRate == Some(10000) && w.runsPerDiscovery == None;
    SumOfComponents(w);
    var b := StatsFrom(Counters(10, 10, 0, 10, 10, 0, 0, 0), 10);
    assert b.parseFailureRate == Some(0) && b.staleRate == Some(0) && b.runsPerDiscovery == Some(10000);
    SumOfComponents(b);
  }
}
