/** First-discovery attribution and lead time. */
module Discovery {
  import opened Arithmetic
  import opened Domain
  import opened Orders

  datatype FirstObservation = FirstObservation(voucherId: string, source: string, observedAt: Instant)

  datatype DiscoverySummary = DiscoverySummary(wins: int, totalLead: int, leadSamples: int) {
    function AverageLead(): Option<int> {
      if leadSamples <= 0 then None else Some(Truncate(totalLead, leadSamples))
    }
  }

  const NO_WINS := DiscoverySummary(0, 0, 0)

  /** Each source's earliest observation of one voucher. */
  type PerSource = map<string, Instant>

  /** The observations made, whatever their order. */
  ghost function All(observations: seq<FirstObservation>): set<FirstObservation> { set o | o in observations }

  // ----- grouping -----

  predicate Seen(observations: set<FirstObservation>, voucherId: string, source: string, at: Instant) {
    FirstObservation(voucherId, source, at) in observations
  }

  /** `grouped` holds exactly the earliest observation of every voucher by every source. */
  ghost predicate Grouped(observations: set<FirstObservation>, grouped: map<string, PerSource>) {
    && (forall v, s, t | Seen(observations, v, s, t) :: v in grouped && s in grouped[v] && grouped[v][s] <= t)
    && (forall v, s | v in grouped && s in grouped[v] :: Seen(observations, v, s, grouped[v][s]))
    && (forall v | v in grouped :: grouped[v] != map[])
  }

  /** The grouping depends only on which observations were made. */
  lemma GroupedUnique(observations: set<FirstObservation>, a: map<string, PerSource>, b: map<string, PerSource>)
    requires Grouped(observations, a) && Grouped(observations, b)
    ensures a == b
  {
    GroupedWithin(observations, a, b);
    GroupedWithin(observations, b, a);
    forall v | v in a ensures v in b && a[v] == b[v] {
      forall s | s in a[v] ensures a[v][s] == b[v][s] {}
    }
  }

  lemma GroupedWithin(observations: set<FirstObservation>, a: map<string, PerSource>, b: map<string, PerSource>)
    requires Grouped(observations, a) && Grouped(observations, b)
    ensures forall v | v in a :: v in b && forall s | s in a[v] :: s in b[v] && b[v][s] <= a[v][s]
  {
    forall v | v in a ensures v in b && forall s | s in a[v] :: s in b[v] && b[v][s] <= a[v][s] {
      assert a[v].Keys != {};
      forall s | s in a[v] ensures v in b && s in b[v] && b[v][s] <= a[v][s] {
        assert Seen(observations, v, s, a[v][s]);
      }
    }
  }

  // ----- one voucher -----

  /** `s` saw the voucher no later than anyone, and no source that saw it as early has an earlier name. */
  ghost predicate IsWinner(m: PerSource, s: string) {
    s in m && forall t | t in m :: m[s] < m[t] || (m[s] == m[t] && StringLeq(s, t))
  }

  lemma WinnerUnique(m: PerSource, s: string, t: string)
    requires IsWinner(m, s) && IsWinner(m, t)
    ensures s == t
  {
    StringOrders();
  }

  ghost predicate IsRunnerUp(m: PerSource, winner: string, at: Instant) {
    && (exists t | t in m && t != winner :: m[t] == at)
    && (forall t | t in m && t != winner :: at <= m[t])
  }

  method FindWinner(m: PerSource) returns (winner: string, runnerUp: Option<Instant>)
    requires m != map[]
    ensures IsWinner(m, winner)
    ensures runnerUp.None? <==> m.Keys == {winner}
    ensures runnerUp.Some? ==> IsRunnerUp(m, winner, runnerUp.value) && runnerUp.value >= m[winner]
  {
    StringOrders();
    winner :| winner in m;
    var rest := m.Keys - {winner};
    while rest != {}
      invariant winner in m && rest <= m.Keys && winner !in rest
      invariant forall t | t in m && t !in rest :: m[winner] < m[t] || (m[winner] == m[t] && StringLeq(winner, t))
      decreases rest
    {
      var s :| s in rest;
      if m[s] < m[winner] || (m[s] == m[winner] && StringLeq(s, winner)) {
        winner := s;
      }
      rest := rest - {s};
    }
    runnerUp := None;
    var others := m.Keys - {winner};
    while others != {}
      invariant others <= m.Keys - {winner}
      invariant runnerUp.None? <==> others == m.Keys - {winner}
      invariant runnerUp.Some? ==> (exists t | t in m && t != winner && t !in others :: m[t] == runnerUp.value)
      invariant runnerUp.Some? ==> forall t | t in m && t != winner && t !in others :: runnerUp.value <= m[t]
      decreases others
    {
      var s :| s in others;
      if runnerUp.None? || m[s] < runnerUp.value {
        runnerUp := Some(m[s]);
      }
      others := others - {s};
    }
  }

  // ----- the summaries -----

  /** How much sooner the winner saw the voucher than anyone else; zero when nobody else did. */
  ghost function LeadOf(m: PerSource, winner: string): nat
    requires IsWinner(m, winner)
  {
    if exists at :: IsRunnerUp(m, winner, at) then
      var at :| IsRunnerUp(m, winner, at);
      assert at >= m[winner];
      at - m[winner]
    else 0
  }

  lemma LeadFrom(m: PerSource, winner: string, at: Instant)
    requires IsWinner(m, winner) && IsRunnerUp(m, winner, at)
    ensures LeadOf(m, winner) == at - m[winner]
  {
  }

  ghost predicate Contested(m: PerSource) { exists s, t | s in m && t in m :: s != t }

  /** One win, with its lead when somebody else saw the voucher too. */
  function WinOf(wonAt: Instant, runnerUp: Option<Instant>): DiscoverySummary {
    if runnerUp.Some? then DiscoverySummary(1, runnerUp.value - wonAt, 1) else DiscoverySummary(1, 0, 0)
  }

  /** What one voucher adds to one source's summary. */
  ghost function Share(m: PerSource, source: string): DiscoverySummary {
    if !IsWinner(m, source) then NO_WINS
    else if Contested(m) then DiscoverySummary(1, LeadOf(m, source), 1)
    else DiscoverySummary(1, 0, 0)
  }

  ghost function ShareOf(grouped: map<string, PerSource>, v: string, source: string): DiscoverySummary {
    if v in grouped then Share(grouped[v], source) else NO_WINS
  }

  function Plus(a: DiscoverySummary, b: DiscoverySummary): DiscoverySummary {
    DiscoverySummary(a.wins + b.wins, a.totalLead + b.totalLead, a.leadSamples + b.leadSamples)
  }

  /** The sum of `f` over a finite set. */
  ghost function SumOver(f: string -> DiscoverySummary, over: set<string>): DiscoverySummary {
    if over == {} then NO_WINS
    else
      var v :| v in over;
      Plus(f(v), SumOver(f, over - {v}))
  }

  lemma PlusSwaps(a: DiscoverySummary, b: DiscoverySummary, c: DiscoverySummary)
    ensures Plus(a, Plus(b, c)) == Plus(b, Plus(a, c))
  {
  }

  lemma {:induction false} SumTake(f: string -> DiscoverySummary, over: set<string>, v: string)
    requires v in over
    ensures SumOver(f, over) == Plus(f(v), SumOver(f, over - {v}))
    decreases over
  {
    var w :| w in over && SumOver(f, over) == Plus(f(w), SumOver(f, over - {w}));
    if w != v {
      SumTake(f, over - {w}, v);
      SumTake(f, over - {v}, w);
      assert over - {w} - {v} == over - {v} - {w};
      PlusSwaps(f(w), f(v), SumOver(f, over - {w} - {v}));
    }
  }

  lemma SumOneMore(f: string -> DiscoverySummary, done: set<string>, v: string)
    requires v !in done
    ensures SumOver(f, done + {v}) == Plus(f(v), SumOver(f, done))
  {
    SumTake(f, done + {v}, v);
    assert done + {v} - {v} == done;
  }

  ghost function SharesOf(grouped: map<string, PerSource>, source: string): string -> DiscoverySummary {
    v => ShareOf(grouped, v, source)
  }

  /** The sum of a source's shares over the vouchers in `over`. */
  ghost function SumShares(grouped: map<string, PerSource>, over: set<string>, source: string): DiscoverySummary {
    SumOver(SharesOf(grouped, source), over)
  }

  function SummaryAt(summaries: map<string, DiscoverySummary>, source: string): DiscoverySummary {
    if source in summaries then summaries[source] else NO_WINS
  }

  ghost function Sources(observations: set<FirstObservation>): set<string> { set o | o in observations :: o.source }

  /** The table the observations determine: a row for every observed source, with the sum of its shares. */
  ghost predicate IsSummary(
      observations: set<FirstObservation>, grouped: map<string, PerSource>, summaries: map<string, DiscoverySummary>) {
    && Grouped(observations, grouped)
    && summaries.Keys == Sources(observations)
    && forall s | s in summaries :: summaries[s] == SumShares(grouped, grouped.Keys, s)
  }

  /** The summary of the observations made. */
  ghost predicate Summarizes(observations: set<FirstObservation>, summaries: map<string, DiscoverySummary>) {
    exists grouped :: IsSummary(observations, grouped, summaries)
  }

  ghost function Vouchers(observations: set<FirstObservation>): set<string> { set o | o in observations :: o.voucherId }

  /** One source's earliest observation, with one more observation by it. */
  function WithEarliest(m: PerSource, o: FirstObservation): PerSource {
    if o.source !in m || o.observedAt < m[o.source] then m[o.source := o.observedAt] else m
  }

  method GroupByVoucher(observations: seq<FirstObservation>) returns (grouped: map<string, PerSource>)
    ensures Grouped(All(observations), grouped)
  {
    grouped := map[];
    for i := 0 to |observations|
      invariant Grouped(All(observations[..i]), grouped)
    {
      var o := observations[i];
      var perSource := if o.voucherId in grouped then grouped[o.voucherId] else map[];
      ghost var before := grouped;
      if o.source !in perSource || o.observedAt < perSource[o.source] {
        perSource := perSource[o.source := o.observedAt];
      }
      grouped := grouped[o.voucherId := perSource];
      assert All(observations[..i + 1]) == All(observations[..i]) + {o};
      GroupStep(All(observations[..i]), before, o, grouped);
    }
    assert observations[..|observations|] == observations;
  }

  lemma GroupStep(
      observations: set<FirstObservation>, before: map<string, PerSource>, o: FirstObservation,
      after: map<string, PerSource>)
    requires Grouped(observations, before)
    requires var m := if o.voucherId in before then before[o.voucherId] else map[];
             after == before[o.voucherId := WithEarliest(m, o)]
    ensures Grouped(observations + {o}, after)
  {
    var all := observations + {o};
    assert o.source in after[o.voucherId];
    forall v, s, t | Seen(all, v, s, t) ensures v in after && s in after[v] && after[v][s] <= t {
      if FirstObservation(v, s, t) != o { assert Seen(observations, v, s, t); }
    }
    forall v, s | v in after && s in after[v] ensures Seen(all, v, s, after[v][s]) {
      if v == o.voucherId && s == o.source && after[v][s] == o.observedAt {
        assert o == FirstObservation(v, s, after[v][s]);
      } else {
        assert Seen(observations, v, s, before[v][s]);
      }
    }
  }

  /** One win per voucher, with its lead when someone else saw it too. */
  method AwardWins(grouped: map<string, PerSource>) returns (summaries: map<string, DiscoverySummary>)
    requires forall v | v in grouped :: grouped[v] != map[]
    ensures forall s :: SummaryAt(summaries, s) == SumShares(grouped, grouped.Keys, s)
    ensures forall s | s in summaries :: SawSomething(grouped, s)
  {
    summaries := map[];
    var todo := grouped.Keys;
    while todo != {}
      invariant todo <= grouped.Keys
      invariant forall s :: SummaryAt(summaries, s) == SumShares(grouped, grouped.Keys - todo, s)
      invariant forall s | s in summaries :: SawSomething(grouped, s)
      decreases todo
    {
      var v :| v in todo;
      var winner, runnerUp := FindWinner(grouped[v]);
      var lead := WinOf(grouped[v][winner], runnerUp);
      ShareOfWinner(grouped, v, winner, runnerUp);
      ghost var before := summaries;
      summaries := summaries[winner := Plus(lead, SummaryAt(summaries, winner))];
      AwardStep(grouped, grouped.Keys - todo, v, winner, lead, before, summaries);
      assert grouped.Keys - (todo - {v}) == (grouped.Keys - todo) + {v};
      todo := todo - {v};
    }
    assert grouped.Keys - {} == grouped.Keys;
  }

  ghost predicate SawSomething(grouped: map<string, PerSource>, source: string) {
    exists v | v in grouped :: source in grouped[v]
  }

  /** One source's row after the win of one more voucher. */
  lemma AwardAt(
    grouped: map<string, PerSource>, done: set<string>, v: string, winner: string, lead: DiscoverySummary,
    summaries: map<string, DiscoverySummary>, s: string)
    requires v !in done && ShareOf(grouped, v, s) == if s == winner then lead else NO_WINS
    requires SummaryAt(summaries, s) == SumShares(grouped, done, s)
    ensures SummaryAt(summaries[winner := Plus(lead, SummaryAt(summaries, winner))], s)
            == SumShares(grouped, done + {v}, s)
  {
    SumSharesStep(grouped, done, v, s);
  }

  lemma AwardStep(
    grouped: map<string, PerSource>, done: set<string>, v: string, winner: string, lead: DiscoverySummary,
    summaries: map<string, DiscoverySummary>, after: map<string, DiscoverySummary>)
    requires v !in done && after == summaries[winner := Plus(lead, SummaryAt(summaries, winner))]
    requires forall s :: ShareOf(grouped, v, s) == if s == winner then lead else NO_WINS
    requires forall s :: SummaryAt(summaries, s) == SumShares(grouped, done, s)
    ensures forall s :: SummaryAt(after, s) == SumShares(grouped, done + {v}, s)
  {
    forall s ensures SummaryAt(after, s) == SumShares(grouped, done + {v}, s) {
      AwardAt(grouped, done, v, winner, lead, summaries, s);
    }
  }

  lemma SumSharesStep(grouped: map<string, PerSource>, done: set<string>, v: string, s: string)
    requires v !in done
    ensures SumShares(grouped, done + {v}, s) == Plus(ShareOf(grouped, v, s), SumShares(grouped, done, s))
  {
    SumOneMore(SharesOf(grouped, s), done, v);
  }

  method SummarizeDiscovery(observations: seq<FirstObservation>) returns (summaries: map<string, DiscoverySummary>)
    ensures Summarizes(All(observations), summaries)
  {
    var byVoucher := GroupByVoucher(observations);
    summaries := AwardWins(byVoucher);
    for i := 0 to |observations|
      invariant forall s :: SummaryAt(summaries, s) == SumShares(byVoucher, byVoucher.Keys, s)
      invariant forall s | s in summaries :: SawSomething(byVoucher, s) || s in Sources(All(observations))
      invariant forall k | 0 <= k < i :: observations[k].source in summaries
    {
      var source := observations[i].source;
      assert observations[i] in All(observations);
      if source !in summaries {
        summaries := summaries[source := NO_WINS];
      }
    }
    SourcesGrouped(All(observations), byVoucher);
    assert IsSummary(All(observations), byVoucher, summaries);
  }

  lemma SourcesGrouped(observations: set<FirstObservation>, grouped: map<string, PerSource>)
    requires Grouped(observations, grouped)
    ensures forall s | SawSomething(grouped, s) :: s in Sources(observations)
  {
    forall s | SawSomething(grouped, s) ensures s in Sources(observations) {
      var v :| v in grouped && s in grouped[v];
      assert Seen(observations, v, s, grouped[v][s]);
      assert FirstObservation(v, s, grouped[v][s]).source == s;
    }
  }

  lemma {:induction false} SomeWinner(m: PerSource, among: set<string>) returns (s: string)
    requires among != {} && among <= m.Keys
    ensures s in among && forall t | t in among :: m[s] < m[t] || (m[s] == m[t] && StringLeq(s, t))
    decreases among
  {
    StringOrders();
    s :| s in among;
    if among != {s} {
      var t := SomeWinner(m, among - {s});
      if m[t] < m[s] || (m[t] == m[s] && StringLeq(t, s)) { s := t; }
    }
  }

  lemma ShareOfWinner(grouped: map<string, PerSource>, v: string, winner: string, runnerUp: Option<Instant>)
    requires v in grouped && IsWinner(grouped[v], winner)
    requires runnerUp.None? <==> grouped[v].Keys == {winner}
    requires runnerUp.Some? ==> IsRunnerUp(grouped[v], winner, runnerUp.value)
    ensures var lead := WinOf(grouped[v][winner], runnerUp);
            forall s :: ShareOf(grouped, v, s) == if s == winner then lead else NO_WINS
  {
    var m := grouped[v];
    forall s | IsWinner(m, s) ensures s == winner { WinnerUnique(m, s, winner); }
    if runnerUp.Some? {
      LeadFrom(m, winner, runnerUp.value);
      var t :| t in m && t != winner;
      assert Contested(m);
    } else {
      forall s, t | s in m && t in m ensures s == t { assert s in m.Keys && t in m.Keys; }
    }
  }

  // ----- what every summary satisfies -----

  lemma SummaryUnique(
    observations: set<FirstObservation>, ga: map<string, PerSource>, gb: map<string, PerSource>,
    sa: map<string, DiscoverySummary>, sb: map<string, DiscoverySummary>)
    requires IsSummary(observations, ga, sa) && IsSummary(observations, gb, sb)
    ensures sa == sb
  {
    GroupedUnique(observations, ga, gb);
  }

  /** The order and repetition of observations do not matter. */
  lemma OrderAndRepetitionIrrelevant(
    a: seq<FirstObservation>, b: seq<FirstObservation>,
    sa: map<string, DiscoverySummary>, sb: map<string, DiscoverySummary>)
    requires All(a) == All(b) && Summarizes(All(a), sa) && Summarizes(All(b), sb)
    ensures sa == sb
  {
    var ga :| IsSummary(All(a), ga, sa);
    var gb :| IsSummary(All(b), gb, sb);
    SummaryUnique(All(a), ga, gb, sa, sb);
  }

  ghost function TotalWins(summaries: map<string, DiscoverySummary>, over: set<string>): int
    requires over <= summaries.Keys
  {
    if over == {} then 0
    else
      var s :| s in over;
      summaries[s].wins + TotalWins(summaries, over - {s})
  }

  ghost predicate WonByOneOf(grouped: map<string, PerSource>, v: string, sources: set<string>) {
    v in grouped && exists s | s in sources :: IsWinner(grouped[v], s)
  }

  ghost function WonBy(grouped: map<string, PerSource>, over: set<string>, sources: set<string>): set<string> {
    set v | v in over && WonByOneOf(grouped, v, sources)
  }

  lemma WonByTake(grouped: map<string, PerSource>, over: set<string>, source: string, v: string)
    requires v in over
    ensures |WonBy(grouped, over, {source})|
            == |WonBy(grouped, over - {v}, {source})| + ShareOf(grouped, v, source).wins
  {
    var all, rest := WonBy(grouped, over, {source}), WonBy(grouped, over - {v}, {source});
    if v in grouped && IsWinner(grouped[v], source) {
      assert source in {source} && WonByOneOf(grouped, v, {source});
      assert all == rest + {v};
    } else {
      assert !WonByOneOf(grouped, v, {source});
      assert all == rest;
    }
  }

  lemma {:induction false} WinsCount(grouped: map<string, PerSource>, over: set<string>, source: string)
    ensures SumShares(grouped, over, source).wins == |WonBy(grouped, over, {source})|
    decreases over
  {
    if over == {} {
      assert WonBy(grouped, over, {source}) == {};
    } else {
      var v :| v in over;
      SumTake(SharesOf(grouped, source), over, v);
      WonByTake(grouped, over, source, v);
      WinsCount(grouped, over - {v}, source);
    }
  }

  lemma WonBySplits(grouped: map<string, PerSource>, sources: set<string>, s: string)
    requires s in sources
    ensures var all := WonBy(grouped, grouped.Keys, sources);
            |all| == |WonBy(grouped, grouped.Keys, {s})| + |WonBy(grouped, grouped.Keys, sources - {s})|
  {
    var mine, others := WonBy(grouped, grouped.Keys, {s}), WonBy(grouped, grouped.Keys, sources - {s});
    forall v ensures v in WonBy(grouped, grouped.Keys, sources) <==> v in mine + others {
      if v in mine { assert IsWinner(grouped[v], s); }
    }
    forall v | v in mine && v in others ensures false {
      var t :| t in sources - {s} && IsWinner(grouped[v], t);
      WinnerUnique(grouped[v], s, t);
    }
    assert WonBy(grouped, grouped.Keys, sources) == mine + others && mine !! others;
  }

  lemma {:induction false} WinsPartition(
      grouped: map<string, PerSource>, summaries: map<string, DiscoverySummary>, over: set<string>)
    requires over <= summaries.Keys
    requires forall s | s in summaries :: summaries[s] == SumShares(grouped, grouped.Keys, s)
    ensures TotalWins(summaries, over) == |WonBy(grouped, grouped.Keys, over)|
    decreases over
  {
    if over == {} {
      assert WonBy(grouped, grouped.Keys, over) == {};
    } else {
      var s :| s in over && TotalWins(summaries, over) == summaries[s].wins + TotalWins(summaries, over - {s});
      WinsPartition(grouped, summaries, over - {s});
      WinsCount(grouped, grouped.Keys, s);
      WonBySplits(grouped, over, s);
    }
  }

  /** Exactly one win is awarded per voucher observed. */
  lemma WinsSumToVouchers(observations: set<FirstObservation>, summaries: map<string, DiscoverySummary>)
    requires Summarizes(observations, summaries)
    ensures TotalWins(summaries, summaries.Keys) == |Vouchers(observations)|
  {
    var grouped :| IsSummary(observations, grouped, summaries);
    WinsPartition(grouped, summaries, summaries.Keys);
    EveryVoucherWon(observations, grouped);
    VouchersGrouped(observations, grouped);
  }

  lemma EveryVoucherWon(observations: set<FirstObservation>, grouped: map<string, PerSource>)
    requires Grouped(observations, grouped)
    ensures WonBy(grouped, grouped.Keys, Sources(observations)) == grouped.Keys
  {
    forall v | v in grouped ensures WonByOneOf(grouped, v, Sources(observations)) {
      WonBySomeone(observations, grouped, v);
    }
  }

  lemma WonBySomeone(observations: set<FirstObservation>, grouped: map<string, PerSource>, v: string)
    requires Grouped(observations, grouped) && v in grouped
    ensures WonByOneOf(grouped, v, Sources(observations))
  {
    var s := SomeWinner(grouped[v], grouped[v].Keys);
    assert IsWinner(grouped[v], s);
    assert Seen(observations, v, s, grouped[v][s]);
    assert FirstObservation(v, s, grouped[v][s]).source == s;
  }

  lemma VouchersGrouped(observations: set<FirstObservation>, grouped: map<string, PerSource>)
    requires Grouped(observations, grouped)
    ensures grouped.Keys == Vouchers(observations)
  {
    forall v | v in grouped ensures exists o | o in observations :: o.voucherId == v {
      var s :| s in grouped[v].Keys;
      assert Seen(observations, v, s, grouped[v][s]);
      assert FirstObservation(v, s, grouped[v][s]).voucherId == v;
    }
    forall o | o in observations ensures o.voucherId in grouped {
      assert Seen(observations, o.voucherId, o.source, o.observedAt);
    }
  }

  predicate RowSound(row: DiscoverySummary) { LeadsCounted(row) && MeanSound(row) }

  predicate LeadsCounted(row: DiscoverySummary) {
    0 <= row.totalLead && 0 <= row.leadSamples <= row.wins && (row.leadSamples == 0 ==> row.totalLead == 0)
  }

  predicate MeanSound(row: DiscoverySummary) {
    match row.AverageLead()
    case Some(mean) => row.leadSamples > 0 && mean * row.leadSamples <= row.totalLead < (mean + 1) * row.leadSamples
    case None => row.leadSamples <= 0
  }

  lemma {:induction false} SumCounted(grouped: map<string, PerSource>, over: set<string>, source: string)
    ensures LeadsCounted(SumShares(grouped, over, source))
    decreases over
  {
    if over != {} {
      var v :| v in over;
      SumTake(SharesOf(grouped, source), over, v);
      SumCounted(grouped, over - {v}, source);
    }
  }

  lemma CountedIsSound(row: DiscoverySummary)
    requires LeadsCounted(row)
    ensures RowSound(row)
  {
    if row.leadSamples > 0 {
      DivBounds(row.totalLead, row.leadSamples);
      TruncatePositive(row.totalLead, row.leadSamples);
    }
  }

  /** Leads are never negative, only contested wins are sampled, and the average is the truncated mean. */
  lemma LeadsSound(observations: set<FirstObservation>, summaries: map<string, DiscoverySummary>, source: string)
    requires Summarizes(observations, summaries)
    ensures source in summaries <==> exists o :: o in observations && o.source == source
    ensures source in summaries ==> RowSound(summaries[source])
  {
    var grouped :| IsSummary(observations, grouped, summaries);
    SumCounted(grouped, grouped.Keys, source);
    CountedIsSound(SumShares(grouped, grouped.Keys, source));
    assert source in summaries <==> source in Sources(observations);
  }
}
