/** What the losing combinations are told, and where every voucher ends up. */
module ExplanationProperties {
  import opened Domain
  import opened Orders
  import opened Optimize
  import opened SearchProperties
  import opened PlanProperties
  import B = Basket

  // ----- the losing combinations -----

  ghost predicate Permitted(searched: seq<Candidate>, policy: StackingPolicy, at: set<nat>) {
    (forall p | p in at :: p < |searched|) && Allowed(Pick(searched, at), policy)
  }

  /** `other` saves less than `at`, or as much with at least as many vouchers. */
  ghost predicate NoBetter(searched: seq<Candidate>, basket: B.Basket, other: set<nat>, at: set<nat>) {
    || Total(Pick(searched, other), basket) < Total(Pick(searched, at), basket)
    || (Total(Pick(searched, other), basket) == Total(Pick(searched, at), basket) && |at| <= |other|)
  }

  /** The policy allows the combination, and no combination it allows is better. */
  ghost predicate Optimal(searched: seq<Candidate>, policy: StackingPolicy, basket: B.Basket, at: set<nat>) {
    Permitted(searched, policy, at)
    && forall other: set<nat> | Permitted(searched, policy, other) :: NoBetter(searched, basket, other, at)
  }

  lemma WinnerOptimal(basket: B.Basket, vouchers: seq<Voucher>, policy: StackingPolicy)
    ensures Optimal(Searched(basket, vouchers, policy), policy, basket, Winner(basket, vouchers, policy))
    ensures |Winner(basket, vouchers, policy)| == |PlanFor(basket, vouchers, policy).selected|
  {
    var searched, winner := Searched(basket, vouchers, policy), Winner(basket, vouchers, policy);
    PlanIsWinner(basket, vouchers, policy);
    PickSize(searched, winner);
    forall other: set<nat> | Permitted(searched, policy, other) ensures NoBetter(searched, basket, other, winner) {
      PlanOptimal(basket, vouchers, policy, other);
    }
  }

  lemma OptimumRanked(searched: seq<Candidate>, policy: StackingPolicy, basket: B.Basket, at: set<nat>)
    returns (j: nat)
    requires Permitted(searched, policy, at)
    ensures var ranked := Ranked(searched, policy, basket);
            && j < |ranked| && ranked[j].mask < Pow2(|searched|) && Bits(ranked[j].mask, |searched|) == at
            && ranked[j] == EntryOf(searched, basket, ranked[j].mask)
                && Combo(searched, ranked[j].mask) == Pick(searched, at)
  {
    var mask := ComboIsPick(searched, at);
    RankedExactly(searched, policy, basket);
    j :| 0 <= j < |Ranked(searched, policy, basket)|
         && Ranked(searched, policy, basket)[j] == EntryOf(searched, basket, mask);
  }

  lemma RankedMasksDiffer(searched: seq<Candidate>, policy: StackingPolicy, basket: B.Basket, i: nat, j: nat)
    requires i < j < |Ranked(searched, policy, basket)|
    ensures Bits(Ranked(searched, policy, basket)[i].mask, |searched|)
         != Bits(Ranked(searched, policy, basket)[j].mask, |searched|)
  {
    var e, f := Ranked(searched, policy, basket)[i], Ranked(searched, policy, basket)[j];
    RankedSound(searched, policy, basket, e);
    RankedSound(searched, policy, basket, f);
    RankedExactly(searched, policy, basket);
    if Bits(e.mask, |searched|) == Bits(f.mask, |searched|) {
      MaskUnique(e.mask, f.mask, |searched|);
    }
  }

  /** The alternative tells the truth about the combination's total and names, and compares it to the best total. */
  predicate Shows(candidates: seq<Candidate>, a: Alternative, c: Combination, best: Money) {
    && a.total == c.total && a.names == Map(NameOf, Combo(candidates, c.mask))
    && a.why == if a.total < best then SavesLess(best - a.total) else SameSavingButUsesMoreVouchers
  }

  lemma {:induction false} AlternativeSource(
    candidates: seq<Candidate>, rest: seq<Combination>, best: Money, room: nat, i: nat)
    returns (k: nat)
    requires i < |AlternativesFrom(candidates, rest, best, room)|
    ensures k < |rest| && rest[k].mask != 0
    ensures Shows(candidates, AlternativesFrom(candidates, rest, best, room)[i], rest[k], best)
  {
    if rest[0].mask == 0 {
      k := AlternativeSource(candidates, rest[1..], best, room, i);
      k := k + 1;
    } else if i == 0 {
      k := 0;
    } else {
      k := AlternativeSource(candidates, rest[1..], best, room - 1, i - 1);
      k := k + 1;
    }
  }

  /** The entry describes the combination at its mask, which the policy permits. */
  ghost predicate Describes(
      searched: seq<Candidate>, policy: StackingPolicy, basket: B.Basket, e: Entry, at: set<nat>) {
    && Permitted(searched, policy, at)
    && e.total == Total(Pick(searched, at), basket) && e.size == |at| == |Pick(searched, at)|
  }

  /** The larger saving comes first, then the smaller combination. */
  predicate KeysLeq(e: Entry, f: Entry) { e.total > f.total || (e.total == f.total && e.size <= f.size) }

  lemma RankedEntry(searched: seq<Candidate>, policy: StackingPolicy, basket: B.Basket, i: nat) returns (at: set<nat>)
    requires i < |Ranked(searched, policy, basket)|
    ensures var e := Ranked(searched, policy, basket)[i];
            && at == Bits(e.mask, |searched|) && Describes(searched, policy, basket, e, at)
            && (e.mask == 0 ==> at == {})
  {
    var e := Ranked(searched, policy, basket)[i];
    RankedSound(searched, policy, basket, e);
    at := Bits(e.mask, |searched|);
    PickSize(searched, at);
    NoBits(|searched|);
  }

  lemma RankedKeys(searched: seq<Candidate>, policy: StackingPolicy, basket: B.Basket, i: nat, j: nat)
    requires i < j < |Ranked(searched, policy, basket)|
    ensures KeysLeq(Ranked(searched, policy, basket)[i], Ranked(searched, policy, basket)[j])
  {
    RankedExactly(searched, policy, basket);
  }

  /** What lies between two descriptions in the ranking, the later one optimal, is as good as both. */
  lemma Between(
    searched: seq<Candidate>, policy: StackingPolicy, basket: B.Basket,
    e: Entry, first: set<nat>, f: Entry, g: Entry, at: set<nat>)
    requires Describes(searched, policy, basket, e, first) && Describes(searched, policy, basket, g, at)
    requires Optimal(searched, policy, basket, at) && KeysLeq(e, f) && KeysLeq(f, g)
    ensures e.total == f.total == g.total && e.size == f.size == g.size
  {
    assert NoBetter(searched, basket, first, at);
  }

  /** A second optimal combination puts an optimal one right behind the winner. */
  lemma SecondRanked(searched: seq<Candidate>, policy: StackingPolicy, basket: B.Basket, at: set<nat>)
    requires Optimal(searched, policy, basket, at)
    requires var ranked := Ranked(searched, policy, basket); ranked == [] || at != Bits(ranked[0].mask, |searched|)
    ensures var ranked := Ranked(searched, policy, basket);
            && |ranked| >= 2 && ranked[1].mask != 0
            && ranked[1].total == ranked[0].total && ranked[1].size == ranked[0].size
  {
    var ranked := Ranked(searched, policy, basket);
    var j := OptimumRanked(searched, policy, basket, at);
    var first := RankedEntry(searched, policy, basket, 0);
    var second := RankedEntry(searched, policy, basket, 1);
    var same := RankedEntry(searched, policy, basket, j);
    RankedKeys(searched, policy, basket, 0, 1);
    if j > 1 { RankedKeys(searched, policy, basket, 1, j); }
    Between(searched, policy, basket, ranked[0], first, ranked[1], ranked[j], at);
    if second == {} { EmptySets(first, at); }
  }

  lemma RankedHeads(basket: B.Basket, vouchers: seq<Voucher>, policy: StackingPolicy)
    ensures var ranked := Ranked(Searched(basket, vouchers, policy), policy, basket);
            && ranked != []
            && Winner(basket, vouchers, policy) == Bits(ranked[0].mask, |Searched(basket, vouchers, policy)|)
            && ranked[0].size == |PlanFor(basket, vouchers, policy).selected|
            && PlanFor(basket, vouchers, policy).total == ranked[0].total
  {
    var searched := Searched(basket, vouchers, policy);
    EmptyAllowed(searched, policy);
    PickNothing(searched);
    HeadDominates(searched, policy, basket, {});
    RankedSound(searched, policy, basket, Ranked(searched, policy, basket)[0]);
  }

  lemma RestRanked(basket: B.Basket, vouchers: seq<Voucher>, policy: StackingPolicy, k: nat)
    requires k < |AfterWinner(Combinations(basket, vouchers, policy))|
    ensures var ranked := Ranked(Searched(basket, vouchers, policy), policy, basket);
            k + 1 < |ranked| && AfterWinner(Combinations(basket, vouchers, policy))[k] == Summary(ranked[k + 1])
  {
  }

  lemma PlanAlternatives(basket: B.Basket, vouchers: seq<Voucher>, policy: StackingPolicy)
    ensures var plan, rest := PlanFor(basket, vouchers, policy), AfterWinner(Combinations(basket, vouchers, policy));
            plan.alternatives
              == AlternativesFrom(Searched(basket, vouchers, policy), rest, plan.total, MAX_ALTERNATIVES)
  {
  }

  /** The ranked combination an alternative shows. */
  lemma AlternativeRanked(basket: B.Basket, vouchers: seq<Voucher>, policy: StackingPolicy, i: nat) returns (k: nat)
    requires i < |PlanFor(basket, vouchers, policy).alternatives|
    ensures 0 < k < |Ranked(Searched(basket, vouchers, policy), policy, basket)|
    ensures var searched, plan := Searched(basket, vouchers, policy), PlanFor(basket, vouchers, policy);
            Shows(searched, plan.alternatives[i], Summary(Ranked(searched, policy, basket)[k]), plan.total)
  {
    var searched, rest := Searched(basket, vouchers, policy), AfterWinner(Combinations(basket, vouchers, policy));
    var plan := PlanFor(basket, vouchers, policy);
    PlanAlternatives(basket, vouchers, policy);
    k := AlternativeSource(searched, rest, plan.total, MAX_ALTERNATIVES, i);
    RestRanked(basket, vouchers, policy, k);
    k := k + 1;
  }

  /**
   * Every alternative shown is an allowed combination other than the winner; it is said to save less, and by how
   * much, exactly when it does; and one that saves as much uses at least as many vouchers as the plan.
   */
  lemma AlternativesExplained(basket: B.Basket, vouchers: seq<Voucher>, policy: StackingPolicy, i: nat)
    returns (at: set<nat>)
    requires i < |PlanFor(basket, vouchers, policy).alternatives|
    ensures Permitted(Searched(basket, vouchers, policy), policy, at) && at != Winner(basket, vouchers, policy)
    ensures var plan := PlanFor(basket, vouchers, policy);
            var a, combo := plan.alternatives[i], Pick(Searched(basket, vouchers, policy), at);
            && a.total == Total(combo, basket) && a.names == Map(NameOf, combo) && |a.names| == |at|
            && a.total <= plan.total
            && (a.why.SavesLess? <==> a.total < plan.total)
            && (a.why.SavesLess? ==> a.why.amount == plan.total - a.total)
            && (a.total == plan.total ==> |a.names| >= |plan.selected|)
  {
    var searched := Searched(basket, vouchers, policy);
    var k := AlternativeRanked(basket, vouchers, policy, i);
    RankedHeads(basket, vouchers, policy);
    at := RankedEntry(searched, policy, basket, k);
    RankedMasksDiffer(searched, policy, basket, 0, k);
    RankedKeys(searched, policy, basket, 0, k);
  }

  lemma FirstShown(candidates: seq<Candidate>, rest: seq<Combination>, best: Money, room: nat)
    requires rest != [] && rest[0].mask != 0 && room > 0
    ensures var shown := AlternativesFrom(candidates, rest, best, room);
            && shown != [] && |shown[0].names| == |Combo(candidates, rest[0].mask)|
            && (rest[0].total == best ==> shown[0].why == SameSavingButUsesMoreVouchers)
  {
  }

  /** An alternative said to use more vouchers does. */
  predicate UsesMore(plan: Plan, i: nat)
    requires i < |plan.alternatives|
  {
    plan.alternatives[i].why == SameSavingButUsesMoreVouchers ==> |plan.alternatives[i].names| > |plan.selected|
  }

  /** Every alternative said to use more vouchers does. */
  ghost predicate TextsTrue(plan: Plan) { forall i: nat | i < |plan.alternatives| :: UsesMore(plan, i) }

  /** A second optimal combination is shown as the first alternative, and is as large as the plan. */
  lemma SecondOptimumShown(basket: B.Basket, vouchers: seq<Voucher>, policy: StackingPolicy, at: set<nat>)
    requires Optimal(Searched(basket, vouchers, policy), policy, basket, at) && at != Winner(basket, vouchers, policy)
    ensures !TextsTrue(PlanFor(basket, vouchers, policy))
  {
    var searched, plan := Searched(basket, vouchers, policy), PlanFor(basket, vouchers, policy);
    var ranked, rest := Ranked(searched, policy, basket), AfterWinner(Combinations(basket, vouchers, policy));
    RankedHeads(basket, vouchers, policy);
    SecondRanked(searched, policy, basket, at);
    assert rest[0] == Summary(ranked[1]);
    RankedSound(searched, policy, basket, ranked[1]);
    FirstShown(searched, rest, plan.total, MAX_ALTERNATIVES);
    assert plan.alternatives == AlternativesFrom(searched, rest, plan.total, MAX_ALTERNATIVES);
    assert !UsesMore(plan, 0);
  }

  lemma EmptySets(a: set<nat>, b: set<nat>)
    requires |a| == |b| == 0
    ensures a == b
  {
  }

  ghost predicate SoleOptimum(searched: seq<Candidate>, policy: StackingPolicy, basket: B.Basket) {
    forall a: set<nat>, b: set<nat> |
      Optimal(searched, policy, basket, a) && Optimal(searched, policy, basket, b) :: a == b
  }

  lemma LoserUsesMore(basket: B.Basket, vouchers: seq<Voucher>, policy: StackingPolicy, i: nat)
    requires SoleOptimum(Searched(basket, vouchers, policy), policy, basket)
    requires i < |PlanFor(basket, vouchers, policy).alternatives|
    ensures UsesMore(PlanFor(basket, vouchers, policy), i)
  {
    var searched, winner := Searched(basket, vouchers, policy), Winner(basket, vouchers, policy);
    var at := AlternativesExplained(basket, vouchers, policy, i);
    PlanIsWinner(basket, vouchers, policy);
    WinnerOptimal(basket, vouchers, policy);
    if |at| == |winner| && Total(Pick(searched, at), basket) == Total(Pick(searched, winner), basket) {
      AsGoodIsOptimal(searched, policy, basket, winner, at);
    }
  }

  /** The text "uses more vouchers" is true wherever it is given exactly when only one combination is optimal. */
  lemma TextsTrueIff(basket: B.Basket, vouchers: seq<Voucher>, policy: StackingPolicy)
    ensures TextsTrue(PlanFor(basket, vouchers, policy))
       <==> SoleOptimum(Searched(basket, vouchers, policy), policy, basket)
  {
    var searched := Searched(basket, vouchers, policy);
    if SoleOptimum(searched, policy, basket) {
      forall i: nat | i < |PlanFor(basket, vouchers, policy).alternatives|
        ensures UsesMore(PlanFor(basket, vouchers, policy), i)
      {
        LoserUsesMore(basket, vouchers, policy, i);
      }
    } else {
      var a, b :| Optimal(searched, policy, basket, a) && Optimal(searched, policy, basket, b) && a != b;
      SecondOptimumShown(basket, vouchers, policy, if a == Winner(basket, vouchers, policy) then b else a);
    }
  }

  lemma AsGoodIsOptimal(
    searched: seq<Candidate>, policy: StackingPolicy, basket: B.Basket, best: set<nat>, other: set<nat>)
    requires Optimal(searched, policy, basket, best) && Permitted(searched, policy, other)
    requires Total(Pick(searched, best), basket) == Total(Pick(searched, other), basket) && |best| == |other|
    ensures Optimal(searched, policy, basket, other)
  {
    forall third: set<nat> | Permitted(searched, policy, third) ensures NoBetter(searched, basket, third, other) {
      assert NoBetter(searched, basket, third, best);
    }
  }

  // ----- every voucher is accounted for -----

  function IndexOf(c: Candidate): nat { c.reference.index }

  function ExcludedIndex(e: ExcludedVoucher): nat { e.voucher.index }

  function Positions(n: nat): seq<nat> { if n == 0 then [] else Positions(n - 1) + [n - 1] }

  lemma MapMore<T, U>(f: T -> U, s: seq<T>, x: T)
    ensures multiset(Map(f, s + [x])) == multiset(Map(f, s)) + multiset{f(x)}
  {
    assert Map(f, s + [x]) == Map(f, s) + [f(x)];
  }

  /** The positions of the vouchers up to `last`, offered or not, after the last one. */
  lemma LastIndexed(basket: B.Basket, vouchers: seq<Voucher>, last: nat)
    requires |vouchers| == last + 1
    ensures multiset(Map(IndexOf, CandidatesOf(basket, vouchers)))
         == multiset(Map(IndexOf, CandidatesOf(basket, vouchers[..last])))
            + (if Assess(vouchers[last], basket).Offered? then multiset{last} else multiset{})
  {
    match Assess(vouchers[last], basket)
    case Offered(group, estimate, shipping) =>
      var c := Candidate(RefOf(last, vouchers[last]), group, estimate, shipping);
      MapMore(IndexOf, CandidatesOf(basket, vouchers[..last]), c);
      assert IndexOf(c) == last;
    case Refused(_) =>
  }

  lemma LastExcluded(basket: B.Basket, vouchers: seq<Voucher>, last: nat)
    requires |vouchers| == last + 1
    ensures multiset(Map(ExcludedIndex, ExclusionsOf(basket, vouchers)))
         == multiset(Map(ExcludedIndex, ExclusionsOf(basket, vouchers[..last])))
            + (if Assess(vouchers[last], basket).Offered? then multiset{} else multiset{last})
  {
    match Assess(vouchers[last], basket)
    case Offered(_, _, _) =>
    case Refused(reason) =>
      var e := ExcludedVoucher(RefOf(last, vouchers[last]), reason);
      MapMore(ExcludedIndex, ExclusionsOf(basket, vouchers[..last]), e);
      assert ExcludedIndex(e) == last;
  }

  lemma {:induction false} EachAssessed(basket: B.Basket, vouchers: seq<Voucher>)
    ensures multiset(Map(IndexOf, CandidatesOf(basket, vouchers)))
            + multiset(Map(ExcludedIndex, ExclusionsOf(basket, vouchers)))
         == multiset(Positions(|vouchers|))
  {
    if vouchers != [] {
      EachAssessed(basket, vouchers[..|vouchers| - 1]);
      LastIndexed(basket, vouchers, |vouchers| - 1);
      LastExcluded(basket, vouchers, |vouchers| - 1);
    }
  }

  lemma SearchedOrDropped(basket: B.Basket, vouchers: seq<Voucher>, policy: StackingPolicy)
    ensures multiset(Map(IndexOf, CandidatesOf(basket, vouchers)))
         == multiset(Map(IndexOf, Searched(basket, vouchers, policy)))
             + multiset(Map(IndexOf, Dropped(basket, vouchers, policy)))
  {
    var s, d := Searched(basket, vouchers, policy), Dropped(basket, vouchers, policy);
    KeptAndDropped(Sorted(basket, vouchers), policy.SearchLimit());
    MapPermutes(IndexOf, s + d, CandidatesOf(basket, vouchers));
    MapConcat(IndexOf, s, d);
  }

  lemma KeptAndDropped<T>(all: seq<T>, limit: nat)
    ensures (if |all| > limit then all[..limit] else all) + (if |all| > limit then all[limit..] else []) == all
  {
  }

  /** Each input voucher is either searched or excluded with a reason, and never both. */
  lemma EveryVoucherAccounted(basket: B.Basket, vouchers: seq<Voucher>, policy: StackingPolicy)
    ensures multiset(Map(IndexOf, Searched(basket, vouchers, policy)))
            + multiset(Map(ExcludedIndex, PlanFor(basket, vouchers, policy).excluded))
         == multiset(Positions(|vouchers|))
  {
    EachAssessed(basket, vouchers);
    SearchedOrDropped(basket, vouchers, policy);
    ExcludedParts(basket, vouchers, policy);
  }

  lemma ExcludedParts(basket: B.Basket, vouchers: seq<Voucher>, policy: StackingPolicy)
    ensures multiset(Map(ExcludedIndex, PlanFor(basket, vouchers, policy).excluded))
         == multiset(Map(ExcludedIndex, ExclusionsOf(basket, vouchers)))
             + multiset(Map(IndexOf, Dropped(basket, vouchers, policy)))
  {
    var d := Dropped(basket, vouchers, policy);
    var refused, dropped := ExclusionsOf(basket, vouchers), NotSearched(policy.SearchLimit(), d);
    assert Map(ExcludedIndex, dropped) == Map(IndexOf, d);
    MapConcat(ExcludedIndex, refused, dropped);
  }
}

/** When two combinations tie, and what input order then decides. */
module TieProperties {
  import opened Domain
  import opened Orders
  import opened Optimize
  import opened SearchProperties
  import opened PlanProperties
  import opened ExplanationProperties
  import B = Basket
  import C = Constraint
  import Text

  // ----- the ranking ties exactly when labels repeat -----

  ghost predicate Distinct<T(!new)>(s: seq<T>) { forall i, j | 0 <= i < j < |s| :: s[i] != s[j] }

  lemma {:induction false} PickInjective<T(!new)>(s: seq<T>, a: set<nat>, b: set<nat>)
    requires Distinct(s) && Pick(s, a) == Pick(s, b)
    ensures forall p: nat | p < |s| :: p in a <==> p in b
  {
    if s != [] {
      var last := |s| - 1;
      var init := s[..last];
      if last in a { LastPicked(s, a, b); }
      if last in b { LastPicked(s, b, a); }
      if last in a {
        assert Pick(init, a) == Pick(s, a)[..|Pick(s, a)| - 1];
        assert Pick(init, b) == Pick(s, b)[..|Pick(s, b)| - 1];
      } else {
        assert Pick(init, a) == Pick(s, a) && Pick(init, b) == Pick(s, b);
      }
      PickInjective(init, a, b);
    }
  }

  lemma LastPicked<T(!new)>(s: seq<T>, a: set<nat>, b: set<nat>)
    requires s != [] && Distinct(s) && Pick(s, a) == Pick(s, b) && |s| - 1 in a
    ensures |s| - 1 in b
  {
    var last := |s| - 1;
    if last !in b {
      assert Pick(s, a)[|Pick(s, a)| - 1] == s[last];
      assert Pick(s, b) == Pick(s[..last], b);
      var p := PickMember(s[..last], b, s[last]);
      assert false;
    }
  }

  lemma TiedNames(e: Entry, f: Entry)
    requires EntryLeq(e, f) && EntryLeq(f, e)
    ensures e.names == f.names
  {
    StringOrders();
  }

  lemma SameNamesSamePick(candidates: seq<Candidate>, a: set<nat>, b: set<nat>)
    requires Distinct(Map(NameOf, candidates))
    requires (forall p | p in a :: p < |candidates|) && (forall p | p in b :: p < |candidates|)
    requires Map(NameOf, Pick(candidates, a)) == Map(NameOf, Pick(candidates, b))
    ensures a == b
  {
    PickMap(NameOf, candidates, a);
    PickMap(NameOf, candidates, b);
    PickInjective(Map(NameOf, candidates), a, b);
    SameBelow(a, b, |candidates|);
  }

  lemma SameBelow(a: set<nat>, b: set<nat>, n: nat)
    requires (forall p | p in a :: p < n) && (forall p | p in b :: p < n)
    requires forall p: nat | p < n :: p in a <==> p in b
    ensures a == b
  {
  }

  lemma DistinctNamesSeparate(candidates: seq<Candidate>, basket: B.Basket, m: nat, n: nat)
    requires Distinct(Map(NameOf, candidates)) && m < Pow2(|candidates|) && n < Pow2(|candidates|)
    requires EntryLeq(EntryOf(candidates, basket, m), EntryOf(candidates, basket, n))
    requires EntryLeq(EntryOf(candidates, basket, n), EntryOf(candidates, basket, m))
    ensures m == n
  {
    TiedNames(EntryOf(candidates, basket, m), EntryOf(candidates, basket, n));
    SameNamesSamePick(candidates, Bits(m, |candidates|), Bits(n, |candidates|));
    MaskUnique(m, n, |candidates|);
  }

  lemma {:induction false} PickSingle<T>(s: seq<T>, i: nat)
    requires i < |s|
    ensures Pick(s, {i}) == [s[i]]
  {
    if i < |s| - 1 {
      PickSingle(s[..|s| - 1], i);
    } else {
      PickWithin(s[..i], {i}, {});
      PickNothing(s[..i]);
    }
  }

  function LabelOf(v: Voucher): string { C.LabelFor(v.terms) }

  /** No two combinations the planner ranks tie. */
  ghost predicate NoTies(basket: B.Basket, vouchers: seq<Voucher>, policy: StackingPolicy) {
    var ranked := Ranked(Searched(basket, vouchers, policy), policy, basket);
    forall i, j | 0 <= i < j < |ranked| :: !EntryLeq(ranked[j], ranked[i])
  }

  /** Vouchers with these labels never make a tie, whatever their terms, the basket and the policy. */
  ghost predicate NeverTies(labels: seq<string>) {
    forall basket, vouchers, policy | Map(LabelOf, vouchers) == labels :: NoTies(basket, vouchers, policy)
  }

  lemma {:induction false} CandidateLabel(basket: B.Basket, vouchers: seq<Voucher>, i: nat)
    requires i < |CandidatesOf(basket, vouchers)|
    ensures var r := CandidatesOf(basket, vouchers)[i].reference;
            r.index < |vouchers| && r.name == LabelOf(vouchers[r.index])
  {
    var init := vouchers[..|vouchers| - 1];
    if i < |CandidatesOf(basket, init)| { CandidateLabel(basket, init, i); }
  }

  lemma {:induction false} IndicesAscend(basket: B.Basket, vouchers: seq<Voucher>, i: nat, j: nat)
    requires i < j < |CandidatesOf(basket, vouchers)|
    ensures CandidatesOf(basket, vouchers)[i].reference.index < CandidatesOf(basket, vouchers)[j].reference.index
  {
    var init := vouchers[..|vouchers| - 1];
    if j < |CandidatesOf(basket, init)| { IndicesAscend(basket, init, i, j); } else { CandidateLabel(basket, init, i); }
  }

  lemma NamesDistinct(basket: B.Basket, vouchers: seq<Voucher>)
    requires Distinct(Map(LabelOf, vouchers))
    ensures Distinct(Map(NameOf, CandidatesOf(basket, vouchers)))
  {
    var candidates, labels := CandidatesOf(basket, vouchers), Map(LabelOf, vouchers);
    forall i, j | 0 <= i < j < |candidates| ensures candidates[i].reference.name != candidates[j].reference.name {
      CandidateLabel(basket, vouchers, i);
      CandidateLabel(basket, vouchers, j);
      IndicesAscend(basket, vouchers, i, j);
      assert labels[candidates[i].reference.index] != labels[candidates[j].reference.index];
    }
  }

  lemma RepeatCounted<T>(s: seq<T>, i: nat, j: nat)
    requires i < j < |s| && s[i] == s[j]
    ensures multiset(s)[s[i]] >= 2
  {
    assert s == s[..i] + [s[i]] + s[i + 1..j] + [s[j]] + s[j + 1..];
  }

  lemma {:induction false} DistinctCounted<T(!new)>(s: seq<T>, x: T)
    requires Distinct(s)
    ensures multiset(s)[x] <= 1
  {
    if s != [] {
      var last := |s| - 1;
      MultisetLast(s);
      DistinctCounted(s[..last], x);
      if x == s[last] { assert x !in s[..last]; }
    }
  }

  lemma DistinctPermutes<T(!new)>(s: seq<T>, t: seq<T>)
    requires Distinct(s) && multiset(s) == multiset(t)
    ensures Distinct(t)
  {
    forall i, j | 0 <= i < j < |t| ensures t[i] != t[j] {
      DistinctCounted(s, t[i]);
      if t[i] == t[j] { RepeatCounted(t, i, j); }
    }
  }

  lemma SearchedLabelsDistinct(basket: B.Basket, vouchers: seq<Voucher>, policy: StackingPolicy)
    requires Distinct(Map(LabelOf, vouchers))
    ensures Distinct(Map(NameOf, Searched(basket, vouchers, policy)))
  {
    var sorted, searched := Sorted(basket, vouchers), Searched(basket, vouchers, policy);
    NamesDistinct(basket, vouchers);
    MapPermutes(NameOf, CandidatesOf(basket, vouchers), sorted);
    DistinctPermutes(Map(NameOf, CandidatesOf(basket, vouchers)), Map(NameOf, sorted));
    DistinctPrefix(Map(NameOf, sorted), Map(NameOf, searched));
  }

  lemma DistinctPrefix<T(!new)>(s: seq<T>, prefix: seq<T>)
    requires Distinct(s) && prefix <= s
    ensures Distinct(prefix)
  {
  }

  lemma DistinctLabelsNoTies(basket: B.Basket, vouchers: seq<Voucher>, policy: StackingPolicy)
    requires Distinct(Map(LabelOf, vouchers))
    ensures NoTies(basket, vouchers, policy)
  {
    var searched := Searched(basket, vouchers, policy);
    var ranked := Ranked(searched, policy, basket);
    SearchedLabelsDistinct(basket, vouchers, policy);
    RankedExactly(searched, policy, basket);
    forall i, j | 0 <= i < j < |ranked| ensures !EntryLeq(ranked[j], ranked[i]) {
      RankedSound(searched, policy, basket, ranked[i]);
      RankedSound(searched, policy, basket, ranked[j]);
      if EntryLeq(ranked[j], ranked[i]) {
        DistinctNamesSeparate(searched, basket, ranked[i].mask, ranked[j].mask);
      }
    }
  }

  // ----- two interchangeable vouchers -----

  /** The most that merchandise, or shipping, vouchers can save. */
  function PoolOf(c: Candidate, basket: B.Basket): Money {
    if c.targetsShipping then basket.ShippingCap() else basket.MerchandiseSubtotal()
  }

  /** Two vouchers of equal value for one slot, of which the policy allows one. */
  predicate Interchangeable(a: Candidate, b: Candidate, policy: StackingPolicy, basket: B.Basket) {
    && a.group == b.group && a.targetsShipping == b.targetsShipping && 0.0 < a.estimate == b.estimate
    && policy.Limit(a.group) == 1 && (policy.maxTotal.Some? ==> policy.maxTotal.value >= 1)
    && a.estimate <= PoolOf(a, basket) && basket.MerchandiseSubtotal() >= 0.0 && basket.ShippingCap() >= 0.0
  }

  lemma OneVoucher(c: Candidate, policy: StackingPolicy, basket: B.Basket)
    requires Interchangeable(c, c, policy, basket)
    ensures Allowed([c], policy) && Total([c], basket) == c.estimate && Total([], basket) == 0.0
  {
    assert Groups([c]) == [c.group];
    assert [c][..0] == [];
    assert SumBy(MerchandisePart, [c]) == SumBy(MerchandisePart, []) + MerchandisePart(c);
    assert SumBy(ShippingPart, [c]) == SumBy(ShippingPart, []) + ShippingPart(c);
  }

  lemma PickPair<T>(a: T, b: T, at: set<nat>)
    ensures Pick([a, b], at) == (if 0 in at then [a] else []) + (if 1 in at then [b] else [])
  {
    assert [a, b][..1] == [a] && [a][..0] == [];
    assert Pick([a], at) == Pick([], at) + (if 0 in at then [a] else []);
  }

  lemma TwoVouchersRefused(a: Candidate, b: Candidate, policy: StackingPolicy)
    requires a.group == b.group && policy.Limit(a.group) == 1
    ensures !Allowed([a, b], policy)
  {
    assert Groups([a, b]) == [a.group, a.group];
    assert multiset(Groups([a, b]))[a.group] > policy.Limit(a.group);
  }

  lemma SetBelowTwo(at: set<nat>)
    requires forall p | p in at :: p < 2
    ensures at == {} || at == {0} || at == {1} || at == {0, 1}
  {
  }

  lemma PairPicks<T>(a: T, b: T, at: set<nat>)
    requires forall p | p in at :: p < 2
    ensures at == {} || at == {0} || at == {1} || at == {0, 1}
    ensures Pick([a, b], at) == if at == {} then [] else if at == {0} then [a] else if at == {1} then [b] else [a, b]
  {
    SetBelowTwo(at);
    PickPair(a, b, at);
    assert [a] + [b] == [a, b];
  }

  lemma PairPermitted(a: Candidate, b: Candidate, policy: StackingPolicy, basket: B.Basket, at: set<nat>)
    requires Interchangeable(a, b, policy, basket) && Permitted([a, b], policy, at)
    ensures at == {} || at == {0} || at == {1}
    ensures Total(Pick([a, b], at), basket) == if at == {} then 0.0 else a.estimate
  {
    PairPicks(a, b, at);
    TwoVouchersRefused(a, b, policy);
    OneVoucher(a, policy, basket);
    OneVoucher(b, policy, basket);
  }

  lemma SinglePermitted(a: Candidate, b: Candidate, policy: StackingPolicy, basket: B.Basket, which: nat)
    requires Interchangeable(a, b, policy, basket) && which < 2
    ensures Permitted([a, b], policy, {which}) && Total(Pick([a, b], {which}), basket) == a.estimate
  {
    PairPicks(a, b, {which});
    assert {which} != {} && {which} != {0, 1} by { assert 0 in {0, 1} && 1 in {0, 1}; }
    OneVoucher(a, policy, basket);
    OneVoucher(b, policy, basket);
  }

  lemma PairNoBetter(
    a: Candidate, b: Candidate, policy: StackingPolicy, basket: B.Basket, which: nat, other: set<nat>)
    requires Interchangeable(a, b, policy, basket) && which < 2 && Permitted([a, b], policy, other)
    ensures NoBetter([a, b], basket, other, {which})
  {
    SinglePermitted(a, b, policy, basket, which);
    PairPermitted(a, b, policy, basket, other);
  }

  lemma PairOptimal(a: Candidate, b: Candidate, policy: StackingPolicy, basket: B.Basket, which: nat)
    requires Interchangeable(a, b, policy, basket) && which < 2
    ensures Optimal([a, b], policy, basket, {which})
  {
    SinglePermitted(a, b, policy, basket, which);
    forall other: set<nat> | Permitted([a, b], policy, other) ensures NoBetter([a, b], basket, other, {which}) {
      PairNoBetter(a, b, policy, basket, which, other);
    }
  }

  lemma OptimumOfPair(a: Candidate, b: Candidate, policy: StackingPolicy, basket: B.Basket, at: set<nat>)
    requires Interchangeable(a, b, policy, basket) && Optimal([a, b], policy, basket, at)
    ensures at == {0} || at == {1}
  {
    PairPermitted(a, b, policy, basket, at);
    SinglePermitted(a, b, policy, basket, 0);
    assert NoBetter([a, b], basket, {0}, at);
  }

  lemma SortedPair(basket: B.Basket, vouchers: seq<Voucher>, policy: StackingPolicy, a: Candidate, b: Candidate)
    requires CandidatesOf(basket, vouchers) == [a, b] && policy.maxCandidates >= 2
    ensures Searched(basket, vouchers, policy) == if CandidateLeq(a, b) then [a, b] else [b, a]
  {
    SortByPair(CandidateLeq, a, b);
  }

  lemma SingleRanked(a: Candidate, b: Candidate, policy: StackingPolicy, basket: B.Basket, which: nat)
    returns (i: nat)
    requires Interchangeable(a, b, policy, basket) && which < 2
    ensures var ranked := Ranked([a, b], policy, basket);
            && i < |ranked| && Bits(ranked[i].mask, 2) == {which} && ranked[i].mask < Pow2(2)
            && ranked[i] == EntryOf([a, b], basket, ranked[i].mask)
            && Combo([a, b], ranked[i].mask) == [[a, b][which]]
  {
    var pair := [a, b];
    SinglePermitted(a, b, policy, basket, which);
    PickPair(a, b, {which});
    i := OptimumRanked(pair, policy, basket, {which});
  }

  lemma SinglesTie(a: Candidate, b: Candidate, policy: StackingPolicy, basket: B.Basket, e: Entry, f: Entry)
    requires Interchangeable(a, b, policy, basket) && a.reference.name == b.reference.name
    requires e == EntryOf([a, b], basket, e.mask) && Combo([a, b], e.mask) == [a]
    requires f == EntryOf([a, b], basket, f.mask) && Combo([a, b], f.mask) == [b]
    ensures EntryLeq(e, f) && EntryLeq(f, e)
  {
    OneVoucher(a, policy, basket);
    OneVoucher(b, policy, basket);
    assert Map(NameOf, [a]) == Map(NameOf, [b]);
    StringOrders();
  }

  /** Of two interchangeable candidates with one label the one that comes first is ranked first. */
  lemma FirstRankedFirst(a: Candidate, b: Candidate, policy: StackingPolicy, basket: B.Basket) returns (i: nat, j: nat)
    requires Interchangeable(a, b, policy, basket) && a.reference.name == b.reference.name
    ensures var ranked := Ranked([a, b], policy, basket);
            && i < j < |ranked| && EntryLeq(ranked[j], ranked[i])
            && Bits(ranked[i].mask, 2) == {0} && Bits(ranked[j].mask, 2) == {1}
  {
    var ranked := Ranked([a, b], policy, basket);
    i := SingleRanked(a, b, policy, basket, 0);
    j := SingleRanked(a, b, policy, basket, 1);
    SinglesTie(a, b, policy, basket, ranked[i], ranked[j]);
    MasksOfPair(ranked[i].mask, ranked[j].mask);
    TiesInMaskOrder([a, b], policy, basket, i, j);
  }

  lemma TiesInMaskOrder(searched: seq<Candidate>, policy: StackingPolicy, basket: B.Basket, i: nat, j: nat)
    requires var ranked := Ranked(searched, policy, basket);
             && i < |ranked| && j < |ranked| && ranked[i].mask < ranked[j].mask
             && EntryLeq(ranked[i], ranked[j]) && EntryLeq(ranked[j], ranked[i])
    ensures i < j
  {
    RankedExactly(searched, policy, basket);
  }

  /** Of two interchangeable vouchers with one label the planner selects the one given first. */
  lemma FirstOfEqualsSelected(
    basket: B.Basket, vouchers: seq<Voucher>, policy: StackingPolicy, a: Candidate, b: Candidate)
    requires CandidatesOf(basket, vouchers) == [a, b] && policy.maxCandidates >= 2
    requires Interchangeable(a, b, policy, basket)
    requires a.reference.name == b.reference.name && a.reference.index < b.reference.index
    ensures PlanFor(basket, vouchers, policy).selected == [Select(a)] && !NoTies(basket, vouchers, policy)
  {
    NamedFirst(a, b);
    SortedPair(basket, vouchers, policy, a, b);
    var i, j := FirstRankedFirst(a, b, policy, basket);
    PairWinner(basket, vouchers, policy, a, b);
    PairSelected(basket, vouchers, policy, a, b);
  }

  lemma PairSelected(basket: B.Basket, vouchers: seq<Voucher>, policy: StackingPolicy, a: Candidate, b: Candidate)
    requires Searched(basket, vouchers, policy) == [a, b] && Winner(basket, vouchers, policy) == {0}
    ensures PlanFor(basket, vouchers, policy).selected == [Select(a)]
  {
    PlanIsWinner(basket, vouchers, policy);
    PickPair(a, b, {0});
    assert Map(Select, [a]) == [Select(a)];
  }

  lemma NamedFirst(a: Candidate, b: Candidate)
    requires a.estimate == b.estimate && a.reference.name == b.reference.name && a.reference.index < b.reference.index
    ensures CandidateLeq(a, b)
  {
  }

  lemma MasksOfPair(first: nat, second: nat)
    requires first < Pow2(2) && second < Pow2(2) && Bits(first, 2) == {0} && Bits(second, 2) == {1}
    ensures first < second
  {
    assert 0 in Bits(first, 2) && 1 !in Bits(first, 2) && 0 !in Bits(second, 2) && 1 in Bits(second, 2);
    assert Bit(second, 1) && Bit(second / 2, 0);
    assert !Bit(first, 1) && !Bit(first / 2, 0);
  }

  lemma PairWinner(basket: B.Basket, vouchers: seq<Voucher>, policy: StackingPolicy, a: Candidate, b: Candidate)
    requires Searched(basket, vouchers, policy) == [a, b] && Interchangeable(a, b, policy, basket)
    requires a.reference.name == b.reference.name
    ensures Winner(basket, vouchers, policy) == {0}
  {
    WinnerOptimal(basket, vouchers, policy);
    OptimumOfPair(a, b, policy, basket, Winner(basket, vouchers, policy));
    RankedHeads(basket, vouchers, policy);
    var i, j := FirstRankedFirst(a, b, policy, basket);
    RankedMasksDiffer([a, b], policy, basket, 0, j);
  }

  // ----- the same on vouchers -----

  function CandidateFor(index: nat, voucher: Voucher, offer: Assessment): Candidate
    requires offer.Offered?
  {
    Candidate(RefOf(index, voucher), offer.group, offer.estimate, offer.targetsShipping)
  }

  /** Two vouchers the basket values alike, for one slot of which the policy allows one. */
  ghost predicate EqualOffers(basket: B.Basket, v: Voucher, w: Voucher, policy: StackingPolicy) {
    var offer := Assess(v, basket);
    && offer.Offered? && Assess(w, basket) == offer && offer.estimate > 0.0
    && policy.Limit(offer.group) == 1 && (policy.maxTotal.Some? ==> policy.maxTotal.value >= 1)
    && policy.maxCandidates >= 2
  }

  lemma OneCandidate(basket: B.Basket, v: Voucher)
    requires Assess(v, basket).Offered?
    ensures CandidatesOf(basket, [v]) == [CandidateFor(0, v, Assess(v, basket))]
  {
    assert [v][..0] == [];
  }

  lemma EqualOffersCandidates(basket: B.Basket, v: Voucher, w: Voucher, policy: StackingPolicy)
    requires basket.Valid() && EqualOffers(basket, v, w, policy)
    ensures var a, b := CandidateFor(0, v, Assess(v, basket)), CandidateFor(1, w, Assess(v, basket));
            CandidatesOf(basket, [v, w]) == [a, b] && Interchangeable(a, b, policy, basket)
  {
    OneCandidate(basket, v);
    assert [v, w][..1] == [v];
    OfferWithinBasket(v, basket);
    B.ShopsTotalNonNegative(basket.shops);
  }

  /** Of two equally valued vouchers with one label the planner selects the one given first, whichever that is. */
  lemma InputOrderDecides(basket: B.Basket, v: Voucher, w: Voucher, policy: StackingPolicy)
    requires basket.Valid() && EqualOffers(basket, v, w, policy) && LabelOf(v) == LabelOf(w)
    ensures var p, q := PlanFor(basket, [v, w], policy), PlanFor(basket, [w, v], policy);
            && |p.selected| == |q.selected| == 1
            && p.selected[0].voucher.id == v.id && q.selected[0].voucher.id == w.id
  {
    var offer := Assess(v, basket);
    EqualOffersCandidates(basket, v, w, policy);
    EqualOffersCandidates(basket, w, v, policy);
    FirstOfEqualsSelected(basket, [v, w], policy, CandidateFor(0, v, offer), CandidateFor(1, w, offer));
    FirstOfEqualsSelected(basket, [w, v], policy, CandidateFor(0, w, offer), CandidateFor(1, v, offer));
  }

  lemma PairNotSole(a: Candidate, b: Candidate, policy: StackingPolicy, basket: B.Basket)
    requires Interchangeable(a, b, policy, basket)
    ensures !SoleOptimum([a, b], policy, basket) && !SoleOptimum([b, a], policy, basket)
  {
    PairOptimal(a, b, policy, basket, 0);
    PairOptimal(a, b, policy, basket, 1);
    PairOptimal(b, a, policy, basket, 0);
    PairOptimal(b, a, policy, basket, 1);
    assert 0 in {0} && 0 !in {1};
  }

  lemma EqualOffersNotSole(basket: B.Basket, v: Voucher, w: Voucher, policy: StackingPolicy)
    requires basket.Valid() && EqualOffers(basket, v, w, policy)
    ensures !SoleOptimum(Searched(basket, [v, w], policy), policy, basket)
  {
    var a, b := CandidateFor(0, v, Assess(v, basket)), CandidateFor(1, w, Assess(v, basket));
    EqualOffersCandidates(basket, v, w, policy);
    SortedPair(basket, [v, w], policy, a, b);
    PairNotSole(a, b, policy, basket);
  }

  /** Of two equally valued vouchers the loser is said to use more vouchers, although it uses as many. */
  lemma SameSizeIsCalledMore(basket: B.Basket, v: Voucher, w: Voucher, policy: StackingPolicy)
    requires basket.Valid() && EqualOffers(basket, v, w, policy)
    ensures !TextsTrue(PlanFor(basket, [v, w], policy))
  {
    EqualOffersNotSole(basket, v, w, policy);
    TextsTrueIff(basket, [v, w], policy);
  }

  // ----- plain coupons -----

  const ORDER := B.Basket([B.BasketShop("shop", 10.0, [], {})], None, None)

  const ONE_OF_EACH := StackingPolicy(1, 1, 1, 1, 1, None, 16)

  /** A platform coupon worth one, with a voucher's id and label. */
  function Plain(v: Voucher, status: VoucherStatus): Voucher {
    Voucher(v.id,
            Terms(v.terms.code, None, None, v.terms.title, Platform, None, Some(1.0), None, None, None, None, None,
                  None, None),
            status)
  }

  const COUPON := Offered(PlatformGroup, 1.0, false)

  lemma OrderValid()
    ensures ORDER.Valid() && ORDER.MerchandiseSubtotal() == 10.0 && ORDER.ShippingCap() == 0.0
  {
    var shops := ORDER.shops;
    assert shops[..|shops| - 1] == [];
    assert B.ShopsTotal([]) == 0.0;
    assert |shops| == 1 && shops[0].Valid() by { TextKept(); }
  }

  lemma TextKept()
    ensures Text.Trim("shop") == "shop"
  {
    Text.TrimKeeps("shop");
  }

  lemma PlainAssessed(v: Voucher)
    ensures Assess(Plain(v, Discovered), ORDER) == COUPON
    ensures Assess(Plain(v, Expired), ORDER).Refused?
    ensures forall status :: LabelOf(Plain(v, status)) == LabelOf(v)
  {
    OrderValid();
  }

  /** The vouchers as plain coupons, all but two of them expired. */
  function TwoLeft(vouchers: seq<Voucher>, i: nat, j: nat): (r: seq<Voucher>)
    ensures |r| == |vouchers|
  {
    seq(|vouchers|,
        k requires 0 <= k < |vouchers| => Plain(vouchers[k], if k == i || k == j then Discovered else Expired))
  }

  function OfferedBelow(left: seq<Voucher>, i: nat, j: nat, end: nat): seq<Candidate>
    requires i < |left| && j < |left|
  {
    (if i < end then [CandidateFor(i, left[i], COUPON)] else [])
    + (if j < end then [CandidateFor(j, left[j], COUPON)] else [])
  }

  lemma OneMoreOffered(vouchers: seq<Voucher>, i: nat, j: nat, last: nat)
    requires i < j < |vouchers| && last < |vouchers|
    requires CandidatesOf(ORDER, TwoLeft(vouchers, i, j)[..last]) == OfferedBelow(TwoLeft(vouchers, i, j), i, j, last)
    ensures CandidatesOf(ORDER, TwoLeft(vouchers, i, j)[..last + 1])
         == OfferedBelow(TwoLeft(vouchers, i, j), i, j, last + 1)
  {
    var left := TwoLeft(vouchers, i, j);
    PlainAssessed(vouchers[last]);
    assert left[..last + 1][..last] == left[..last] && left[..last + 1][last] == left[last];
  }

  lemma {:induction false} TwoLeftCandidates(vouchers: seq<Voucher>, i: nat, j: nat, end: nat)
    requires i < j < |vouchers| && end <= |vouchers|
    ensures CandidatesOf(ORDER, TwoLeft(vouchers, i, j)[..end]) == OfferedBelow(TwoLeft(vouchers, i, j), i, j, end)
  {
    if end > 0 {
      TwoLeftCandidates(vouchers, i, j, end - 1);
      OneMoreOffered(vouchers, i, j, end - 1);
    }
  }

  lemma RepeatedLabelTies(vouchers: seq<Voucher>, i: nat, j: nat)
    requires i < j < |vouchers| && LabelOf(vouchers[i]) == LabelOf(vouchers[j])
    ensures !NeverTies(Map(LabelOf, vouchers))
  {
    var left := TwoLeft(vouchers, i, j);
    TwoLeftCandidates(vouchers, i, j, |vouchers|);
    assert left[..|vouchers|] == left;
    forall k | 0 <= k < |vouchers| ensures LabelOf(left[k]) == LabelOf(vouchers[k]) { PlainAssessed(vouchers[k]); }
    assert Map(LabelOf, left) == Map(LabelOf, vouchers);
    OrderValid();
    var a, b := CandidateFor(i, left[i], COUPON), CandidateFor(j, left[j], COUPON);
    FirstOfEqualsSelected(ORDER, left, ONE_OF_EACH, a, b);
  }

  /** Vouchers never make a tie, whatever their terms, the basket and the policy, exactly when their labels differ. */
  lemma NeverTiesIff(vouchers: seq<Voucher>)
    ensures NeverTies(Map(LabelOf, vouchers)) <==> Distinct(Map(LabelOf, vouchers))
  {
    var labels := Map(LabelOf, vouchers);
    if Distinct(labels) {
      forall basket, others, policy | Map(LabelOf, others) == labels ensures NoTies(basket, others, policy) {
        DistinctLabelsNoTies(basket, others, policy);
      }
    } else {
      var i, j :| 0 <= i < j < |labels| && labels[i] == labels[j];
      RepeatedLabelTies(vouchers, i, j);
    }
  }

  lemma PlainEqual(v: Voucher, w: Voucher)
    ensures ORDER.Valid() && EqualOffers(ORDER, Plain(v, Discovered), Plain(w, Discovered), ONE_OF_EACH)
  {
    OrderValid();
    PlainAssessed(v);
    PlainAssessed(w);
  }

  /** Any two plain coupons, of which the policy allows one, show the untrue text. */
  lemma TwoCoupons(v: Voucher, w: Voucher)
    ensures !TextsTrue(PlanFor(ORDER, [Plain(v, Discovered), Plain(w, Discovered)], ONE_OF_EACH))
  {
    PlainEqual(v, w);
    SameSizeIsCalledMore(ORDER, Plain(v, Discovered), Plain(w, Discovered), ONE_OF_EACH);
  }
}
