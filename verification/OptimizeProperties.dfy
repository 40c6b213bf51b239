/** The exhaustive search reaches every subset exactly once, and its first entry dominates them all. */
module SearchProperties {
  import opened Domain
  import opened Orders
  import opened Optimize
  import B = Basket

  // ----- masks are subsets -----

  lemma {:induction false} MaskOf(at: set<nat>, n: nat) returns (mask: nat)
    requires forall p | p in at :: p < n
    ensures mask < Pow2(n) && Bits(mask, n) == at
    decreases n
  {
    if n == 0 {
      mask := 0;
    } else {
      var shifted := set p | p in at && p > 0 :: p - 1;
      var half := MaskOf(shifted, n - 1);
      mask := 2 * half + if 0 in at then 1 else 0;
      assert mask / 2 == half;
      forall p: nat | p < n ensures p in Bits(mask, n) <==> p in at {
        if p > 0 {
          assert p - 1 in shifted <==> p in at;
          assert p - 1 in Bits(half, n - 1) <==> Bit(half, p - 1);
        }
      }
    }
  }

  lemma {:induction false} MaskUnique(a: nat, b: nat, n: nat)
    requires a < Pow2(n) && b < Pow2(n) && Bits(a, n) == Bits(b, n)
    ensures a == b
  {
    if n > 0 {
      assert 0 in Bits(a, n) <==> 0 in Bits(b, n);
      var restA, restB := Bits(a / 2, n - 1), Bits(b / 2, n - 1);
      forall p: nat ensures p in restA <==> p in restB {
        assert p + 1 in Bits(a, n) <==> p + 1 in Bits(b, n);
      }
      MaskUnique(a / 2, b / 2, n - 1);
    }
  }

  lemma {:induction false} NoBits(n: nat)
    ensures Bits(0, n) == {}
  {
    forall p: nat | p < n ensures !Bit(0, p) { ZeroBit(p); }
  }

  lemma {:induction false} ZeroBit(p: nat)
    ensures !Bit(0, p)
  {
    if p > 0 { ZeroBit(p - 1); }
  }

  lemma ComboIsPick(candidates: seq<Candidate>, at: set<nat>) returns (mask: nat)
    requires forall p | p in at :: p < |candidates|
    ensures mask < Pow2(|candidates|) && Bits(mask, |candidates|) == at
    ensures Combo(candidates, mask) == Pick(candidates, at)
  {
    mask := MaskOf(at, |candidates|);
  }

  // ----- the entries are exactly the allowed subsets -----

  lemma {:induction false} EntriesSound(
      candidates: seq<Candidate>, policy: StackingPolicy, basket: B.Basket, end: nat, i: nat)
    requires i < |Entries(candidates, policy, basket, end)|
    ensures var e := Entries(candidates, policy, basket, end)[i];
            e.mask < end && Allowed(Combo(candidates, e.mask), policy) && e == EntryOf(candidates, basket, e.mask)
  {
    if i < |Entries(candidates, policy, basket, end - 1)| {
      EntriesSound(candidates, policy, basket, end - 1, i);
    }
  }

  lemma {:induction false} EntriesComplete(
      candidates: seq<Candidate>, policy: StackingPolicy, basket: B.Basket, end: nat, mask: nat)
    requires mask < end && Allowed(Combo(candidates, mask), policy)
    ensures EntryOf(candidates, basket, mask) in Entries(candidates, policy, basket, end)
  {
    if mask < end - 1 {
      EntriesComplete(candidates, policy, basket, end - 1, mask);
    }
  }

  /** Entries come in mask order, so no mask is visited twice. */
  lemma {:induction false} EntriesAscend(
    candidates: seq<Candidate>, policy: StackingPolicy, basket: B.Basket, end: nat, i: nat, j: nat)
    requires i < j < |Entries(candidates, policy, basket, end)|
    ensures MaskBefore(Entries(candidates, policy, basket, end)[i], Entries(candidates, policy, basket, end)[j])
  {
    if j < |Entries(candidates, policy, basket, end - 1)| {
      EntriesAscend(candidates, policy, basket, end - 1, i, j);
    } else {
      EntriesSound(candidates, policy, basket, end - 1, i);
    }
  }

  predicate MaskBefore(a: Entry, b: Entry) { a.mask < b.mask }

  lemma EntriesSorted(candidates: seq<Candidate>, policy: StackingPolicy, basket: B.Basket, end: nat)
    ensures SortedBy(MaskBefore, Entries(candidates, policy, basket, end))
  {
    forall i: nat, j: nat | i < j < |Entries(candidates, policy, basket, end)|
      ensures MaskBefore(Entries(candidates, policy, basket, end)[i], Entries(candidates, policy, basket, end)[j])
    {
      EntriesAscend(candidates, policy, basket, end, i, j);
    }
  }

  lemma EntryOrder()
    ensures TotalPreorder(EntryLeq)
  {
    StringOrders();
  }

  lemma CandidateOrder()
    ensures TotalPreorder(CandidateLeq)
  {
    StringOrders();
  }

  /** The empty combination is always allowed, so there is always a best one. */
  lemma EmptyAllowed(candidates: seq<Candidate>, policy: StackingPolicy)
    ensures Combo(candidates, 0) == [] && Allowed([], policy)
  {
    NoBits(|candidates|);
    PickNothing(candidates);
  }

  lemma RankedSound(candidates: seq<Candidate>, policy: StackingPolicy, basket: B.Basket, e: Entry)
    requires e in Ranked(candidates, policy, basket)
    ensures e.mask < Pow2(|candidates|)
    ensures Allowed(Combo(candidates, e.mask), policy)
    ensures e == EntryOf(candidates, basket, e.mask)
  {
    var entries := Entries(candidates, policy, basket, Pow2(|candidates|));
    assert e in multiset(Ranked(candidates, policy, basket));
    assert e in entries;
    var i :| 0 <= i < |entries| && entries[i] == e;
    EntriesSound(candidates, policy, basket, Pow2(|candidates|), i);
  }

  /** The first-ranked entry is at least as good as every allowed subset. */
  lemma HeadDominates(candidates: seq<Candidate>, policy: StackingPolicy, basket: B.Basket, at: set<nat>)
    requires (forall p | p in at :: p < |candidates|) && Allowed(Pick(candidates, at), policy)
    ensures var ranked := Ranked(candidates, policy, basket); ranked != [] && var combo := Pick(candidates, at);
            ranked[0].total > Total(combo, basket)
            || (ranked[0].total == Total(combo, basket) && ranked[0].size <= |combo|)
  {
    var mask := ComboIsPick(candidates, at);
    EntriesComplete(candidates, policy, basket, Pow2(|candidates|), mask);
    EntryOrder();
    SortBySorts(EntryLeq, Entries(candidates, policy, basket, Pow2(|candidates|)));
    var ranked := Ranked(candidates, policy, basket);
    var e := EntryOf(candidates, basket, mask);
    assert e in multiset(ranked);
    var i :| 0 <= i < |ranked| && ranked[i] == e;
    assert i == 0 || EntryLeq(ranked[0], ranked[i]);
  }

  /** Every allowed subset is ranked exactly once, by value, and ties keep mask order. */
  lemma RankedExactly(candidates: seq<Candidate>, policy: StackingPolicy, basket: B.Basket)
    ensures var ranked := Ranked(candidates, policy, basket);
            && (forall i, j | 0 <= i < j < |ranked| ::
                  EntryLeq(ranked[i], ranked[j])
                  && (EntryLeq(ranked[j], ranked[i]) ==> ranked[i].mask < ranked[j].mask))
            && (forall mask: nat | mask < Pow2(|candidates|) ::
                  Allowed(Combo(candidates, mask), policy) <==> EntryOf(candidates, basket, mask) in ranked)
  {
    var entries := Entries(candidates, policy, basket, Pow2(|candidates|));
    var ranked := Ranked(candidates, policy, basket);
    EntryOrder();
    SortBySorts(EntryLeq, entries);
    EntriesSorted(candidates, policy, basket, Pow2(|candidates|));
    SortByStable(EntryLeq, MaskBefore, entries);
    forall mask: nat | mask < Pow2(|candidates|)
      ensures Allowed(Combo(candidates, mask), policy) <==> EntryOf(candidates, basket, mask) in ranked
    {
      if Allowed(Combo(candidates, mask), policy) {
        EntriesComplete(candidates, policy, basket, Pow2(|candidates|), mask);
        assert EntryOf(candidates, basket, mask) in multiset(ranked);
      } else if EntryOf(candidates, basket, mask) in ranked {
        RankedSound(candidates, policy, basket, EntryOf(candidates, basket, mask));
      }
    }
  }

  /** Taking vouchers out of an allowed combination leaves an allowed combination. */
  lemma AllowedSubset(candidates: seq<Candidate>, policy: StackingPolicy, few: set<nat>, many: set<nat>)
    requires few <= many && Allowed(Pick(candidates, many), policy)
    ensures Allowed(Pick(candidates, few), policy)
  {
    PickMonotone(candidates, few, many);
    var small, large := multiset(Pick(candidates, few)), multiset(Pick(candidates, many));
    assert large == small + (large - small);
    assert |Pick(candidates, few)| == |small| <= |large| == |Pick(candidates, many)|;
    PickMap(GroupIn, candidates, few);
    PickMap(GroupIn, candidates, many);
    PickMonotone(Map(GroupIn, candidates), few, many);
    forall group ensures multiset(Groups(Pick(candidates, few)))[group] <= policy.Limit(group) {
      assert multiset(Groups(Pick(candidates, many)))[group] <= policy.Limit(group);
    }
  }
}

/** What the owner gets from a plan, for every basket, voucher list and policy. */
module PlanProperties {
  import opened Domain
  import opened Orders
  import opened Optimize
  import opened SearchProperties
  import B = Basket
  import C = Constraint

  /** The positions, among the searched candidates, of the recommended combination. */
  ghost function Winner(basket: B.Basket, vouchers: seq<Voucher>, policy: StackingPolicy): set<nat> {
    Bits(Best(basket, vouchers, policy).mask, |Searched(basket, vouchers, policy)|)
  }

  /** The plan is what the winning combination yields, and the policy allows that combination. */
  lemma PlanIsWinner(basket: B.Basket, vouchers: seq<Voucher>, policy: StackingPolicy)
    ensures var plan := PlanFor(basket, vouchers, policy);
            var combo := Pick(Searched(basket, vouchers, policy), Winner(basket, vouchers, policy));
            && plan.selected == Map(Select, combo)
            && Allowed(combo, policy)
            && plan.total == Total(combo, basket)
            && plan.cappedAtBasketTotal == Capped(combo, basket)
  {
    var searched := Searched(basket, vouchers, policy);
    EmptyAllowed(searched, policy);
    PickNothing(searched);
    HeadDominates(searched, policy, basket, {});
    RankedSound(searched, policy, basket, Ranked(searched, policy, basket)[0]);
  }

  /** No allowed combination of searched vouchers saves more, and none that saves as much uses fewer. */
  lemma PlanOptimal(basket: B.Basket, vouchers: seq<Voucher>, policy: StackingPolicy, at: set<nat>)
    requires forall p | p in at :: p < |Searched(basket, vouchers, policy)|
    requires Allowed(Pick(Searched(basket, vouchers, policy), at), policy)
    ensures var plan := PlanFor(basket, vouchers, policy);
            var saving := Total(Pick(Searched(basket, vouchers, policy), at), basket);
            saving <= plan.total && (saving == plan.total ==> |plan.selected| <= |at|)
  {
    var searched := Searched(basket, vouchers, policy);
    HeadDominates(searched, policy, basket, at);
    RankedSound(searched, policy, basket, Ranked(searched, policy, basket)[0]);
    PickSize(searched, at);
  }

  /** Leaving out any part of the recommended combination strictly lowers the saving. */
  lemma Irredundant(basket: B.Basket, vouchers: seq<Voucher>, policy: StackingPolicy, fewer: set<nat>)
    requires fewer < Winner(basket, vouchers, policy)
    ensures Total(Pick(Searched(basket, vouchers, policy), fewer), basket) < PlanFor(basket, vouchers, policy).total
  {
    var searched := Searched(basket, vouchers, policy);
    var winner := Winner(basket, vouchers, policy);
    PlanIsWinner(basket, vouchers, policy);
    AllowedSubset(searched, policy, fewer, winner);
    PlanOptimal(basket, vouchers, policy, fewer);
    PickSize(searched, winner);
    assert winner == fewer + (winner - fewer) && winner - fewer != {};
    assert |fewer| < |winner|;
  }

  /** Something is recommended exactly when something can be saved. */
  lemma EmptyIffNothingToSave(basket: B.Basket, vouchers: seq<Voucher>, policy: StackingPolicy)
    requires basket.Valid()
    ensures var plan := PlanFor(basket, vouchers, policy); plan.selected == [] <==> plan.total == 0.0
  {
    var searched := Searched(basket, vouchers, policy);
    var winner := Winner(basket, vouchers, policy);
    PlanIsWinner(basket, vouchers, policy);
    PickSize(searched, winner);
    PickNothing(searched);
    B.ShopsTotalNonNegative(basket.shops);
    assert Total([], basket) == 0.0;
    if winner == {} {
    } else {
      assert {} < winner;
      Irredundant(basket, vouchers, policy, {});
    }
  }

  // ----- money bounds -----

  /** An offer is worth between nothing and the amount it applies to, itself part of the basket. */
  lemma OfferWithinBasket(voucher: Voucher, basket: B.Basket)
    requires Assess(voucher, basket).Offered?
    ensures var offer := Assess(voucher, basket);
            && 0.0 <= offer.estimate
            && (basket.Valid() ==>
                  offer.estimate
                  <= if offer.targetsShipping then basket.ShippingCap() else basket.MerchandiseSubtotal())
  {
    var c := C.FromVoucher(voucher.terms);
    var (qualifying, _) := Qualifying(c.scope, basket);
    var base := if c.TargetsShipping() then basket.ShippingCap() else qualifying.value;
    C.EstimateWithinBase(c.discount, base);
    if basket.Valid() {
      B.ShopsTotalNonNegative(basket.shops);
      match c.scope
      case Some(ShopScope(shopId)) => B.PartsWithinTotal(basket.shops, "", shopId);
      case Some(CategoryScope(name)) => B.PartsWithinTotal(basket.shops, name, "");
      case _ =>
    }
  }

  lemma {:induction false} EstimatesNonNegative(basket: B.Basket, vouchers: seq<Voucher>)
    ensures forall c | c in CandidatesOf(basket, vouchers) :: c.estimate >= 0.0
  {
    if vouchers != [] {
      var last := |vouchers| - 1;
      EstimatesNonNegative(basket, vouchers[..last]);
      if Assess(vouchers[last], basket).Offered? { OfferWithinBasket(vouchers[last], basket); }
    }
  }

  lemma SortedNonNegative(basket: B.Basket, vouchers: seq<Voucher>)
    ensures forall c | c in Sorted(basket, vouchers) :: c.estimate >= 0.0
  {
    EstimatesNonNegative(basket, vouchers);
    forall c | c in Sorted(basket, vouchers) ensures c.estimate >= 0.0 {
      assert c in multiset(Sorted(basket, vouchers));
    }
  }

  lemma {:induction false} PickMember<T>(s: seq<T>, at: set<nat>, x: T) returns (p: nat)
    requires x in Pick(s, at)
    ensures p in at && p < |s| && s[p] == x
  {
    var last := |s| - 1;
    if last in at && s[last] == x {
      p := last;
    } else {
      p := PickMember(s[..last], at, x);
    }
  }

  lemma {:induction false} SumOfParts(combo: seq<Candidate>)
    ensures SumBy(Estimate, combo) == SumBy(MerchandisePart, combo) + SumBy(ShippingPart, combo)
  {
    if combo != [] { SumOfParts(combo[..|combo| - 1]); }
  }

  /** What the selected vouchers would save if nothing were clamped. */
  function SumSelected(selected: seq<SelectedVoucher>): Money {
    SumBy((s: SelectedVoucher) => s.estimatedDiscount, selected)
  }

  lemma {:induction false} SumSelectedIsEstimate(combo: seq<Candidate>)
    ensures SumSelected(Map(Select, combo)) == SumBy(Estimate, combo)
  {
    if combo != [] {
      SumSelectedIsEstimate(combo[..|combo| - 1]);
      assert Map(Select, combo)[..|combo| - 1] == Map(Select, combo[..|combo| - 1]);
    }
  }

  /** The clamp is reported exactly when it took something away. */
  lemma CappedExactly(basket: B.Basket, vouchers: seq<Voucher>, policy: StackingPolicy)
    ensures var plan := PlanFor(basket, vouchers, policy);
            && plan.total <= SumSelected(plan.selected)
            && (plan.cappedAtBasketTotal <==> plan.total < SumSelected(plan.selected))
  {
    PlanIsWinner(basket, vouchers, policy);
    var combo := Pick(Searched(basket, vouchers, policy), Winner(basket, vouchers, policy));
    SumOfParts(combo);
    SumSelectedIsEstimate(combo);
  }

  /** For a valid basket the saving fits inside the order, so the final clamp at zero never acts. */
  lemma SavingWithinOrder(basket: B.Basket, vouchers: seq<Voucher>, policy: StackingPolicy)
    requires basket.Valid()
    ensures var plan := PlanFor(basket, vouchers, policy);
            && 0.0 <= plan.total <= basket.TotalBeforeVouchers()
            && plan.totalAfter == basket.TotalBeforeVouchers() - plan.total
  {
    PlanIsWinner(basket, vouchers, policy);
    B.ShopsTotalNonNegative(basket.shops);
    PickNothing(Searched(basket, vouchers, policy));
    EmptyAllowed(Searched(basket, vouchers, policy), policy);
    PlanOptimal(basket, vouchers, policy, {});
  }

  // ----- what truncating the search can cost -----

  lemma SortedByWorth(basket: B.Basket, vouchers: seq<Voucher>, i: nat, j: nat)
    requires i <= j < |Sorted(basket, vouchers)|
    ensures Sorted(basket, vouchers)[j].estimate <= Sorted(basket, vouchers)[i].estimate
  {
    CandidateOrder();
    SortBySorts(CandidateLeq, CandidatesOf(basket, vouchers));
    assert i == j || CandidateLeq(Sorted(basket, vouchers)[i], Sorted(basket, vouchers)[j]);
  }

  /** Every voucher left unsearched is worth no more than every voucher searched. */
  lemma DroppedWorthLess(
      basket: B.Basket, vouchers: seq<Voucher>, policy: StackingPolicy, kept: Candidate, lost: Candidate)
    requires kept in Searched(basket, vouchers, policy) && lost in Dropped(basket, vouchers, policy)
    ensures lost.estimate <= kept.estimate
  {
    var all, limit := Sorted(basket, vouchers), policy.SearchLimit();
    var i :| 0 <= i < limit && all[i] == kept;
    var j :| 0 <= j < |all| - limit && all[limit..][j] == lost;
    SortedByWorth(basket, vouchers, i, limit + j);
  }

  /** The vouchers of a combination that lie beyond the search limit. */
  ghost function Beyond(at: set<nat>, limit: nat): set<nat> { set p | p in at && p >= limit }

  /**
   * Any allowed combination of all the applicable vouchers, searched or not, saves at most the plan's
   * total plus the largest unsearched estimate for each unsearched voucher it uses.
   */
  lemma TruncationLoss(basket: B.Basket, vouchers: seq<Voucher>, policy: StackingPolicy, at: set<nat>)
    requires forall p | p in at :: p < |Sorted(basket, vouchers)|
    requires Allowed(Pick(Sorted(basket, vouchers), at), policy)
    ensures var lost := Beyond(at, policy.SearchLimit());
            var worth := if lost == {} then 0.0 else Sorted(basket, vouchers)[policy.SearchLimit()].estimate;
            Total(Pick(Sorted(basket, vouchers), at), basket)
            <= PlanFor(basket, vouchers, policy).total + Times(|lost|, worth)
  {
    var all, limit := Sorted(basket, vouchers), policy.SearchLimit();
    var lost := Beyond(at, limit);
    KeptWithinPlan(basket, vouchers, policy, at - lost, at);
    SortedNonNegative(basket, vouchers);
    SplitTotal(all, basket, at, lost);
    if lost == {} {
      PickNothing(all);
    } else {
      forall p | limit <= p < |all| ensures all[p].estimate <= all[limit].estimate {
        SortedByWorth(basket, vouchers, limit, p);
      }
      LostWorth(all, limit, lost);
    }
  }

  lemma KeptWithinPlan(basket: B.Basket, vouchers: seq<Voucher>, policy: StackingPolicy, kept: set<nat>, at: set<nat>)
    requires kept <= at && Allowed(Pick(Sorted(basket, vouchers), at), policy)
    requires forall p | p in kept :: p < policy.SearchLimit() && p < |Sorted(basket, vouchers)|
    ensures Total(Pick(Sorted(basket, vouchers), kept), basket) <= PlanFor(basket, vouchers, policy).total
  {
    AllowedSubset(Sorted(basket, vouchers), policy, kept, at);
    PickPrefix(Sorted(basket, vouchers), |Searched(basket, vouchers, policy)|, kept);
    PlanOptimal(basket, vouchers, policy, kept);
  }

  /** Vouchers beyond the limit are together worth at most their number times the first of them. */
  lemma LostWorth(all: seq<Candidate>, limit: nat, lost: set<nat>)
    requires limit < |all| && forall p | limit <= p < |all| :: all[p].estimate <= all[limit].estimate
    requires forall p | p in lost :: limit <= p < |all|
    ensures SumBy(MerchandisePart, Pick(all, lost)) + SumBy(ShippingPart, Pick(all, lost))
            <= Times(|lost|, all[limit].estimate)
  {
    var gone, worth := Pick(all, lost), all[limit].estimate;
    forall c | c in gone ensures Estimate(c) <= worth {
      var p := PickMember(all, lost, c);
    }
    PickSize(all, lost);
    SumOfParts(gone);
    SumAtMost(Estimate, gone, worth);
  }

  /** The clamped total is subadditive. */
  lemma SplitTotal(all: seq<Candidate>, basket: B.Basket, at: set<nat>, lost: set<nat>)
    requires lost <= at
    requires forall c | c in all :: c.estimate >= 0.0
    ensures Total(Pick(all, at), basket)
         <= Total(Pick(all, at - lost), basket) + SumBy(MerchandisePart, Pick(all, lost))
            + SumBy(ShippingPart, Pick(all, lost))
  {
    assert at * lost == lost;
    SumPickSplits(MerchandisePart, all, at, lost);
    SumPickSplits(ShippingPart, all, at, lost);
    forall c | c in Pick(all, lost) ensures c.estimate >= 0.0 { var p := PickMember(all, lost, c); }
    SumNonNegative(MerchandisePart, Pick(all, lost));
    SumNonNegative(ShippingPart, Pick(all, lost));
  }
}
