/** Exhaustive search for the voucher combination that saves most. */
module Optimize {
  import opened Domain
  import opened Orders
  import B = Basket
  import C = Constraint

  const MAX_SEARCH_CANDIDATES: nat := 16
  const MAX_ALTERNATIVES: nat := 5

  datatype StackGroup = PlatformGroup | ShopGroup(shopId: string) | FreeshipGroup | PaymentGroup | OtherGroup

  datatype StackingPolicy = StackingPolicy(
    maxPlatform: nat, maxShopPerShop: nat, maxFreeship: nat, maxPayment: nat, maxOther: nat,
    maxTotal: Option<nat>, maxCandidates: nat)
  {
    function Limit(group: StackGroup): nat {
      match group
      case PlatformGroup => maxPlatform
      case ShopGroup(_) => maxShopPerShop
      case FreeshipGroup => maxFreeship
      case PaymentGroup => maxPayment
      case OtherGroup => maxOther
    }

    /** How many candidates the search looks at. */
    function SearchLimit(): nat {
      if maxCandidates <= MAX_SEARCH_CANDIDATES then maxCandidates else MAX_SEARCH_CANDIDATES
    }
  }

  datatype VoucherRef = VoucherRef(index: nat, id: nat, name: string)

  datatype NotApplicable =
    | TerminalStatus(status: VoucherStatus)
    | ShopNotInBasket(shopId: string)
    | CategoryNotInBasket(category: string)
    | MinSpendNotMet(required: Money, available: Money)
    | PaymentMethodMismatch(needed: string, preferred: string)
    | NotEvaluated(limit: nat)

  datatype ExcludedVoucher = ExcludedVoucher(voucher: VoucherRef, reason: NotApplicable)

  datatype Candidate = Candidate(reference: VoucherRef, group: StackGroup, estimate: Money, targetsShipping: bool)

  datatype Assessment =
    | Refused(reason: NotApplicable)
    | Offered(group: StackGroup, estimate: Money, targetsShipping: bool)

  datatype SelectedVoucher = SelectedVoucher(voucher: VoucherRef, estimatedDiscount: Money)

  datatype WhyItLoses = SavesLess(amount: Money) | SameSavingButUsesMoreVouchers

  datatype Alternative = Alternative(names: seq<string>, total: Money, why: WhyItLoses)

  datatype Plan = Plan(
    merchandiseSubtotal: Money, shippingEstimate: Option<Money>, selected: seq<SelectedVoucher>,
    total: Money, totalAfter: Money, cappedAtBasketTotal: bool,
    alternatives: seq<Alternative>, excluded: seq<ExcludedVoucher>)

  // ----- one voucher against the basket -----

  /** Shipping wins over scope: a shop's free-shipping voucher takes the shipping slot. */
  function GroupOf(c: C.VoucherConstraint): StackGroup {
    if c.TargetsShipping() then FreeshipGroup
    else if c.paymentMethod.Some? || c.voucherType == Payment then PaymentGroup
    else
      match c.scope
      case Some(ShopScope(shopId)) => ShopGroup(shopId)
      case Some(PlatformScope) => PlatformGroup
      case _ => if c.voucherType == Platform then PlatformGroup else OtherGroup
  }

  /** The amount that must clear the minimum spend, or why there is none. */
  function Qualifying(scope: Option<Scope>, basket: B.Basket): (Option<Money>, NotApplicable) {
    match scope
    case Some(ShopScope(shopId)) =>
      var shop := B.FindShop(basket.shops, shopId);
      (if shop.Some? then Some(shop.value.subtotal) else None, ShopNotInBasket(shopId))
    case Some(CategoryScope(name)) =>
      var subtotal := B.CategoryTotal(basket.shops, name);
      (if subtotal == 0.0 then None else Some(subtotal), CategoryNotInBasket(name))
    case _ => (Some(basket.MerchandiseSubtotal()), NotEvaluated(0))
  }

  function Assess(voucher: Voucher, basket: B.Basket): Assessment {
    var c := C.FromVoucher(voucher.terms);
    if voucher.status in {Expired, Exhausted, Ineligible} then Refused(TerminalStatus(voucher.status))
    else if c.paymentMethod.Some? && basket.MatchesPaymentMethod(c.paymentMethod.value) == Some(false) then
      Refused(PaymentMethodMismatch(c.paymentMethod.value, basket.paymentMethod.GetOr("another method")))
    else
      var (qualifying, missing) := Qualifying(c.scope, basket);
      if qualifying.None? then Refused(missing)
      else if c.minSpend.Some? && qualifying.value < c.minSpend.value then
        Refused(MinSpendNotMet(c.minSpend.value, qualifying.value))
      else
        var base := if c.TargetsShipping() then basket.ShippingCap() else qualifying.value;
        Offered(GroupOf(c), C.EstimateDiscount(c.discount, base), c.TargetsShipping())
  }

  function RefOf(index: nat, voucher: Voucher): VoucherRef {
    VoucherRef(index, voucher.id, C.LabelFor(voucher.terms))
  }

  function CandidatesOf(basket: B.Basket, vouchers: seq<Voucher>): seq<Candidate> {
    if vouchers == [] then []
    else
      var last := |vouchers| - 1;
      var before := CandidatesOf(basket, vouchers[..last]);
      match Assess(vouchers[last], basket)
      case Offered(group, estimate, shipping) =>
        before + [Candidate(RefOf(last, vouchers[last]), group, estimate, shipping)]
      case Refused(_) => before
  }

  function ExclusionsOf(basket: B.Basket, vouchers: seq<Voucher>): seq<ExcludedVoucher> {
    if vouchers == [] then []
    else
      var last := |vouchers| - 1;
      var before := ExclusionsOf(basket, vouchers[..last]);
      match Assess(vouchers[last], basket)
      case Offered(_, _, _) => before
      case Refused(reason) => before + [ExcludedVoucher(RefOf(last, vouchers[last]), reason)]
  }

  /** Best value first, then name, then input position. */
  predicate CandidateLeq(a: Candidate, b: Candidate) {
    a.estimate > b.estimate
    || (a.estimate == b.estimate
        && if a.reference.name == b.reference.name then a.reference.index <= b.reference.index
           else StringLeq(a.reference.name, b.reference.name))
  }

  // ----- masks -----

  /** `mask & (1 << position) != 0`. */
  predicate Bit(mask: nat, position: nat) {
    if position == 0 then mask % 2 == 1 else Bit(mask / 2, position - 1)
  }

  function Bits(mask: nat, n: nat): set<nat> { set p: nat | p < n && Bit(mask, p) }

  // ----- one combination -----

  function GroupIn(c: Candidate): StackGroup { c.group }

  function NameOf(c: Candidate): string { c.reference.name }

  function MerchandisePart(c: Candidate): Money { if c.targetsShipping then 0.0 else c.estimate }

  function ShippingPart(c: Candidate): Money { if c.targetsShipping then c.estimate else 0.0 }

  function Estimate(c: Candidate): Money { c.estimate }

  function Groups(combo: seq<Candidate>): seq<StackGroup> { Map(GroupIn, combo) }

  /** No stacking slot holds more vouchers than the policy grants it. */
  ghost predicate Allowed(combo: seq<Candidate>, policy: StackingPolicy) {
    && (policy.maxTotal.Some? ==> |combo| <= policy.maxTotal.value)
    && forall group :: multiset(Groups(combo))[group] <= policy.Limit(group)
  }

  function Total(combo: seq<Candidate>, basket: B.Basket): Money {
    MinMoney(SumBy(MerchandisePart, combo), basket.MerchandiseSubtotal())
    + MinMoney(SumBy(ShippingPart, combo), basket.ShippingCap())
  }

  function Capped(combo: seq<Candidate>, basket: B.Basket): bool {
    SumBy(MerchandisePart, combo) > basket.MerchandiseSubtotal() || SumBy(ShippingPart, combo) > basket.ShippingCap()
  }

  lemma GroupsStep(combo: seq<Candidate>, k: nat)
    requires k < |combo|
    ensures multiset(Groups(combo[..k + 1])) == multiset(Groups(combo[..k])) + multiset{combo[k].group}
  {
    assert Groups(combo[..k + 1]) == Groups(combo[..k]) + [combo[k].group];
  }

  /** The four fixed slots and the shop slots are all the slots there are. */
  lemma LimitsBySlot(counts: multiset<StackGroup>, policy: StackingPolicy)
    ensures (forall group :: counts[group] <= policy.Limit(group)) <==>
            && counts[PlatformGroup] <= policy.maxPlatform && counts[FreeshipGroup] <= policy.maxFreeship
            && counts[PaymentGroup] <= policy.maxPayment && counts[OtherGroup] <= policy.maxOther
            && forall id :: counts[ShopGroup(id)] <= policy.maxShopPerShop
  {
    if forall group :: counts[group] <= policy.Limit(group) {
      assert counts[PlatformGroup] <= policy.Limit(PlatformGroup);
      assert counts[FreeshipGroup] <= policy.Limit(FreeshipGroup);
      assert counts[PaymentGroup] <= policy.Limit(PaymentGroup) && counts[OtherGroup] <= policy.Limit(OtherGroup);
      forall id ensures counts[ShopGroup(id)] <= policy.maxShopPerShop {
        assert counts[ShopGroup(id)] <= policy.Limit(ShopGroup(id));
      }
    }
  }

  ghost predicate ShopTally(counts: multiset<StackGroup>, perShop: map<string, nat>) {
    forall id :: TalliedAt(counts, perShop, id)
  }

  ghost predicate TalliedAt(counts: multiset<StackGroup>, perShop: map<string, nat>, id: string) {
    counts[ShopGroup(id)] == if id in perShop then perShop[id] else 0
  }

  lemma ShopsWithin(counts: multiset<StackGroup>, perShop: map<string, nat>, limit: nat)
    requires ShopTally(counts, perShop)
    ensures (forall id | id in perShop :: perShop[id] <= limit) <==> (forall id :: counts[ShopGroup(id)] <= limit)
  {
    if forall id | id in perShop :: perShop[id] <= limit {
      forall id ensures counts[ShopGroup(id)] <= limit { assert TalliedAt(counts, perShop, id); }
    }
    if forall id :: counts[ShopGroup(id)] <= limit {
      forall id | id in perShop ensures perShop[id] <= limit {
        assert TalliedAt(counts, perShop, id) && counts[ShopGroup(id)] <= limit;
      }
    }
  }

  /** One more voucher of a shop. */
  function Tallied(perShop: map<string, nat>, group: StackGroup): map<string, nat> {
    match group
    case ShopGroup(id) => perShop[id := (if id in perShop then perShop[id] else 0) + 1]
    case _ => perShop
  }

  lemma TallyStep(counts: multiset<StackGroup>, perShop: map<string, nat>, group: StackGroup)
    requires ShopTally(counts, perShop)
    ensures ShopTally(counts + multiset{group}, Tallied(perShop, group))
  {
    forall id ensures TalliedAt(counts + multiset{group}, Tallied(perShop, group), id) {
      assert TalliedAt(counts, perShop, id);
    }
  }

  method PolicyAllows(combo: seq<Candidate>, policy: StackingPolicy) returns (allowed: bool)
    ensures allowed <==> Allowed(combo, policy)
  {
    if policy.maxTotal.Some? && |combo| > policy.maxTotal.value {
      return false;
    }
    var platform, freeship, payment, other := 0, 0, 0, 0;
    var perShop: map<string, nat> := map[];
    ghost var counts := multiset(Groups(combo[..0]));
    for k := 0 to |combo|
      invariant counts == multiset(Groups(combo[..k]))
      invariant platform == counts[PlatformGroup] && freeship == counts[FreeshipGroup]
      invariant payment == counts[PaymentGroup] && other == counts[OtherGroup]
      invariant ShopTally(counts, perShop)
    {
      GroupsStep(combo, k);
      var group := combo[k].group;
      TallyStep(counts, perShop, group);
      counts := counts + multiset{group};
      match group
      case PlatformGroup => platform := platform + 1;
      case FreeshipGroup => freeship := freeship + 1;
      case PaymentGroup => payment := payment + 1;
      case OtherGroup => other := other + 1;
      case ShopGroup(_) => perShop := Tallied(perShop, group);
    }
    assert combo[..|combo|] == combo;
    LimitsBySlot(counts, policy);
    allowed :=
      && platform <= policy.maxPlatform && freeship <= policy.maxFreeship
      && payment <= policy.maxPayment && other <= policy.maxOther
      && forall id | id in perShop :: perShop[id] <= policy.maxShopPerShop;
    ShopsWithin(counts, perShop, policy.maxShopPerShop);
  }

  /** Merchandise and shipping savings are summed, and clamped, separately. */
  method ComboTotal(combo: seq<Candidate>, basket: B.Basket) returns (total: Money, capped: bool)
    ensures total == Total(combo, basket)
    ensures capped <==> Capped(combo, basket)
  {
    var merchandise, shipping := 0.0, 0.0;
    for k := 0 to |combo|
      invariant merchandise == SumBy(MerchandisePart, combo[..k])
      invariant shipping == SumBy(ShippingPart, combo[..k])
    {
      assert combo[..k + 1][..k] == combo[..k];
      if combo[k].targetsShipping {
        shipping := shipping + combo[k].estimate;
      } else {
        merchandise := merchandise + combo[k].estimate;
      }
    }
    assert combo[..|combo|] == combo;
    capped := merchandise > basket.MerchandiseSubtotal() || shipping > basket.ShippingCap();
    total := MinMoney(merchandise, basket.MerchandiseSubtotal()) + MinMoney(shipping, basket.ShippingCap());
  }

  // ----- ranking every combination -----

  datatype Entry = Entry(mask: nat, total: Money, capped: bool, size: nat, names: seq<string>)

  datatype Combination = Combination(mask: nat, total: Money, capped: bool)

  /** Largest total first, then fewest vouchers, then names. */
  predicate EntryLeq(a: Entry, b: Entry) {
    a.total > b.total
    || (a.total == b.total && (a.size < b.size || (a.size == b.size && LabelsLeq(a.names, b.names))))
  }

  function Combo(candidates: seq<Candidate>, mask: nat): seq<Candidate> {
    Pick(candidates, Bits(mask, |candidates|))
  }

  function EntryOf(candidates: seq<Candidate>, basket: B.Basket, mask: nat): Entry {
    var combo := Combo(candidates, mask);
    Entry(mask, Total(combo, basket), Capped(combo, basket), |combo|, Map(NameOf, combo))
  }

  /** The entries of the allowed masks below `end`, in mask order. */
  ghost function Entries(candidates: seq<Candidate>, policy: StackingPolicy, basket: B.Basket, end: nat): seq<Entry> {
    if end == 0 then []
    else
      Entries(candidates, policy, basket, end - 1)
      + if Allowed(Combo(candidates, end - 1), policy) then [EntryOf(candidates, basket, end - 1)] else []
  }

  ghost function Ranked(candidates: seq<Candidate>, policy: StackingPolicy, basket: B.Basket): seq<Entry> {
    SortBy(EntryLeq, Entries(candidates, policy, basket, Pow2(|candidates|)))
  }

  function Summary(e: Entry): Combination { Combination(e.mask, e.total, e.capped) }

  method Members(candidates: seq<Candidate>, mask: nat) returns (combo: seq<Candidate>)
    ensures combo == Combo(candidates, mask)
  {
    combo := [];
    for position := 0 to |candidates|
      invariant combo == Pick(candidates[..position], Bits(mask, |candidates|))
    {
      assert candidates[..position + 1][..position] == candidates[..position];
      if Bit(mask, position) {
        combo := combo + [candidates[position]];
      }
    }
    assert candidates[..|candidates|] == candidates;
  }

  method RankCombinations(candidates: seq<Candidate>, policy: StackingPolicy, basket: B.Basket)
    returns (ranked: seq<Combination>)
    requires |candidates| <= MAX_SEARCH_CANDIDATES
    ensures ranked == Map(Summary, Ranked(candidates, policy, basket))
  {
    var entries: seq<Entry> := [];
    for mask := 0 to Pow2(|candidates|)
      invariant entries == Entries(candidates, policy, basket, mask)
    {
      var combo := Members(candidates, mask);
      var allowed := PolicyAllows(combo, policy);
      if !allowed {
        continue;
      }
      var total, capped := ComboTotal(combo, basket);
      entries := entries + [Entry(mask, total, capped, |combo|, Map(NameOf, combo))];
    }
    entries := SortBy(EntryLeq, entries);
    ranked := Map(Summary, entries);
  }

  // ----- the plan -----

  function Select(c: Candidate): SelectedVoucher { SelectedVoucher(c.reference, c.estimate) }

  function NotSearched(limit: nat, dropped: seq<Candidate>): seq<ExcludedVoucher> {
    seq(|dropped|, i requires 0 <= i < |dropped| => ExcludedVoucher(dropped[i].reference, NotEvaluated(limit)))
  }

  /** The first few non-empty combinations after the winner. */
  function AlternativesFrom(
      candidates: seq<Candidate>, rest: seq<Combination>, best: Money, room: nat): seq<Alternative> {
    if rest == [] || room == 0 then []
    else if rest[0].mask == 0 then AlternativesFrom(candidates, rest[1..], best, room)
    else
      var why := if rest[0].total < best then SavesLess(best - rest[0].total) else SameSavingButUsesMoreVouchers;
      [Alternative(Map(NameOf, Combo(candidates, rest[0].mask)), rest[0].total, why)]
      + AlternativesFrom(candidates, rest[1..], best, room - 1)
  }

  function FirstOf(ranked: seq<Combination>): Combination {
    if ranked == [] then Combination(0, 0.0, false) else ranked[0]
  }

  function AfterWinner(ranked: seq<Combination>): seq<Combination> {
    if ranked == [] then [] else ranked[1..]
  }

  function Sorted(basket: B.Basket, vouchers: seq<Voucher>): seq<Candidate> {
    SortBy(CandidateLeq, CandidatesOf(basket, vouchers))
  }

  function Searched(basket: B.Basket, vouchers: seq<Voucher>, policy: StackingPolicy): (r: seq<Candidate>)
    ensures |r| <= MAX_SEARCH_CANDIDATES && r <= Sorted(basket, vouchers)
  {
    var all := Sorted(basket, vouchers);
    if |all| > policy.SearchLimit() then all[..policy.SearchLimit()] else all
  }

  function Dropped(basket: B.Basket, vouchers: seq<Voucher>, policy: StackingPolicy): seq<Candidate> {
    var all := Sorted(basket, vouchers);
    if |all| > policy.SearchLimit() then all[policy.SearchLimit()..] else []
  }

  ghost function Combinations(basket: B.Basket, vouchers: seq<Voucher>, policy: StackingPolicy): seq<Combination> {
    Map(Summary, Ranked(Searched(basket, vouchers, policy), policy, basket))
  }

  ghost function Best(basket: B.Basket, vouchers: seq<Voucher>, policy: StackingPolicy): Combination {
    FirstOf(Combinations(basket, vouchers, policy))
  }

  ghost function PlanFor(basket: B.Basket, vouchers: seq<Voucher>, policy: StackingPolicy): Plan {
    var searched := Searched(basket, vouchers, policy);
    var ranked := Combinations(basket, vouchers, policy);
    var best := Best(basket, vouchers, policy);
    Plan(
      basket.MerchandiseSubtotal(), basket.shippingEstimate, Map(Select, Combo(searched, best.mask)),
      best.total, MaxMoney(basket.TotalBeforeVouchers() - best.total, 0.0), best.capped,
      AlternativesFrom(searched, AfterWinner(ranked), best.total, MAX_ALTERNATIVES),
      ExclusionsOf(basket, vouchers) + NotSearched(policy.SearchLimit(), Dropped(basket, vouchers, policy)))
  }

  /** Checks every voucher against the basket, in input order. */
  method EvaluateAll(basket: B.Basket, vouchers: seq<Voucher>)
    returns (candidates: seq<Candidate>, excluded: seq<ExcludedVoucher>)
    ensures candidates == CandidatesOf(basket, vouchers)
    ensures excluded == ExclusionsOf(basket, vouchers)
  {
    candidates, excluded := [], [];
    for index := 0 to |vouchers|
      invariant candidates == CandidatesOf(basket, vouchers[..index])
      invariant excluded == ExclusionsOf(basket, vouchers[..index])
    {
      assert vouchers[..index + 1][..index] == vouchers[..index];
      match Assess(vouchers[index], basket)
      case Offered(group, estimate, shipping) =>
        candidates := candidates + [Candidate(RefOf(index, vouchers[index]), group, estimate, shipping)];
      case Refused(reason) =>
        excluded := excluded + [ExcludedVoucher(RefOf(index, vouchers[index]), reason)];
    }
    assert vouchers[..|vouchers|] == vouchers;
  }

  method OptimizeWith(basket: B.Basket, vouchers: seq<Voucher>, policy: StackingPolicy) returns (plan: Plan)
    ensures plan == PlanFor(basket, vouchers, policy)
  {
    var candidates, excluded := EvaluateAll(basket, vouchers);
    candidates := SortBy(CandidateLeq, candidates);
    var limit := policy.SearchLimit();
    var dropped: seq<Candidate> := [];
    if |candidates| > limit {
      candidates, dropped := candidates[..limit], candidates[limit..];
    }
    excluded := excluded + NotSearched(limit, dropped);

    assert candidates == Searched(basket, vouchers, policy) && dropped == Dropped(basket, vouchers, policy);
    var ranked := RankCombinations(candidates, policy, basket);
    assert ranked == Combinations(basket, vouchers, policy);
    var best := FirstOf(ranked);
    var chosen := Members(candidates, best.mask);
    plan := Plan(
      basket.MerchandiseSubtotal(), basket.shippingEstimate, Map(Select, chosen),
      best.total, MaxMoney(basket.TotalBeforeVouchers() - best.total, 0.0), best.capped,
      AlternativesFrom(candidates, AfterWinner(ranked), best.total, MAX_ALTERNATIVES), excluded);
  }
}
