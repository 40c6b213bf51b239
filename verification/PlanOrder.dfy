/** What the order in which vouchers are given can change. */
module OrderProperties {
  import opened Domain
  import opened Orders
  import opened Optimize
  import opened SearchProperties
  import opened PlanProperties
  import B = Basket
  import C = Constraint

  /** A candidate without the input position it came from. */
  function Anonymous(c: Candidate): Candidate { c.(reference := c.reference.(index := 0)) }

  function AnonymousChoice(s: SelectedVoucher): SelectedVoucher { s.(voucher := s.voucher.(index := 0)) }

  function Offer(basket: B.Basket, voucher: Voucher): seq<Candidate> {
    match Assess(voucher, basket)
    case Offered(group, estimate, shipping) => [Candidate(RefOf(0, voucher), group, estimate, shipping)]
    case Refused(_) => []
  }

  function OfferIn(basket: B.Basket): Voucher -> seq<Candidate> { v => Offer(basket, v) }

  predicate NamedLeq(a: Candidate, b: Candidate) {
    a.estimate > b.estimate || (a.estimate == b.estimate && StringLeq(a.reference.name, b.reference.name))
  }

  ghost predicate DistinctNames(candidates: seq<Candidate>) {
    forall i, j | 0 <= i < j < |candidates| :: candidates[i].reference.name != candidates[j].reference.name
  }

  lemma {:induction false} CandidatesAreOffers(basket: B.Basket, vouchers: seq<Voucher>)
    ensures Map(Anonymous, CandidatesOf(basket, vouchers)) == FlatMap(OfferIn(basket), vouchers)
  {
    if vouchers != [] {
      var last := |vouchers| - 1;
      CandidatesAreOffers(basket, vouchers[..last]);
      var before := CandidatesOf(basket, vouchers[..last]);
      match Assess(vouchers[last], basket)
      case Offered(group, estimate, shipping) =>
        var c := Candidate(RefOf(last, vouchers[last]), group, estimate, shipping);
        assert Map(Anonymous, before + [c]) == Map(Anonymous, before) + [Anonymous(c)];
      case Refused(_) =>
    }
  }

  /** Up to input positions, permuted vouchers yield permuted candidates. */
  lemma SortedPermutes(basket: B.Basket, vouchers: seq<Voucher>, others: seq<Voucher>)
    requires multiset(vouchers) == multiset(others)
    ensures multiset(Map(Anonymous, Sorted(basket, vouchers))) == multiset(Map(Anonymous, Sorted(basket, others)))
  {
    FlatMapPermutes(OfferIn(basket), vouchers, others);
    CandidatesAreOffers(basket, vouchers);
    CandidatesAreOffers(basket, others);
    MapPermutes(Anonymous, Sorted(basket, vouchers), CandidatesOf(basket, vouchers));
    MapPermutes(Anonymous, Sorted(basket, others), CandidatesOf(basket, others));
  }

  lemma SortedByName(basket: B.Basket, vouchers: seq<Voucher>)
    ensures SortedBy(NamedLeq, Map(Anonymous, Sorted(basket, vouchers)))
  {
    CandidateOrder();
    StringOrders();
    var all := Sorted(basket, vouchers);
    SortBySorts(CandidateLeq, CandidatesOf(basket, vouchers));
    forall i, j | 0 <= i < j < |all| ensures NamedLeq(Anonymous(all[i]), Anonymous(all[j])) {
      assert CandidateLeq(all[i], all[j]);
      assert StringLeq(all[i].reference.name, all[i].reference.name);
    }
  }

  lemma NamesSeparate(basket: B.Basket, vouchers: seq<Voucher>)
    requires DistinctNames(CandidatesOf(basket, vouchers))
    ensures Separates(NamedLeq, multiset(Map(Anonymous, Sorted(basket, vouchers))))
  {
    var candidates := CandidatesOf(basket, vouchers);
    var m := Map(Anonymous, candidates);
    StringOrders();
    MapPermutes(Anonymous, Sorted(basket, vouchers), candidates);
    forall x, y | x in multiset(m) && y in multiset(m) && NamedLeq(x, y) && NamedLeq(y, x) ensures x == y {
      var i :| 0 <= i < |m| && m[i] == x;
      var j :| 0 <= j < |m| && m[j] == y;
      assert x.reference.name == y.reference.name;
      assert i == j;
    }
  }

  // ----- the ranking does not look at input positions -----

  lemma {:induction false} SumAnonymous(f: Candidate -> Money, combo: seq<Candidate>)
    requires forall c :: f(Anonymous(c)) == f(c)
    ensures SumBy(f, Map(Anonymous, combo)) == SumBy(f, combo)
  {
    if combo != [] {
      SumAnonymous(f, combo[..|combo| - 1]);
      assert Map(Anonymous, combo)[..|combo| - 1] == Map(Anonymous, combo[..|combo| - 1]);
    }
  }

  /** A combination's value, size, names and permission do not depend on input positions. */
  lemma AnonymousSame(combo: seq<Candidate>, policy: StackingPolicy, basket: B.Basket)
    ensures Total(Map(Anonymous, combo), basket) == Total(combo, basket)
    ensures Capped(Map(Anonymous, combo), basket) == Capped(combo, basket)
    ensures Map(NameOf, Map(Anonymous, combo)) == Map(NameOf, combo)
    ensures Allowed(Map(Anonymous, combo), policy) <==> Allowed(combo, policy)
  {
    SumAnonymous(MerchandisePart, combo);
    SumAnonymous(ShippingPart, combo);
    assert Groups(Map(Anonymous, combo)) == Groups(combo);
  }

  lemma {:induction false} EntriesAnonymous(
      candidates: seq<Candidate>, policy: StackingPolicy, basket: B.Basket, end: nat)
    ensures Entries(candidates, policy, basket, end) == Entries(Map(Anonymous, candidates), policy, basket, end)
  {
    if end > 0 {
      EntriesAnonymous(candidates, policy, basket, end - 1);
      PickMap(Anonymous, candidates, Bits(end - 1, |candidates|));
      AnonymousSame(Combo(candidates, end - 1), policy, basket);
    }
  }

  lemma {:induction false} AlternativesAnonymous(
      candidates: seq<Candidate>, rest: seq<Combination>, best: Money, room: nat)
    ensures AlternativesFrom(Map(Anonymous, candidates), rest, best, room)
            == AlternativesFrom(candidates, rest, best, room)
  {
    if rest != [] && room > 0 {
      if rest[0].mask == 0 {
        AlternativesAnonymous(candidates, rest[1..], best, room);
      } else {
        AlternativesAnonymous(candidates, rest[1..], best, room - 1);
        PickMap(Anonymous, candidates, Bits(rest[0].mask, |candidates|));
        var combo := Combo(candidates, rest[0].mask);
        assert Map(NameOf, Map(Anonymous, combo)) == Map(NameOf, combo);
      }
    }
  }

  /** The order in which vouchers with distinct names are given changes nothing but their input positions. */
  lemma OrderIrrelevant(basket: B.Basket, vouchers: seq<Voucher>, others: seq<Voucher>, policy: StackingPolicy)
    requires multiset(vouchers) == multiset(others)
    requires DistinctNames(CandidatesOf(basket, vouchers))
    ensures Ranked(Searched(basket, vouchers, policy), policy, basket)
            == Ranked(Searched(basket, others, policy), policy, basket)
    ensures var p, q := PlanFor(basket, vouchers, policy), PlanFor(basket, others, policy);
            && Map(AnonymousChoice, p.selected) == Map(AnonymousChoice, q.selected)
            && p.total == q.total && p.totalAfter == q.totalAfter && p.cappedAtBasketTotal == q.cappedAtBasketTotal
            && p.alternatives == q.alternatives
  {
    SearchedAgree(basket, vouchers, others, policy);
    var s, t := Searched(basket, vouchers, policy), Searched(basket, others, policy);
    assert |s| == |Map(Anonymous, s)| == |Map(Anonymous, t)| == |t|;
    EntriesAnonymous(s, policy, basket, Pow2(|s|));
    EntriesAnonymous(t, policy, basket, Pow2(|t|));
    assert Combinations(basket, vouchers, policy) == Combinations(basket, others, policy);
    var ranked, best := Combinations(basket, vouchers, policy), Best(basket, vouchers, policy);
    var rest := if ranked == [] then [] else ranked[1..];
    AlternativesAnonymous(s, rest, best.total, MAX_ALTERNATIVES);
    AlternativesAnonymous(t, rest, best.total, MAX_ALTERNATIVES);
    PickMap(Anonymous, s, Bits(best.mask, |s|));
    PickMap(Anonymous, t, Bits(best.mask, |t|));
    ChoicesAnonymous(Combo(s, best.mask));
    ChoicesAnonymous(Combo(t, best.mask));
  }

  lemma ChoicesAnonymous(combo: seq<Candidate>)
    ensures Map(AnonymousChoice, Map(Select, combo)) == Map(Select, Map(Anonymous, combo))
  {
  }

  lemma SearchedAgree(basket: B.Basket, vouchers: seq<Voucher>, others: seq<Voucher>, policy: StackingPolicy)
    requires multiset(vouchers) == multiset(others)
    requires DistinctNames(CandidatesOf(basket, vouchers))
    ensures Map(Anonymous, Searched(basket, vouchers, policy)) == Map(Anonymous, Searched(basket, others, policy))
  {
    var a, b := Map(Anonymous, Sorted(basket, vouchers)), Map(Anonymous, Sorted(basket, others));
    SortedPermutes(basket, vouchers, others);
    SortedByName(basket, vouchers);
    SortedByName(basket, others);
    NamesSeparate(basket, vouchers);
    SortedUnique(NamedLeq, a, b);
    SearchedIsPrefix(basket, vouchers, policy, a);
    SearchedIsPrefix(basket, others, policy, b);
  }

  lemma SearchedIsPrefix(basket: B.Basket, vouchers: seq<Voucher>, policy: StackingPolicy, all: seq<Candidate>)
    requires all == Map(Anonymous, Sorted(basket, vouchers))
    ensures Map(Anonymous, Searched(basket, vouchers, policy))
         == if |all| > policy.SearchLimit() then all[..policy.SearchLimit()] else all
  {
  }

  /** When nothing is truncated, the best saving does not depend on the input order even if names repeat. */
  lemma BestTotalOrderFree(basket: B.Basket, vouchers: seq<Voucher>, others: seq<Voucher>, policy: StackingPolicy)
    requires multiset(vouchers) == multiset(others)
    requires |CandidatesOf(basket, vouchers)| <= policy.SearchLimit()
    ensures PlanFor(basket, vouchers, policy).total == PlanFor(basket, others, policy).total
  {
    SortedPermutes(basket, vouchers, others);
    var a, b := Map(Anonymous, Sorted(basket, vouchers)), Map(Anonymous, Sorted(basket, others));
    assert |a| == |multiset(a)| == |multiset(b)| == |b|;
    NoWorse(basket, vouchers, others, policy);
    NoWorse(basket, others, vouchers, policy);
  }

  lemma NoWorse(basket: B.Basket, vouchers: seq<Voucher>, others: seq<Voucher>, policy: StackingPolicy)
    requires multiset(Map(Anonymous, Sorted(basket, vouchers))) == multiset(Map(Anonymous, Sorted(basket, others)))
    requires |Sorted(basket, vouchers)| <= policy.SearchLimit() && |Sorted(basket, others)| <= policy.SearchLimit()
    ensures PlanFor(basket, vouchers, policy).total <= PlanFor(basket, others, policy).total
  {
    var s, t := Searched(basket, vouchers, policy), Searched(basket, others, policy);
    var winner := Winner(basket, vouchers, policy);
    var combo := Pick(s, winner);
    PlanIsWinner(basket, vouchers, policy);
    PickMap(Anonymous, s, winner);
    PickSub(Map(Anonymous, s), winner);
    var at := PickAny(Map(Anonymous, t), multiset(Map(Anonymous, combo)));
    PickMap(Anonymous, t, at);
    SameMultiset(combo, Pick(t, at), policy, basket);
    PlanOptimal(basket, others, policy, at);
  }

  lemma SameMultiset(combo: seq<Candidate>, other: seq<Candidate>, policy: StackingPolicy, basket: B.Basket)
    requires multiset(Map(Anonymous, combo)) == multiset(Map(Anonymous, other))
    ensures Total(combo, basket) == Total(other, basket)
    ensures Allowed(combo, policy) <==> Allowed(other, policy)
  {
    var a, b := Map(Anonymous, combo), Map(Anonymous, other);
    AnonymousSame(combo, policy, basket);
    AnonymousSame(other, policy, basket);
    SumPermutes(MerchandisePart, a, b);
    SumPermutes(ShippingPart, a, b);
    MapPermutes(GroupIn, a, b);
    assert |a| == |multiset(a)| == |multiset(b)| == |b|;
  }
}
