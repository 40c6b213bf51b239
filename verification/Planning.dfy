/** Basket input: amounts the owner typed, and their validation. */
module Basket {
  import opened Domain
  import Text

  const DECIMAL_MAX: Money := 79228162514264337593543950335.0

  datatype BasketItem = BasketItem(title: string, unitPrice: Money, quantity: nat) {
    /** Saturates to the largest decimal when the product cannot be represented. */
    function LineTotal(): Money {
      var product := unitPrice * quantity as real;
      if -DECIMAL_MAX <= product <= DECIMAL_MAX then product else DECIMAL_MAX
    }
  }

  function ItemsTotal(items: seq<BasketItem>): Money {
    if items == [] then 0.0 else ItemsTotal(items[..|items| - 1]) + items[|items| - 1].LineTotal()
  }

  datatype BasketShop = BasketShop(shopId: string, subtotal: Money, items: seq<BasketItem>, categoryTags: set<string>) {
    predicate MatchesCategory(category: string) {
      exists tag | tag in categoryTags :: Text.Fold(tag) == Text.Fold(category)
    }

    /** Nothing about this shop would be reported. */
    ghost predicate Valid() {
      && Text.Trim(shopId) != ""
      && subtotal >= 0.0
      && (forall i | 0 <= i < |items| :: items[i].quantity != 0 && items[i].unitPrice >= 0.0)
      && (items != [] ==> ItemsTotal(items) == subtotal)
    }
  }

  function ShopsTotal(shops: seq<BasketShop>): Money {
    if shops == [] then 0.0 else ShopsTotal(shops[..|shops| - 1]) + shops[|shops| - 1].subtotal
  }

  function CategoryTotal(shops: seq<BasketShop>, category: string): Money {
    if shops == [] then 0.0
    else
      var last := shops[|shops| - 1];
      CategoryTotal(shops[..|shops| - 1], category) + (if last.MatchesCategory(category) then last.subtotal else 0.0)
  }

  function FindShop(shops: seq<BasketShop>, shopId: string): (r: Option<BasketShop>)
    ensures r.Some? ==> r.value in shops && Text.Fold(r.value.shopId) == Text.Fold(shopId)
    ensures r.None? ==> forall i | 0 <= i < |shops| :: Text.Fold(shops[i].shopId) != Text.Fold(shopId)
  {
    if shops == [] then None
    else if Text.Fold(shops[0].shopId) == Text.Fold(shopId) then Some(shops[0])
    else FindShop(shops[1..], shopId)
  }

  datatype Issue =
    | EmptyBasket
    | BlankIdentifier
    | NegativeAmount(field: string, value: Money)
    | ZeroQuantity(title: string)
    | SubtotalMismatch(shopId: string, stated: Money, computed: Money)
    | DuplicateShop(duplicate: string)

  datatype Basket = Basket(shops: seq<BasketShop>, shippingEstimate: Option<Money>, paymentMethod: Option<string>) {
    function MerchandiseSubtotal(): Money { ShopsTotal(shops) }

    function ShippingCap(): Money { shippingEstimate.GetOr(0.0) }

    function TotalBeforeVouchers(): Money { MerchandiseSubtotal() + ShippingCap() }

    function MatchesPaymentMethod(payMethod: string): Option<bool> {
      if paymentMethod.None? then None else Some(Text.Fold(paymentMethod.value) == Text.Fold(payMethod))
    }

    /** What a basket without a single reported problem looks like. */
    ghost predicate Valid() {
      && shops != []
      && (shippingEstimate.Some? ==> shippingEstimate.value >= 0.0)
      && ShopsSound(shops, |shops|)
    }
  }

  /** The first shops are each valid, and no two of them have the same id. */
  ghost predicate ShopsSound(shops: seq<BasketShop>, end: nat)
    requires end <= |shops|
  {
    && (forall i | 0 <= i < end :: shops[i].Valid())
    && (forall i, j | 0 <= i < j < end :: Text.Fold(shops[i].shopId) != Text.Fold(shops[j].shopId))
  }

  lemma ShopsSoundStep(shops: seq<BasketShop>, k: nat)
    requires k < |shops|
    ensures ShopsSound(shops, k + 1)
       <==> ShopsSound(shops, k) && shops[k].Valid()
            && !exists i | 0 <= i < k :: Text.Fold(shops[i].shopId) == Text.Fold(shops[k].shopId)
  {
  }

  method ValidateShop(shop: BasketShop, before: seq<Issue>) returns (issues: seq<Issue>)
    ensures before <= issues
    ensures issues == before <==> shop.Valid()
  {
    issues := before;
    if Text.Trim(shop.shopId) == "" {
      issues := issues + [BlankIdentifier];
    }
    if shop.subtotal < 0.0 {
      issues := issues + [NegativeAmount("subtotal", shop.subtotal)];
    }
    var computed := 0.0;
    for k := 0 to |shop.items|
      invariant before <= issues
      invariant computed == ItemsTotal(shop.items[..k])
      invariant issues == before <==>
        && Text.Trim(shop.shopId) != "" && shop.subtotal >= 0.0
        && forall i | 0 <= i < k :: shop.items[i].quantity != 0 && shop.items[i].unitPrice >= 0.0
    {
      var item := shop.items[k];
      if item.quantity == 0 {
        issues := issues + [ZeroQuantity(item.title)];
      }
      if item.unitPrice < 0.0 {
        issues := issues + [NegativeAmount("unit_price", item.unitPrice)];
      }
      assert shop.items[..k + 1][..k] == shop.items[..k];
      computed := computed + item.LineTotal();
    }
    assert shop.items[..|shop.items|] == shop.items;
    if shop.items != [] && computed != shop.subtotal {
      issues := issues + [SubtotalMismatch(shop.shopId, shop.subtotal, computed)];
    }
  }

  /** Reports every problem at once; silent on exactly the valid baskets. */
  method Validate(basket: Basket) returns (issues: seq<Issue>)
    ensures issues == [] <==> basket.Valid()
  {
    issues := [];
    if basket.shops == [] {
      issues := issues + [EmptyBasket];
    }
    if basket.shippingEstimate.Some? && basket.shippingEstimate.value < 0.0 {
      issues := issues + [NegativeAmount("shipping_estimate", basket.shippingEstimate.value)];
    }
    var seen: set<string> := {};
    for k := 0 to |basket.shops|
      invariant forall key :: key in seen <==> exists i | 0 <= i < k :: Text.Fold(basket.shops[i].shopId) == key
      invariant issues == [] <==>
        && basket.shops != []
        && (basket.shippingEstimate.Some? ==> basket.shippingEstimate.value >= 0.0)
        && ShopsSound(basket.shops, k)
    {
      var shop := basket.shops[k];
      ShopsSoundStep(basket.shops, k);
      issues := ValidateShop(shop, issues);
      var key := Text.Fold(shop.shopId);
      if key in seen {
        issues := issues + [DuplicateShop(shop.shopId)];
      }
      seen := seen + {key};
    }
  }

  lemma {:induction false} ShopsTotalNonNegative(shops: seq<BasketShop>)
    requires forall i | 0 <= i < |shops| :: shops[i].subtotal >= 0.0
    ensures ShopsTotal(shops) >= 0.0
  {
    if shops != [] { ShopsTotalNonNegative(shops[..|shops| - 1]); }
  }

  /** In a valid basket every amount a voucher can be applied to lies between zero and the merchandise total. */
  lemma {:induction false} PartsWithinTotal(shops: seq<BasketShop>, category: string, shopId: string)
    requires forall i | 0 <= i < |shops| :: shops[i].subtotal >= 0.0
    ensures 0.0 <= CategoryTotal(shops, category) <= ShopsTotal(shops)
    ensures FindShop(shops, shopId).Some? ==> 0.0 <= FindShop(shops, shopId).value.subtotal <= ShopsTotal(shops)
  {
    if shops != [] {
      PartsWithinTotal(shops[..|shops| - 1], category, shopId);
    }
    forall i | 0 <= i < |shops| ensures shops[i].subtotal <= ShopsTotal(shops) { OneShopWithinTotal(shops, i); }
  }

  lemma {:induction false} OneShopWithinTotal(shops: seq<BasketShop>, i: nat)
    requires i < |shops| && forall k | 0 <= k < |shops| :: shops[k].subtotal >= 0.0
    ensures shops[i].subtotal <= ShopsTotal(shops)
  {
    if i < |shops| - 1 {
      OneShopWithinTotal(shops[..|shops| - 1], i);
    } else {
      ShopsTotalNonNegative(shops[..i]);
    }
  }
}

/** A voucher restated as explicit constraints, and what it saves on an amount. */
module Constraint {
  import opened Domain
  import Text

  datatype DiscountRule =
    | Fixed(amount: Money)
    | Percent(percent: Money, cap: Option<Money>)
    | FreeShippingUpTo(limit: Option<Money>)
    | NoValue

  datatype VoucherConstraint = VoucherConstraint(
    labelText: string, voucherType: VoucherType, scope: Option<Scope>, minSpend: Option<Money>,
    discount: DiscountRule, paymentMethod: Option<string>)
  {
    predicate TargetsShipping() { discount.FreeShippingUpTo? || voucherType == Freeship }
  }

  /** Keeps the values whose sign is not negative. */
  function Positive(value: Option<Money>): Option<Money> {
    if value.Some? && value.value >= 0.0 then value else None
  }

  function EffectiveDiscount(terms: Terms): Option<Money> {
    match (Positive(terms.discountAmount), Positive(terms.maxDiscount))
    case (Some(amount), Some(cap)) => Some(MinMoney(amount, cap))
    case (Some(amount), None) => Some(amount)
    case (None, Some(cap)) => Some(cap)
    case (None, None) => None
  }

  function RuleOf(terms: Terms): DiscountRule {
    var percent := Positive(terms.discountPercent);
    if percent.Some? then Percent(percent.value, Positive(terms.maxDiscount))
    else if terms.voucherType == Freeship || terms.discountType == Some(FreeShipping) then
      FreeShippingUpTo(EffectiveDiscount(terms))
    else
      match EffectiveDiscount(terms)
      case Some(amount) => Fixed(amount)
      case None => NoValue
  }

  /** The code when it is not blank, else the first 40 characters of the title. */
  function LabelFor(terms: Terms): (r: string)
    ensures r != ""
    ensures Text.Trim(terms.code.GetOr("")) != "" ==> r == Text.Trim(terms.code.value)
    ensures Text.Trim(terms.code.GetOr("")) == "" && Text.Trim(terms.title) != "" ==>
              r <= Text.Trim(terms.title) && |r| <= 40 && (|r| < 40 ==> r == Text.Trim(terms.title))
  {
    var code := Text.Trim(terms.code.GetOr(""));
    if code != "" then code
    else
      var title := Text.Trim(terms.title);
      if title == "" then "(untitled voucher)" else if |title| <= 40 then title else title[..40]
  }

  function FromVoucher(terms: Terms): VoucherConstraint {
    var payment := if terms.paymentMethod.Some? then terms.paymentMethod
                   else if terms.scope.Some? && terms.scope.value.PaymentScope? then Some(terms.scope.value.payMethod)
                   else None;
    VoucherConstraint(LabelFor(terms), terms.voucherType, terms.scope, Positive(terms.minSpend), RuleOf(terms), payment)
  }

  /** Nearest whole amount, halves to the even neighbour. */
  function RoundHalfEven(x: real): (r: int)
    ensures r as real - 0.5 <= x <= r as real + 0.5
    ensures (x - r as real == 0.5 || r as real - x == 0.5) ==> r % 2 == 0
  {
    var below := x.Floor;
    var rest := x - below as real;
    if rest < 0.5 || (rest == 0.5 && below % 2 == 0) then below else below + 1
  }

  function PercentOf(base: Money, percent: Money): Money {
    RoundHalfEven(base * percent / 100.0) as real
  }

  function EstimateDiscount(rule: DiscountRule, offered: Money): Money {
    var base := MaxMoney(offered, 0.0);
    var amount :=
      match rule
      case Fixed(amount) => MinMoney(amount, base)
      case Percent(percent, cap) =>
        var raw := PercentOf(base, percent);
        if cap.Some? then MinMoney(MinMoney(raw, cap.value), base) else MinMoney(raw, base)
      case FreeShippingUpTo(limit) => if limit.Some? then MinMoney(limit.value, base) else base
      case NoValue => 0.0;
    MaxMoney(amount, 0.0)
  }

  /** A voucher never costs anything and never saves more than the amount it is applied to. */
  lemma EstimateWithinBase(rule: DiscountRule, base: Money)
    ensures 0.0 <= EstimateDiscount(rule, base) <= MaxMoney(base, 0.0)
  {
  }

  lemma RoundMonotone(x: real, y: real)
    requires x <= y
    ensures RoundHalfEven(x) <= RoundHalfEven(y)
  {
  }

  lemma PercentMonotone(a: Money, b: Money, percent: Money)
    requires a <= b && percent >= 0.0
    ensures PercentOf(a, percent) <= PercentOf(b, percent)
  {
    var p, q := a * percent, b * percent;
    assert q - p == (b - a) * percent >= 0.0;
    RoundMonotone(p / 100.0, q / 100.0);
  }

  /** The rule a voucher yields never saves less on a larger amount. */
  lemma EstimateMonotone(terms: Terms, small: Money, large: Money)
    requires small <= large
    ensures EstimateDiscount(RuleOf(terms), small) <= EstimateDiscount(RuleOf(terms), large)
  {
    match RuleOf(terms)
    case Percent(percent, cap) =>
      PercentMonotone(MaxMoney(small, 0.0), MaxMoney(large, 0.0), percent);
    case _ =>
  }
}
