/** Merging observations of one voucher from sources of different confidence. */
module Provenance {
  import opened Domain
  import opened Identity
  import Text

  /** Unknown 0, External 1, Shopee 2, Manual 3. */
  type Confidence = n: nat | n <= 3

  /** Sources with a registered tier; every other source is unknown. */
  type Registry = map<string, Confidence>

  function ConfidenceOf(registry: Registry, source: string): Confidence {
    if source in registry then registry[source] else 0
  }

  function Tier(registry: Registry, c: Candidate): Confidence { ConfidenceOf(registry, c.source) }

  /** Present beats absent, then higher confidence, then the value already held. */
  function Resolve<T>(
      existing: Option<T>, incoming: Option<T>, existingTier: Confidence, incomingTier: Confidence): Option<T> {
    match (existing, incoming)
    case (Some(_), None) => existing
    case (None, Some(_)) => incoming
    case (None, None) => existing
    case (Some(_), Some(_)) => if incomingTier > existingTier then incoming else existing
  }

  function Merge(a: Candidate, b: Candidate, registry: Registry): Candidate {
    var ta, tb := Tier(registry, a), Tier(registry, b);
    var terms := Terms(
      Resolve(a.terms.code, b.terms.code, ta, tb),
      Resolve(a.terms.promotionId, b.terms.promotionId, ta, tb),
      Resolve(a.terms.signature, b.terms.signature, ta, tb),
      if Text.Trim(b.terms.title) == "" then a.terms.title else if tb > ta then b.terms.title else a.terms.title,
      if tb > ta then b.terms.voucherType else a.terms.voucherType,
      Resolve(a.terms.discountType, b.terms.discountType, ta, tb),
      Resolve(a.terms.discountAmount, b.terms.discountAmount, ta, tb),
      Resolve(a.terms.discountPercent, b.terms.discountPercent, ta, tb),
      Resolve(a.terms.maxDiscount, b.terms.maxDiscount, ta, tb),
      Resolve(a.terms.minSpend, b.terms.minSpend, ta, tb),
      Resolve(a.terms.startAt, b.terms.startAt, ta, tb),
      Resolve(a.terms.endAt, b.terms.endAt, ta, tb),
      Resolve(a.terms.scope, b.terms.scope, ta, tb),
      Resolve(a.terms.paymentMethod, b.terms.paymentMethod, ta, tb));
    Candidate(
      if tb > ta then b.source else a.source,
      if tb > ta then b.sourceKey else a.sourceKey,
      Resolve(a.externalId, b.externalId, ta, tb),
      terms,
      Resolve(a.description, b.description, ta, tb),
      Resolve(a.landingUrl, b.landingUrl, ta, tb),
      b.rawPayload,
      if a.observedAt >= b.observedAt then a.observedAt else b.observedAt,
      b.parserVersion)
  }

  /** Observations merged one after the other onto the first. */
  function MergeAll(list: seq<Candidate>, registry: Registry): Candidate
    requires list != []
  {
    if |list| == 1 then list[0] else Merge(MergeAll(list[..|list| - 1], registry), list[|list| - 1], registry)
  }

  // ----- the closed form -----

  /** The `k`-th observation is more trusted than every earlier one. */
  ghost predicate Breaks(list: seq<Candidate>, registry: Registry, k: nat)
    requires k < |list|
  {
    forall j | 0 <= j < k :: Tier(registry, list[j]) < Tier(registry, list[k])
  }

  /** A field that merging resolves by the confidence rules. */
  ghost predicate IsMergedField<T(!new)>(field: Candidate -> Option<T>, registry: Registry) {
    forall a, b :: field(Merge(a, b, registry)) == Resolve(field(a), field(b), Tier(registry, a), Tier(registry, b))
  }

  /**
   * The `k`-th observation carries the field, first or more trusted than all before, and none after it does the same.
   */
  ghost predicate Chosen<T>(list: seq<Candidate>, field: Candidate -> Option<T>, registry: Registry, k: nat) {
    && k < |list| && field(list[k]).Some?
    && ((forall j | 0 <= j < k :: field(list[j]).None?) || Breaks(list, registry, k))
    && (forall j | k < j < |list| && field(list[j]).Some? :: !Breaks(list, registry, j))
  }

  lemma BreaksPrefix(list: seq<Candidate>, registry: Registry, end: nat, k: nat)
    requires k < end <= |list|
    ensures Breaks(list[..end], registry, k) <==> Breaks(list, registry, k)
  {
    assert forall j | 0 <= j < end :: list[..end][j] == list[j];
  }

  /** The `k`-th observation is the first of the most trusted. */
  ghost predicate MostTrusted(list: seq<Candidate>, registry: Registry, k: nat) {
    && k < |list| && Breaks(list, registry, k)
    && forall j | 0 <= j < |list| :: Tier(registry, list[j]) <= Tier(registry, list[k])
  }

  lemma MostTrustedStep(list: seq<Candidate>, registry: Registry, k: nat)
    requires |list| > 1 && MostTrusted(list[..|list| - 1], registry, k)
    ensures var last := |list| - 1;
            MostTrusted(list, registry, if Tier(registry, list[last]) > Tier(registry, list[k]) then last else k)
  {
    var last := |list| - 1;
    assert forall j | 0 <= j < last :: list[..last][j] == list[j];
    BreaksPrefix(list, registry, last, k);
  }

  predicate SameOrigin(a: Candidate, b: Candidate) {
    a.source == b.source && a.sourceKey == b.sourceKey && a.terms.voucherType == b.terms.voucherType
  }

  lemma MergeKeepsOrigin(a: Candidate, b: Candidate, registry: Registry)
    ensures SameOrigin(Merge(a, b, registry), if Tier(registry, b) > Tier(registry, a) then b else a)
  {
  }

  /** The merged origin is the first of the most trusted observations. */
  lemma {:induction false} OriginMostTrusted(list: seq<Candidate>, registry: Registry) returns (k: nat)
    requires list != []
    ensures MostTrusted(list, registry, k) && SameOrigin(MergeAll(list, registry), list[k])
  {
    var last := |list| - 1;
    k := 0;
    if last > 0 {
      k := OriginMostTrusted(list[..last], registry);
      MergeKeepsOrigin(MergeAll(list[..last], registry), list[last], registry);
      MostTrustedStep(list, registry, k);
      if Tier(registry, list[last]) > Tier(registry, list[k]) { k := last; }
    }
  }

  /** The last observation breaks the record exactly when the running merge is less trusted. */
  lemma LastBreaksIff(list: seq<Candidate>, registry: Registry)
    requires |list| > 1
    ensures Breaks(list, registry, |list| - 1)
       <==> Tier(registry, list[|list| - 1]) > Tier(registry, MergeAll(list[..|list| - 1], registry))
  {
    var init := list[..|list| - 1];
    var k := OriginMostTrusted(init, registry);
    assert forall j | 0 <= j < |init| :: init[j] == list[j];
  }

  lemma ChosenExtends<T(!new)>(list: seq<Candidate>, field: Candidate -> Option<T>, registry: Registry, k: nat)
    requires |list| > 1 && Chosen(list[..|list| - 1], field, registry, k)
    requires field(list[|list| - 1]).None? || !Breaks(list, registry, |list| - 1)
    ensures Chosen(list, field, registry, k)
  {
    var last := |list| - 1;
    var init := list[..last];
    assert forall j | 0 <= j < last :: init[j] == list[j];
    BreaksPrefix(list, registry, last, k);
    forall j | k < j < |list| && field(list[j]).Some? ensures !Breaks(list, registry, j) {
      if j < last { BreaksPrefix(list, registry, last, j); }
    }
  }

  /**
   * The merged field is absent when no observation carries it; otherwise it is the first carrier's, unless later
   * carriers are each more trusted than everything before them: then it is the last such carrier's.
   */
  lemma {:induction false} FieldClosedForm<T(!new)>(
      list: seq<Candidate>, field: Candidate -> Option<T>, registry: Registry)
    returns (k: nat)
    requires list != [] && IsMergedField(field, registry)
    ensures MissingFrom(list, field) ==> field(MergeAll(list, registry)) == None
    ensures !MissingFrom(list, field) ==>
              Chosen(list, field, registry, k) && field(MergeAll(list, registry)) == field(list[k])
  {
    var last := |list| - 1;
    k := 0;
    if last > 0 {
      k := FieldClosedForm(list[..last], field, registry);
      LastBreaksIff(list, registry);
      MissingStep(list, field);
      if !MissingFrom(list[..last], field) && (field(list[last]).None? || !Breaks(list, registry, last)) {
        ChosenExtends(list, field, registry, k);
      } else {
        k := last;
      }
    }
  }

  predicate MissingFrom<T>(list: seq<Candidate>, field: Candidate -> Option<T>) {
    forall j | 0 <= j < |list| :: field(list[j]).None?
  }

  lemma MissingStep<T>(list: seq<Candidate>, field: Candidate -> Option<T>)
    requires list != []
    ensures MissingFrom(list, field) <==> MissingFrom(list[..|list| - 1], field) && field(list[|list| - 1]).None?
    ensures MissingFrom(list[..|list| - 1], field) ==> forall j | 0 <= j < |list| - 1 :: field(list[j]).None?
  {
    assert forall j | 0 <= j < |list| - 1 :: list[..|list| - 1][j] == list[j];
  }

  /** At most one observation is chosen, so the closed form determines the merged value. */
  lemma ChosenUnique<T>(list: seq<Candidate>, field: Candidate -> Option<T>, registry: Registry, k: nat, l: nat)
    requires Chosen(list, field, registry, k) && Chosen(list, field, registry, l)
    ensures k == l
  {
  }

  /** All fifteen optional fields are resolved by the confidence rules. */
  lemma AllFieldsMerged(registry: Registry)
    ensures IsMergedField((c: Candidate) => c.externalId, registry)
            && IsMergedField((c: Candidate) => c.terms.code, registry)
    ensures IsMergedField((c: Candidate) => c.terms.promotionId, registry)
            && IsMergedField((c: Candidate) => c.terms.signature, registry)
    ensures IsMergedField((c: Candidate) => c.description, registry)
            && IsMergedField((c: Candidate) => c.terms.discountType, registry)
    ensures IsMergedField((c: Candidate) => c.terms.discountAmount, registry)
            && IsMergedField((c: Candidate) => c.terms.discountPercent, registry)
    ensures IsMergedField((c: Candidate) => c.terms.maxDiscount, registry)
            && IsMergedField((c: Candidate) => c.terms.minSpend, registry)
    ensures IsMergedField((c: Candidate) => c.terms.startAt, registry)
            && IsMergedField((c: Candidate) => c.terms.endAt, registry)
    ensures IsMergedField((c: Candidate) => c.terms.scope, registry)
            && IsMergedField((c: Candidate) => c.terms.paymentMethod, registry)
    ensures IsMergedField((c: Candidate) => c.landingUrl, registry)
  {
  }

  /** The freshest observation time, and the payload and parser of the last observation. */
  lemma {:induction false} FreshestKept(list: seq<Candidate>, registry: Registry) returns (k: nat)
    requires list != []
    ensures var m := MergeAll(list, registry);
            && m.rawPayload == list[|list| - 1].rawPayload && m.parserVersion == list[|list| - 1].parserVersion
            && (forall j | 0 <= j < |list| :: list[j].observedAt <= m.observedAt)
            && k < |list| && list[k].observedAt == m.observedAt
  {
    var last := |list| - 1;
    k := last;
    if last > 0 {
      var init := list[..last];
      var before := FreshestKept(init, registry);
      assert forall j | 0 <= j < last :: init[j] == list[j];
      if MergeAll(init, registry).observedAt >= list[last].observedAt { k := before; }
    }
  }

  /** A title follows the same rule as the optional fields, except that a blank first title counts as a value. */
  lemma {:induction false} TitleClosedForm(list: seq<Candidate>, registry: Registry) returns (k: nat)
    requires list != []
    ensures TitleChosen(list, registry, k) && MergeAll(list, registry).terms.title == list[k].terms.title
  {
    var last := |list| - 1;
    k := 0;
    if last > 0 {
      k := TitleClosedForm(list[..last], registry);
      LastBreaksIff(list, registry);
      if Text.Trim(list[last].terms.title) != "" && Breaks(list, registry, last) {
        k := last;
      } else {
        TitleExtends(list, registry, k);
      }
    }
  }

  /** The first observation's title, or that of the last record-breaker with a title. */
  ghost predicate TitleChosen(list: seq<Candidate>, registry: Registry, k: nat) {
    && k < |list| && Breaks(list, registry, k)
    && (k > 0 ==> Text.Trim(list[k].terms.title) != "")
    && (forall j | k < j < |list| && Text.Trim(list[j].terms.title) != "" :: !Breaks(list, registry, j))
  }

  lemma TitleExtends(list: seq<Candidate>, registry: Registry, k: nat)
    requires |list| > 1 && TitleChosen(list[..|list| - 1], registry, k)
    requires Text.Trim(list[|list| - 1].terms.title) == "" || !Breaks(list, registry, |list| - 1)
    ensures TitleChosen(list, registry, k)
  {
    var last := |list| - 1;
    assert forall j | 0 <= j < last :: list[..last][j] == list[j];
    BreaksPrefix(list, registry, last, k);
    forall j | k < j < |list| && Text.Trim(list[j].terms.title) != "" ensures !Breaks(list, registry, j) {
      if j < last { BreaksPrefix(list, registry, last, j); }
    }
  }

  /** Seeing the same observation again changes nothing. */
  lemma MergeIdempotent(a: Candidate, registry: Registry)
    ensures Merge(a, a, registry) == a
  {
  }

  /**
   * Merging is not associative, because a value held by a little-trusted source inherits the trust of a source it
   * is merged with. The grouping of three observations matters for a field exactly when one of them lacks it, the
   * other two disagree, and the one lacking it is trusted enough to tip the balance between them.
   */
  lemma GroupingMattersIff<T(!new)>(
      a: Candidate, b: Candidate, c: Candidate, field: Candidate -> Option<T>, registry: Registry)
    requires IsMergedField(field, registry)
    ensures var ta, tb, tc := Tier(registry, a), Tier(registry, b), Tier(registry, c);
            field(Merge(Merge(a, b, registry), c, registry)) != field(Merge(a, Merge(b, c, registry), registry))
            <==>
            || (field(b).None? && field(a).Some? && field(c).Some? && field(a) != field(c) && ta < tb && tc <= tb)
            || (field(c).None? && field(a).Some? && field(b).Some? && field(a) != field(b) && tb <= ta < tc)
            || (field(a).None? && field(b).Some? && field(c).Some? && field(b) != field(c) && tb < tc <= ta)
  {
    var ab, bc := Merge(a, b, registry), Merge(b, c, registry);
    assert Tier(registry, ab) == if Tier(registry, b) > Tier(registry, a) then Tier(registry, b) else Tier(registry, a);
    assert Tier(registry, bc) == if Tier(registry, c) > Tier(registry, b) then Tier(registry, c) else Tier(registry, b);
    assert field(ab) == Resolve(field(a), field(b), Tier(registry, a), Tier(registry, b));
    assert field(bc) == Resolve(field(b), field(c), Tier(registry, b), Tier(registry, c));
    assert field(Merge(ab, c, registry)) == Resolve(field(ab), field(c), Tier(registry, ab), Tier(registry, c));
    assert field(Merge(a, bc, registry)) == Resolve(field(a), field(bc), Tier(registry, a), Tier(registry, bc));
  }
}
