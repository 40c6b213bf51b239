/** What a collector emits, how it is identified and when it is accepted. */
module Identity {
  import opened Domain
  import Text

  datatype Candidate = Candidate(
    source: string, sourceKey: string, externalId: Option<string>, terms: Terms,
    description: Option<string>, landingUrl: Option<string>, rawPayload: string,
    observedAt: Instant, parserVersion: string)

  /** SHA-256 over the canonical rendering of a voucher's terms, and over a raw payload: opaque here. */
  datatype Hashing = Hashing(
    digest: Terms -> string, fingerprint: (string, Terms) -> string, raw: string -> string)

  datatype Basis = ExternalId | PromotionId | Fingerprint

  function NonBlank(value: Option<string>): Option<string> {
    if value.Some? && Text.Trim(value.value) != "" then Some(Text.Trim(value.value)) else None
  }

  /** The source's own id first, then the promotion id, then a fingerprint of the terms. */
  function BasisOf(c: Candidate): Basis {
    if NonBlank(c.externalId).Some? then ExternalId
    else if NonBlank(c.terms.promotionId).Some? then PromotionId
    else Fingerprint
  }

  function KeyOf(h: Hashing, c: Candidate): string {
    match BasisOf(c)
    case ExternalId => "ext:" + c.source + ":" + NonBlank(c.externalId).value
    case PromotionId => "promo:" + NonBlank(c.terms.promotionId).value
    case Fingerprint => "fp:" + c.source + ":" + h.fingerprint(c.source, c.terms)
  }

  /** Keys of different bases never collide: each basis has its own prefix. */
  lemma KeyTellsBasis(h: Hashing, c: Candidate, d: Candidate)
    requires KeyOf(h, c) == KeyOf(h, d)
    ensures BasisOf(c) == BasisOf(d)
  {
    assert KeyOf(h, c)[0] == KeyOf(h, d)[0];
  }

  /** `longer` is `shorter`, a colon, and then nothing or something that does not start with a space. */
  predicate Nested(longer: string, shorter: string) {
    && |shorter| < |longer| && longer[..|shorter|] == shorter && longer[|shorter|] == ':'
    && (|shorter| + 1 == |longer| || !Text.IsSpace(longer[|shorter| + 1]))
  }

  /** Some accepted item of source `s` and some accepted item of source `t`, both with external ids, share a key. */
  ghost predicate ShareExternalKey(h: Hashing, s: string, t: string) {
    exists c, d :: ExternalPair(c, s, d, t) && KeyOf(h, c) == KeyOf(h, d)
  }

  /** An accepted item of source `s` and one of source `t`, both with external ids. */
  predicate ExternalPair(c: Candidate, s: string, d: Candidate, t: string) {
    && c.source == s && BasisOf(c) == ExternalId && Accepted(c)
    && d.source == t && BasisOf(d) == ExternalId && Accepted(d)
  }

  function ItemOf(source: string, externalId: string): Candidate {
    var terms := Terms(None, None, None, "item", Unknown, None, None, None, None, None, None, None, None, None);
    Candidate(source, "item", Some(externalId), terms, None, None, "", 0, "v1")
  }

  lemma ItemKey(h: Hashing, source: string, externalId: string)
    requires externalId != "" && !Text.IsSpace(externalId[0]) && !Text.IsSpace(externalId[|externalId| - 1])
    ensures BasisOf(ItemOf(source, externalId)) == ExternalId
    ensures KeyOf(h, ItemOf(source, externalId)) == "ext:" + source + ":" + externalId
  {
    Text.TrimKeeps(externalId);
  }

  lemma ItemAccepted(source: string, externalId: string)
    ensures Accepted(ItemOf(source, externalId))
  {
    Text.TrimKeeps("item");
    Text.TrimKeeps("v1");
  }

  lemma NestedShare(h: Hashing, longer: string, shorter: string)
    requires Nested(longer, shorter)
    ensures ShareExternalKey(h, longer, shorter) && ShareExternalKey(h, shorter, longer)
  {
    var tail := longer[|shorter| + 1..] + ":" + "a";
    ItemKey(h, longer, "a");
    ItemKey(h, shorter, tail);
    assert longer == shorter + ":" + longer[|shorter| + 1..];
    assert "ext:" + longer + ":" + "a" == "ext:" + shorter + ":" + tail;
    ItemAccepted(longer, "a");
    ItemAccepted(shorter, tail);
    assert ExternalPair(ItemOf(longer, "a"), longer, ItemOf(shorter, tail), shorter);
    assert ExternalPair(ItemOf(shorter, tail), shorter, ItemOf(longer, "a"), longer);
  }

  lemma SharedIsNested(longer: string, x: string, shorter: string, y: string)
    requires longer + ":" + x == shorter + ":" + y && |shorter| < |longer|
    requires y != "" && !Text.IsSpace(y[0])
    ensures Nested(longer, shorter)
  {
    var left, right := longer + ":" + x, shorter + ":" + y;
    assert shorter == right[..|shorter|] == left[..|shorter|] == longer[..|shorter|];
    assert right[|shorter|] == ':' && left[|shorter|] == longer[|shorter|];
    if |shorter| + 1 < |longer| {
      assert right[|shorter| + 1] == y[0] && left[|shorter| + 1] == longer[|shorter| + 1];
    }
  }

  lemma ExternalKeyParts(h: Hashing, c: Candidate, d: Candidate)
    requires BasisOf(c) == ExternalId && KeyOf(h, c) == KeyOf(h, d)
    ensures BasisOf(d) == ExternalId
    ensures c.source + ":" + NonBlank(c.externalId).value == d.source + ":" + NonBlank(d.externalId).value
  {
    KeyTellsBasis(h, c, d);
    var x, y := NonBlank(c.externalId).value, NonBlank(d.externalId).value;
    assert c.source + ":" + x == ("ext:" + c.source + ":" + x)[4..];
    assert d.source + ":" + y == ("ext:" + d.source + ":" + y)[4..];
  }

  lemma SharersNested(h: Hashing, c: Candidate, d: Candidate)
    requires BasisOf(c) == BasisOf(d) == ExternalId && KeyOf(h, c) == KeyOf(h, d) && |d.source| < |c.source|
    ensures Nested(c.source, d.source)
  {
    ExternalKeyParts(h, c, d);
    Text.TrimTrims(d.externalId.value);
    SharedIsNested(c.source, NonBlank(c.externalId).value, d.source, NonBlank(d.externalId).value);
  }

  lemma SameLengthSharers(h: Hashing, c: Candidate, d: Candidate)
    requires BasisOf(c) == BasisOf(d) == ExternalId && KeyOf(h, c) == KeyOf(h, d) && |d.source| == |c.source|
    ensures c.source == d.source
  {
    ExternalKeyParts(h, c, d);
    var x, y := NonBlank(c.externalId).value, NonBlank(d.externalId).value;
    assert c.source == (c.source + ":" + x)[..|c.source|] == (d.source + ":" + y)[..|c.source|] == d.source;
  }

  /**
   * An external id is meant to be scoped to its source. Items of two sources can share a key exactly when one
   * source's name is nested in the other's: "feed" and "feed:vn" can, "feed" and "feed-vn" cannot.
   */
  lemma SharedExternalKeyIff(h: Hashing, s: string, t: string)
    requires s != t
    ensures ShareExternalKey(h, s, t) <==> Nested(s, t) || Nested(t, s)
  {
    if Nested(s, t) {
      NestedShare(h, s, t);
    } else if Nested(t, s) {
      NestedShare(h, t, s);
    } else if ShareExternalKey(h, s, t) {
      var c, d :| ExternalPair(c, s, d, t) && KeyOf(h, c) == KeyOf(h, d);
      if |t| < |s| {
        SharersNested(h, c, d);
      } else if |s| < |t| {
        SharersNested(h, d, c);
      } else {
        SameLengthSharers(h, c, d);
      }
      assert false;
    }
  }

  /** Within one source, equal keys mean equal external ids. */
  lemma ExternalKeyInjective(h: Hashing, c: Candidate, d: Candidate)
    requires BasisOf(c) == ExternalId && KeyOf(h, c) == KeyOf(h, d) && c.source == d.source
    ensures NonBlank(c.externalId) == NonBlank(d.externalId)
  {
    ExternalKeyParts(h, c, d);
    var x, y := NonBlank(c.externalId).value, NonBlank(d.externalId).value;
    assert x == (c.source + ":" + x)[|c.source| + 1..];
    assert y == (d.source + ":" + y)[|d.source| + 1..];
  }

  // ----- validation at the boundary -----

  datatype Issue =
    | EmptyTitle | StartAfterEnd | ImplausibleTimestamp(at: Instant) | NegativeAmount(field: string)
    | InvalidPercent(percent: Money) | MalformedCode(code: string) | EmptySourceKey | EmptyParserVersion

  const MIN_PLAUSIBLE: Instant := 1420070400
  const END_OF_2100: Instant := 4133980800

  function When(wrong: bool, issue: Issue): seq<Issue> { if wrong then [issue] else [] }

  function ImplausibleIn(at: Option<Instant>): seq<Issue> {
    if at.Some? then When(at.value < MIN_PLAUSIBLE || at.value >= END_OF_2100, ImplausibleTimestamp(at.value)) else []
  }

  function NegativeIn(field: string, amount: Option<Money>): seq<Issue> {
    When(amount.Some? && amount.value < 0.0, NegativeAmount(field))
  }

  predicate CodeChar(c: char) { 'a' <= c <= 'z' || 'A' <= c <= 'Z' || '0' <= c <= '9' || c == '_' || c == '-' }

  predicate CodeWellFormed(code: string) {
    code != "" && |code| <= 64 && forall i | 0 <= i < |code| :: CodeChar(code[i])
  }

  /** All issues, in the order they are checked. */
  function Issues(c: Candidate): seq<Issue> {
    var t := c.terms;
    When(Text.Trim(t.title) == "", EmptyTitle)
    + When(Text.Trim(c.sourceKey) == "", EmptySourceKey)
    + When(Text.Trim(c.parserVersion) == "", EmptyParserVersion)
    + When(t.startAt.Some? && t.endAt.Some? && t.startAt.value >= t.endAt.value, StartAfterEnd)
    + ImplausibleIn(t.startAt) + ImplausibleIn(t.endAt)
    + NegativeIn("discount_amount", t.discountAmount) + NegativeIn("max_discount", t.maxDiscount)
    + NegativeIn("min_spend", t.minSpend)
    + (if t.discountPercent.Some? then
         When(t.discountPercent.value <= 0.0 || t.discountPercent.value > 100.0,
              InvalidPercent(t.discountPercent.value))
       else [])
    + (if t.code.Some? then When(!CodeWellFormed(Text.Trim(t.code.value)), MalformedCode(Text.Trim(t.code.value)))
       else [])
  }

  predicate Accepted(c: Candidate) { Issues(c) == [] }
}

/** The deduplicating voucher store over three tables. */
module VoucherStore {
  import opened Domain
  import opened Identity

  datatype VoucherRow = VoucherRow(
    key: string, basis: Basis, source: string, sourceKey: string, terms: Terms,
    description: Option<string>, landingUrl: Option<string>, status: VoucherStatus,
    firstSeenAt: Instant, lastSeenAt: Instant, versionHash: string, rawHash: string)

  /** The fields a version may name as changed. */
  datatype Field =
    | StartAt | EndAt | MinSpend | DiscountAmount | MaxDiscount | ScopeField | Signature | Other | CreatedField

  datatype VersionRow = VersionRow(voucherId: nat, versionHash: string, changedFields: seq<Field>, createdAt: Instant)

  datatype Observation = Observation(
    voucherId: nat, source: string, sourceKey: string, observedAt: Instant, rawHash: string,
    normalizedHash: string, rawPayload: string, parserVersion: string)

  datatype Store = Store(vouchers: map<nat, VoucherRow>, versions: seq<VersionRow>, observations: seq<Observation>)

  datatype Outcome =
    | Created(voucherId: nat)
    | Updated(voucherId: nat, changed: seq<Field>)
    | Unchanged(voucherId: nat)

  predicate KeyKnown(vouchers: map<nat, VoucherRow>, key: string) {
    exists id | id in vouchers :: vouchers[id].key == key
  }

  ghost predicate UniqueKeys(vouchers: map<nat, VoucherRow>) {
    forall i, j | i in vouchers && j in vouchers && vouchers[i].key == vouchers[j].key :: i == j
  }

  ghost function IdOf(vouchers: map<nat, VoucherRow>, key: string): nat
    requires KeyKnown(vouchers, key)
    ensures IdOf(vouchers, key) in vouchers && vouchers[IdOf(vouchers, key)].key == key
  {
    var id :| id in vouchers && vouchers[id].key == key;
    id
  }

  function FreshRow(h: Hashing, c: Candidate, now: Instant): VoucherRow {
    VoucherRow(KeyOf(h, c), BasisOf(c), c.source, c.sourceKey, c.terms, c.description, c.landingUrl, Discovered,
               now, now, h.digest(c.terms), h.raw(c.rawPayload))
  }

  function Refreshed(h: Hashing, row: VoucherRow, c: Candidate, now: Instant): VoucherRow {
    row.(terms := c.terms, description := c.description, landingUrl := c.landingUrl, lastSeenAt := now,
         versionHash := h.digest(c.terms), rawHash := h.raw(c.rawPayload))
  }

  predicate HasVersion(versions: seq<VersionRow>, id: nat, hash: string) {
    exists i | 0 <= i < |versions| :: versions[i].voucherId == id && versions[i].versionHash == hash
  }

  /** INSERT ... ON CONFLICT(voucher_id, version_hash) DO NOTHING. */
  function AddVersion(versions: seq<VersionRow>, row: VersionRow): seq<VersionRow> {
    if HasVersion(versions, row.voucherId, row.versionHash) then versions else versions + [row]
  }

  predicate HasObservation(observations: seq<Observation>, source: string, sourceKey: string, hash: string) {
    exists i | 0 <= i < |observations| ::
      observations[i].source == source && observations[i].sourceKey == sourceKey
      && observations[i].normalizedHash == hash
  }

  /** INSERT ... ON CONFLICT(source, source_key, normalized_hash) DO NOTHING. */
  function AddObservation(observations: seq<Observation>, o: Observation): seq<Observation> {
    if HasObservation(observations, o.source, o.sourceKey, o.normalizedHash) then observations else observations + [o]
  }

  function Named(differs: bool, field: Field): seq<Field> { if differs then [field] else [] }

  predicate WatchedDiffers(old_: Terms, new_: Terms, field: Field) {
    match field
    case StartAt => old_.startAt != new_.startAt
    case EndAt => old_.endAt != new_.endAt
    case MinSpend => old_.minSpend != new_.minSpend
    case DiscountAmount => old_.discountAmount != new_.discountAmount
    case MaxDiscount => old_.maxDiscount != new_.maxDiscount
    case ScopeField => old_.scope != new_.scope
    case Signature => old_.signature != new_.signature
    case Other | CreatedField => false
  }

  /** A watched field that differs, or "other" when no watched field does. */
  ghost predicate Differs(old_: Terms, new_: Terms, field: Field) {
    if field == Other then forall watched :: !WatchedDiffers(old_, new_, watched) else WatchedDiffers(old_, new_, field)
  }

  lemma AppendNamed(s: seq<Field>, differs: bool, named: Field, field: Field)
    ensures field in s + Named(differs, named) <==> field in s || (differs && field == named)
  {
  }

  lemma TimesListed(old_: Terms, new_: Terms, field: Field)
    ensures field in WatchedTimes(old_, new_) <==> field in {StartAt, EndAt} && WatchedDiffers(old_, new_, field)
  {
  }

  lemma AmountsListed(old_: Terms, new_: Terms, field: Field)
    ensures field in WatchedAmounts(old_, new_)
       <==> field in {StartAt, EndAt, MinSpend, DiscountAmount, MaxDiscount} && WatchedDiffers(old_, new_, field)
  {
    TimesListed(old_, new_, field);
    var three := WatchedTimes(old_, new_) + Named(old_.minSpend != new_.minSpend, MinSpend);
    var four := three + Named(old_.discountAmount != new_.discountAmount, DiscountAmount);
    AppendNamed(WatchedTimes(old_, new_), old_.minSpend != new_.minSpend, MinSpend, field);
    AppendNamed(three, old_.discountAmount != new_.discountAmount, DiscountAmount, field);
    AppendNamed(four, old_.maxDiscount != new_.maxDiscount, MaxDiscount, field);
  }

  lemma WatchedListed(old_: Terms, new_: Terms, field: Field)
    ensures field in Watched(old_, new_) <==> WatchedDiffers(old_, new_, field)
  {
    var amounts := WatchedAmounts(old_, new_);
    AmountsListed(old_, new_, field);
    AppendNamed(amounts, old_.scope != new_.scope, ScopeField, field);
    var scoped := amounts + Named(old_.scope != new_.scope, ScopeField);
    AppendNamed(scoped, old_.signature != new_.signature, Signature, field);
  }

  lemma NonEmptyHas(s: seq<Field>)
    ensures s == [] <==> forall field :: field !in s
  {
    if s != [] { assert s[0] in s; }
  }

  lemma FieldListed(old_: Terms, new_: Terms, field: Field)
    ensures field in ChangedFields(old_, new_) <==> Differs(old_, new_, field)
  {
    WatchedListed(old_, new_, field);
    forall watched ensures watched in Watched(old_, new_) <==> WatchedDiffers(old_, new_, watched) {
      WatchedListed(old_, new_, watched);
    }
    NonEmptyHas(Watched(old_, new_));
  }

  /** The watched fields that differ, or "other" when the change lies elsewhere. */
  function ChangedFields(old_: Terms, new_: Terms): seq<Field> {
    if Watched(old_, new_) == [] then [Other] else Watched(old_, new_)
  }

  function WatchedTimes(old_: Terms, new_: Terms): seq<Field> {
    Named(old_.startAt != new_.startAt, StartAt) + Named(old_.endAt != new_.endAt, EndAt)
  }

  function WatchedAmounts(old_: Terms, new_: Terms): seq<Field> {
    WatchedTimes(old_, new_)
    + Named(old_.minSpend != new_.minSpend, MinSpend)
    + Named(old_.discountAmount != new_.discountAmount, DiscountAmount)
    + Named(old_.maxDiscount != new_.maxDiscount, MaxDiscount)
  }

  function Watched(old_: Terms, new_: Terms): seq<Field> {
    WatchedAmounts(old_, new_)
    + Named(old_.scope != new_.scope, ScopeField) + Named(old_.signature != new_.signature, Signature)
  }

  function ObservationOf(h: Hashing, c: Candidate, id: nat): Observation {
    Observation(id, c.source, c.sourceKey, c.observedAt, h.raw(c.rawPayload), h.digest(c.terms), c.rawPayload,
                c.parserVersion)
  }

  /** What ingesting one candidate does to the voucher and version tables, and what it reports. */
  ghost function Decide(h: Hashing, s: Store, c: Candidate, freshId: nat, now: Instant): (Store, Outcome) {
    var key, hash := KeyOf(h, c), h.digest(c.terms);
    if !KeyKnown(s.vouchers, key) then
      (s.(vouchers := s.vouchers[freshId := FreshRow(h, c, now)],
          versions := AddVersion(s.versions, VersionRow(freshId, hash, [CreatedField], now))),
       Created(freshId))
    else
      var id := IdOf(s.vouchers, key);
      var row := s.vouchers[id];
      if row.versionHash == hash then
        (s.(vouchers := s.vouchers[id := row.(lastSeenAt := now)]), Unchanged(id))
      else
        var changed := ChangedFields(row.terms, c.terms);
        (s.(vouchers := s.vouchers[id := Refreshed(h, row, c, now)],
            versions := AddVersion(s.versions, VersionRow(id, hash, changed, now))),
         Updated(id, changed))
  }

  ghost function Ingested(h: Hashing, s: Store, c: Candidate, freshId: nat, now: Instant): Store {
    var (after, outcome) := Decide(h, s, c, freshId, now);
    after.(observations := AddObservation(s.observations, ObservationOf(h, c, outcome.voucherId)))
  }

  ghost function OutcomeOf(h: Hashing, s: Store, c: Candidate, freshId: nat, now: Instant): Outcome {
    Decide(h, s, c, freshId, now).1
  }

  class VoucherRepository {
    const hashing: Hashing
    var vouchers: map<nat, VoucherRow>
    var versions: seq<VersionRow>
    var observations: seq<Observation>

    ghost function Contents(): Store
      reads this
    {
      Store(vouchers, versions, observations)
    }

    ghost predicate Valid()
      reads this
    {
      UniqueKeys(vouchers)
    }

    constructor (hashing: Hashing)
      ensures Valid() && this.hashing == hashing && Contents() == Store(map[], [], [])
    {
      this.hashing := hashing;
      vouchers, versions, observations := map[], [], [];
    }

    /** One transaction: insert if absent, read back, compare, update, record the observation. */
    method UpsertCandidate(c: Candidate, now: Instant, freshId: nat) returns (outcome: Outcome)
      requires Valid() && freshId !in vouchers
      modifies this
      ensures Valid()
      ensures Contents() == Ingested(hashing, old(Contents()), c, freshId, now)
      ensures outcome == OutcomeOf(hashing, old(Contents()), c, freshId, now)
    {
      var key := KeyOf(hashing, c);
      var versionHash := hashing.digest(c.terms);
      InsertOnConflictNothing(FreshRow(hashing, c, now), freshId);
      var id := SelectId(key);
      if id == freshId {
        InsertVersion(VersionRow(id, versionHash, [CreatedField], now));
        outcome := Created(id);
      } else if vouchers[id].versionHash == versionHash {
        vouchers := vouchers[id := vouchers[id].(lastSeenAt := now)];
        outcome := Unchanged(id);
      } else {
        var changed := CompareFields(vouchers[id].terms, c.terms);
        vouchers := vouchers[id := Refreshed(hashing, vouchers[id], c, now)];
        InsertVersion(VersionRow(id, versionHash, changed, now));
        outcome := Updated(id, changed);
      }
      var o := ObservationOf(hashing, c, outcome.voucherId);
      if !HasObservation(observations, o.source, o.sourceKey, o.normalizedHash) {
        observations := observations + [o];
      }
    }

    method InsertOnConflictNothing(row: VoucherRow, freshId: nat)
      requires Valid() && freshId !in vouchers
      modifies this`vouchers
      ensures Valid() && KeyKnown(vouchers, row.key)
      ensures vouchers == if KeyKnown(old(vouchers), row.key) then old(vouchers) else old(vouchers)[freshId := row]
      ensures IdOf(vouchers, row.key) == freshId <==> !KeyKnown(old(vouchers), row.key)
    {
      if !KeyKnown(vouchers, row.key) {
        vouchers := vouchers[freshId := row];
        assert vouchers[freshId].key == row.key;
      }
    }

    method SelectId(key: string) returns (id: nat)
      requires Valid() && KeyKnown(vouchers, key)
      ensures id == IdOf(vouchers, key)
    {
      id :| id in vouchers && vouchers[id].key == key;
    }

    method InsertVersion(row: VersionRow)
      modifies this`versions
      ensures versions == AddVersion(old(versions), row)
    {
      if !HasVersion(versions, row.voucherId, row.versionHash) {
        versions := versions + [row];
      }
    }

    method CompareFields(old_: Terms, new_: Terms) returns (changed: seq<Field>)
      ensures changed == ChangedFields(old_, new_) && changed != []
      ensures forall field :: field in changed <==> Differs(old_, new_, field)
    {
      changed := Named(old_.startAt != new_.startAt, StartAt);
      changed := changed + Named(old_.endAt != new_.endAt, EndAt);
      changed := changed + Named(old_.minSpend != new_.minSpend, MinSpend);
      changed := changed + Named(old_.discountAmount != new_.discountAmount, DiscountAmount);
      changed := changed + Named(old_.maxDiscount != new_.maxDiscount, MaxDiscount);
      changed := changed + Named(old_.scope != new_.scope, ScopeField);
      changed := changed + Named(old_.signature != new_.signature, Signature);
      if changed == [] { changed := [Other]; }
      forall field ensures field in changed <==> Differs(old_, new_, field) { FieldListed(old_, new_, field); }
    }

    method SetStatus(id: nat, status: VoucherStatus)
      modifies this`vouchers
      ensures vouchers == WithStatus(old(vouchers), id, status)
    {
      if id in vouchers {
        vouchers := vouchers[id := vouchers[id].(status := status)];
      }
    }
  }

  /** UPDATE ... SET status WHERE id: the old status is not consulted. */
  function WithStatus(vouchers: map<nat, VoucherRow>, id: nat, status: VoucherStatus): map<nat, VoucherRow> {
    if id in vouchers then vouchers[id := vouchers[id].(status := status)] else vouchers
  }
}
