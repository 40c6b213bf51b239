/** Batch ingestion: validate, upsert, count, and list the events to announce. */
module Pipeline {
  import opened Domain
  import opened Identity
  import opened VoucherStore

  datatype DomainEvent =
    | VoucherDiscovered(voucherId: nat, source: string, versionHash: string)
    | VoucherUpdated(voucherId: nat, source: string, versionHash: string, changedFields: seq<Field>)

  datatype PartialFailure = PartialFailure(sourceKey: string, issues: seq<Issue>)

  datatype PipelineOutcome = PipelineOutcome(
    newCount: nat, updatedCount: nat, unchangedCount: nat, rejected: seq<PartialFailure>, events: seq<DomainEvent>)

  const NOTHING := PipelineOutcome(0, 0, 0, [], [])

  /** The outcome after one more candidate, given what the store said about it. */
  function Noted(h: Hashing, o: PipelineOutcome, c: Candidate, result: Outcome): PipelineOutcome {
    match result
    case Created(id) =>
      o.(newCount := o.newCount + 1, events := o.events + [VoucherDiscovered(id, c.source, h.digest(c.terms))])
    case Updated(id, changed) =>
      o.(updatedCount := o.updatedCount + 1,
         events := o.events + [VoucherUpdated(id, c.source, h.digest(c.terms), changed)])
    case Unchanged(_) => o.(unchangedCount := o.unchangedCount + 1)
  }

  /** The store after a batch: rejected candidates leave no trace. */
  ghost function StoreAfter(h: Hashing, s: Store, batch: seq<Candidate>, ids: seq<nat>, now: Instant): Store
    requires |ids| == |batch|
  {
    if batch == [] then s
    else
      var last := |batch| - 1;
      var before := StoreAfter(h, s, batch[..last], ids[..last], now);
      if Accepted(batch[last]) then Ingested(h, before, batch[last], ids[last], now) else before
  }

  ghost function OutcomeAfter(h: Hashing, s: Store, batch: seq<Candidate>, ids: seq<nat>, now: Instant): PipelineOutcome
    requires |ids| == |batch|
  {
    if batch == [] then NOTHING
    else
      var last := |batch| - 1;
      var c := batch[last];
      var before := OutcomeAfter(h, s, batch[..last], ids[..last], now);
      if Accepted(c) then
        Noted(h, before, c, OutcomeOf(h, StoreAfter(h, s, batch[..last], ids[..last], now), c, ids[last], now))
      else before.(rejected := before.rejected + [PartialFailure(c.sourceKey, Issues(c))])
  }

  /** The ids are new to the store and pairwise distinct, as freshly drawn UUIDs are. */
  ghost predicate FreshIds(vouchers: map<nat, VoucherRow>, ids: seq<nat>) {
    && (forall i | 0 <= i < |ids| :: ids[i] !in vouchers)
    && (forall i, j | 0 <= i < j < |ids| :: ids[i] != ids[j])
  }

  method IngestCandidates(repo: VoucherRepository, batch: seq<Candidate>, ids: seq<nat>, now: Instant)
    returns (outcome: PipelineOutcome)
    requires repo.Valid() && |ids| == |batch| && FreshIds(repo.vouchers, ids)
    modifies repo
    ensures repo.Valid()
    ensures repo.Contents() == StoreAfter(repo.hashing, old(repo.Contents()), batch, ids, now)
    ensures outcome == OutcomeAfter(repo.hashing, old(repo.Contents()), batch, ids, now)
  {
    outcome := NOTHING;
    for k := 0 to |batch|
      invariant repo.Valid()
      invariant forall i | k <= i < |ids| :: ids[i] !in repo.vouchers
      invariant repo.Contents() == StoreAfter(repo.hashing, old(repo.Contents()), batch[..k], ids[..k], now)
      invariant outcome == OutcomeAfter(repo.hashing, old(repo.Contents()), batch[..k], ids[..k], now)
    {
      BatchStep(repo.hashing, old(repo.Contents()), batch, ids, now, k);
      var issues := Issues(batch[k]);
      if issues != [] {
        outcome := outcome.(rejected := outcome.rejected + [PartialFailure(batch[k].sourceKey, issues)]);
        continue;
      }
      outcome := IngestOne(repo, batch[k], ids[k], now, outcome);
    }
    assert batch[..|batch|] == batch && ids[..|ids|] == ids;
  }

  /** Stores one accepted candidate and notes what the store said. */
  method IngestOne(repo: VoucherRepository, c: Candidate, freshId: nat, now: Instant, before: PipelineOutcome)
    returns (outcome: PipelineOutcome)
    requires repo.Valid() && freshId !in repo.vouchers
    modifies repo
    ensures repo.Valid()
    ensures repo.Contents() == Ingested(repo.hashing, old(repo.Contents()), c, freshId, now)
    ensures outcome == Noted(repo.hashing, before, c, OutcomeOf(repo.hashing, old(repo.Contents()), c, freshId, now))
    ensures repo.vouchers.Keys <= old(repo.vouchers).Keys + {freshId}
  {
    KeysAfter(repo.hashing, repo.Contents(), c, freshId, now);
    var result := repo.UpsertCandidate(c, now, freshId);
    match result
    case Created(id) =>
      outcome := before.(newCount := before.newCount + 1,
                         events := before.events + [VoucherDiscovered(id, c.source, repo.hashing.digest(c.terms))]);
    case Updated(id, changed) =>
      outcome := before.(updatedCount := before.updatedCount + 1,
                         events := before.events
                                   + [VoucherUpdated(id, c.source, repo.hashing.digest(c.terms), changed)]);
    case Unchanged(_) =>
      outcome := before.(unchangedCount := before.unchangedCount + 1);
  }

  lemma BatchStep(h: Hashing, s: Store, batch: seq<Candidate>, ids: seq<nat>, now: Instant, k: nat)
    requires |ids| == |batch| && k < |batch|
    ensures var before, o := StoreAfter(h, s, batch[..k], ids[..k], now), OutcomeAfter(h, s, batch[..k], ids[..k], now);
            var c := batch[k];
            && StoreAfter(h, s, batch[..k + 1], ids[..k + 1], now)
               == (if Accepted(c) then Ingested(h, before, c, ids[k], now) else before)
            && OutcomeAfter(h, s, batch[..k + 1], ids[..k + 1], now)
               == (if Accepted(c) then Noted(h, o, c, OutcomeOf(h, before, c, ids[k], now))
                   else o.(rejected := o.rejected + [PartialFailure(c.sourceKey, Issues(c))]))
  {
    assert batch[..k + 1][..k] == batch[..k] && ids[..k + 1][..k] == ids[..k];
  }

  lemma KeysAfter(h: Hashing, s: Store, c: Candidate, freshId: nat, now: Instant)
    ensures Ingested(h, s, c, freshId, now).vouchers.Keys <= s.vouchers.Keys + {freshId}
  {
  }

  // ----- what every batch does -----

  /** The store's verdict on the last of a batch, `None` when it was rejected. */
  ghost function Verdicts(
      h: Hashing, s: Store, batch: seq<Candidate>, ids: seq<nat>, now: Instant): seq<Option<Outcome>>
    requires |ids| == |batch|
  {
    if batch == [] then []
    else
      var last := |batch| - 1;
      var before := StoreAfter(h, s, batch[..last], ids[..last], now);
      Verdicts(h, s, batch[..last], ids[..last], now)
      + [if Accepted(batch[last]) then Some(OutcomeOf(h, before, batch[last], ids[last], now)) else None]
  }

  function EventOf(h: Hashing, c: Candidate, verdict: Option<Outcome>): seq<DomainEvent> {
    match verdict
    case Some(Created(id)) => [VoucherDiscovered(id, c.source, h.digest(c.terms))]
    case Some(Updated(id, changed)) => [VoucherUpdated(id, c.source, h.digest(c.terms), changed)]
    case _ => []
  }

  /** The announcements the verdicts call for, in batch order. */
  function EventsOf(h: Hashing, batch: seq<Candidate>, verdicts: seq<Option<Outcome>>): seq<DomainEvent>
    requires |batch| == |verdicts|
  {
    if batch == [] then []
    else
      var last := |batch| - 1;
      EventsOf(h, batch[..last], verdicts[..last]) + EventOf(h, batch[last], verdicts[last])
  }

  lemma NotedAccounts(h: Hashing, o: PipelineOutcome, c: Candidate, result: Outcome)
    ensures var p := Noted(h, o, c, result);
            && p.rejected == o.rejected
            && p.newCount + p.updatedCount + p.unchangedCount == o.newCount + o.updatedCount + o.unchangedCount + 1
            && p.newCount == o.newCount + (if result.Created? then 1 else 0)
            && |p.events| - |o.events| == p.newCount + p.updatedCount - o.newCount - o.updatedCount
            && p.events == o.events + EventOf(h, c, Some(result))
  {
  }

  /** Every candidate is counted once, and events are exactly the created and updated vouchers, in order. */
  lemma {:induction false} BatchAccounts(h: Hashing, s: Store, batch: seq<Candidate>, ids: seq<nat>, now: Instant)
    requires |ids| == |batch|
    ensures var o, verdicts := OutcomeAfter(h, s, batch, ids, now), Verdicts(h, s, batch, ids, now);
            && |verdicts| == |batch|
            && o.newCount + o.updatedCount + o.unchangedCount + |o.rejected| == |batch|
            && |o.events| == o.newCount + o.updatedCount
            && o.events == EventsOf(h, batch, verdicts)
  {
    if batch != [] {
      var last := |batch| - 1;
      var c, init := batch[last], Verdicts(h, s, batch[..last], ids[..last], now);
      BatchAccounts(h, s, batch[..last], ids[..last], now);
      assert Verdicts(h, s, batch, ids, now)[..last] == init;
      var o := OutcomeAfter(h, s, batch[..last], ids[..last], now);
      if Accepted(c) {
        NotedAccounts(h, o, c, OutcomeOf(h, StoreAfter(h, s, batch[..last], ids[..last], now), c, ids[last], now));
      }
    }
  }

  // ----- created means a key never seen before -----

  function Keys(h: Hashing, batch: seq<Candidate>): set<string> {
    if batch == [] then {}
    else
      Keys(h, batch[..|batch| - 1])
      + if Accepted(batch[|batch| - 1]) then {KeyOf(h, batch[|batch| - 1])} else {}
  }

  /** The keys that no stored voucher has. */
  ghost function NewIn(vouchers: map<nat, VoucherRow>, keys: set<string>): set<string> {
    set key | key in keys && !KeyKnown(vouchers, key)
  }

  lemma KnownAfterOne(h: Hashing, s: Store, c: Candidate, freshId: nat, now: Instant, key: string)
    requires UniqueKeys(s.vouchers) && freshId !in s.vouchers
    ensures KeyKnown(Ingested(h, s, c, freshId, now).vouchers, key) <==> KeyKnown(s.vouchers, key) || key == KeyOf(h, c)
    ensures UniqueKeys(Ingested(h, s, c, freshId, now).vouchers)
  {
    var u, id := Ingested(h, s, c, freshId, now).vouchers, OutcomeOf(h, s, c, freshId, now).voucherId;
    assert u == s.vouchers[id := u[id]] && u[id].key == KeyOf(h, c);
    if KeyKnown(s.vouchers, key) {
      var i :| i in s.vouchers && s.vouchers[i].key == key;
      assert u[i].key == key;
    } else if key == KeyOf(h, c) {
      assert u[id].key == key;
    }
  }

  lemma {:induction false} KnownAfter(
      h: Hashing, s: Store, batch: seq<Candidate>, ids: seq<nat>, now: Instant, key: string)
    requires UniqueKeys(s.vouchers) && |ids| == |batch| && FreshIds(s.vouchers, ids)
    ensures KeyKnown(StoreAfter(h, s, batch, ids, now).vouchers, key)
            <==> KeyKnown(s.vouchers, key) || key in Keys(h, batch)
    ensures UniqueKeys(StoreAfter(h, s, batch, ids, now).vouchers)
    ensures forall id | id in StoreAfter(h, s, batch, ids, now).vouchers :: id in s.vouchers || id in ids
  {
    if batch != [] {
      var last := |batch| - 1;
      KnownAfter(h, s, batch[..last], ids[..last], now, key);
      var before := StoreAfter(h, s, batch[..last], ids[..last], now);
      assert ids[last] !in ids[..last];
      if Accepted(batch[last]) {
        KnownAfterOne(h, before, batch[last], ids[last], now, key);
        KeysAfter(h, before, batch[last], ids[last], now);
      }
    }
  }

  /** The store before the last candidate of a batch is sound, and the last id is new to it. */
  lemma BeforeLast(h: Hashing, s: Store, batch: seq<Candidate>, ids: seq<nat>, now: Instant)
    requires batch != [] && UniqueKeys(s.vouchers) && |ids| == |batch| && FreshIds(s.vouchers, ids)
    ensures var last := |batch| - 1;
            var before := StoreAfter(h, s, batch[..last], ids[..last], now).vouchers;
            && FreshIds(s.vouchers, ids[..last]) && UniqueKeys(before) && ids[last] !in before
            && forall key :: KeyKnown(before, key) <==> KeyKnown(s.vouchers, key) || key in Keys(h, batch[..last])
  {
    var last := |batch| - 1;
    forall key ensures KeyKnown(StoreAfter(h, s, batch[..last], ids[..last], now).vouchers, key)
                  <==> KeyKnown(s.vouchers, key) || key in Keys(h, batch[..last]) {
      KnownAfter(h, s, batch[..last], ids[..last], now, key);
    }
    KnownAfter(h, s, batch[..last], ids[..last], now, "");
    assert ids[last] !in ids[..last];
  }

  lemma CreatedIffUnknown(h: Hashing, s: Store, c: Candidate, freshId: nat, now: Instant)
    ensures OutcomeOf(h, s, c, freshId, now).Created? <==> !KeyKnown(s.vouchers, KeyOf(h, c))
  {
  }

  /** The last candidate adds to the count iff it is accepted and its key was not known before it. */
  lemma NewCountStep(h: Hashing, s: Store, batch: seq<Candidate>, ids: seq<nat>, now: Instant)
    requires batch != [] && UniqueKeys(s.vouchers) && |ids| == |batch| && FreshIds(s.vouchers, ids)
    ensures FreshIds(s.vouchers, ids[..|batch| - 1])
    ensures var last := |batch| - 1;
            var key := KeyOf(h, batch[last]);
            OutcomeAfter(h, s, batch, ids, now).newCount == OutcomeAfter(h, s, batch[..last], ids[..last], now).newCount
              + (if Accepted(batch[last])
                    && !(KeyKnown(s.vouchers, key) || key in Keys(h, batch[..last])) then 1 else 0)
  {
    var last := |batch| - 1;
    var init, c := batch[..last], batch[last];
    BeforeLast(h, s, batch, ids, now);
    var before, o := StoreAfter(h, s, init, ids[..last], now), OutcomeAfter(h, s, init, ids[..last], now);
    if Accepted(c) {
      CreatedIffUnknown(h, before, c, ids[last], now);
      NotedAccounts(h, o, c, OutcomeOf(h, before, c, ids[last], now));
    }
  }

  lemma NewKeysStep(vouchers: map<nat, VoucherRow>, keys: set<string>, key: string)
    ensures |NewIn(vouchers, keys + {key})|
            == |NewIn(vouchers, keys)| + (if KeyKnown(vouchers, key) || key in keys then 0 else 1)
  {
    var before, after := NewIn(vouchers, keys), NewIn(vouchers, keys + {key});
    if KeyKnown(vouchers, key) || key in keys { assert after == before; } else { assert after == before + {key}; }
  }

  lemma NewKeysOfBatchStep(h: Hashing, vouchers: map<nat, VoucherRow>, batch: seq<Candidate>)
    requires batch != []
    ensures var init, c := batch[..|batch| - 1], batch[|batch| - 1];
            |NewIn(vouchers, Keys(h, batch))| == |NewIn(vouchers, Keys(h, init))|
              + (if Accepted(c) && !(KeyKnown(vouchers, KeyOf(h, c)) || KeyOf(h, c) in Keys(h, init)) then 1 else 0)
  {
    var init, c := batch[..|batch| - 1], batch[|batch| - 1];
    if Accepted(c) {
      NewKeysStep(vouchers, Keys(h, init), KeyOf(h, c));
    } else {
      assert Keys(h, batch) == Keys(h, init);
    }
  }

  /** The batch creates exactly as many vouchers as it has distinct keys the store did not know. */
  lemma {:induction false} CreatedAreNewKeys(h: Hashing, s: Store, batch: seq<Candidate>, ids: seq<nat>, now: Instant)
    requires UniqueKeys(s.vouchers) && |ids| == |batch| && FreshIds(s.vouchers, ids)
    ensures OutcomeAfter(h, s, batch, ids, now).newCount == |NewIn(s.vouchers, Keys(h, batch))|
  {
    if batch != [] {
      var last := |batch| - 1;
      NewCountStep(h, s, batch, ids, now);
      NewKeysOfBatchStep(h, s.vouchers, batch);
      CreatedAreNewKeys(h, s, batch[..last], ids[..last], now);
    }
  }

  // ----- what a shared key does -----

  const NO_STORE := Store(map[], [], [])

  lemma PairKeys(h: Hashing, c: Candidate, d: Candidate)
    requires Accepted(c) && Accepted(d)
    ensures Keys(h, [c, d]) == {KeyOf(h, c)} + {KeyOf(h, d)} == NewIn(NO_STORE.vouchers, Keys(h, [c, d]))
  {
    assert [c, d][..1] == [c] && [c][..0] == [];
    assert Keys(h, [c]) == Keys(h, []) + {KeyOf(h, c)};
  }

  lemma PairStored(h: Hashing, c: Candidate, d: Candidate, ids: seq<nat>, now: Instant)
    requires Accepted(c) && Accepted(d) && |ids| == 2
    ensures StoreAfter(h, NO_STORE, [c, d], ids, now)
         == Ingested(h, Ingested(h, NO_STORE, c, ids[0], now), d, ids[1], now)
  {
    BatchStep(h, NO_STORE, [c, d], ids, now, 0);
    BatchStep(h, NO_STORE, [c, d], ids, now, 1);
    assert [c, d][..2] == [c, d] && ids[..2] == ids;
  }

  lemma SetOfTwo(k: string, l: string)
    ensures |{k} + {l}| == if k == l then 1 else 2
  {
    if k == l { assert {k} + {l} == {k}; }
  }

  /**
   * Ingested together into an empty store, two accepted candidates become one voucher exactly when they share a key.
   */
  lemma TwoCandidates(h: Hashing, c: Candidate, d: Candidate, ids: seq<nat>, now: Instant)
    requires Accepted(c) && Accepted(d) && |ids| == 2 && ids[0] != ids[1]
    ensures OutcomeAfter(h, NO_STORE, [c, d], ids, now).newCount == 1 <==> KeyOf(h, c) == KeyOf(h, d)
    ensures KeyOf(h, c) == KeyOf(h, d) ==> |StoreAfter(h, NO_STORE, [c, d], ids, now).vouchers| == 1
  {
    CreatedAreNewKeys(h, NO_STORE, [c, d], ids, now);
    PairKeys(h, c, d);
    SetOfTwo(KeyOf(h, c), KeyOf(h, d));
    PairStored(h, c, d, ids, now);
    if KeyOf(h, c) == KeyOf(h, d) { SecondOfKey(h, c, d, ids[0], ids[1], now); }
  }

  lemma SecondOfKey(h: Hashing, c: Candidate, d: Candidate, id: nat, freshId: nat, now: Instant)
    requires KeyOf(h, c) == KeyOf(h, d)
    ensures |Ingested(h, Ingested(h, NO_STORE, c, id, now), d, freshId, now).vouchers| == 1
  {
    var first := Ingested(h, NO_STORE, c, id, now).vouchers;
    assert first == map[id := FreshRow(h, c, now)] && first[id].key == KeyOf(h, c);
    assert KeyKnown(first, KeyOf(h, d)) && IdOf(first, KeyOf(h, d)) == id;
    var second := Ingested(h, Ingested(h, NO_STORE, c, id, now), d, freshId, now).vouchers;
    assert second.Keys == {id};
  }

  /** Ingested together, some accepted items of the two sources are stored as one voucher. */
  ghost predicate SourcesMerge(h: Hashing, s: string, t: string) {
    exists c, d :: ExternalPair(c, s, d, t) && OneVoucher(h, c, d)
  }

  ghost predicate OneVoucher(h: Hashing, c: Candidate, d: Candidate) {
    forall ids: seq<nat>, now: Instant | |ids| == 2 && ids[0] != ids[1] ::
      OutcomeAfter(h, NO_STORE, [c, d], ids, now).newCount == 1
      && |StoreAfter(h, NO_STORE, [c, d], ids, now).vouchers| == 1
  }

  lemma OneVoucherIff(h: Hashing, c: Candidate, d: Candidate)
    requires Accepted(c) && Accepted(d)
    ensures OneVoucher(h, c, d) <==> KeyOf(h, c) == KeyOf(h, d)
  {
    forall ids: seq<nat>, now: Instant | |ids| == 2 && ids[0] != ids[1]
      ensures OutcomeAfter(h, NO_STORE, [c, d], ids, now).newCount == 1 <==> KeyOf(h, c) == KeyOf(h, d)
      ensures KeyOf(h, c) == KeyOf(h, d) ==> |StoreAfter(h, NO_STORE, [c, d], ids, now).vouchers| == 1
    {
      TwoCandidates(h, c, d, ids, now);
    }
    if OneVoucher(h, c, d) { TwoCandidates(h, c, d, [0, 1], 0); assert [0, 1][0] != [0, 1][1]; }
  }

  /** Items of two sources are stored as one voucher, for nested source names and only for those. */
  lemma SourcesMergeIff(h: Hashing, s: string, t: string)
    requires s != t
    ensures SourcesMerge(h, s, t) <==> Nested(s, t) || Nested(t, s)
  {
    SharedExternalKeyIff(h, s, t);
    forall c, d | ExternalPair(c, s, d, t) ensures OneVoucher(h, c, d) <==> KeyOf(h, c) == KeyOf(h, d) {
      OneVoucherIff(h, c, d);
    }
  }

  // ----- when ingesting the same batch again is silent -----

  /** Accepted candidates of one key all carry the same terms, as far as the hash can tell. */
  ghost predicate Consistent(h: Hashing, batch: seq<Candidate>) {
    forall i, j | 0 <= i < |batch| && 0 <= j < |batch| && Accepted(batch[i]) && Accepted(batch[j])
                  && KeyOf(h, batch[i]) == KeyOf(h, batch[j]) :: h.digest(batch[i].terms) == h.digest(batch[j].terms)
  }

  ghost function StoredHash(s: Store, key: string): Option<string> {
    if KeyKnown(s.vouchers, key) then Some(s.vouchers[IdOf(s.vouchers, key)].versionHash) else None
  }

  lemma StoredAfterOne(h: Hashing, s: Store, c: Candidate, freshId: nat, now: Instant, key: string)
    requires UniqueKeys(s.vouchers) && freshId !in s.vouchers
    ensures StoredHash(Ingested(h, s, c, freshId, now), key)
         == if key == KeyOf(h, c) then Some(h.digest(c.terms)) else StoredHash(s, key)
  {
    KnownAfterOne(h, s, c, freshId, now, key);
    var u, id := Ingested(h, s, c, freshId, now).vouchers, OutcomeOf(h, s, c, freshId, now).voucherId;
    assert u[id].key == KeyOf(h, c) && u[id].versionHash == h.digest(c.terms);
    if KeyKnown(u, key) {
      var i := IdOf(u, key);
      if key != KeyOf(h, c) {
        assert i != id && s.vouchers[i] == u[i];
        assert KeyKnown(s.vouchers, key);
      }
    }
  }

  /** The store already holds this candidate's terms, as far as the hash can tell. */
  ghost predicate Held(h: Hashing, s: Store, c: Candidate) {
    Accepted(c) ==> StoredHash(s, KeyOf(h, c)) == Some(h.digest(c.terms))
  }

  ghost predicate AllHeld(h: Hashing, s: Store, batch: seq<Candidate>) {
    forall i | 0 <= i < |batch| :: Held(h, s, batch[i])
  }

  ghost predicate SameHashes(s: Store, t: Store) { forall key :: StoredHash(s, key) == StoredHash(t, key) }

  lemma AllHeldStep(h: Hashing, s: Store, batch: seq<Candidate>)
    requires batch != []
    ensures AllHeld(h, s, batch) <==> AllHeld(h, s, batch[..|batch| - 1]) && Held(h, s, batch[|batch| - 1])
  {
    var last := |batch| - 1;
    if AllHeld(h, s, batch[..last]) && Held(h, s, batch[last]) {
      forall i | 0 <= i < |batch| ensures Held(h, s, batch[i]) {
        if i < last { assert Held(h, s, batch[..last][i]); }
      }
    }
    if AllHeld(h, s, batch) {
      forall i | 0 <= i < last ensures Held(h, s, batch[..last][i]) { assert Held(h, s, batch[i]); }
    }
  }

  lemma SilentOne(h: Hashing, s: Store, c: Candidate, freshId: nat, now: Instant, o: PipelineOutcome)
    requires UniqueKeys(s.vouchers) && freshId !in s.vouchers && Accepted(c)
    ensures Noted(h, o, c, OutcomeOf(h, s, c, freshId, now)).events == [] <==> o.events == [] && Held(h, s, c)
    ensures Held(h, s, c) ==> SameHashes(Ingested(h, s, c, freshId, now), s)
  {
    forall key ensures StoredHash(Ingested(h, s, c, freshId, now), key)
                    == if key == KeyOf(h, c) then Some(h.digest(c.terms)) else StoredHash(s, key) {
      StoredAfterOne(h, s, c, freshId, now, key);
    }
  }

  /** A pass over a batch is silent exactly when the store already holds every accepted candidate's hash. */
  lemma {:induction false} SilentIff(h: Hashing, s: Store, batch: seq<Candidate>, ids: seq<nat>, now: Instant)
    requires UniqueKeys(s.vouchers) && |ids| == |batch| && FreshIds(s.vouchers, ids)
    ensures OutcomeAfter(h, s, batch, ids, now).events == [] <==> AllHeld(h, s, batch)
    ensures AllHeld(h, s, batch) ==> SameHashes(StoreAfter(h, s, batch, ids, now), s)
  {
    if batch != [] {
      var last := |batch| - 1;
      var init, c := batch[..last], batch[last];
      BeforeLast(h, s, batch, ids, now);
      SilentIff(h, s, init, ids[..last], now);
      AllHeldStep(h, s, batch);
      var before, o := StoreAfter(h, s, init, ids[..last], now), OutcomeAfter(h, s, init, ids[..last], now);
      if Accepted(c) {
        SilentOne(h, before, c, ids[last], now, o);
      }
    }
  }

  /** After a batch the store holds, for each of its keys, the hash of some accepted candidate of that key. */
  lemma {:induction false} StoredAfter(
      h: Hashing, s: Store, batch: seq<Candidate>, ids: seq<nat>, now: Instant, key: string)
    returns (j: nat)
    requires UniqueKeys(s.vouchers) && |ids| == |batch| && FreshIds(s.vouchers, ids)
    requires key in Keys(h, batch)
    ensures j < |batch| && Accepted(batch[j]) && KeyOf(h, batch[j]) == key
    ensures StoredHash(StoreAfter(h, s, batch, ids, now), key) == Some(h.digest(batch[j].terms))
  {
    var last := |batch| - 1;
    var c, before := batch[last], StoreAfter(h, s, batch[..last], ids[..last], now);
    BeforeLast(h, s, batch, ids, now);
    if Accepted(c) {
      StoredAfterOne(h, before, c, ids[last], now, key);
    }
    if Accepted(c) && KeyOf(h, c) == key {
      j := last;
    } else {
      j := StoredAfter(h, s, batch[..last], ids[..last], now, key);
    }
  }

  lemma {:induction false} KeysMember(h: Hashing, batch: seq<Candidate>, i: nat)
    requires i < |batch| && Accepted(batch[i])
    ensures KeyOf(h, batch[i]) in Keys(h, batch)
  {
    if i < |batch| - 1 { KeysMember(h, batch[..|batch| - 1], i); }
  }

  /**
   * Ingesting a batch a second time announces nothing exactly when the batch does not contradict itself: a batch
   * that lists one voucher with two different terms keeps announcing the change for ever.
   */
  lemma ReingestSilentIff(
      h: Hashing, s: Store, batch: seq<Candidate>, ids: seq<nat>, now: Instant, again: seq<nat>, later: Instant)
    requires UniqueKeys(s.vouchers) && |ids| == |batch| == |again|
    requires FreshIds(s.vouchers, ids) && FreshIds(StoreAfter(h, s, batch, ids, now).vouchers, again)
    ensures OutcomeAfter(h, StoreAfter(h, s, batch, ids, now), batch, again, later).events == []
            <==> Consistent(h, batch)
  {
    var stored := StoreAfter(h, s, batch, ids, now);
    KnownAfter(h, s, batch, ids, now, "");
    SilentIff(h, stored, batch, again, later);
    if Consistent(h, batch) {
      forall i | 0 <= i < |batch| ensures Held(h, stored, batch[i]) {
        if Accepted(batch[i]) {
          KeysMember(h, batch, i);
          var j := StoredAfter(h, s, batch, ids, now, KeyOf(h, batch[i]));
        }
      }
    }
    if AllHeld(h, stored, batch) {
      assert forall i | 0 <= i < |batch| :: Held(h, stored, batch[i]);
    }
  }
}
