/** What the store holds after any history of ingested candidates and status writes. */
module StoreRuns {
  import opened Domain
  import opened Identity
  import opened VoucherStore

  datatype Event =
    | Ingest(candidate: Candidate, freshId: nat, now: Instant)
    | SetStatus(id: nat, status: VoucherStatus)

  // ----- what a history says about a key -----

  /** The candidates ingested by a run of events, oldest first. */
  function Candidates(events: seq<Event>): seq<Candidate> {
    if events == [] then []
    else
      Candidates(events[..|events| - 1])
      + if events[|events| - 1].Ingest? then [events[|events| - 1].candidate] else []
  }

  /** The latest candidate of a key. */
  function Latest(h: Hashing, history: seq<Candidate>, key: string): Option<Candidate> {
    if history == [] then None
    else if KeyOf(h, history[|history| - 1]) == key then Some(history[|history| - 1])
    else Latest(h, history[..|history| - 1], key)
  }

  /** The first candidate of a key. */
  function First(h: Hashing, history: seq<Candidate>, key: string): Option<Candidate> {
    if history == [] then None
    else
      var earlier := First(h, history[..|history| - 1], key);
      if earlier.Some? then earlier
      else if KeyOf(h, history[|history| - 1]) == key then Some(history[|history| - 1])
      else None
  }

  /** The hashes ever ingested for a key. */
  function Hashes(h: Hashing, history: seq<Candidate>, key: string): set<string> {
    if history == [] then {}
    else
      var last := history[|history| - 1];
      Hashes(h, history[..|history| - 1], key) + if KeyOf(h, last) == key then {h.digest(last.terms)} else {}
  }

  /** The (source, source key, hash) triples ever ingested. */
  function Sightings(h: Hashing, history: seq<Candidate>): set<(string, string, string)> {
    if history == [] then {}
    else
      var last := history[|history| - 1];
      Sightings(h, history[..|history| - 1]) + {(last.source, last.sourceKey, h.digest(last.terms))}
  }

  // ----- the invariant -----

  ghost predicate RowMatches(h: Hashing, history: seq<Candidate>, row: VoucherRow) {
    var latest, first := Latest(h, history, row.key), First(h, history, row.key);
    && latest.Some? && first.Some?
    && row.versionHash == h.digest(row.terms) == h.digest(latest.value.terms)
    && row.source == first.value.source && row.sourceKey == first.value.sourceKey && row.basis == BasisOf(first.value)
  }

  ghost predicate VersionsMatch(h: Hashing, s: Store, history: seq<Candidate>) {
    && (forall id, hash | id in s.vouchers ::
          HasVersion(s.versions, id, hash) <==> hash in Hashes(h, history, s.vouchers[id].key))
    && (forall i | 0 <= i < |s.versions| :: s.versions[i].voucherId in s.vouchers)
    && NoVersionTwice(s.versions)
  }

  ghost predicate NoVersionTwice(versions: seq<VersionRow>) {
    forall i, j | 0 <= i < j < |versions| ::
      !(versions[i].voucherId == versions[j].voucherId && versions[i].versionHash == versions[j].versionHash)
  }

  /** An observation is recorded exactly when its triple was sighted. */
  ghost predicate AllSighted(observations: seq<Observation>, sightings: set<(string, string, string)>) {
    forall source, sourceKey, hash ::
      HasObservation(observations, source, sourceKey, hash) <==> (source, sourceKey, hash) in sightings
  }

  ghost predicate NoObservationTwice(observations: seq<Observation>) {
    forall i, j | 0 <= i < j < |observations| ::
      !(observations[i].source == observations[j].source && observations[i].sourceKey == observations[j].sourceKey
        && observations[i].normalizedHash == observations[j].normalizedHash)
  }

  ghost predicate ObservationsMatch(h: Hashing, s: Store, history: seq<Candidate>) {
    && AllSighted(s.observations, Sightings(h, history))
    && (forall i | 0 <= i < |s.observations| :: s.observations[i].voucherId in s.vouchers)
    && NoObservationTwice(s.observations)
  }

  ghost predicate VouchersMatch(h: Hashing, s: Store, history: seq<Candidate>) {
    && UniqueKeys(s.vouchers)
    && (forall key :: KeyKnown(s.vouchers, key) <==> Latest(h, history, key).Some?)
    && (forall id | id in s.vouchers :: RowMatches(h, history, s.vouchers[id]))
  }

  /** The three tables are exactly what the history of candidates determines. */
  ghost predicate Matches(h: Hashing, s: Store, history: seq<Candidate>) {
    VouchersMatch(h, s, history) && VersionsMatch(h, s, history) && ObservationsMatch(h, s, history)
  }

  // ----- one event -----

  ghost function Next(h: Hashing, s: Store, event: Event): Store {
    match event
    case Ingest(c, freshId, now) => Ingested(h, s, c, freshId, now)
    case SetStatus(id, status) => s.(vouchers := WithStatus(s.vouchers, id, status))
  }

  ghost predicate Enabled(s: Store, event: Event) { event.Ingest? ==> event.freshId !in s.vouchers }

  lemma LatestStep(h: Hashing, history: seq<Candidate>, c: Candidate, key: string)
    ensures Latest(h, history + [c], key) == if KeyOf(h, c) == key then Some(c) else Latest(h, history, key)
    ensures First(h, history + [c], key)
         == if First(h, history, key).Some? then First(h, history, key)
            else if KeyOf(h, c) == key then Some(c)
            else None
    ensures Hashes(h, history + [c], key)
            == Hashes(h, history, key) + (if KeyOf(h, c) == key then {h.digest(c.terms)} else {})
    ensures Sightings(h, history + [c]) == Sightings(h, history) + {(c.source, c.sourceKey, h.digest(c.terms))}
  {
    assert (history + [c])[..|history|] == history;
  }

  lemma {:induction false} LatestIffFirst(h: Hashing, history: seq<Candidate>, key: string)
    ensures Latest(h, history, key).Some? <==> First(h, history, key).Some?
    ensures Latest(h, history, key).Some? ==> h.digest(Latest(h, history, key).value.terms) in Hashes(h, history, key)
    ensures Latest(h, history, key).None? ==> Hashes(h, history, key) == {}
  {
    if history != [] { LatestIffFirst(h, history[..|history| - 1], key); }
  }

  lemma HasVersionAdded(versions: seq<VersionRow>, row: VersionRow, id: nat, hash: string)
    ensures HasVersion(AddVersion(versions, row), id, hash)
       <==> HasVersion(versions, id, hash) || (id == row.voucherId && hash == row.versionHash)
  {
    var after := AddVersion(versions, row);
    if HasVersion(versions, id, hash) {
      var i :| 0 <= i < |versions| && versions[i].voucherId == id && versions[i].versionHash == hash;
      assert after[i] == versions[i];
    } else if id == row.voucherId && hash == row.versionHash {
      assert after[|versions|] == row;
    }
  }

  lemma HasObservationAdded(
      observations: seq<Observation>, o: Observation, source: string, sourceKey: string, hash: string)
    ensures HasObservation(AddObservation(observations, o), source, sourceKey, hash)
       <==> HasObservation(observations, source, sourceKey, hash)
            || (source == o.source && sourceKey == o.sourceKey && hash == o.normalizedHash)
  {
    var after := AddObservation(observations, o);
    if HasObservation(observations, source, sourceKey, hash) {
      var i :| 0 <= i < |observations| && observations[i].source == source && observations[i].sourceKey == sourceKey
               && observations[i].normalizedHash == hash;
      assert after[i] == observations[i];
    } else if source == o.source && sourceKey == o.sourceKey && hash == o.normalizedHash {
      assert after[|observations|] == o;
    }
  }

  lemma KeyKnownAdded(vouchers: map<nat, VoucherRow>, id: nat, row: VoucherRow, key: string)
    requires id in vouchers ==> vouchers[id].key == row.key
    ensures KeyKnown(vouchers[id := row], key) <==> KeyKnown(vouchers, key) || key == row.key
  {
    var after := vouchers[id := row];
    if KeyKnown(vouchers, key) {
      var i :| i in vouchers && vouchers[i].key == key;
      assert after[i].key == key;
    } else if key == row.key {
      assert after[id].key == key;
    }
  }

  // ----- ingesting keeps the invariant, table by table -----

  /** The one row an ingest writes carries the candidate's key and matches the longer history. */
  lemma WrittenRow(h: Hashing, s: Store, history: seq<Candidate>, c: Candidate, freshId: nat, now: Instant)
    requires VouchersMatch(h, s, history) && freshId !in s.vouchers
    ensures var u, id := Ingested(h, s, c, freshId, now).vouchers, OutcomeOf(h, s, c, freshId, now).voucherId;
            && id in u && u == s.vouchers[id := u[id]] && u[id].key == KeyOf(h, c)
            && (id in s.vouchers ==> s.vouchers[id].key == KeyOf(h, c))
            && (id !in s.vouchers ==> id == freshId && !KeyKnown(s.vouchers, KeyOf(h, c)))
            && RowMatches(h, history + [c], u[id])
  {
    var key := KeyOf(h, c);
    LatestStep(h, history, c, key);
    LatestIffFirst(h, history, key);
    if KeyKnown(s.vouchers, key) { assert RowMatches(h, history, s.vouchers[IdOf(s.vouchers, key)]); }
  }

  lemma RowOfAnotherKey(h: Hashing, history: seq<Candidate>, c: Candidate, row: VoucherRow)
    requires RowMatches(h, history, row) && row.key != KeyOf(h, c)
    ensures RowMatches(h, history + [c], row)
  {
    LatestStep(h, history, c, row.key);
  }

  lemma IngestVouchers(h: Hashing, s: Store, history: seq<Candidate>, c: Candidate, freshId: nat, now: Instant)
    requires VouchersMatch(h, s, history) && freshId !in s.vouchers
    ensures VouchersMatch(h, Ingested(h, s, c, freshId, now), history + [c])
  {
    WrittenRow(h, s, history, c, freshId, now);
    RowReplaced(h, s.vouchers, history, c, OutcomeOf(h, s, c, freshId, now).voucherId,
                Ingested(h, s, c, freshId, now).vouchers[OutcomeOf(h, s, c, freshId, now).voucherId]);
  }

  lemma RowReplaced(
      h: Hashing, vouchers: map<nat, VoucherRow>, history: seq<Candidate>, c: Candidate, id: nat, row: VoucherRow)
    requires VouchersMatch(h, Store(vouchers, [], []), history)
    requires row.key == KeyOf(h, c) && RowMatches(h, history + [c], row)
    requires if id in vouchers then vouchers[id].key == row.key else !KeyKnown(vouchers, row.key)
    ensures VouchersMatch(h, Store(vouchers[id := row], [], []), history + [c])
  {
    var u := vouchers[id := row];
    forall k ensures KeyKnown(u, k) <==> Latest(h, history + [c], k).Some? {
      LatestStep(h, history, c, k);
      KeyKnownAdded(vouchers, id, row, k);
    }
    forall i | i in u ensures RowMatches(h, history + [c], u[i]) {
      if i != id { RowOfAnotherKey(h, history, c, vouchers[i]); }
    }
  }

  /** A version the written row needs is there afterwards, and no other version appears. */
  lemma VersionsWritten(h: Hashing, s: Store, c: Candidate, freshId: nat, now: Instant, i: nat, x: string)
    requires KeyKnown(s.vouchers, KeyOf(h, c)) ==>
               var id := IdOf(s.vouchers, KeyOf(h, c)); HasVersion(s.versions, id, s.vouchers[id].versionHash)
    ensures HasVersion(Ingested(h, s, c, freshId, now).versions, i, x)
       <==> HasVersion(s.versions, i, x) || (i == OutcomeOf(h, s, c, freshId, now).voucherId && x == h.digest(c.terms))
  {
    var id, hash := OutcomeOf(h, s, c, freshId, now).voucherId, h.digest(c.terms);
    if !KeyKnown(s.vouchers, KeyOf(h, c)) {
      HasVersionAdded(s.versions, VersionRow(freshId, hash, [CreatedField], now), i, x);
    } else if s.vouchers[id].versionHash != hash {
      HasVersionAdded(s.versions, VersionRow(id, hash, ChangedFields(s.vouchers[id].terms, c.terms), now), i, x);
    }
  }

  lemma CurrentVersionHeld(h: Hashing, s: Store, history: seq<Candidate>, id: nat)
    requires VouchersMatch(h, s, history) && VersionsMatch(h, s, history) && id in s.vouchers
    ensures HasVersion(s.versions, id, s.vouchers[id].versionHash)
  {
    assert RowMatches(h, history, s.vouchers[id]);
    LatestIffFirst(h, history, s.vouchers[id].key);
  }

  lemma VersionAt(
      h: Hashing, s: Store, history: seq<Candidate>, c: Candidate, freshId: nat, now: Instant, i: nat, x: string)
    requires VouchersMatch(h, s, history) && VersionsMatch(h, s, history) && freshId !in s.vouchers
    requires i in Ingested(h, s, c, freshId, now).vouchers
    ensures var t := Ingested(h, s, c, freshId, now);
            HasVersion(t.versions, i, x) <==> x in Hashes(h, history + [c], t.vouchers[i].key)
  {
    var key := KeyOf(h, c);
    if KeyKnown(s.vouchers, key) { CurrentVersionHeld(h, s, history, IdOf(s.vouchers, key)); }
    WrittenRow(h, s, history, c, freshId, now);
    VersionsWritten(h, s, c, freshId, now, i, x);
    LatestStep(h, history, c, Ingested(h, s, c, freshId, now).vouchers[i].key);
    LatestIffFirst(h, history, key);
    if i == freshId { assert !HasVersion(s.versions, freshId, x); }
  }

  lemma IngestVersions(h: Hashing, s: Store, history: seq<Candidate>, c: Candidate, freshId: nat, now: Instant)
    requires VouchersMatch(h, s, history) && VersionsMatch(h, s, history) && freshId !in s.vouchers
    ensures VersionsMatch(h, Ingested(h, s, c, freshId, now), history + [c])
  {
    var t := Ingested(h, s, c, freshId, now);
    forall i, x | i in t.vouchers
      ensures HasVersion(t.versions, i, x) <==> x in Hashes(h, history + [c], t.vouchers[i].key)
    {
      VersionAt(h, s, history, c, freshId, now, i, x);
    }
    VersionsOwned(h, s, c, freshId, now);
  }

  lemma VersionsOwned(h: Hashing, s: Store, c: Candidate, freshId: nat, now: Instant)
    requires NoVersionTwice(s.versions) && forall i | 0 <= i < |s.versions| :: s.versions[i].voucherId in s.vouchers
    ensures var t := Ingested(h, s, c, freshId, now);
            NoVersionTwice(t.versions) && forall i | 0 <= i < |t.versions| :: t.versions[i].voucherId in t.vouchers
  {
  }

  lemma SightingAdded(observations: seq<Observation>, o: Observation, sightings: set<(string, string, string)>)
    requires AllSighted(observations, sightings)
    ensures AllSighted(AddObservation(observations, o), sightings + {(o.source, o.sourceKey, o.normalizedHash)})
  {
    forall source, sourceKey, hash
      ensures HasObservation(AddObservation(observations, o), source, sourceKey, hash)
         <==> (source, sourceKey, hash) in sightings + {(o.source, o.sourceKey, o.normalizedHash)}
    {
      HasObservationAdded(observations, o, source, sourceKey, hash);
    }
  }

  lemma ObservationAddedOnce(observations: seq<Observation>, o: Observation)
    requires NoObservationTwice(observations)
    ensures NoObservationTwice(AddObservation(observations, o))
  {
  }

  lemma IngestObservations(h: Hashing, s: Store, history: seq<Candidate>, c: Candidate, freshId: nat, now: Instant)
    requires ObservationsMatch(h, s, history)
    ensures ObservationsMatch(h, Ingested(h, s, c, freshId, now), history + [c])
  {
    var o := ObservationOf(h, c, OutcomeOf(h, s, c, freshId, now).voucherId);
    LatestStep(h, history, c, "");
    SightingAdded(s.observations, o, Sightings(h, history));
    ObservationAddedOnce(s.observations, o);
  }

  lemma StatusKeeps(h: Hashing, s: Store, history: seq<Candidate>, id: nat, status: VoucherStatus)
    requires Matches(h, s, history)
    ensures Matches(h, s.(vouchers := WithStatus(s.vouchers, id, status)), history)
  {
    var t := s.(vouchers := WithStatus(s.vouchers, id, status));
    forall i | i in s.vouchers ensures RowMatches(h, history, t.vouchers[i]) && t.vouchers[i].key == s.vouchers[i].key {
      assert RowMatches(h, history, s.vouchers[i]);
    }
    forall key ensures KeyKnown(t.vouchers, key) <==> KeyKnown(s.vouchers, key) {
      if id in s.vouchers {
        KeyKnownAdded(s.vouchers, id, t.vouchers[id], key);
        if key == t.vouchers[id].key { assert s.vouchers[id].key == key; }
      }
    }
  }

  lemma StepKeeps(h: Hashing, s: Store, history: seq<Candidate>, event: Event)
    requires Matches(h, s, history) && Enabled(s, event)
    ensures Matches(h, Next(h, s, event), history + if event.Ingest? then [event.candidate] else [])
  {
    match event
    case Ingest(c, freshId, now) =>
      IngestVouchers(h, s, history, c, freshId, now);
      IngestVersions(h, s, history, c, freshId, now);
      IngestObservations(h, s, history, c, freshId, now);
    case SetStatus(id, status) =>
      StatusKeeps(h, s, history, id, status);
      assert history + [] == history;
  }

  // ----- runs -----

  const EMPTY_STORE := Store(map[], [], [])

  ghost function After(h: Hashing, events: seq<Event>): Store {
    if events == [] then EMPTY_STORE else Next(h, After(h, events[..|events| - 1]), events[|events| - 1])
  }

  /** Every insert was given an id the store did not hold. */
  ghost predicate Run(h: Hashing, events: seq<Event>) {
    events == [] ||
    (Run(h, events[..|events| - 1]) && Enabled(After(h, events[..|events| - 1]), events[|events| - 1]))
  }

  /**
   * After any history there is exactly one voucher per identity key ever ingested; its hash is that of its own
   * columns and of the key's latest candidate; its versions are exactly the hashes ever ingested for the key,
   * once each; the observations are exactly the triples ever seen, once each; and it keeps its first source.
   */
  lemma {:induction false} StoreIsHistory(h: Hashing, events: seq<Event>)
    requires Run(h, events)
    ensures Matches(h, After(h, events), Candidates(events))
  {
    if events != [] {
      var init, last := events[..|events| - 1], events[|events| - 1];
      StoreIsHistory(h, init);
      StepKeeps(h, After(h, init), Candidates(init), last);
    }
  }

  lemma IdKept(h: Hashing, s: Store, event: Event, id: nat)
    requires UniqueKeys(s.vouchers) && Enabled(s, event) && id in s.vouchers
    ensures var u := Next(h, s, event).vouchers;
            && id in u && u[id].key == s.vouchers[id].key && u[id].firstSeenAt == s.vouchers[id].firstSeenAt
            && u[id].source == s.vouchers[id].source
  {
  }

  /** A voucher's id, once given, belongs to its key for good, whatever is ingested later. */
  lemma {:induction false} IdNeverChanges(h: Hashing, events: seq<Event>, k: nat, id: nat)
    requires Run(h, events) && k <= |events| && id in After(h, events[..k]).vouchers
    ensures id in After(h, events).vouchers
    ensures var before, after := After(h, events[..k]).vouchers[id], After(h, events).vouchers[id];
            after.key == before.key && after.firstSeenAt == before.firstSeenAt && after.source == before.source
    decreases |events|
  {
    if k < |events| {
      var init := events[..|events| - 1];
      assert init[..k] == events[..k];
      IdNeverChanges(h, init, k, id);
      StoreIsHistory(h, init);
      IdKept(h, After(h, init), events[|events| - 1], id);
    } else {
      assert events[..k] == events;
    }
  }
}
