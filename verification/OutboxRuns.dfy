/** What one drain does to the counts, and what bounds the number of drains. */
module DrainProperties {
  import opened Domain
  import opened Outbox

  /** The fetched rows are distinct and the store still holds them as they were fetched. */
  ghost predicate Current(t: Table, batch: seq<Fetched>) {
    && (forall i | 0 <= i < |batch| :: CurrentItem(t, batch[i]))
    && (forall i, j | 0 <= i < j < |batch| :: batch[i].id != batch[j].id)
  }

  ghost predicate CurrentItem(t: Table, item: Fetched) {
    item.id in t && t[item.id].status == Pending && item.attempts == t[item.id].attempts && item.key == t[item.id].key
  }

  /** No pending row has used up its attempts. */
  ghost predicate WithinBudget(t: Table, maxAttempts: nat) {
    forall id | id in t && t[id].status == Pending :: t[id].attempts < maxAttempts
  }

  lemma BatchIsCurrent(t: Table, now: Instant, limit: nat, batch: seq<Fetched>)
    requires IsBatch(t, now, limit, batch)
    ensures Current(t, batch)
  {
  }

  // ----- counts and remaining attempts under one row update -----

  lemma WithStatusUpdate(t: Table, id: nat, row: Row, status: Status)
    requires id in t
    ensures WithStatus(t, status) - {id} == WithStatus(t[id := row], status) - {id}
  {
    var u := t[id := row];
    forall i | i != id ensures i in WithStatus(t, status) <==> i in WithStatus(u, status) {}
  }

  lemma CardWithout(s: set<nat>, id: nat)
    ensures |s| == |s - {id}| + if id in s then 1 else 0
  {
    if id in s { assert s == (s - {id}) + {id}; } else { assert s == s - {id}; }
  }

  lemma CountUpdate(t: Table, id: nat, row: Row, status: Status)
    requires id in t
    ensures Count(t[id := row], status)
         == Count(t, status) - (if t[id].status == status then 1 else 0) + (if row.status == status then 1 else 0)
  {
    WithStatusUpdate(t, id, row, status);
    CardWithout(WithStatus(t, status), id);
    CardWithout(WithStatus(t[id := row], status), id);
  }

  function Left(row: Row, maxAttempts: nat): nat {
    if row.status == Pending && row.attempts < maxAttempts then maxAttempts - row.attempts else 0
  }

  /** Attempts the pending rows still have, all together. */
  ghost function Budget(t: Table, maxAttempts: nat): nat
    decreases |t.Keys|
  {
    if t.Keys == {} then 0
    else
      var id :| id in t.Keys;
      Left(t[id], maxAttempts) + Budget(t - {id}, maxAttempts)
  }

  lemma {:induction false} BudgetTake(t: Table, maxAttempts: nat, id: nat)
    requires id in t
    ensures Budget(t, maxAttempts) == Left(t[id], maxAttempts) + Budget(t - {id}, maxAttempts)
    decreases |t.Keys|
  {
    var first :| first in t.Keys
                 && Budget(t, maxAttempts) == Left(t[first], maxAttempts) + Budget(t - {first}, maxAttempts);
    if first != id {
      BudgetTake(t - {first}, maxAttempts, id);
      BudgetTake(t - {id}, maxAttempts, first);
      assert t - {first} - {id} == t - {id} - {first};
    }
  }

  lemma BudgetUpdate(t: Table, maxAttempts: nat, id: nat, row: Row)
    requires id in t
    ensures Budget(t[id := row], maxAttempts) + Left(t[id], maxAttempts)
            == Budget(t, maxAttempts) + Left(row, maxAttempts)
  {
    BudgetTake(t, maxAttempts, id);
    BudgetTake(t[id := row], maxAttempts, id);
    assert t[id := row] - {id} == t - {id};
  }

  // ----- one drain -----

  lemma SettledOthers(t: Table, item: Fetched, answer: SendResult, config: Config, now: Instant)
    requires item.id in t
    ensures var u := Settled(t, item, answer, config, now);
            u.Keys == t.Keys && u == t[item.id := u[item.id]] && u[item.id].key == t[item.id].key
  {
  }

  /** Every row is counted under exactly one status. */
  lemma CountsPartition(t: Table)
    ensures Count(t, Pending) + Count(t, Delivered) + Count(t, DeadLettered) == |t|
  {
    var pending, delivered, dead := WithStatus(t, Pending), WithStatus(t, Delivered), WithStatus(t, DeadLettered);
    assert t.Keys == pending + (delivered + dead) && pending !! delivered + dead && delivered !! dead;
  }

  lemma {:induction false} DrainedOthers(
      t: Table, batch: seq<Fetched>, answers: nat -> SendResult, config: Config, now: Instant)
    requires Current(t, batch)
    ensures var u := Drained(t, batch, answers, config, now);
            u.Keys == t.Keys && forall id | id in t && !InBatch(batch, id) :: u[id] == t[id]
  {
    if batch != [] {
      var last := |batch| - 1;
      DrainedOthers(t, batch[..last], answers, config, now);
      forall id | id in t && !InBatch(batch, id) ensures !InBatch(batch[..last], id) && id != batch[last].id {
      }
    }
  }

  /** `stats` accounts for the way from `t` to `u`, which used up at least `n` attempts. */
  ghost predicate Accounted(t: Table, u: Table, stats: DrainStats, n: nat, maxAttempts: nat) {
    && n == stats.delivered + stats.retryScheduled + stats.deadLettered
    && Count(u, Delivered) == Count(t, Delivered) + stats.delivered
    && Count(u, DeadLettered) == Count(t, DeadLettered) + stats.deadLettered
    && Count(t, Pending) == Count(u, Pending) + stats.delivered + stats.deadLettered
    && Budget(u, maxAttempts) + n <= Budget(t, maxAttempts)
  }

  /**
   * A completed drain accounts for every fetched row, its counters are the change of the store's counts (so the
   * worker's dead-letter test and the store's agree), and it uses up at least one attempt per fetched row.
   */
  lemma {:induction false} DrainAccounts(
      t: Table, batch: seq<Fetched>, answers: nat -> SendResult, config: Config, now: Instant, fetched: nat)
    requires Current(t, batch) && WithinBudget(t, config.maxAttempts)
    ensures var u := Drained(t, batch, answers, config, now);
            && Accounted(t, u, StatsOf(fetched, batch, answers, config), |batch|, config.maxAttempts)
            && WithinBudget(u, config.maxAttempts)
  {
    if batch != [] {
      var last := |batch| - 1;
      var init, item := batch[..last], batch[last];
      DrainAccounts(t, init, answers, config, now, fetched);
      LastStillCurrent(t, batch, answers, config, now);
      SettleAccounts(Drained(t, init, answers, config, now), item, answers(last), config, now);
    }
  }

  lemma LastStillCurrent(t: Table, batch: seq<Fetched>, answers: nat -> SendResult, config: Config, now: Instant)
    requires batch != [] && Current(t, batch)
    ensures CurrentItem(Drained(t, batch[..|batch| - 1], answers, config, now), batch[|batch| - 1])
  {
    var last := |batch| - 1;
    DrainedOthers(t, batch[..last], answers, config, now);
    assert !InBatch(batch[..last], batch[last].id);
  }

  lemma SettleAccounts(t: Table, item: Fetched, answer: SendResult, config: Config, now: Instant)
    requires CurrentItem(t, item) && WithinBudget(t, config.maxAttempts)
    ensures var u := Settled(t, item, answer, config, now);
            && Accounted(t, u, Tally(DrainStats(1, 0, 0, 0), item, answer, config), 1, config.maxAttempts)
            && WithinBudget(u, config.maxAttempts)
  {
    var u := Settled(t, item, answer, config, now);
    SettledOthers(t, item, answer, config, now);
    CountUpdate(t, item.id, u[item.id], Delivered);
    CountUpdate(t, item.id, u[item.id], DeadLettered);
    CountUpdate(t, item.id, u[item.id], Pending);
    BudgetUpdate(t, config.maxAttempts, item.id, u[item.id]);
    assert forall id | id in u && id != item.id :: u[id] == t[id];
  }

  // ----- drains without new events -----

  datatype Round = Round(now: Instant, batch: seq<Fetched>, answers: nat -> SendResult)

  ghost predicate Rounds(t: Table, rounds: seq<Round>, config: Config)
    decreases |rounds|
  {
    rounds == [] ||
    (IsBatch(t, rounds[0].now, config.batchSize, rounds[0].batch)
     && Rounds(Drained(t, rounds[0].batch, rounds[0].answers, config, rounds[0].now), rounds[1..], config))
  }

  function BusyRounds(rounds: seq<Round>): nat {
    if rounds == [] then 0 else (if rounds[0].batch == [] then 0 else 1) + BusyRounds(rounds[1..])
  }

  function MessagesSent(rounds: seq<Round>): nat {
    if rounds == [] then 0 else |rounds[0].batch| + MessagesSent(rounds[1..])
  }

  /** Without new events, only as many messages are sent, in only as many busy drains, as there are attempts left. */
  lemma {:induction false} FinitelyManyBusyDrains(t: Table, rounds: seq<Round>, config: Config)
    requires WithinBudget(t, config.maxAttempts) && Rounds(t, rounds, config)
    ensures BusyRounds(rounds) <= MessagesSent(rounds) <= Budget(t, config.maxAttempts)
    decreases |rounds|
  {
    if rounds != [] {
      var r := rounds[0];
      BatchIsCurrent(t, r.now, config.batchSize, r.batch);
      DrainAccounts(t, r.batch, r.answers, config, r.now, |r.batch|);
      FinitelyManyBusyDrains(Drained(t, r.batch, r.answers, config, r.now), rounds[1..], config);
    }
  }

  // ----- every message is settled in the end -----

  ghost function TableAfter(t: Table, rounds: seq<Round>, config: Config): Table
    decreases |rounds|
  {
    if rounds == [] then t
    else TableAfter(Drained(t, rounds[0].batch, rounds[0].answers, config, rounds[0].now), rounds[1..], config)
  }

  ghost predicate NonePending(t: Table) { forall id | id in t :: t[id].status != Pending }

  /** Every pending row may be tried again by then. */
  ghost predicate DueBy(t: Table, at: Instant) {
    forall id | id in t && t[id].status == Pending :: t[id].nextAttemptAt <= at
  }

  /** Each drain starts at least `gap` after the one before. */
  predicate Spaced(rounds: seq<Round>, gap: nat) {
    forall i, j | 0 <= i < |rounds| && j == i + 1 && j < |rounds| :: rounds[i].now + gap <= rounds[j].now
  }

  lemma NoneLeft(t: Table, maxAttempts: nat)
    requires WithinBudget(t, maxAttempts) && Budget(t, maxAttempts) == 0
    ensures NonePending(t)
  {
    forall id | id in t ensures t[id].status != Pending { BudgetTake(t, maxAttempts, id); }
  }

  lemma {:induction false} NonePendingStays(t: Table, rounds: seq<Round>, config: Config)
    requires NonePending(t) && Rounds(t, rounds, config)
    ensures TableAfter(t, rounds, config) == t
    decreases |rounds|
  {
    if rounds != [] {
      assert rounds[0].batch == [];
      NonePendingStays(t, rounds[1..], config);
    }
  }

  lemma BusyWhileDue(t: Table, now: Instant, limit: nat, batch: seq<Fetched>)
    requires IsBatch(t, now, limit, batch) && DueBy(t, now) && limit > 0 && !NonePending(t)
    ensures batch != []
  {
    var id :| id in t && t[id].status == Pending;
    assert Ready(t[id], now);
  }

  lemma SettledDue(t: Table, item: Fetched, answer: SendResult, config: Config, now: Instant, later: Instant)
    requires DueBy(t, later) && now + config.maxBackoff <= later
    ensures DueBy(Settled(t, item, answer, config, now), later)
  {
    BackoffMonotone(config, item.attempts + 1, item.attempts + 1);
  }

  lemma {:induction false} DrainedDue(
    t: Table, batch: seq<Fetched>, answers: nat -> SendResult, config: Config, now: Instant, later: Instant)
    requires DueBy(t, now) && now + config.maxBackoff <= later
    ensures DueBy(Drained(t, batch, answers, config, now), later)
  {
    if batch != [] {
      var last := |batch| - 1;
      DrainedDue(t, batch[..last], answers, config, now, later);
      SettledDue(Drained(t, batch[..last], answers, config, now), batch[last], answers(last), config, now, later);
    }
  }

  /**
   * Without new events every message is delivered or dead-lettered in the end, whatever the notifier answers: as
   * many drains as there are attempts left suffice, when each starts at least the longest delay after the one before.
   */
  lemma {:induction false} EventuallySettled(t: Table, rounds: seq<Round>, config: Config)
    requires config.Valid() && WithinBudget(t, config.maxAttempts) && Rounds(t, rounds, config)
    requires |rounds| >= Budget(t, config.maxAttempts) && Spaced(rounds, config.maxBackoff)
    requires rounds != [] ==> DueBy(t, rounds[0].now)
    ensures NonePending(TableAfter(t, rounds, config))
    decreases |rounds|
  {
    if Budget(t, config.maxAttempts) == 0 { NoneLeft(t, config.maxAttempts); }
    if NonePending(t) {
      NonePendingStays(t, rounds, config);
    } else {
      var r := rounds[0];
      var u := Drained(t, r.batch, r.answers, config, r.now);
      BatchIsCurrent(t, r.now, config.batchSize, r.batch);
      DrainAccounts(t, r.batch, r.answers, config, r.now, |r.batch|);
      BusyWhileDue(t, r.now, config.batchSize, r.batch);
      SpacedRest(t, rounds, config);
      EventuallySettled(u, rounds[1..], config);
    }
  }

  lemma SpacedRest(t: Table, rounds: seq<Round>, config: Config)
    requires rounds != [] && Spaced(rounds, config.maxBackoff) && DueBy(t, rounds[0].now)
    ensures Spaced(rounds[1..], config.maxBackoff)
    ensures |rounds| > 1 ==> DueBy(Drained(t, rounds[0].batch, rounds[0].answers, config, rounds[0].now), rounds[1].now)
  {
    forall i, j | 0 <= i < |rounds[1..]| && j == i + 1 && j < |rounds[1..]|
      ensures rounds[1..][i].now + config.maxBackoff <= rounds[1..][j].now
    {
      assert rounds[i + 1].now + config.maxBackoff <= rounds[j + 1].now;
    }
    if |rounds| > 1 {
      assert rounds[0].now + config.maxBackoff <= rounds[1].now;
      DrainedDue(t, rounds[0].batch, rounds[0].answers, config, rounds[0].now, rounds[1].now);
    }
  }

  // ----- the delays -----

  /** Delays never shrink from one attempt to the next and never pass the ceiling. */
  lemma BackoffMonotone(config: Config, fewer: nat, more: nat)
    requires fewer <= more
    ensures config.Backoff(fewer) <= config.Backoff(more) <= config.maxBackoff
  {
    var a, b := if fewer <= 16 then fewer else 16, if more <= 16 then more else 16;
    Pow2Monotone(a, b);
    Scale(config.baseBackoff, Pow2(a), Pow2(b));
  }

  lemma {:induction false} Pow2Monotone(a: nat, b: nat)
    requires a <= b
    ensures Pow2(a) <= Pow2(b)
    decreases b
  {
    if a < b { Pow2Monotone(a, b - 1); }
  }

  lemma Scale(k: nat, x: nat, y: nat)
    requires x <= y
    ensures k * x <= k * y
  {
    assert k * y - k * x == k * (y - x);
  }
}

/** Every run of producers, one worker, a notifier that may do anything, and crashes. */
module OutboxRuns {
  import opened Domain
  import opened Outbox
  import opened DrainProperties

  /**
   * The table, the rows the worker still has in hand, and the history: which keys were ever enqueued, how often
   * a message for a key was sent or refused, and how often the worker died before recording that.
   */
  datatype State = State(
    table: Table, inHand: seq<Fetched>, enqueued: set<string>,
    sent: multiset<string>, refused: multiset<string>,
    sentUnrecorded: multiset<string>, refusedUnrecorded: multiset<string>)

  datatype Step =
    | Enqueue(id: nat, key: string, at: Instant)
    | StartDrain(batch: seq<Fetched>, at: Instant)
    /** The next row in hand is sent, and its outcome recorded. */
    | Send(answer: SendResult, at: Instant)
    /** The next row in hand is sent, and the worker dies (or the store fails) before recording its outcome. */
    | SendAndCrash(answer: SendResult)
    | Crash

  const INITIAL := State(map[], [], {}, multiset{}, multiset{}, multiset{}, multiset{})

  ghost predicate Enabled(config: Config, s: State, step: Step) {
    match step
    case Enqueue(id, _, _) => id !in s.table
    case StartDrain(batch, at) => s.inHand == [] && IsBatch(s.table, at, config.batchSize, batch)
    case Send(_, _) => s.inHand != []
    case SendAndCrash(_) => s.inHand != []
    case Crash => true
  }

  ghost function Next(config: Config, s: State, step: Step): State
    requires Enabled(config, s, step)
  {
    match step
    case Enqueue(id, key, at) => s.(table := Enqueued(s.table, id, key, at), enqueued := s.enqueued + {key})
    case StartDrain(batch, _) => s.(inHand := batch)
    case Send(answer, at) =>
      var item := s.inHand[0];
      var t := s.(table := Settled(s.table, item, answer, config, at), inHand := s.inHand[1..]);
      if answer.Sent? then t.(sent := s.sent + multiset{item.key}) else t.(refused := s.refused + multiset{item.key})
    case SendAndCrash(answer) =>
      var key := s.inHand[0].key;
      if answer.Sent? then
        s.(inHand := [], sent := s.sent + multiset{key}, sentUnrecorded := s.sentUnrecorded + multiset{key})
      else
        s.(inHand := [], refused := s.refused + multiset{key}, refusedUnrecorded := s.refusedUnrecorded + multiset{key})
    case Crash => s.(inHand := [])
  }

  ghost predicate Run(config: Config, s: State, steps: seq<Step>)
    decreases |steps|
  {
    steps == [] || (Enabled(config, s, steps[0]) && Run(config, Next(config, s, steps[0]), steps[1..]))
  }

  ghost function After(config: Config, s: State, steps: seq<Step>): State
    requires Run(config, s, steps)
    decreases |steps|
  {
    if steps == [] then s else After(config, Next(config, s, steps[0]), steps[1..])
  }

  // ----- the invariant -----

  ghost predicate UniqueKeys(t: Table) {
    forall i, j | i in t && j in t && t[i].key == t[j].key :: i == j
  }

  /** The status and attempt count of a row are exactly explained by what happened to its key. */
  ghost predicate RowExplained(config: Config, s: State, row: Row) {
    && s.sent[row.key] == s.sentUnrecorded[row.key] + (if row.status == Delivered then 1 else 0)
    && s.refused[row.key] == s.refusedUnrecorded[row.key] + row.attempts
    && (row.status == DeadLettered <==> row.attempts == config.maxAttempts)
    && row.attempts <= config.maxAttempts
  }

  ghost predicate Inv(config: Config, s: State) {
    && UniqueKeys(s.table)
    && (forall key :: key in s.enqueued <==> KeyTaken(s.table, key))
    && (forall key | key !in s.enqueued ::
          s.sent[key] == s.refused[key] == s.sentUnrecorded[key] == s.refusedUnrecorded[key] == 0)
    && (forall id | id in s.table :: RowExplained(config, s, s.table[id]))
    && Current(s.table, s.inHand)
  }

  lemma InitialInv(config: Config)
    ensures Inv(config, INITIAL)
  {
  }

  lemma EnqueueKeys(t: Table, id: nat, key: string, at: Instant, other: string)
    requires id !in t
    ensures KeyTaken(Enqueued(t, id, key, at), other) <==> KeyTaken(t, other) || other == key
  {
    var u := Enqueued(t, id, key, at);
    if KeyTaken(t, other) {
      var i :| i in t && t[i].key == other;
      assert u[i].key == other;
    } else if other == key {
      assert u[id].key == key;
    }
  }

  lemma EnqueueRows(config: Config, s: State, step: Step)
    requires config.Valid() && Inv(config, s) && step.Enqueue? && Enabled(config, s, step)
    ensures forall id | id in Next(config, s, step).table ::
              RowExplained(config, Next(config, s, step), Next(config, s, step).table[id])
  {
    var s' := Next(config, s, step);
    forall id | id in s'.table ensures RowExplained(config, s', s'.table[id]) {
      if id in s.table {
        assert RowExplained(config, s, s.table[id]) && s'.table[id] == s.table[id];
      } else {
        assert step.key !in s.enqueued;
      }
    }
  }

  lemma EnqueueKeeps(config: Config, s: State, step: Step)
    requires config.Valid() && Inv(config, s) && step.Enqueue? && Enabled(config, s, step)
    ensures Inv(config, Next(config, s, step))
  {
    var s' := Next(config, s, step);
    EnqueueRows(config, s, step);
    forall key ensures key in s'.enqueued <==> KeyTaken(s'.table, key) {
      EnqueueKeys(s.table, step.id, step.key, step.at, key);
    }
    forall i | 0 <= i < |s'.inHand| ensures CurrentItem(s'.table, s'.inHand[i]) {
      assert CurrentItem(s.table, s.inHand[i]);
    }
  }

  lemma SendChangesOneRow(config: Config, s: State, step: Step)
    requires Inv(config, s) && step.Send? && Enabled(config, s, step)
    ensures var s' := Next(config, s, step);
            && s'.table.Keys == s.table.Keys
            && (forall id | id in s.table :: s'.table[id].key == s.table[id].key)
            && (forall id | id in s.table && id != s.inHand[0].id :: s'.table[id] == s.table[id])
  {
    assert CurrentItem(s.table, s.inHand[0]);
    SettledOthers(s.table, s.inHand[0], step.answer, config, step.at);
  }

  lemma SendExplainsRow(config: Config, s: State, step: Step)
    requires config.Valid() && Inv(config, s) && step.Send? && Enabled(config, s, step)
    ensures s.inHand[0].id in Next(config, s, step).table
    ensures RowExplained(config, Next(config, s, step), Next(config, s, step).table[s.inHand[0].id])
  {
    var item := s.inHand[0];
    assert CurrentItem(s.table, item);
    assert RowExplained(config, s, s.table[item.id]);
  }

  lemma SendExplainsOther(config: Config, s: State, step: Step, row: Row)
    requires step.Send? && Enabled(config, s, step)
    requires RowExplained(config, s, row) && row.key != s.inHand[0].key
    ensures RowExplained(config, Next(config, s, step), row)
  {
  }

  lemma SendExplainsRows(config: Config, s: State, step: Step)
    requires config.Valid() && Inv(config, s) && step.Send? && Enabled(config, s, step)
    ensures forall id | id in Next(config, s, step).table ::
              RowExplained(config, Next(config, s, step), Next(config, s, step).table[id])
  {
    var item, u := s.inHand[0], Next(config, s, step).table;
    SendChangesOneRow(config, s, step);
    SendExplainsRow(config, s, step);
    forall id | id in u && id != item.id ensures RowExplained(config, Next(config, s, step), u[id]) {
      assert CurrentItem(s.table, item);
      assert s.table[id].key != item.key;
      SendExplainsOther(config, s, step, s.table[id]);
    }
  }

  lemma SendKeeps(config: Config, s: State, step: Step)
    requires config.Valid() && Inv(config, s) && step.Send? && Enabled(config, s, step)
    ensures Inv(config, Next(config, s, step))
  {
    var s' := Next(config, s, step);
    SendChangesOneRow(config, s, step);
    SendExplainsRows(config, s, step);
    forall key ensures KeyTaken(s'.table, key) <==> KeyTaken(s.table, key) {
      SameKeys(s.table, s'.table, key);
    }
    assert CurrentItem(s.table, s.inHand[0]);
    assert KeyTaken(s.table, s.inHand[0].key);
    RestCurrent(s.table, s'.table, s.inHand);
  }

  lemma RestCurrent(t: Table, u: Table, inHand: seq<Fetched>)
    requires inHand != [] && Current(t, inHand) && u.Keys == t.Keys
    requires forall id | id in t && id != inHand[0].id :: u[id] == t[id]
    ensures Current(u, inHand[1..])
  {
    forall i | 0 <= i < |inHand| - 1 ensures CurrentItem(u, inHand[1..][i]) {
      assert CurrentItem(t, inHand[i + 1]) && inHand[0].id != inHand[i + 1].id;
    }
  }

  lemma SameKeys(t: Table, u: Table, key: string)
    requires t.Keys == u.Keys && forall id | id in t :: u[id].key == t[id].key
    ensures KeyTaken(t, key) <==> KeyTaken(u, key)
  {
    if KeyTaken(t, key) { var id :| id in t && t[id].key == key; assert u[id].key == key; }
    if KeyTaken(u, key) { var id :| id in u && u[id].key == key; assert t[id].key == key; }
  }

  lemma CrashKeeps(config: Config, s: State, step: Step)
    requires Inv(config, s) && (step.SendAndCrash? || step.Crash?) && Enabled(config, s, step)
    ensures Inv(config, Next(config, s, step))
  {
    var s' := Next(config, s, step);
    if step.SendAndCrash? {
      var item := s.inHand[0];
      assert CurrentItem(s.table, item);
      assert KeyTaken(s.table, item.key);
    }
    forall id | id in s'.table ensures RowExplained(config, s', s'.table[id]) {
      assert RowExplained(config, s, s.table[id]);
    }
  }

  lemma StepKeeps(config: Config, s: State, step: Step)
    requires config.Valid() && Inv(config, s) && Enabled(config, s, step)
    ensures Inv(config, Next(config, s, step))
  {
    match step
    case Enqueue(_, _, _) => EnqueueKeeps(config, s, step);
    case StartDrain(batch, at) => BatchIsCurrent(s.table, at, config.batchSize, batch);
    case Send(_, _) => SendKeeps(config, s, step);
    case _ => CrashKeeps(config, s, step);
  }

  lemma {:induction false} RunKeeps(config: Config, s: State, steps: seq<Step>)
    requires config.Valid() && Inv(config, s) && Run(config, s, steps)
    ensures Inv(config, After(config, s, steps))
    decreases |steps|
  {
    if steps != [] {
      StepKeeps(config, s, steps[0]);
      RunKeeps(config, Next(config, s, steps[0]), steps[1..]);
    }
  }

  // ----- what holds of every run -----

  /**
   * One row per key ever enqueued, none lost; pending rows have attempts left; a key was sent at most once more
   * than the worker died right after sending it; a dead letter was refused at least the maximum number of times.
   */
  lemma DeliverySafety(config: Config, steps: seq<Step>)
    requires config.Valid() && Run(config, INITIAL, steps)
    ensures var s := After(config, INITIAL, steps);
            && UniqueKeys(s.table)
            && (forall key :: key in s.enqueued <==> KeyTaken(s.table, key))
            && WithinBudget(s.table, config.maxAttempts)
            && (forall key :: s.sent[key] <= 1 + s.sentUnrecorded[key])
            && (forall id | id in s.table && s.table[id].status == Delivered :: s.sent[s.table[id].key] >= 1)
            && (forall id | id in s.table && s.table[id].status == DeadLettered ::
                  s.refused[s.table[id].key] >= config.maxAttempts)
  {
    InitialInv(config);
    RunKeeps(config, INITIAL, steps);
    var s := After(config, INITIAL, steps);
    forall key ensures s.sent[key] <= 1 + s.sentUnrecorded[key] {
      if key in s.enqueued {
        assert KeyTaken(s.table, key);
        var id :| id in s.table && s.table[id].key == key;
        assert RowExplained(config, s, s.table[id]);
      }
    }
    assert forall id | id in s.table :: RowExplained(config, s, s.table[id]);
  }

  lemma TerminalRowKept(config: Config, s: State, step: Step, id: nat)
    requires config.Valid() && Inv(config, s) && Enabled(config, s, step) && id in s.table
    ensures var t := Next(config, s, step).table;
            id in t && t[id].key == s.table[id].key && (s.table[id].status != Pending ==> t[id] == s.table[id])
  {
    if step.Send? {
      SendChangesOneRow(config, s, step);
      assert CurrentItem(s.table, s.inHand[0]);
    }
  }

  /** A row never changes key, and once delivered or dead-lettered it never changes at all. */
  lemma {:induction false} TerminalRowsStay(config: Config, s: State, steps: seq<Step>, id: nat)
    requires config.Valid() && Inv(config, s) && Run(config, s, steps) && id in s.table
    ensures var t := After(config, s, steps).table;
            id in t && t[id].key == s.table[id].key && (s.table[id].status != Pending ==> t[id] == s.table[id])
    decreases |steps|
  {
    if steps != [] {
      StepKeeps(config, s, steps[0]);
      TerminalRowKept(config, s, steps[0], id);
      TerminalRowsStay(config, Next(config, s, steps[0]), steps[1..], id);
    }
  }

  // ----- a drain is such a run -----

  lemma {:induction false} RunAppend(config: Config, s: State, first: seq<Step>, second: seq<Step>)
    requires Run(config, s, first) && Run(config, After(config, s, first), second)
    ensures Run(config, s, first + second)
    ensures After(config, s, first + second) == After(config, After(config, s, first), second)
    decreases |first|
  {
    if first == [] {
      assert [] + second == second;
    } else {
      RunAppend(config, Next(config, s, first[0]), first[1..], second);
      assert (first + second)[1..] == first[1..] + second;
    }
  }

  function SendSteps(answers: nat -> SendResult, from: nat, end: nat, now: Instant): seq<Step>
    requires from <= end
  {
    seq(end - from, i requires 0 <= i < end - from => Send(answers(from + i), now))
  }

  /** The steps of a drain that gets through the first `done` rows in hand. */
  function DrainSteps(batch: seq<Fetched>, answers: nat -> SendResult, done: nat, now: Instant): seq<Step> {
    [StartDrain(batch, now)] + SendSteps(answers, 0, done, now)
  }

  lemma SendStepsFrom(answers: nat -> SendResult, from: nat, end: nat, now: Instant)
    requires from < end
    ensures var steps := SendSteps(answers, from, end, now);
            steps != [] && steps[0] == Send(answers(from), now) && steps[1..] == SendSteps(answers, from + 1, end, now)
  {
  }

  /** Sending the next row in hand drains one row more. */
  lemma SendDrainsOne(
    config: Config, s: State, t: Table, batch: seq<Fetched>, k: nat, answers: nat -> SendResult, now: Instant)
    requires k < |batch| && s.inHand == batch[k..] && s.table == Drained(t, batch[..k], answers, config, now)
    ensures var s' := Next(config, s, Send(answers(k), now));
            s'.table == Drained(t, batch[..k + 1], answers, config, now) && s'.inHand == batch[k + 1..]
  {
    assert batch[..k + 1][..k] == batch[..k];
  }

  lemma {:induction false} SendsDrain(
    config: Config, s: State, t: Table, batch: seq<Fetched>, k: nat, done: nat, answers: nat -> SendResult,
    now: Instant)
    requires k <= done <= |batch| && s.inHand == batch[k..] && s.table == Drained(t, batch[..k], answers, config, now)
    ensures var steps := SendSteps(answers, k, done, now);
            && Run(config, s, steps)
            && After(config, s, steps).table == Drained(t, batch[..done], answers, config, now)
            && After(config, s, steps).inHand == batch[done..]
    decreases done - k
  {
    if k < done {
      SendStepsFrom(answers, k, done, now);
      SendDrainsOne(config, s, t, batch, k, answers, now);
      SendsDrain(config, Next(config, s, Send(answers(k), now)), t, batch, k + 1, done, answers, now);
    }
  }

  /** A completed drain is the run that starts a drain and sends each row in hand in turn. */
  lemma DrainIsRun(config: Config, s: State, batch: seq<Fetched>, answers: nat -> SendResult, done: nat, now: Instant)
    requires s.inHand == [] && IsBatch(s.table, now, config.batchSize, batch) && done <= |batch|
    ensures var steps := DrainSteps(batch, answers, done, now);
            && Run(config, s, steps)
            && After(config, s, steps).table == Drained(s.table, batch[..done], answers, config, now)
            && After(config, s, steps).inHand == batch[done..]
  {
    var steps := DrainSteps(batch, answers, done, now);
    assert steps[1..] == SendSteps(answers, 0, done, now);
    SendsDrain(config, s.(inHand := batch), s.table, batch, 0, done, answers, now);
  }

  /** A drain that fails to record the outcome of row `done` is the run that dies after sending that row. */
  lemma FailedDrainIsRun(
      config: Config, s: State, batch: seq<Fetched>, answers: nat -> SendResult, done: nat, now: Instant)
    requires s.inHand == [] && IsBatch(s.table, now, config.batchSize, batch) && done < |batch|
    ensures var steps := DrainSteps(batch, answers, done, now) + [SendAndCrash(answers(done))];
            && Run(config, s, steps)
            && After(config, s, steps).table == Drained(s.table, batch[..done], answers, config, now)
            && After(config, s, steps).inHand == []
  {
    DrainIsRun(config, s, batch, answers, done, now);
    RunAppend(config, s, DrainSteps(batch, answers, done, now), [SendAndCrash(answers(done))]);
  }

  /**
   * The mark statements do not look at the old status. On the rows the worker leaves behind, a late delivery mark
   * changes the status of exactly the dead letters, and a late failure mark that of exactly the delivered rows: it
   * puts them back in the queue while attempts are left. Only the single worker keeps `TerminalRowsStay` true.
   */
  lemma LateMarks(config: Config, steps: seq<Step>, id: nat, error: string, next: Instant, now: Instant)
    requires config.Valid() && Run(config, INITIAL, steps)
    requires var t := After(config, INITIAL, steps).table; id in t && t[id].status != Pending
    ensures var t := After(config, INITIAL, steps).table;
            var sent := MarkedDelivered(t, id, now)[id];
            var failed := MarkedFailed(t, id, error, next, config.maxAttempts, now)[id];
            && (sent.status != t[id].status <==> t[id].status == DeadLettered)
            && (failed.status != t[id].status <==> t[id].status == Delivered)
            && (failed.status == Pending <==> t[id].status == Delivered && t[id].attempts + 1 < config.maxAttempts)
  {
    InitialInv(config);
    RunKeeps(config, INITIAL, steps);
    var s := After(config, INITIAL, steps);
    assert RowExplained(config, s, s.table[id]);
  }
}
