/** The notification outbox table, one SQL statement per operation, and the worker that drains it. */
module Outbox {
  import opened Domain

  datatype Status = Pending | Delivered | DeadLettered

  datatype Row = Row(
    key: string, status: Status, attempts: nat,
    createdAt: Instant, updatedAt: Instant, nextAttemptAt: Instant, lastError: Option<string>)

  /** Rows by primary key. */
  type Table = map<nat, Row>

  /** What a fetch hands to the worker. */
  datatype Fetched = Fetched(id: nat, key: string, attempts: nat)

  datatype SendResult = Sent | Failed(detail: string)

  datatype Config = Config(batchSize: nat, maxAttempts: nat, baseBackoff: nat, maxBackoff: nat) {
    predicate Valid() { batchSize > 0 && maxAttempts > 0 }

    /** Doubles with each attempt made, up to the ceiling. */
    function Backoff(attemptsMade: nat): nat {
      var delay := baseBackoff * Pow2(if attemptsMade <= 16 then attemptsMade else 16);
      if delay <= maxBackoff then delay else maxBackoff
    }
  }

  datatype DrainStats = DrainStats(fetched: nat, delivered: nat, retryScheduled: nat, deadLettered: nat)

  // ----- the statements -----

  predicate KeyTaken(t: Table, key: string) { exists id | id in t :: t[id].key == key }

  /** INSERT ... ON CONFLICT(idempotency_key) DO NOTHING. */
  function Enqueued(t: Table, id: nat, key: string, now: Instant): Table {
    if KeyTaken(t, key) then t else t[id := Row(key, Pending, 0, now, now, now, None)]
  }

  function MarkedDelivered(t: Table, id: nat, now: Instant): Table {
    if id in t then t[id := t[id].(status := Delivered, updatedAt := now)] else t
  }

  function MarkedFailed(t: Table, id: nat, error: string, next: Instant, maxAttempts: nat, now: Instant): Table {
    if id in t then
      var row := t[id];
      t[id := row.(
        attempts := row.attempts + 1,
        status := if row.attempts + 1 >= maxAttempts then DeadLettered else Pending,
        lastError := Some(error), nextAttemptAt := next, updatedAt := now)]
    else t
  }

  predicate Ready(row: Row, now: Instant) { row.status == Pending && row.nextAttemptAt <= now }

  predicate InBatch(batch: seq<Fetched>, id: nat) { exists i | 0 <= i < |batch| :: batch[i].id == id }

  /** One answer the ready query may give: the oldest rows first, as many as the limit permits. */
  ghost predicate IsBatch(t: Table, now: Instant, limit: nat, batch: seq<Fetched>) {
    && |batch| <= limit
    && (forall i | 0 <= i < |batch| ::
          batch[i].id in t && Ready(t[batch[i].id], now)
          && batch[i].key == t[batch[i].id].key && batch[i].attempts == t[batch[i].id].attempts)
    && (forall i, j | 0 <= i < j < |batch| ::
          batch[i].id != batch[j].id && t[batch[i].id].createdAt <= t[batch[j].id].createdAt)
    && (forall id | id in t && Ready(t[id], now) && !InBatch(batch, id) ::
          |batch| == limit && forall i | 0 <= i < |batch| :: t[batch[i].id].createdAt <= t[id].createdAt)
  }

  /** The rows in `batch` are the oldest ready ones, the ready rows in `waiting` are still to come. */
  ghost predicate Selecting(t: Table, now: Instant, batch: seq<Fetched>, waiting: set<nat>) {
    && (forall id | id in waiting :: id in t && Ready(t[id], now))
    && (forall id | id in t && Ready(t[id], now) && id !in waiting :: InBatch(batch, id))
    && (forall i | 0 <= i < |batch| ::
          batch[i].id in t && batch[i].id !in waiting && Ready(t[batch[i].id], now)
          && batch[i].key == t[batch[i].id].key && batch[i].attempts == t[batch[i].id].attempts)
    && (forall i, j | 0 <= i < j < |batch| ::
          batch[i].id != batch[j].id && t[batch[i].id].createdAt <= t[batch[j].id].createdAt)
    && (forall i, id | 0 <= i < |batch| && id in waiting :: t[batch[i].id].createdAt <= t[id].createdAt)
  }

  lemma SelectStep(t: Table, now: Instant, batch: seq<Fetched>, waiting: set<nat>, item: Fetched)
    requires Selecting(t, now, batch, waiting)
    requires item.id in waiting && forall id | id in waiting :: t[item.id].createdAt <= t[id].createdAt
    requires item.key == t[item.id].key && item.attempts == t[item.id].attempts
    ensures Selecting(t, now, batch + [item], waiting - {item.id})
  {
    var after := batch + [item];
    forall id | id in t && Ready(t[id], now) && id !in waiting - {item.id} ensures InBatch(after, id) {
      if id == item.id {
        assert after[|batch|].id == id;
      } else {
        var i :| 0 <= i < |batch| && batch[i].id == id;
        assert after[i].id == id;
      }
    }
  }

  class OutboxRepository {
    var rows: Table

    constructor ()
      ensures rows == map[]
    {
      rows := map[];
    }

    /** Creates a row unless the event's key already has one. */
    method Enqueue(key: string, freshId: nat, now: Instant) returns (created: Option<nat>)
      requires freshId !in rows
      modifies this
      ensures rows == Enqueued(old(rows), freshId, key, now)
      ensures created == if KeyTaken(old(rows), key) then None else Some(freshId)
    {
      if KeyTaken(rows, key) {
        return None;
      }
      rows := rows[freshId := Row(key, Pending, 0, now, now, now, None)];
      created := Some(freshId);
    }

    method FetchReady(now: Instant, limit: nat) returns (batch: seq<Fetched>)
      ensures IsBatch(rows, now, limit, batch)
    {
      batch := [];
      var waiting := set id | id in rows && Ready(rows[id], now);
      while waiting != {} && |batch| < limit
        invariant |batch| <= limit && Selecting(rows, now, batch, waiting)
        decreases waiting
      {
        var oldest := Oldest(waiting);
        var item := Fetched(oldest, rows[oldest].key, rows[oldest].attempts);
        SelectStep(rows, now, batch, waiting, item);
        batch := batch + [item];
        waiting := waiting - {oldest};
      }
    }

    method Oldest(ids: set<nat>) returns (oldest: nat)
      requires ids != {} && forall id | id in ids :: id in rows
      ensures oldest in ids && forall id | id in ids :: rows[oldest].createdAt <= rows[id].createdAt
    {
      oldest :| oldest in ids;
      var rest := ids - {oldest};
      while rest != {}
        invariant oldest in ids && rest <= ids
        invariant forall id | id in ids - rest :: rows[oldest].createdAt <= rows[id].createdAt
        decreases rest
      {
        var id :| id in rest;
        if rows[id].createdAt < rows[oldest].createdAt {
          oldest := id;
        }
        rest := rest - {id};
      }
    }

    method MarkDelivered(id: nat, now: Instant)
      modifies this
      ensures rows == MarkedDelivered(old(rows), id, now)
    {
      if id in rows {
        rows := rows[id := rows[id].(status := Delivered, updatedAt := now)];
      }
    }

    method MarkFailed(id: nat, error: string, next: Instant, maxAttempts: nat, now: Instant)
      modifies this
      ensures rows == MarkedFailed(old(rows), id, error, next, maxAttempts, now)
      ensures rows.Keys == old(rows).Keys && forall i | i in rows && i != id :: rows[i] == old(rows)[i]
      ensures id in rows ==>
                && rows[id].attempts == old(rows)[id].attempts + 1
                && rows[id].key == old(rows)[id].key && rows[id].createdAt == old(rows)[id].createdAt
                && rows[id].nextAttemptAt == next && rows[id].lastError == Some(error)
                && (rows[id].status == DeadLettered <==> rows[id].attempts >= maxAttempts)
                && rows[id].status != Delivered
    {
      if id in rows {
        var attempts := rows[id].attempts + 1;
        var status := if attempts >= maxAttempts then DeadLettered else Pending;
        rows := rows[id := rows[id].(
          attempts := attempts, status := status, lastError := Some(error), nextAttemptAt := next, updatedAt := now)];
      }
    }

    method CountWithStatus(status: Status) returns (n: nat)
      ensures n == Count(rows, status)
    {
      n := |WithStatus(rows, status)|;
    }
  }

  function WithStatus(t: Table, status: Status): set<nat> { set id | id in t && t[id].status == status }

  function Count(t: Table, status: Status): nat { |WithStatus(t, status)| }

  // ----- one drain -----

  /** What happens to the table when the worker has the answer for one fetched row. */
  function Settled(t: Table, item: Fetched, answer: SendResult, config: Config, now: Instant): Table {
    match answer
    case Sent => MarkedDelivered(t, item.id, now)
    case Failed(detail) =>
      MarkedFailed(t, item.id, detail, now + config.Backoff(item.attempts + 1), config.maxAttempts, now)
  }

  function Drained(t: Table, batch: seq<Fetched>, answers: nat -> SendResult, config: Config, now: Instant): Table {
    if batch == [] then t
    else
      var last := |batch| - 1;
      Settled(Drained(t, batch[..last], answers, config, now), batch[last], answers(last), config, now)
  }

  /** The worker's own count of one answer, judged from the fetched attempt count. */
  function Tally(stats: DrainStats, item: Fetched, answer: SendResult, config: Config): DrainStats {
    match answer
    case Sent => stats.(delivered := stats.delivered + 1)
    case Failed(_) =>
      if item.attempts + 1 >= config.maxAttempts then stats.(deadLettered := stats.deadLettered + 1)
      else stats.(retryScheduled := stats.retryScheduled + 1)
  }

  function StatsOf(fetched: nat, batch: seq<Fetched>, answers: nat -> SendResult, config: Config): DrainStats {
    if batch == [] then DrainStats(fetched, 0, 0, 0)
    else
      var last := |batch| - 1;
      Tally(StatsOf(fetched, batch[..last], answers, config), batch[last], answers(last), config)
  }

  class OutboxNotifierWorker {
    const db: OutboxRepository
    const config: Config

    constructor (db: OutboxRepository, config: Config)
      requires config.Valid()
      ensures this.db == db && this.config == config
    {
      this.db := db;
      this.config := config;
    }

    /**
     * Drains one batch. `answers` is what the notifier answers for each row; if `failsAt` names a row, writing
     * the outcome of that row fails after its message was sent, and the drain stops there without counters.
     */
    method DrainOnce(now: Instant, answers: nat -> SendResult, failsAt: Option<nat>)
      returns (stats: Option<DrainStats>, batch: seq<Fetched>)
      modifies db
      ensures IsBatch(old(db.rows), now, config.batchSize, batch)
      ensures var done := if failsAt.Some? && failsAt.value < |batch| then failsAt.value else |batch|;
              && db.rows == Drained(old(db.rows), batch[..done], answers, config, now)
              && stats == if done == |batch| then Some(StatsOf(|batch|, batch, answers, config)) else None
    {
      batch := db.FetchReady(now, config.batchSize);
      var counters := DrainStats(|batch|, 0, 0, 0);
      for k := 0 to |batch|
        invariant failsAt.Some? ==> k <= failsAt.value
        invariant db.rows == Drained(old(db.rows), batch[..k], answers, config, now)
        invariant counters == StatsOf(|batch|, batch[..k], answers, config)
      {
        if failsAt == Some(k) {
          return None, batch;
        }
        assert batch[..k + 1][..k] == batch[..k];
        counters := Settle(batch[k], answers(k), counters, now);
      }
      assert batch[..|batch|] == batch;
      stats := Some(counters);
    }

    /** Marks one row by the notifier's answer and counts it. */
    method Settle(row: Fetched, result: SendResult, counters: DrainStats, now: Instant) returns (after: DrainStats)
      modifies db
      ensures db.rows == Settled(old(db.rows), row, result, config, now)
      ensures after == Tally(counters, row, result, config)
    {
      match result
      case Sent =>
        db.MarkDelivered(row.id, now);
        after := counters.(delivered := counters.delivered + 1);
      case Failed(detail) =>
        var attemptsAfter := row.attempts + 1;
        var deadLettered := attemptsAfter >= config.maxAttempts;
        db.MarkFailed(row.id, detail, now + config.Backoff(attemptsAfter), config.maxAttempts, now);
        if deadLettered {
          after := counters.(deadLettered := counters.deadLettered + 1);
        } else {
          after := counters.(retryScheduled := counters.retryScheduled + 1);
        }
    }
  }
}
