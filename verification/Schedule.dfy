/** The durable schedule table and the scheduler over it, one SQL statement per atomic operation. */
module Schedule {
  import opened Domain

  datatype Action = ClaimVoucher | RefreshMetadata | SessionPreflight | NotifyUpcoming

  datatype JobStatus = Pending | Ready | Running | Succeeded | Failed | Cancelled | Stale {
    predicate Claimable() { Pending? || Ready? }
    predicate Open() { Pending? || Ready? || Running? }
  }

  datatype Job = Job(
    voucherId: nat, action: Action, executeAt: Instant, preflightAt: Instant, status: JobStatus,
    attempts: nat, lastResult: Option<string>, createdAt: Instant, updatedAt: Instant)

  type Table = map<nat, Job>

  predicate HasJob(t: Table, voucherId: nat, action: Action) {
    exists id | id in t :: t[id].voucherId == voucherId && t[id].action == action
  }

  ghost predicate UniqueJobs(t: Table) {
    forall i, j | i in t && j in t && t[i].voucherId == t[j].voucherId && t[i].action == t[j].action :: i == j
  }

  ghost function JobOf(t: Table, voucherId: nat, action: Action): nat
    requires HasJob(t, voucherId, action)
    ensures JobOf(t, voucherId, action) in t
    ensures t[JobOf(t, voucherId, action)].voucherId == voucherId && t[JobOf(t, voucherId, action)].action == action
  {
    var id :| id in t && t[id].voucherId == voucherId && t[id].action == action;
    id
  }

  // ----- the statements -----

  /** INSERT ... ON CONFLICT(voucher_id, action) DO UPDATE of the times only. */
  ghost function Upserted(
      t: Table, freshId: nat, voucherId: nat, action: Action, executeAt: Instant, preflightAt: Instant,
      now: Instant): Table {
    if HasJob(t, voucherId, action) then
      var id := JobOf(t, voucherId, action);
      t[id := t[id].(executeAt := executeAt, preflightAt := preflightAt, updatedAt := now)]
    else
      t[freshId := Job(voucherId, action, executeAt, preflightAt, Pending, 0, None, now, now)]
  }

  predicate CanClaim(t: Table, id: nat) { id in t && t[id].status.Claimable() }

  function Claimed(t: Table, id: nat, now: Instant): Table {
    if CanClaim(t, id) then t[id := t[id].(status := Running, attempts := t[id].attempts + 1, updatedAt := now)] else t
  }

  function StatusSet(t: Table, id: nat, status: JobStatus, result: Option<string>, now: Instant): Table {
    if id in t then t[id := t[id].(status := status, lastResult := result, updatedAt := now)] else t
  }

  predicate Overdue(job: Job, cutoff: Instant) { job.status.Claimable() && job.executeAt < cutoff }

  function MarkedStale(t: Table, cutoff: Instant, now: Instant): Table {
    map id | id in t :: if Overdue(t[id], cutoff) then t[id].(status := Stale, updatedAt := now) else t[id]
  }

  class ScheduleRepository {
    var jobs: Table

    ghost predicate Valid()
      reads this
    {
      UniqueJobs(jobs)
    }

    constructor ()
      ensures Valid() && jobs == map[]
    {
      jobs := map[];
    }

    method Upsert(voucherId: nat, action: Action, executeAt: Instant, preflightAt: Instant, now: Instant, freshId: nat)
      returns (id: nat)
      requires Valid() && freshId !in jobs
      modifies this
      ensures Valid()
      ensures jobs == Upserted(old(jobs), freshId, voucherId, action, executeAt, preflightAt, now)
      ensures HasJob(jobs, voucherId, action) && id == JobOf(jobs, voucherId, action)
      ensures id == if HasJob(old(jobs), voucherId, action) then JobOf(old(jobs), voucherId, action) else freshId
    {
      if HasJob(jobs, voucherId, action) {
        id :| id in jobs && jobs[id].voucherId == voucherId && jobs[id].action == action;
        jobs := jobs[id := jobs[id].(executeAt := executeAt, preflightAt := preflightAt, updatedAt := now)];
      } else {
        id := freshId;
        jobs := jobs[id := Job(voucherId, action, executeAt, preflightAt, Pending, 0, None, now, now)];
      }
      assert jobs[id].voucherId == voucherId && jobs[id].action == action;
    }

    method TryClaimRunning(id: nat, now: Instant) returns (won: bool)
      requires Valid()
      modifies this
      ensures Valid() && jobs == Claimed(old(jobs), id, now)
      ensures won <==> CanClaim(old(jobs), id)
    {
      won := id in jobs && jobs[id].status.Claimable();
      if won {
        jobs := jobs[id := jobs[id].(status := Running, attempts := jobs[id].attempts + 1, updatedAt := now)];
      }
    }

    method SetStatus(id: nat, status: JobStatus, result: Option<string>, now: Instant)
      requires Valid()
      modifies this
      ensures Valid() && jobs == StatusSet(old(jobs), id, status, result, now)
    {
      if id in jobs {
        jobs := jobs[id := jobs[id].(status := status, lastResult := result, updatedAt := now)];
      }
    }

    method MarkStaleBefore(cutoff: Instant, now: Instant) returns (affected: nat)
      requires Valid()
      modifies this
      ensures Valid() && jobs == MarkedStale(old(jobs), cutoff, now)
      ensures jobs.Keys == old(jobs).Keys
      ensures forall id | id in jobs && jobs[id].status.Claimable() ::
                jobs[id] == old(jobs)[id] && jobs[id].executeAt >= cutoff
      ensures forall id | id in jobs && jobs[id] != old(jobs)[id] ::
                && old(jobs)[id].status.Claimable() && old(jobs)[id].executeAt < cutoff
                && jobs[id].status == Stale && jobs[id].executeAt == old(jobs)[id].executeAt
      ensures affected == |ClaimableIn(old(jobs))| - |ClaimableIn(jobs)|
    {
      affected := |OverdueIn(jobs, cutoff)|;
      StaleAffected(jobs, cutoff, now);
      jobs := MarkedStale(jobs, cutoff, now);
    }

    /** ORDER BY execute_at. */
    method ByExecuteAt(ids: set<nat>) returns (listing: seq<nat>)
      requires forall id | id in ids :: id in jobs
      ensures InExecutionOrder(jobs, listing) && |listing| == |ids| && forall id :: id in listing <==> id in ids
    {
      listing := [];
      var waiting := ids;
      while waiting != {}
        invariant waiting <= ids && |listing| + |waiting| == |ids|
        invariant forall id :: id in listing <==> id in ids - waiting
        invariant InExecutionOrder(jobs, listing)
        invariant forall i, id | 0 <= i < |listing| && id in waiting :: jobs[listing[i]].executeAt <= jobs[id].executeAt
        decreases waiting
      {
        var earliest := Earliest(waiting);
        ListOneMore(jobs, listing, earliest);
        listing := listing + [earliest];
        waiting := waiting - {earliest};
      }
    }

    method Earliest(ids: set<nat>) returns (earliest: nat)
      requires ids != {} && forall id | id in ids :: id in jobs
      ensures earliest in ids && forall id | id in ids :: jobs[earliest].executeAt <= jobs[id].executeAt
    {
      earliest :| earliest in ids;
      var rest := ids - {earliest};
      while rest != {}
        invariant earliest in ids && rest <= ids
        invariant forall id | id in ids - rest :: jobs[earliest].executeAt <= jobs[id].executeAt
        decreases rest
      {
        var id :| id in rest;
        if jobs[id].executeAt < jobs[earliest].executeAt {
          earliest := id;
        }
        rest := rest - {id};
      }
    }

    method OpenJobs() returns (open: seq<nat>)
      ensures InExecutionOrder(jobs, open)
      ensures forall id :: id in open <==> id in jobs && jobs[id].status.Open()
      ensures |open| == |OpenIn(jobs)|
    {
      open := ByExecuteAt(OpenIn(jobs));
    }

    method DueForPreflight(at: Instant) returns (due: seq<nat>)
      ensures InExecutionOrder(jobs, due)
      ensures forall id :: id in due <==> id in jobs && jobs[id].status == Pending && jobs[id].preflightAt <= at
    {
      due := ByExecuteAt(set id | id in jobs && jobs[id].status == Pending && jobs[id].preflightAt <= at);
    }
  }

  /** The jobs are listed once each, earliest execution first. */
  ghost predicate InExecutionOrder(t: Table, ids: seq<nat>) {
    && (forall i | 0 <= i < |ids| :: ids[i] in t)
    && (forall i, j | 0 <= i < j < |ids| :: ids[i] != ids[j] && t[ids[i]].executeAt <= t[ids[j]].executeAt)
  }

  lemma ListOneMore(t: Table, ids: seq<nat>, id: nat)
    requires InExecutionOrder(t, ids) && id in t && id !in ids
    requires forall i | 0 <= i < |ids| :: t[ids[i]].executeAt <= t[id].executeAt
    ensures InExecutionOrder(t, ids + [id])
  {
    assert forall i | 0 <= i < |ids| :: ids[i] in ids;
  }

  function OpenIn(t: Table): set<nat> { set id | id in t && t[id].status.Open() }

  function OverdueIn(t: Table, cutoff: Instant): set<nat> { set id | id in t && Overdue(t[id], cutoff) }

  function ClaimableIn(t: Table): set<nat> { set id | id in t && t[id].status.Claimable() }

  /** Exactly the overdue jobs stop being claimable. */
  lemma StaleAffected(t: Table, cutoff: Instant, now: Instant)
    ensures |OverdueIn(t, cutoff)| == |ClaimableIn(t)| - |ClaimableIn(MarkedStale(t, cutoff, now))|
  {
    var left := ClaimableIn(MarkedStale(t, cutoff, now));
    assert ClaimableIn(t) == left + OverdueIn(t, cutoff) && left !! OverdueIn(t, cutoff);
  }

  datatype ReconstructReport = ReconstructReport(futureJobs: nat, staleJobs: nat)

  class Scheduler {
    const repo: ScheduleRepository
    const preflightLead: nat
    const staleAfter: nat

    constructor (repo: ScheduleRepository, preflightLead: nat, staleAfter: nat)
      ensures this.repo == repo && this.preflightLead == preflightLead && this.staleAfter == staleAfter
    {
      this.repo, this.preflightLead, this.staleAfter := repo, preflightLead, staleAfter;
    }

    method ScheduleJob(voucherId: nat, action: Action, executeAt: Instant, now: Instant, freshId: nat) returns (id: nat)
      requires repo.Valid() && freshId !in repo.jobs
      modifies repo
      ensures repo.Valid()
      ensures repo.jobs == Upserted(old(repo.jobs), freshId, voucherId, action, executeAt, executeAt - preflightLead,
                now)
      ensures id in repo.jobs && repo.jobs[id].preflightAt <= repo.jobs[id].executeAt == executeAt
    {
      id := repo.Upsert(voucherId, action, executeAt, executeAt - preflightLead, now, freshId);
    }

    /** After a restart nothing far overdue is left to fire, and every job still open is counted. */
    method Reconstruct(now: Instant) returns (report: ReconstructReport)
      requires repo.Valid()
      modifies repo
      ensures repo.Valid() && repo.jobs == MarkedStale(old(repo.jobs), now - staleAfter, now)
      ensures forall id | id in repo.jobs && repo.jobs[id].status.Claimable() ::
                repo.jobs[id].executeAt >= now - staleAfter
      ensures report.futureJobs == |OpenIn(repo.jobs)|
      ensures report.staleJobs == |ClaimableIn(old(repo.jobs))| - |ClaimableIn(repo.jobs)|
    {
      var stale := repo.MarkStaleBefore(now - staleAfter, now);
      var open := repo.OpenJobs();
      report := ReconstructReport(|open|, stale);
    }

    method DueJobs(now: Instant) returns (due: seq<nat>)
      ensures InExecutionOrder(repo.jobs, due)
      ensures forall id :: id in due <==>
                id in repo.jobs && repo.jobs[id].status == Pending && repo.jobs[id].preflightAt <= now
    {
      due := repo.DueForPreflight(now);
    }

    method ClaimJob(id: nat, now: Instant) returns (won: bool)
      requires repo.Valid()
      modifies repo
      ensures repo.Valid() && repo.jobs == Claimed(old(repo.jobs), id, now)
      ensures won <==> CanClaim(old(repo.jobs), id)
    {
      won := repo.TryClaimRunning(id, now);
    }
  }
}

/** Any interleaving of any number of workers, each statement one atomic step. */
module ScheduleRuns {
  import opened Domain
  import opened Schedule

  datatype Op =
    | Upsert(freshId: nat, voucherId: nat, action: Action, executeAt: Instant, preflightAt: Instant, at: Instant)
    | TryClaim(id: nat, at: Instant)
    | MarkStale(cutoff: Instant, at: Instant)
    | SetStatus(id: nat, status: JobStatus, result: Option<string>, at: Instant)

  ghost function Next(t: Table, op: Op): Table {
    match op
    case Upsert(freshId, v, a, executeAt, preflightAt, at) => Upserted(t, freshId, v, a, executeAt, preflightAt, at)
    case TryClaim(id, at) => Claimed(t, id, at)
    case MarkStale(cutoff, at) => MarkedStale(t, cutoff, at)
    case SetStatus(id, status, result, at) => StatusSet(t, id, status, result, at)
  }

  ghost function After(t: Table, ops: seq<Op>): Table {
    if ops == [] then t else Next(After(t, ops[..|ops| - 1]), ops[|ops| - 1])
  }

  /** Every insert was given an id the table did not hold. */
  ghost predicate Run(t: Table, ops: seq<Op>) {
    ops == [] ||
    (Run(t, ops[..|ops| - 1]) && (ops[|ops| - 1].Upsert? ==> ops[|ops| - 1].freshId !in After(t, ops[..|ops| - 1])))
  }

  /** The `k`-th step is a worker winning the job. */
  ghost predicate Wins(t: Table, ops: seq<Op>, k: nat, id: nat)
    requires k < |ops|
  {
    ops[k].TryClaim? && ops[k].id == id && CanClaim(After(t, ops[..k]), id)
  }

  predicate Reopens(op: Op, id: nat) { op.SetStatus? && op.id == id && op.status.Claimable() }

  lemma NextKeepsJobs(t: Table, op: Op, id: nat)
    requires UniqueJobs(t) && (op.Upsert? ==> op.freshId !in t)
    ensures UniqueJobs(Next(t, op))
    ensures id in t ==>
              && id in Next(t, op)
              && Next(t, op)[id].voucherId == t[id].voucherId && Next(t, op)[id].action == t[id].action
  {
    var u := Next(t, op);
    match op
    case Upsert(freshId, v, a, _, _, _) =>
      if !HasJob(t, v, a) {
        forall i | i in t ensures !(t[i].voucherId == v && t[i].action == a) {}
      }
    case _ =>
  }

  /** One job per (voucher, action), and a job keeps its id, voucher and action through every later upsert. */
  lemma {:induction false} JobsKeepIdentity(t: Table, ops: seq<Op>, k: nat, id: nat)
    requires UniqueJobs(t) && Run(t, ops) && k <= |ops|
    ensures UniqueJobs(After(t, ops))
    ensures id in After(t, ops[..k]) ==>
              && id in After(t, ops)
              && After(t, ops)[id].voucherId == After(t, ops[..k])[id].voucherId
              && After(t, ops)[id].action == After(t, ops[..k])[id].action
    decreases |ops|
  {
    if ops != [] {
      var init := ops[..|ops| - 1];
      JobsKeepIdentity(t, init, if k < |ops| then k else 0, id);
      NextKeepsJobs(After(t, init), ops[|ops| - 1], id);
      if k < |ops| { assert init[..k] == ops[..k]; } else { assert ops[..k] == ops; }
    } else {
      assert ops[..k] == ops;
    }
  }

  ghost function WinCount(t: Table, ops: seq<Op>, id: nat): nat {
    if ops == [] then 0
    else WinCount(t, ops[..|ops| - 1], id) + (if Wins(t, ops, |ops| - 1, id) then 1 else 0)
  }

  /** A job's attempt count is the number of times some worker won it. */
  lemma {:induction false} AttemptsAreWins(t: Table, ops: seq<Op>, id: nat)
    requires UniqueJobs(t) && Run(t, ops)
    ensures id in After(t, ops)
            ==> After(t, ops)[id].attempts == WinCount(t, ops, id) + (if id in t then t[id].attempts else 0)
    ensures id !in After(t, ops) ==> WinCount(t, ops, id) == 0
  {
    if ops != [] {
      var init := ops[..|ops| - 1];
      AttemptsAreWins(t, init, id);
      JobsKeepIdentity(t, init, 0, id);
      NextAttempts(After(t, init), ops[|ops| - 1], id);
    }
  }

  lemma NextAttempts(t: Table, op: Op, id: nat)
    requires op.Upsert? ==> op.freshId !in t
    ensures id in t ==>
              && id in Next(t, op)
              && Next(t, op)[id].attempts
                 == t[id].attempts + (if op.TryClaim? && op.id == id && CanClaim(t, id) then 1 else 0)
    ensures id !in t && id in Next(t, op) ==> Next(t, op)[id].attempts == 0
  {
  }

  lemma NotClaimableStays(t: Table, op: Op, id: nat)
    requires id in t && !t[id].status.Claimable() && !Reopens(op, id) && (op.Upsert? ==> op.freshId !in t)
    ensures id in Next(t, op) && !Next(t, op)[id].status.Claimable()
  {
  }

  /** A job that is running or finished stays so, however often it is rescheduled, until its status is set back. */
  lemma {:induction false} NeverReopened(t: Table, ops: seq<Op>, from: nat, id: nat)
    requires Run(t, ops) && from <= |ops|
    requires id in After(t, ops[..from]) && !After(t, ops[..from])[id].status.Claimable()
    requires forall k | from <= k < |ops| :: !Reopens(ops[k], id)
    ensures id in After(t, ops) && !After(t, ops)[id].status.Claimable()
    decreases |ops|
  {
    if from == |ops| {
      assert ops[..from] == ops;
    } else {
      var init := ops[..|ops| - 1];
      assert init[..from] == ops[..from];
      NeverReopened(t, init, from, id);
      NotClaimableStays(After(t, init), ops[|ops| - 1], id);
    }
  }

  lemma {:induction false} RunPrefix(t: Table, ops: seq<Op>, k: nat)
    requires Run(t, ops) && k <= |ops|
    ensures Run(t, ops[..k])
    decreases |ops|
  {
    if k < |ops| {
      RunPrefix(t, ops[..|ops| - 1], k);
      assert ops[..|ops| - 1][..k] == ops[..k];
    } else {
      assert ops[..k] == ops;
    }
  }

  /** No job is won twice unless its status was set back to pending or ready in between. */
  lemma WinsAreSeparated(t: Table, ops: seq<Op>, i: nat, j: nat, id: nat) returns (k: nat)
    requires Run(t, ops) && i < j < |ops| && Wins(t, ops, i, id) && Wins(t, ops, j, id)
    ensures i < k < j && Reopens(ops[k], id)
  {
    if forall k | i < k < j :: !Reopens(ops[k], id) {
      RunPrefix(t, ops, j);
      assert ops[..i + 1][..i] == ops[..i] && ops[..j][..i + 1] == ops[..i + 1];
      NeverReopened(t, ops[..j], i + 1, id);
      assert false;
    }
    k :| i < k < j && Reopens(ops[k], id);
  }

  /** Rescheduling a job that is not open moves its times and leaves it closed: it is never picked up again. */
  lemma UpsertNeverReopens(
      t: Table, freshId: nat, voucherId: nat, action: Action, executeAt: Instant, preflightAt: Instant, now: Instant)
    requires HasJob(t, voucherId, action)
    ensures var id := JobOf(t, voucherId, action);
            var u := Upserted(t, freshId, voucherId, action, executeAt, preflightAt, now);
            && u.Keys == t.Keys && u[id].executeAt == executeAt && u[id].status == t[id].status
            && (CanClaim(u, id) <==> t[id].status.Claimable())
  {
  }
}
