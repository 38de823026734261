/** Scheduler jobs: the service calls, the rows they write, and their refinement of the leased-retry machine. */
module Scheduler {
  import opened Basics
  import opened Domain
  import Text
  import opened Timestamps
  import Sorting
  import L = Leases
  import S = LeaseSafety

  /** A call and the clock reading it took before its transaction began. */
  datatype JobOp =
    | Enqueue(id: Id, release: Id, max: int, now: Instant)
    | Claim(worker: Id, token: string, now: Instant)
    | Renew(id: Id, worker: Id, token: string, version: int, now: Instant)
    | Checkpoint(id: Id, worker: Id, token: string, text: string, version: int, now: Instant)
    | Complete(id: Id, worker: Id, token: string, output: string, version: int, now: Instant)
    | Fail(id: Id, worker: Id, token: string, message: string, version: int, permanent: bool, now: Instant)
    | Recover(now: Instant)

  // ---- Abstraction ----

  function Phase(s: JobStatus): L.Phase {
    match s
    case Queued => L.Waiting
    case Retrying => L.Waiting
    case Running => L.Held
    case Succeeded => L.Done
    case JobFailed => L.Dead
    case JobCanceled => L.Dead
  }

  function ItemOf(j: Job): L.Item {
    L.Item(Phase(j.status), j.owner, j.token, j.expires, j.attempts, j.max, j.nextAt, j.created, j.version)
  }

  function Items(jobs: map<Id, Job>): L.Table { map id | id in jobs :: ItemOf(jobs[id]) }

  // ---- Specification of the calls ----

  predicate Leased(j: Job, worker: Id, token: string, version: int) {
    j.owner == worker && j.token == token && j.version == version
  }

  predicate Live(before: Comparison, j: Job, now: Instant) {
    j.status.Running? && j.expires.Some? && before(now, j.expires.value)
  }

  predicate Expired(before: Comparison, j: Job, now: Instant) {
    j.status.Running? && j.expires.Some? && !before(now, j.expires.value)
  }

  function Freed(j: Job, status: JobStatus, error: string, next: Instant, now: Instant): Job {
    j.(status := status, owner := "", token := "", expires := None, lastError := error, nextAt := next,
       updated := now, version := j.version + 1)
  }

  function RecoveryError(status: JobStatus): string {
    if status.JobFailed? then "worker lease expired after final attempt" else "worker lease expired"
  }

  function RecoveredJob(before: Comparison, j: Job, now: Instant): Job {
    if !Expired(before, j, now) then j
    else
      var status := if j.attempts >= j.max then JobFailed else Retrying;
      Freed(j, status, RecoveryError(status), now, now)
  }

  function RecoveredJobs(before: Comparison, jobs: map<Id, Job>, now: Instant): map<Id, Job> {
    map id | id in jobs :: RecoveredJob(before, jobs[id], now)
  }

  /** The rows the scheduler writes. */
  datatype Rows = Rows(jobs: map<Id, Job>, attempts: map<(Id, int), Attempt>)

  /** The scheduler's rows after a call. */
  ghost function JobRows(cfg: L.Config, releases: map<Id, Release>, rows: Rows, op: JobOp): Result<Rows> {
    var jobs, attempts := rows.jobs, rows.attempts;
    match op
    case Enqueue(id, release, max, now) =>
      if release !in releases then Err(NotFound)
      else if !releases[release].status.Published? then Err(Precondition)
      else if id in jobs then Err(Storage)
      else Ok(Rows(jobs[id := Job(release, Queued, "", "", None, 0, max, "", "", "", now, now, now, 1)], attempts))
    case Claim(worker, token, now) =>
      var next := L.Next(cfg.before, Items(jobs), now);
      if next.None? then Err(NotFound) else
      var id, j := next.value, jobs[next.value];
      var n := j.attempts + 1;
      if j.attempts >= j.max then Err(Precondition)
      else if (id, n) in attempts then Err(Storage)
      else Ok(Rows(jobs[id := j.(status := Running, owner := worker, token := token, expires := Some(now + cfg.ttl),
                                 attempts := n, updated := now, version := j.version + 1)],
                   attempts[(id, n) := Attempt(worker, now, None, "running", "")]))
    case Renew(id, worker, token, version, now) =>
      if id !in jobs then Err(NotFound)
      else if !Leased(jobs[id], worker, token, version) || !Live(cfg.before, jobs[id], now) then Err(LeaseLost)
      else Ok(Rows(jobs[id := jobs[id].(expires := Some(now + cfg.ttl), updated := now, version := version + 1)], attempts))
    case Checkpoint(id, worker, token, text, version, now) =>
      if Blank(text) || |Trim(text)| > 2048 then Err(Validation)
      else if id !in jobs then Err(NotFound)
      else if !Leased(jobs[id], worker, token, version) || !Live(cfg.before, jobs[id], now) then Err(LeaseLost)
      else Ok(Rows(jobs[id := jobs[id].(checkpoint := Trim(text), updated := now, version := version + 1)], attempts))
    case Complete(id, worker, token, output, version, now) =>
      if Blank(output) then Err(Validation)
      else if id !in jobs then Err(NotFound)
      else if !Leased(jobs[id], worker, token, version) then Err(LeaseLost)
      else if !jobs[id].status.Running? || Blank(jobs[id].checkpoint) then Err(Precondition)
      else if !Live(cfg.before, jobs[id], now) then Err(LeaseLost)
      else
        var j := jobs[id];
        var closed :- Finished(attempts, id, j.attempts, "succeeded", "", now);
        Ok(Rows(jobs[id := Freed(j, Succeeded, "", j.nextAt, now).(output := Trim(output))], closed))
    case Fail(id, worker, token, message, version, permanent, now) =>
      if Blank(message) then Err(Validation)
      else if id !in jobs then Err(NotFound)
      else if !Leased(jobs[id], worker, token, version) then Err(LeaseLost)
      else
        var j := jobs[id];
        var retry := !permanent && j.attempts < j.max;
        var to := if retry then Retrying else JobFailed;
        if !j.status.May(to) then Err(Precondition)
        else if !j.status.Running? then Err(LeaseLost)
        else
          var next := if retry then now + L.Backoff(cfg.base, j.attempts) else now;
          var closed :- Finished(attempts, id, j.attempts, if retry then "retrying" else "failed", Trim(message), now);
          Ok(Rows(jobs[id := Freed(j, to, Trim(message), next, now)], closed))
    case Recover(now) =>
      Ok(Rows(RecoveredJobs(cfg.before, jobs, now), attempts))
  }

  /** Closes the attempt row of a run; the transaction fails when there is no open one. */
  function Finished(attempts: map<(Id, int), Attempt>, id: Id, n: int, outcome: string, text: string, now: Instant)
    : Result<map<(Id, int), Attempt>>
  {
    if (id, n) !in attempts || attempts[(id, n)].finished.Some? then Err(Conflict)
    else Ok(attempts[(id, n) := attempts[(id, n)].(finished := Some(now), outcome := outcome, errorText := text)])
  }

  function RowsIn(t: Tables): Rows { Rows(t.jobs, t.attempts) }

  /** Only the scheduler's rows change. */
  ghost function JobStep(cfg: L.Config, t: Tables, op: JobOp): Result<Tables> {
    var rows :- JobRows(cfg, t.releases, RowsIn(t), op);
    Ok(t.(jobs := rows.jobs, attempts := rows.attempts))
  }

  // ---- The service ----

  /** `FindDue` orders the due rows by next attempt, creation time and id. */
  predicate DueRow(before: Comparison, j: Job, now: Instant) {
    !before(now, j.nextAt) && (j.status.Queued? || j.status.Retrying? || Expired(before, j, now))
  }

  predicate Precedes(before: Comparison, jobs: map<Id, Job>, a: Id, b: Id)
    requires a in jobs && b in jobs
  {
    before(jobs[a].nextAt, jobs[b].nextAt)
    || (!before(jobs[b].nextAt, jobs[a].nextAt)
        && (before(jobs[a].created, jobs[b].created)
            || (!before(jobs[b].created, jobs[a].created) && Text.Less(a, b))))
  }

  predicate FirstDue(before: Comparison, jobs: map<Id, Job>, now: Instant, id: Id) {
    && id in jobs && DueRow(before, jobs[id], now)
    && forall o :: o in jobs && o != id && DueRow(before, jobs[o], now) ==> Precedes(before, jobs, id, o)
  }

  /** The due query over job rows selects the row the machine selects. */
  lemma FindDueSelectsNext(before: Comparison, jobs: map<Id, Job>, now: Instant)
    requires Sorting.WeakOrder(before)
    ensures forall id :: FirstDue(before, jobs, now, id) <==> L.Next(before, Items(jobs), now) == Some(id)
    ensures L.Next(before, Items(jobs), now).None? <==> forall id :: id in jobs ==> !FirstDue(before, jobs, now, id)
  {
    var t := Items(jobs);
    L.NextIsLeastDue(before, t, now);
    assert forall id :: id in jobs ==> (t[id].Due(before, now) <==> DueRow(before, jobs[id], now));
    assert forall a, b :: a in jobs && b in jobs ==> (L.Before(before, t, a, b) <==> Precedes(before, jobs, a, b));
    assert forall id :: FirstDue(before, jobs, now, id) <==> L.IsNext(before, t, now, id);
    hide FirstDue, L.IsNext, Sorting.WeakOrder;
  }

  function ClaimedJob(j: Job, worker: Id, token: string, until: Instant, now: Instant): Job {
    j.(status := Running, owner := worker, token := token, expires := Some(until),
       attempts := j.attempts + 1, updated := now, version := j.version + 1)
  }

  /** What a claim does to the job that the due query selects. */
  lemma ClaimOfNext(cfg: L.Config, t: Tables, worker: Id, token: string, now: Instant)
    ensures var next, r := L.Next(cfg.before, Items(t.jobs), now), JobStep(cfg, t, JobOp.Claim(worker, token, now));
      && (next.None? ==> r == Err(NotFound))
      && (next.Some? ==>
            && next.value in t.jobs
            && var id, j := next.value, t.jobs[next.value];
               r == if j.attempts >= j.max then Err(Precondition)
                    else if (id, j.attempts + 1) in t.attempts then Err(Storage)
                    else Ok(t.(jobs := t.jobs[id := ClaimedJob(j, worker, token, now + cfg.ttl, now)],
                               attempts := t.attempts[(id, j.attempts + 1) := Attempt(worker, now, None, "running", "")])))
  {
    hide L.Before, L.Backoff, Trim;
  }

  class Service {
    const db: Database
    const timing: L.Timing
    const maxAttempts: int

    constructor (db: Database, timing: L.Timing, maxAttempts: int)
      ensures this.db == db && this.timing == timing && this.maxAttempts == maxAttempts
    {
      this.db, this.timing, this.maxAttempts := db, timing, maxAttempts;
    }

    method Enqueue(id: Id, release: Id, now: Instant) returns (r: Result<Job>)
      modifies db
      ensures var spec := JobStep(timing.OnText(), old(db.tables), JobOp.Enqueue(id, release, maxAttempts, now));
        db.tables == Committed(old(db.tables), spec) && Answers(r, spec, (t: Tables) => t.jobs, id)
    {
      var tx := db.tables;
      if release !in tx.releases { return Err(NotFound); }
      if tx.releases[release].status != Published { return Err(Precondition); }
      if id in tx.jobs { return Err(Storage); }
      var job := Job(release, Queued, "", "", None, 0, maxAttempts, "", "", "", now, now, now, 1);
      tx := tx.(jobs := tx.jobs[id := job]);
      db.tables := tx;
      r := Ok(job);
    }

    method Claim(worker: Id, token: string, now: Instant) returns (r: Result<(Id, Job, Attempt)>)
      modifies db
      ensures var spec := JobStep(timing.OnText(), old(db.tables), JobOp.Claim(worker, token, now));
        && db.tables == Committed(old(db.tables), spec)
        && match r
           case Ok((id, job, attempt)) =>
             spec.Ok? && id in db.tables.jobs && job == db.tables.jobs[id]
             && (id, job.attempts) in db.tables.attempts && attempt == db.tables.attempts[(id, job.attempts)]
           case Err(e) => spec == Err(e)
    {
      hide TextBefore, Sorting.WeakOrder, Precedes, L.IsNext, JobStep;
      var tx := db.tables;
      TextBeforeWeak();
      FindDueSelectsNext(TextBefore, tx.jobs, now);
      ClaimOfNext(timing.OnText(), tx, worker, token, now);
      if id :| id in tx.jobs && FirstDue(TextBefore, tx.jobs, now, id) {
        var job := tx.jobs[id];
        if job.attempts >= job.max { return Err(Precondition); }
        var expires := now + timing.ttl;
        var row := job.(status := Running, owner := worker, token := token, expires := Some(expires),
                        attempts := job.attempts + 1, updated := now, version := job.version + 1);
        var (jobs, changed) := UpdateRow(tx.jobs, id, DueRow(TextBefore, job, now), row);
        if changed != 1 { return Err(Conflict); }
        var attempt := Attempt(worker, now, None, "running", "");
        if (id, job.attempts + 1) in tx.attempts { return Err(Storage); }
        tx := tx.(jobs := jobs, attempts := tx.attempts[(id, job.attempts + 1) := attempt]);
        db.tables := tx;
        return Ok((id, row, attempt));
      }
      r := Err(NotFound);
    }

    method Renew(id: Id, worker: Id, token: string, version: int, now: Instant) returns (r: Result<Job>)
      modifies db
      ensures var spec := JobStep(timing.OnText(), old(db.tables), JobOp.Renew(id, worker, token, version, now));
        db.tables == Committed(old(db.tables), spec) && Answers(r, spec, (t: Tables) => t.jobs, id)
    {
      hide TextBefore;
      var tx := db.tables;
      if id !in tx.jobs { return Err(NotFound); }
      var job := tx.jobs[id];
      if job.owner != worker || job.token != token || job.version != version { return Err(LeaseLost); }
      var row := job.(expires := Some(now + timing.ttl), updated := now, version := job.version + 1);
      var (jobs, changed) := UpdateRow(tx.jobs, id, Live(TextBefore, job, now), row);
      if changed != 1 { return Err(LeaseLost); }
      db.tables := tx.(jobs := jobs);
      r := Ok(row);
    }

    method Checkpoint(id: Id, worker: Id, token: string, text: string, version: int, now: Instant) returns (r: Result<Job>)
      modifies db
      ensures var spec := JobStep(timing.OnText(), old(db.tables), JobOp.Checkpoint(id, worker, token, text, version, now));
        db.tables == Committed(old(db.tables), spec) && Answers(r, spec, (t: Tables) => t.jobs, id)
    {
      hide TextBefore;
      var trimmed := Trim(text);
      if trimmed == "" || |trimmed| > 2048 { return Err(Validation); }
      var tx := db.tables;
      if id !in tx.jobs { return Err(NotFound); }
      var job := tx.jobs[id];
      if job.owner != worker || job.token != token || job.version != version { return Err(LeaseLost); }
      var row := job.(checkpoint := trimmed, updated := now, version := job.version + 1);
      var (jobs, changed) := UpdateRow(tx.jobs, id, Live(TextBefore, job, now), row);
      if changed != 1 { return Err(LeaseLost); }
      db.tables := tx.(jobs := jobs);
      r := Ok(row);
    }

    /** The returned job keeps the old `lastError`; the stored row has it cleared. */
    method Complete(id: Id, worker: Id, token: string, output: string, version: int, now: Instant) returns (r: Result<Job>)
      modifies db
      ensures var spec := JobStep(timing.OnText(), old(db.tables), JobOp.Complete(id, worker, token, output, version, now));
        && db.tables == Committed(old(db.tables), spec)
        && match r
           case Ok(job) =>
             spec.Ok? && id in old(db.tables).jobs && id in db.tables.jobs
             && db.tables.jobs[id] == job.(lastError := "") && job.lastError == old(db.tables).jobs[id].lastError
           case Err(e) => spec == Err(e)
    {
      hide TextBefore;
      var trimmed := Trim(output);
      if trimmed == "" { return Err(Validation); }
      var tx := db.tables;
      if id !in tx.jobs { return Err(NotFound); }
      var job := tx.jobs[id];
      if job.owner != worker || job.token != token || job.version != version { return Err(LeaseLost); }
      if !job.status.May(Succeeded) { return Err(Precondition); }
      if Trim(job.checkpoint) == "" { return Err(Precondition); }
      var result := job.(status := Succeeded, owner := "", token := "", expires := None, output := trimmed,
                         updated := now, version := job.version + 1);
      var (jobs, changed) := UpdateRow(tx.jobs, id, Live(TextBefore, job, now), result.(lastError := ""));
      if changed != 1 { return Err(LeaseLost); }
      var attempts, closed := FinishAttempt(tx.attempts, id, job.attempts, "succeeded", "", now);
      if closed != 1 { return Err(Conflict); }
      db.tables := tx.(jobs := jobs, attempts := attempts);
      r := Ok(result);
    }

    method Fail(id: Id, worker: Id, token: string, message: string, version: int, permanent: bool, now: Instant)
      returns (r: Result<Job>)
      modifies db
      ensures var spec := JobStep(timing.OnText(), old(db.tables), JobOp.Fail(id, worker, token, message, version, permanent, now));
        db.tables == Committed(old(db.tables), spec) && Answers(r, spec, (t: Tables) => t.jobs, id)
    {
      hide TextBefore;
      var trimmed := Trim(message);
      if trimmed == "" { return Err(Validation); }
      var tx := db.tables;
      if id !in tx.jobs { return Err(NotFound); }
      var job := tx.jobs[id];
      if job.owner != worker || job.token != token || job.version != version { return Err(LeaseLost); }
      var retry := !permanent && job.attempts < job.max;
      var to, outcome, next := JobFailed, "failed", now;
      if retry {
        to, outcome := Retrying, "retrying";
        next := now + L.Backoff(timing.base, job.attempts);
      }
      if !job.status.May(to) { return Err(Precondition); }
      var row := job.(status := to, owner := "", token := "", expires := None, lastError := trimmed, nextAt := next,
                      updated := now, version := job.version + 1);
      var (jobs, changed) := UpdateRow(tx.jobs, id, job.status == Running, row);
      if changed != 1 { return Err(LeaseLost); }
      var attempts, closed := FinishAttempt(tx.attempts, id, job.attempts, outcome, trimmed, now);
      if closed != 1 { return Err(Conflict); }
      db.tables := tx.(jobs := jobs, attempts := attempts);
      r := Ok(row);
    }

    /** Closes an open attempt row and reports how many rows changed. */
    static method FinishAttempt(attempts: map<(Id, int), Attempt>, id: Id, n: int, outcome: string, text: string, now: Instant)
      returns (result: map<(Id, int), Attempt>, changed: nat)
      ensures changed == (if (id, n) in attempts && attempts[(id, n)].finished.None? then 1 else 0)
      ensures result == if changed == 1
        then attempts[(id, n) := attempts[(id, n)].(finished := Some(now), outcome := outcome, errorText := text)] else attempts
    {
      result, changed := attempts, 0;
      if (id, n) in attempts && attempts[(id, n)].finished.None? {
        result := attempts[(id, n) := attempts[(id, n)].(finished := Some(now), outcome := outcome, errorText := text)];
        changed := 1;
      }
    }
  }
}
