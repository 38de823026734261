/** Scheduler jobs refine the leased-retry machine, and their attempt rows stay in step with them. */
module SchedulerProofs {
  import opened Basics
  import opened Domain
  import opened Scheduler
  import L = Leases
  import S = LeaseSafety
  import Sorting

  function MachineOp(op: JobOp): L.Op {
    match op
    case Enqueue(id, _, max, now) => L.Enqueue(id, max, now)
    case Claim(worker, token, now) => L.Claim(now, worker, token)
    case Renew(id, worker, token, version, now) => L.Renew(now, id, worker, token, version)
    case Checkpoint(id, worker, token, _, version, now) => L.Touch(now, id, worker, token, version)
    case Complete(id, worker, token, _, version, now) => L.Finish(now, id, worker, token, version)
    case Fail(id, worker, token, _, version, permanent, now) => L.Fail(now, id, worker, token, version, permanent)
    case Recover(now) => L.Recover(now)
  }

  /** Reasons to refuse a call that lie outside the lease protocol. */
  predicate Refused(releases: map<Id, Release>, jobs: map<Id, Job>, op: JobOp) {
    match op
    case Enqueue(_, release, _, _) => release !in releases || !releases[release].status.Published?
    case Checkpoint(_, _, _, text, _, _) => Blank(text) || |Trim(text)| > 2048
    case Complete(id, _, _, output, _, _) => Blank(output) || (id in jobs && Blank(jobs[id].checkpoint))
    case Fail(_, _, _, message, _, _, _) => Blank(message)
    case _ => false
  }

  // ---- Attempt rows ----

  /** A job's attempt rows are numbered 1..attempts, and the last one is open while the job runs. */
  ghost predicate AttemptsOk(jobs: map<Id, Job>, attempts: map<(Id, int), Attempt>) {
    && (forall id, n :: (id, n) in attempts <==> id in jobs && 1 <= n <= jobs[id].attempts)
    && (forall id :: id in jobs && jobs[id].status.Running? && jobs[id].attempts >= 1 ==>
          attempts[(id, jobs[id].attempts)].finished.None?)
  }

  /** Rewriting a job without changing its count keeps its attempt rows in step. */
  lemma KeepCount(jobs: map<Id, Job>, attempts: map<(Id, int), Attempt>, id: Id, j: Job)
    requires AttemptsOk(jobs, attempts) && id in jobs && j.attempts == jobs[id].attempts
    requires j.status.Running? ==> jobs[id].status.Running?
    ensures AttemptsOk(jobs[id := j], attempts)
  {
  }

  lemma OpenAttempt(jobs: map<Id, Job>, attempts: map<(Id, int), Attempt>, id: Id, j: Job, a: Attempt)
    requires AttemptsOk(jobs, attempts) && id in jobs && j.attempts == jobs[id].attempts + 1 >= 1 && a.finished.None?
    ensures AttemptsOk(jobs[id := j], attempts[(id, j.attempts) := a])
  {
  }

  lemma CloseAttempt(jobs: map<Id, Job>, attempts: map<(Id, int), Attempt>, id: Id, j: Job, a: Attempt)
    requires AttemptsOk(jobs, attempts) && id in jobs && j.attempts == jobs[id].attempts >= 1 && !j.status.Running?
    ensures AttemptsOk(jobs[id := j], attempts[(id, j.attempts) := a])
  {
  }

  ghost predicate AttemptsStay(r: Result<Rows>) { r.Ok? ==> AttemptsOk(r.value.jobs, r.value.attempts) }

  lemma EnqueueKeepsAttempts(cfg: L.Config, releases: map<Id, Release>, rows: Rows, op: JobOp)
    requires AttemptsOk(rows.jobs, rows.attempts) && op.Enqueue?
    ensures AttemptsStay(JobRows(cfg, releases, rows, op))
  {
  }

  lemma ClaimOpensAttempt(cfg: L.Config, releases: map<Id, Release>, rows: Rows, op: JobOp)
    requires AttemptsOk(rows.jobs, rows.attempts) && S.TableOk(Items(rows.jobs)) && op.Claim?
    ensures AttemptsStay(JobRows(cfg, releases, rows, op))
  {
    hide AttemptsOk, L.Before, S.TableOk;
    RowsWellFormed(rows.jobs);
    var r := JobRows(cfg, releases, rows, op);
    if r.Ok? {
      var id := L.Next(cfg.before, Items(rows.jobs), op.now).value;
      OpenAttempt(rows.jobs, rows.attempts, id, r.value.jobs[id], Attempt(op.worker, op.now, None, "running", ""));
    }
  }

  lemma HoldKeepsAttempts(cfg: L.Config, releases: map<Id, Release>, rows: Rows, op: JobOp)
    requires AttemptsOk(rows.jobs, rows.attempts) && (op.Renew? || op.Checkpoint?)
    ensures AttemptsStay(JobRows(cfg, releases, rows, op))
  {
    hide AttemptsOk, Blank, Trim;
    var r := JobRows(cfg, releases, rows, op);
    if r.Ok? { KeepCount(rows.jobs, rows.attempts, op.id, r.value.jobs[op.id]); }
  }

  lemma EndClosesAttempt(cfg: L.Config, releases: map<Id, Release>, rows: Rows, op: JobOp)
    requires AttemptsOk(rows.jobs, rows.attempts) && S.TableOk(Items(rows.jobs)) && (op.Complete? || op.Fail?)
    ensures AttemptsStay(JobRows(cfg, releases, rows, op))
  {
    hide AttemptsOk, L.Backoff, Blank, Trim, S.TableOk;
    RowsWellFormed(rows.jobs);
    var r := JobRows(cfg, releases, rows, op);
    if r.Ok? {
      var key := (op.id, rows.jobs[op.id].attempts);
      CloseAttempt(rows.jobs, rows.attempts, op.id, r.value.jobs[op.id], r.value.attempts[key]);
    }
  }

  lemma RecoverKeepsAttempts(cfg: L.Config, releases: map<Id, Release>, rows: Rows, op: JobOp)
    requires AttemptsOk(rows.jobs, rows.attempts) && op.Recover?
    ensures AttemptsStay(JobRows(cfg, releases, rows, op))
  {
  }

  lemma JobStepKeepsAttempts(cfg: L.Config, releases: map<Id, Release>, rows: Rows, op: JobOp)
    requires AttemptsOk(rows.jobs, rows.attempts) && S.TableOk(Items(rows.jobs))
    ensures match JobRows(cfg, releases, rows, op)
      case Ok(u) => AttemptsOk(u.jobs, u.attempts)
      case Err(_) => true
  {
    hide JobRows, AttemptsOk, S.TableOk;
    match op
    case Enqueue(_, _, _, _) => EnqueueKeepsAttempts(cfg, releases, rows, op);
    case Claim(_, _, _) => ClaimOpensAttempt(cfg, releases, rows, op);
    case Renew(_, _, _, _, _) => HoldKeepsAttempts(cfg, releases, rows, op);
    case Checkpoint(_, _, _, _, _, _) => HoldKeepsAttempts(cfg, releases, rows, op);
    case Complete(_, _, _, _, _, _) => EndClosesAttempt(cfg, releases, rows, op);
    case Fail(_, _, _, _, _, _, _) => EndClosesAttempt(cfg, releases, rows, op);
    case Recover(_) => RecoverKeepsAttempts(cfg, releases, rows, op);
  }

  lemma RowsWellFormed(jobs: map<Id, Job>)
    requires S.TableOk(Items(jobs))
    ensures forall id :: id in jobs ==> S.WellFormed(ItemOf(jobs[id]))
  {
    forall id | id in jobs
      ensures S.WellFormed(ItemOf(jobs[id]))
    {
      assert Items(jobs)[id] == ItemOf(jobs[id]);
    }
  }

  /**
   * The UNIQUE key on attempts never fires and closing an attempt always changes one row: these two
   * failures of the transaction do not occur.  A claim finds its job exhausted only when the first
   * due row is a lease that expired on the last attempt and that recovery has not yet failed.
   */
  lemma AttemptWritesSucceed(cfg: L.Config, releases: map<Id, Release>, rows: Rows, op: JobOp)
    requires AttemptsOk(rows.jobs, rows.attempts) && S.TableOk(Items(rows.jobs)) && Sorting.WeakOrder(cfg.before)
    ensures JobRows(cfg, releases, rows, op) != Err(Conflict)
    ensures JobRows(cfg, releases, rows, op) == Err(Storage) ==> op.Enqueue? && op.id in rows.jobs
    ensures op.Claim? ==>
      (JobRows(cfg, releases, rows, op) == Err(Precondition) <==>
        exists id :: FirstDue(cfg.before, rows.jobs, op.now, id) && Expired(cfg.before, rows.jobs[id], op.now)
                     && rows.jobs[id].attempts == rows.jobs[id].max)
  {
    if op.Claim? {
      hide JobRows, AttemptsOk, S.TableOk, Sorting.WeakOrder, FirstDue;
      ClaimFails(cfg, releases, rows, op);
      ExhaustedFirst(cfg, rows, op);
    } else {
      hide JobRows, FirstDue;
      OthersFail(cfg, releases, rows, op);
    }
  }

  lemma OthersFail(cfg: L.Config, releases: map<Id, Release>, rows: Rows, op: JobOp)
    requires AttemptsOk(rows.jobs, rows.attempts) && S.TableOk(Items(rows.jobs)) && !op.Claim?
    ensures var r := JobRows(cfg, releases, rows, op);
      r != Err(Conflict) && (r == Err(Storage) ==> op.Enqueue? && op.id in rows.jobs)
  {
    hide L.Backoff, Blank, Trim, S.TableOk, AttemptsOk;
    if (op.Complete? || op.Fail?) && op.id in rows.jobs && rows.jobs[op.id].status.Running? { RunningHasOpenAttempt(rows, op.id); }
  }

  /** A claim fails only when nothing is due, or when the selected job has no budget left. */
  lemma ClaimFails(cfg: L.Config, releases: map<Id, Release>, rows: Rows, op: JobOp)
    requires AttemptsOk(rows.jobs, rows.attempts) && op.Claim?
    ensures var r, next := JobRows(cfg, releases, rows, op), L.Next(cfg.before, Items(rows.jobs), op.now);
      && (next.Some? ==> next.value in rows.jobs)
      && (next.None? ==> r == Err(NotFound))
      && (next.Some? ==> if rows.jobs[next.value].attempts >= rows.jobs[next.value].max then r == Err(Precondition) else r.Ok?)
  {
    hide L.Before;
    var next := L.Next(cfg.before, Items(rows.jobs), op.now);
    if next.Some? { assert (next.value, rows.jobs[next.value].attempts + 1) !in rows.attempts; }
  }

  /** Only an expired lease is due with its budget used up. */
  lemma DueExhausted(before: Comparison, jobs: map<Id, Job>, now: Instant, id: Id)
    requires S.TableOk(Items(jobs)) && id in jobs && DueRow(before, jobs[id], now)
    ensures jobs[id].attempts >= jobs[id].max <==> Expired(before, jobs[id], now) && jobs[id].attempts == jobs[id].max
  {
    RowsWellFormed(jobs);
  }

  lemma FirstDueIsDue(before: Comparison, jobs: map<Id, Job>, now: Instant, id: Id)
    requires FirstDue(before, jobs, now, id)
    ensures id in jobs && DueRow(before, jobs[id], now)
  {
    hide Precedes, DueRow;
  }

  lemma ExhaustedFirst(cfg: L.Config, rows: Rows, op: JobOp)
    requires S.TableOk(Items(rows.jobs)) && Sorting.WeakOrder(cfg.before) && op.Claim?
    ensures var next := L.Next(cfg.before, Items(rows.jobs), op.now);
      (next.Some? && next.value in rows.jobs && rows.jobs[next.value].attempts >= rows.jobs[next.value].max) <==>
        exists id :: FirstDue(cfg.before, rows.jobs, op.now, id) && Expired(cfg.before, rows.jobs[id], op.now)
                     && rows.jobs[id].attempts == rows.jobs[id].max
  {
    var jobs := rows.jobs;
    hide L.Next, FirstDue, Expired, S.TableOk, Sorting.WeakOrder, Items;
    FindDueSelectsNext(cfg.before, jobs, op.now);
    forall id | FirstDue(cfg.before, jobs, op.now, id)
      ensures id in jobs && (jobs[id].attempts >= jobs[id].max <==> Expired(cfg.before, jobs[id], op.now) && jobs[id].attempts == jobs[id].max)
    {
      FirstDueIsDue(cfg.before, jobs, op.now, id);
      DueExhausted(cfg.before, jobs, op.now, id);
    }
  }

  // ---- Refinement ----

  /** The call commits exactly when the machine accepts it and nothing outside the protocol refuses it. */
  ghost predicate Simulated(cfg: L.Config, releases: map<Id, Release>, rows: Rows, op: JobOp) {
    var r, m := JobRows(cfg, releases, rows, op), L.Step(cfg, Items(rows.jobs), MachineOp(op));
    && (r.Ok? <==> m.Some? && !Refused(releases, rows.jobs, op))
    && (r.Ok? ==> m == Some(Items(r.value.jobs)))
  }

  lemma JobRefines(cfg: L.Config, releases: map<Id, Release>, rows: Rows, op: JobOp)
    requires AttemptsOk(rows.jobs, rows.attempts) && S.TableOk(Items(rows.jobs))
    ensures Simulated(cfg, releases, rows, op)
  {
    hide Simulated;
    match op
    case Claim(_, _, _) => ClaimRefines(cfg, releases, rows, op);
    case Recover(_) => RecoverRefines(cfg, releases, rows, op);
    case Complete(_, _, _, _, _, _) => CompleteRefines(cfg, releases, rows, op);
    case Fail(_, _, _, _, _, _, _) => FailRefines(cfg, releases, rows, op);
    case Enqueue(_, _, _, _) => EnqueueRefines(cfg, releases, rows, op);
    case _ => HoldRefines(cfg, releases, rows, op);
  }

  lemma EnqueueRefines(cfg: L.Config, releases: map<Id, Release>, rows: Rows, op: JobOp)
    requires op.Enqueue?
    ensures Simulated(cfg, releases, rows, op)
  {
    var j := Job(op.release, Queued, "", "", None, 0, op.max, "", "", "", op.now, op.now, op.now, 1);
    ItemsUpdate(rows.jobs, op.id, j);
    assert ItemOf(j) == L.Item(L.Waiting, "", "", None, 0, op.max, op.now, op.now, 1);
  }

  lemma ClaimRefines(cfg: L.Config, releases: map<Id, Release>, rows: Rows, op: JobOp)
    requires AttemptsOk(rows.jobs, rows.attempts) && op.Claim?
    ensures Simulated(cfg, releases, rows, op)
  {
    hide L.Before;
    var jobs := rows.jobs;
    var next := L.Next(cfg.before, Items(jobs), op.now);
    if next.Some? {
      var id := next.value;
      assert Items(jobs)[id] == ItemOf(jobs[id]);
      assert (id, jobs[id].attempts + 1) !in rows.attempts;
      var r := JobRows(cfg, releases, rows, op);
      if r.Ok? { ItemsUpdate(jobs, id, r.value.jobs[id]); }
    }
  }

  lemma RecoverRefines(cfg: L.Config, releases: map<Id, Release>, rows: Rows, op: JobOp)
    requires op.Recover?
    ensures Simulated(cfg, releases, rows, op)
  {
    RecoverItems(cfg.before, rows.jobs, op.now);
  }

  lemma RecoverItems(before: Comparison, jobs: map<Id, Job>, now: Instant)
    ensures Items(RecoveredJobs(before, jobs, now)) == map id | id in Items(jobs) :: Items(jobs)[id].Recovered(before, now)
  {
  }

  lemma HoldRefines(cfg: L.Config, releases: map<Id, Release>, rows: Rows, op: JobOp)
    requires op.Renew? || op.Checkpoint?
    ensures Simulated(cfg, releases, rows, op)
  {
    hide Blank, Trim;
    var r := JobRows(cfg, releases, rows, op);
    if r.Ok? { ItemsUpdate(rows.jobs, op.id, r.value.jobs[op.id]); }
  }

  /** The last attempt of a running job is there to be closed. */
  lemma RunningHasOpenAttempt(rows: Rows, id: Id)
    requires AttemptsOk(rows.jobs, rows.attempts) && S.TableOk(Items(rows.jobs)) && id in rows.jobs && rows.jobs[id].status.Running?
    ensures (id, rows.jobs[id].attempts) in rows.attempts && rows.attempts[(id, rows.jobs[id].attempts)].finished.None?
  {
    RowsWellFormed(rows.jobs);
  }

  lemma CompleteRefines(cfg: L.Config, releases: map<Id, Release>, rows: Rows, op: JobOp)
    requires AttemptsOk(rows.jobs, rows.attempts) && S.TableOk(Items(rows.jobs)) && op.Complete?
    ensures Simulated(cfg, releases, rows, op)
  {
    hide Blank, Trim;
    if op.id in rows.jobs {
      var j := rows.jobs[op.id];
      assert Items(rows.jobs)[op.id] == ItemOf(j);
      if j.status.Running? {
        RunningHasOpenAttempt(rows, op.id);
        ItemsUpdate(rows.jobs, op.id, Freed(j, Succeeded, "", j.nextAt, op.now).(output := Trim(op.output)));
      }
    }
  }

  lemma FailRefines(cfg: L.Config, releases: map<Id, Release>, rows: Rows, op: JobOp)
    requires AttemptsOk(rows.jobs, rows.attempts) && S.TableOk(Items(rows.jobs)) && op.Fail?
    ensures Simulated(cfg, releases, rows, op)
  {
    hide L.Backoff, Blank, Trim;
    if op.id in rows.jobs {
      var j := rows.jobs[op.id];
      var i := ItemOf(j);
      assert Items(rows.jobs)[op.id] == i;
      if j.status.Running? {
        RunningHasOpenAttempt(rows, op.id);
        var retry := !op.permanent && j.attempts < j.max;
        var to := if retry then Retrying else JobFailed;
        var next := if retry then op.now + L.Backoff(cfg.base, j.attempts) else op.now;
        FreedIsReleased(j, to, Trim(op.message), next, op.now);
        ItemsUpdate(rows.jobs, op.id, Freed(j, to, Trim(op.message), next, op.now));
      }
    }
  }

  lemma FreedIsReleased(j: Job, to: JobStatus, error: string, next: Instant, now: Instant)
    ensures ItemOf(Freed(j, to, error, next, now)) == ItemOf(j).Released(Phase(to), next)
  {
  }

  lemma ItemsUpdate(jobs: map<Id, Job>, id: Id, j: Job)
    ensures Items(jobs[id := j]) == Items(jobs)[id := ItemOf(j)]
  {
  }

  /** No call makes a finished job active again or moves a job to another release; only published releases get jobs. */
  lemma JobStepKeepsReleases(cfg: L.Config, releases: map<Id, Release>, rows: Rows, op: JobOp)
    ensures match JobRows(cfg, releases, rows, op)
      case Ok(u) =>
        rows.jobs.Keys <= u.jobs.Keys
        && forall id :: id in u.jobs ==>
             if id in rows.jobs
             then u.jobs[id].release == rows.jobs[id].release && (u.jobs[id].status.Active() ==> rows.jobs[id].status.Active())
             else u.jobs[id].release in releases && releases[u.jobs[id].release].status.Published?
      case Err(_) => true
  {
    hide L.Backoff, Trim, L.Before;
  }

  /** Every write to a job bumps its version by one, so one version belongs to one row content. */
  predicate Versioned(before: map<Id, Job>, after: map<Id, Job>) {
    forall id :: id in before ==>
      id in after && before[id].version <= after[id].version && (after[id].version == before[id].version ==> after[id] == before[id])
  }

  lemma JobStepVersions(cfg: L.Config, releases: map<Id, Release>, rows: Rows, op: JobOp)
    ensures match JobRows(cfg, releases, rows, op)
      case Ok(u) => Versioned(rows.jobs, u.jobs)
      case Err(_) => true
  {
    hide L.Backoff, Trim, L.Before;
  }
}
