/** The invariant holds in every reachable state. */
module Reachability {
  import opened Basics
  import opened Domain
  import opened System
  import W = Workloads
  import C = Capacity
  import M = Metering
  import G = Ledger
  import J = Scheduler
  import O = Outbox
  import K = Credit
  import R = Recovery
  import opened Timestamps
  import F = Frames
  import WI = WorkloadInvariants
  import CI = CapacityInvariants
  import MI = MeteringInvariants
  import GI = LedgerInvariants

  lemma RecoveryKeeps(cfg: Config, t: Tables, now: Instant)
    requires Inv(t)
    ensures Inv(R.RecoverStep(TextBefore, t, now))
  {
    hide Inv, TextBefore;
    var leases, batches, jobs :=
      W.RecoveredLeases(TextBefore, t.leases, now), M.RecoveredBatches(TextBefore, t.batches, now), J.RecoveredJobs(TextBefore, t.jobs, now);
    assert WI.LeasesKept(t.leases, leases);
    WI.LeasesChange(t, leases);
    var t1 := t.(leases := leases);
    MI.RecoveryKeeps(TextBefore, t1, now);
    var t2 := t1.(batches := batches);
    GI.JobCallKeeps(cfg.jobs.OnText(), t2, J.JobOp.Recover(now));
    InvAside(t2.(jobs := jobs), R.RecoverStep(TextBefore, t, now));
  }

  lemma PlanCallKeeps(cfg: Config, t: Tables, c: WorkloadCall)
    requires Inv(t) && c.Plan?
    ensures Inv(Committed(t, WorkloadStep(cfg, t, c)))
  {
    hide Inv, W.PlanStep, TextBefore;
    WI.PlanKeeps(TextBefore, t, cfg.poolTtl, c.user, c.input, c.draw, c.now);
  }

  lemma ReopenCallKeeps(cfg: Config, t: Tables, c: WorkloadCall)
    requires Inv(t) && c.Reopen?
    ensures Inv(Committed(t, WorkloadStep(cfg, t, c)))
  {
    InvParts(t);
    hide Inv, W.ReopenStep, LeasesOk;
    WI.ReopenNeverCommits(t, cfg.poolTtl, c.p, c.id, c.draw, c.now);
  }

  lemma WorkloadCallKeeps(cfg: Config, t: Tables, c: WorkloadCall)
    requires Inv(t)
    ensures Inv(Committed(t, WorkloadStep(cfg, t, c)))
  {
    hide Inv, W.PlanStep, W.ChangeStep, W.SubmitStep, W.CancelStep, W.ReopenStep, W.ReservePool, W.RenewPool, W.ReleasePool, TextBefore;
    match c
    case Plan(_, _, _, _) => PlanCallKeeps(cfg, t, c);
    case Change(p, id, call, now) => WI.ChangeKeeps(t, p, id, call, now);
    case Submit(p, id, now) => WI.SubmitKeeps(t, p, id, now);
    case Cancel(p, id, now) => WI.CancelKeeps(t, p, id, now);
    case Reopen(_, _, _, _) => ReopenCallKeeps(cfg, t, c);
    case ReservePool(seen, user, pool, w, draw, now) =>
      WI.ReservePoolKeeps(seen, t, cfg.poolTtl, user, pool, w, draw.lease, draw.token, now);
    case RenewPool(seen, user, pool, lease, token, version, now) =>
      WI.RenewPoolKeeps(TextBefore, seen, t, cfg.poolTtl, user, pool, lease, token, version, now);
    case ReleasePool(seen, user, pool, lease, token, version, now) =>
      WI.ReleasePoolKeeps(seen, t, user, pool, lease, token, version, now);
  }

  lemma CapacityCallKeeps(t: Tables, c: CapacityCall)
    requires Inv(t)
    ensures Inv(Committed(t, CapacityStep(t, c)))
  {
    hide Inv, C.OpenStep, C.AppendStep, C.SealStep, C.AlignStep;
    match c
    case OpenStream(p, w, kind, id, now) => CI.OpenKeeps(t, p, w, kind, id, now);
    case Append(p, stream, inputs, ids, now) => CI.AppendKeeps(t, p, stream, inputs, ids, now);
    case Seal(p, stream, now) => CI.SealKeeps(t, p, stream, now);
    case Align(p, w, tolerance, now) => CI.AlignKeeps(t, p, w, tolerance, now);
  }

  lemma MeterCallKeeps(cfg: Config, t: Tables, c: MeterCall)
    requires Inv(t)
    ensures Inv(Committed(t, MeterStep(cfg, t, c)))
  {
    hide Inv, M.CreateStep, M.ClaimStep, M.RenewStep, M.RecordStep, M.SubmitBatchStep, M.ReviewBatchStep, TextBefore;
    match c
    case CreateBatch(w, batch, ids, now) => MI.CreateKeeps(t, w, batch, ids, now);
    case ClaimBatch(user, batch, token, now) => MI.ClaimKeeps(TextBefore, t, cfg.meterTtl, user, batch, token, now);
    case RenewBatch(user, batch, token, version, now) => MI.RenewKeeps(TextBefore, t, cfg.meterTtl, user, batch, token, version, now);
    case RecordItem(user, batch, token, item, label_, payload, json, version, now) =>
      MI.RecordKeeps(t, user, batch, token, item, label_, payload, json, version, now);
    case SubmitBatch(user, batch, token, now) => MI.SubmitKeeps(TextBefore, t, user, batch, token, now);
    case ReviewBatch(batch, accept, reason, now) => MI.ReviewKeeps(t, batch, accept, reason, now);
  }

  lemma LedgerCallKeeps(t: Tables, c: LedgerCall)
    requires Inv(t)
    ensures Inv(Committed(t, LedgerStep(t, c)))
  {
    hide Inv, G.CreateDraftStep, G.AddStep, G.FreezeStep, G.ReviewStep, G.PublishStep, G.RevokeStep;
    match c
    case CreateDraft(name, id, now) => GI.CreateKeeps(t, name, id, now);
    case AddWorkloads(ledger, workloads, ids, now) => GI.AddKeeps(t, ledger, workloads, ids, now);
    case Freeze(ledger, now) => GI.FreezeKeeps(t, ledger, now);
    case ReviewLedger(reviewer, ledger, approve, reason, now) => GI.ReviewKeeps(t, reviewer, ledger, approve, reason, now);
    case Publish(ledger, release, now) => GI.PublishKeeps(t, ledger, release, now);
    case Revoke(release, reason, now) => GI.RevokeKeeps(t, release, reason, now);
  }

  /** Every call, committed or refused, keeps the invariant. */
  lemma CommandKeeps(cfg: Config, t: Tables, c: Command)
    requires Inv(t)
    ensures Inv(After(cfg, t, c))
  {
    hide Inv, SamePipeline, WorkloadStep, CapacityStep, MeterStep, LedgerStep, J.JobStep, O.EventStep, K.CreditStep, R.RecoverStep, TextBefore;
    match c
    case OnWorkload(call) => WorkloadCallKeeps(cfg, t, call);
    case OnCapacity(call) => CapacityCallKeeps(t, call);
    case OnMeter(call) => MeterCallKeeps(cfg, t, call);
    case OnLedger(call) => LedgerCallKeeps(t, call);
    case OnJob(op) => GI.JobCallKeeps(cfg.jobs.OnText(), t, op);
    case RecoverExpired(now) => RecoveryKeeps(cfg, t, now);
    case _ => AsideKeeps(cfg, t, c);
  }

  /** The catalog, the events and the credits have no part in the pipeline. */
  lemma AsideKeeps(cfg: Config, t: Tables, c: Command)
    requires Inv(t) && (c.Catalog? || c.OnEvent? || c.OnCredit?)
    ensures Inv(After(cfg, t, c))
  {
    hide Inv, After;
    F.CallFramed(cfg, t, c);
    InvAside(t, After(cfg, t, c));
  }

  lemma EmptyOk()
    ensures Inv(EMPTY)
  {
  }

  lemma {:induction false} RunInv(cfg: Config, t: Tables, cs: seq<Command>)
    requires Inv(t)
    ensures Inv(Run(cfg, t, cs))
  {
    hide Inv, After;
    if cs != [] {
      RunInv(cfg, t, cs[..|cs| - 1]);
      CommandKeeps(cfg, Run(cfg, t, cs[..|cs| - 1]), cs[|cs| - 1]);
    }
  }

  lemma ReachableInv(cfg: Config, t: Tables)
    requires Reachable(cfg, t)
    ensures Inv(t)
  {
    var cs :| Run(cfg, EMPTY, cs) == t;
    hide *;
    EmptyOk();
    RunInv(cfg, EMPTY, cs);
  }
}
