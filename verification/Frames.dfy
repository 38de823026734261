/** Which tables each group of calls leaves alone. */
module Frames {
  import opened Basics
  import opened Domain
  import opened System
  import opened Timestamps
  import W = Workloads
  import C = Capacity
  import M = Metering
  import G = Ledger
  import J = Scheduler
  import O = Outbox
  import K = Credit
  import R = Recovery
  import WI = WorkloadInvariants

  /** Only workloads, pool leases and idempotency records may differ. */
  predicate WorkloadFrame(t: Tables, u: Tables) {
    u == t.(workloads := u.workloads, leases := u.leases, records := u.records)
  }

  /** Only streams and segments may differ. */
  predicate CapacityFrame(t: Tables, u: Tables) { u == t.(streams := u.streams, segments := u.segments) }

  /** Only batches and their items may differ. */
  predicate MeterFrame(t: Tables, u: Tables) { u == t.(batches := u.batches, items := u.items) }

  /** Only drafts, members, releases and reviews may differ. */
  predicate LedgerFrame(t: Tables, u: Tables) {
    u == t.(drafts := u.drafts, members := u.members, releases := u.releases, releaseItems := u.releaseItems, reviews := u.reviews)
  }

  predicate CatalogFrame(t: Tables, u: Tables) { u == t.(providers := u.providers, pools := u.pools, offers := u.offers) }

  predicate JobFrame(t: Tables, u: Tables) { u == t.(jobs := u.jobs, attempts := u.attempts) }

  predicate EventFrame(t: Tables, u: Tables) { u == t.(events := u.events) }

  predicate CreditFrame(t: Tables, u: Tables) { u == t.(accounts := u.accounts, entries := u.entries) }

  predicate RecoveryFrame(t: Tables, u: Tables) {
    u == t.(leases := u.leases, batches := u.batches, jobs := u.jobs, events := u.events)
  }

  lemma PlanFrame(cfg: Config, t: Tables, c: WorkloadCall)
    requires c.Plan?
    ensures WorkloadFrame(t, Committed(t, WorkloadStep(cfg, t, c)))
  {
    hide W.ValidPlan, W.Fingerprint, W.LeaseCollides, W.Lookup, W.Matched, TextBefore;
  }

  /** Only workloads and pool leases may differ. */
  predicate SessionFrame(t: Tables, u: Tables) { u == t.(workloads := u.workloads, leases := u.leases) }

  lemma StatusCallFrame(cfg: Config, t: Tables, c: WorkloadCall)
    requires c.Change? || c.Submit? || c.Cancel? || c.Reopen?
    ensures SessionFrame(t, Committed(t, WorkloadStep(cfg, t, c)))
  {
    hide W.CancelStep, W.LeaseCollides, W.Stamped, W.StreamsOf;
    match c
    case Change(_, _, _, _) =>
    case Submit(_, _, _) =>
    case Cancel(p, id, now) => WI.CancelFreesOneLease(t, p, id, now);
    case Reopen(_, _, _, _) =>
  }

  lemma PoolCallFrame(cfg: Config, t: Tables, c: WorkloadCall)
    requires c.ReservePool? || c.RenewPool? || c.ReleasePool?
    ensures SessionFrame(t, Committed(t, WorkloadStep(cfg, t, c)))
  {
    hide W.LeaseCollides, W.NamedLease, TextBefore;
    match c
    case ReservePool(_, _, _, _, _, _) =>
    case RenewPool(_, _, _, _, _, _, _) =>
    case ReleasePool(_, _, _, _, _, _, _) =>
  }

  lemma WorkloadCallFrame(cfg: Config, t: Tables, c: WorkloadCall)
    ensures WorkloadFrame(t, Committed(t, WorkloadStep(cfg, t, c)))
    ensures !c.Plan? ==> Committed(t, WorkloadStep(cfg, t, c)).records == t.records
  {
    hide WorkloadStep, WorkloadFrame, SessionFrame;
    var u := Committed(t, WorkloadStep(cfg, t, c));
    if c.Plan? {
      PlanFrame(cfg, t, c);
    } else if c.Change? || c.Submit? || c.Cancel? || c.Reopen? {
      StatusCallFrame(cfg, t, c);
      SessionIsWorkload(t, u);
    } else {
      PoolCallFrame(cfg, t, c);
      SessionIsWorkload(t, u);
    }
  }

  lemma SessionIsWorkload(t: Tables, u: Tables)
    requires SessionFrame(t, u)
    ensures WorkloadFrame(t, u) && u.records == t.records
  {
  }

  lemma CapacityCallFrame(t: Tables, c: CapacityCall)
    ensures CapacityFrame(t, Committed(t, CapacityStep(t, c)))
  {
    hide C.ValidInputs, C.AppendFrom, C.Refreshed, C.SegmentRows, C.Adjacent, C.SegmentBytes, C.Alignable, W.StreamsOf;
    match c
    case OpenStream(_, _, _, _, _) =>
    case Append(_, _, _, _, _) =>
    case Seal(_, _, _) =>
    case Align(_, _, _, _) =>
  }

  lemma MeterCallFrame(cfg: Config, t: Tables, c: MeterCall)
    ensures MeterFrame(t, Committed(t, MeterStep(cfg, t, c)))
  {
    hide M.InsertFrom, M.SegmentIds, C.ListStreams, M.ItemsOf, Blank, Trim, TextBefore;
    match c
    case CreateBatch(_, _, _, _) =>
    case ClaimBatch(_, _, _, _) =>
    case RenewBatch(_, _, _, _, _) =>
    case RecordItem(_, _, _, _, _, _, _, _, _) =>
    case SubmitBatch(_, _, _, _) =>
    case ReviewBatch(_, _, _, _) =>
  }

  lemma DraftCallFrame(t: Tables, c: LedgerCall)
    requires c.CreateDraft? || c.AddWorkloads? || c.Freeze?
    ensures LedgerFrame(t, Committed(t, LedgerStep(t, c)))
  {
    hide G.AllEligible, G.AddFrom, G.ValidRequest, G.ListMembers, G.DigestOf, G.MembersOf, G.Workloads, Blank, Trim;
    match c
    case CreateDraft(_, _, _) =>
    case AddWorkloads(_, _, _, _) =>
    case Freeze(_, _) =>
  }

  lemma ReviewFrame(t: Tables, reviewer: Id, ledger: Id, approve: bool, reason: string, now: Instant)
    ensures LedgerFrame(t, Committed(t, G.ReviewStep(t, reviewer, ledger, approve, reason, now)))
  {
    hide Blank;
  }

  lemma PublishFrame(t: Tables, ledger: Id, release: Id, now: Instant)
    ensures LedgerFrame(t, Committed(t, G.PublishStep(t, ledger, release, now)))
  {
    hide G.ListMembers, G.DigestOf, G.MembersOf, G.ReleaseRows, G.ReleaseCollides;
  }

  lemma RevokeFrame(t: Tables, release: Id, reason: string, now: Instant)
    ensures LedgerFrame(t, Committed(t, G.RevokeStep(t, release, reason, now)))
  {
    hide G.ActiveJobs, Blank;
  }

  lemma LedgerCallFrame(t: Tables, c: LedgerCall)
    ensures LedgerFrame(t, Committed(t, LedgerStep(t, c)))
  {
    hide G.CreateDraftStep, G.AddStep, G.FreezeStep, G.ReviewStep, G.PublishStep, G.RevokeStep, LedgerFrame;
    match c
    case ReviewLedger(reviewer, ledger, approve, reason, now) => ReviewFrame(t, reviewer, ledger, approve, reason, now);
    case Publish(ledger, release, now) => PublishFrame(t, ledger, release, now);
    case Revoke(release, reason, now) => RevokeFrame(t, release, reason, now);
    case _ => DraftCallFrame(t, c);
  }

  lemma JobCallFrame(cfg: Config, t: Tables, op: J.JobOp)
    ensures JobFrame(t, Committed(t, J.JobStep(cfg.jobs.OnText(), t, op)))
  {
    hide J.JobRows;
  }

  lemma EventCallFrame(cfg: Config, t: Tables, op: O.EventOp)
    ensures EventFrame(t, Committed(t, O.EventStep(cfg.events.OnText(), t, op)))
  {
    hide O.EventRows;
  }

  lemma CreditCallFrame(t: Tables, op: K.CreditOp)
    ensures CreditFrame(t, Committed(t, K.CreditStep(t, op)))
  {
    hide Trim, Blank, K.Upper, K.FindEntry;
    match op
    case OpenOp(_, _, _) =>
    case DepositOp(_, _, _, _, _) =>
    case ReserveOp(_, _, _, _, _, _) =>
  }

  lemma ExecGroups(cfg: Config, t: Tables, c: Command)
    ensures c.OnWorkload? ==> Exec(cfg, t, c) == WorkloadStep(cfg, t, c.workload)
    ensures c.OnCapacity? ==> Exec(cfg, t, c) == CapacityStep(t, c.capacity)
    ensures c.OnMeter? ==> Exec(cfg, t, c) == MeterStep(cfg, t, c.meter)
    ensures c.OnLedger? ==> Exec(cfg, t, c) == LedgerStep(t, c.ledger)
    ensures c.OnJob? ==> Exec(cfg, t, c) == if c.job.Recover? then Err(Validation) else J.JobStep(cfg.jobs.OnText(), t, c.job)
    ensures c.OnEvent? ==> Exec(cfg, t, c) == if c.event.Recover? then Err(Validation) else O.EventStep(cfg.events.OnText(), t, c.event)
    ensures c.OnCredit? ==> Exec(cfg, t, c) == K.CreditStep(t, c.credit)
    ensures c.RecoverExpired? ==> Exec(cfg, t, c) == Ok(R.RecoverStep(TextBefore, t, c.now))
  {
    hide WorkloadStep, CapacityStep, MeterStep, LedgerStep, J.JobStep, O.EventStep, K.CreditStep, R.RecoverStep;
  }

  /** The frame of any call. */
  predicate Framed(t: Tables, c: Command, u: Tables) {
    match c
    case Catalog(_, _, _) => CatalogFrame(t, u)
    case OnWorkload(_) => WorkloadFrame(t, u)
    case OnCapacity(_) => CapacityFrame(t, u)
    case OnMeter(_) => MeterFrame(t, u)
    case OnLedger(_) => LedgerFrame(t, u)
    case OnJob(_) => JobFrame(t, u)
    case OnEvent(_) => EventFrame(t, u)
    case OnCredit(_) => CreditFrame(t, u)
    case RecoverExpired(_) => RecoveryFrame(t, u)
  }

  lemma CallFramed(cfg: Config, t: Tables, c: Command)
    ensures Framed(t, c, After(cfg, t, c))
  {
    hide WorkloadStep, CapacityStep, MeterStep, LedgerStep, J.JobStep, O.EventStep, K.CreditStep, Exec,
      WorkloadFrame, CapacityFrame, MeterFrame, LedgerFrame, EventFrame, CreditFrame;
    ExecGroups(cfg, t, c);
    match c
    case Catalog(_, _, _) => CatalogFramed(cfg, t, c);
    case OnWorkload(call) => WorkloadCallFrame(cfg, t, call);
    case OnCapacity(call) => CapacityCallFrame(t, call);
    case OnMeter(call) => MeterCallFrame(cfg, t, call);
    case OnLedger(call) => LedgerCallFrame(t, call);
    case OnJob(op) => JobCallFrame(cfg, t, op);
    case OnEvent(op) =>
      EventCallFrame(cfg, t, op);
      NothingChanged(t);
    case OnCredit(op) => CreditCallFrame(t, op);
    case RecoverExpired(_) =>
  }

  lemma NothingChanged(t: Tables)
    ensures EventFrame(t, t)
  {
  }

  lemma CatalogFramed(cfg: Config, t: Tables, c: Command)
    requires c.Catalog?
    ensures CatalogFrame(t, After(cfg, t, c))
  {
  }

  /** Which calls can change which tables. */
  lemma Unchanged(cfg: Config, t: Tables, c: Command)
    ensures var u := After(cfg, t, c);
      && (!c.OnWorkload? ==> u.workloads == t.workloads && u.records == t.records)
      && (!c.OnCapacity? ==> u.streams == t.streams && u.segments == t.segments)
      && (!c.OnLedger? ==>
            u.drafts == t.drafts && u.members == t.members && u.releases == t.releases && u.releaseItems == t.releaseItems
            && u.reviews == t.reviews)
      && (!c.OnJob? ==> u.attempts == t.attempts && (!c.RecoverExpired? ==> u.jobs == t.jobs))
      && (!c.OnEvent? && !c.RecoverExpired? ==> u.events == t.events)
      && (!c.OnCredit? ==> u.accounts == t.accounts && u.entries == t.entries)
  {
    hide After;
    CallFramed(cfg, t, c);
  }
}
