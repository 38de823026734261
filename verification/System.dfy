/** The whole service: every call as a command, its effect, and the invariant of the settlement pipeline. */
module System {
  import opened Basics
  import opened Domain
  import W = Workloads
  import C = Capacity
  import M = Metering
  import G = Ledger
  import J = Scheduler
  import O = Outbox
  import K = Credit
  import R = Recovery
  import L = Leases
  import opened Timestamps

  /** The configured durations; the guards of the SQL compare the stored texts. */
  datatype Config = Config(poolTtl: int, meterTtl: int, jobs: L.Timing, events: L.Timing)

  // ---- Calls, each with the clock reading and the random values it drew ----

  /** Workload sessions and pool leases; the pool calls carry the rows that they read before their transaction. */
  datatype WorkloadCall =
    | Plan(user: Id, input: W.PlanInput, draw: W.Draw, now: Instant)
    | Change(p: Principal, id: Id, call: W.StatusCall, now: Instant)
    | Submit(p: Principal, id: Id, now: Instant)
    | Cancel(p: Principal, id: Id, now: Instant)
    | Reopen(p: Principal, id: Id, draw: W.Draw, now: Instant)
    | ReservePool(pools: map<Id, Pool>, user: Id, pool: Id, workload: Id, draw: W.Draw, now: Instant)
    | RenewPool(leases: map<Id, PoolLease>, user: Id, pool: Id, lease: Id, token: string, version: int, now: Instant)
    | ReleasePool(leases: map<Id, PoolLease>, user: Id, pool: Id, lease: Id, token: string, version: int, now: Instant)

  function WorkloadStep(cfg: Config, t: Tables, c: WorkloadCall): Result<Tables> {
    match c
    case Plan(user, input, draw, now) => var o :- W.PlanStep(TextBefore, t, cfg.poolTtl, user, input, draw, now); Ok(o.tables)
    case Change(p, id, call, now) => W.ChangeStep(t, p, id, call, now)
    case Submit(p, id, now) => W.SubmitStep(t, p, id, now)
    case Cancel(p, id, now) => W.CancelStep(t, p, id, now)
    case Reopen(p, id, draw, now) => W.ReopenStep(t, cfg.poolTtl, p, id, draw, now)
    case ReservePool(pools, user, pool, workload, draw, now) =>
      W.ReservePool(pools, t, cfg.poolTtl, user, pool, workload, draw.lease, draw.token, now)
    case RenewPool(leases, user, pool, lease, token, version, now) =>
      W.RenewPool(TextBefore, leases, t, cfg.poolTtl, user, pool, lease, token, version, now)
    case ReleasePool(leases, user, pool, lease, token, version, now) =>
      W.ReleasePool(leases, t, user, pool, lease, token, version, now)
  }

  /** Streams and segments. */
  datatype CapacityCall =
    | OpenStream(p: Principal, workload: Id, kind: Kind, id: Id, now: Instant)
    | Append(p: Principal, stream: Id, inputs: seq<C.SegmentInput>, ids: nat -> Id, now: Instant)
    | Seal(p: Principal, stream: Id, now: Instant)
    | Align(p: Principal, workload: Id, tolerance: int, now: Instant)

  function CapacityStep(t: Tables, c: CapacityCall): Result<Tables> {
    match c
    case OpenStream(p, workload, kind, id, now) => C.OpenStep(t, p, workload, kind, id, now)
    case Append(p, stream, inputs, ids, now) => C.AppendStep(t, p, stream, inputs, ids, now)
    case Seal(p, stream, now) => C.SealStep(t, p, stream, now)
    case Align(p, workload, tolerance, now) => C.AlignStep(t, p, workload, tolerance, now)
  }

  /** Metering batches. */
  datatype MeterCall =
    | CreateBatch(workload: Id, batch: Id, ids: nat -> Id, now: Instant)
    | ClaimBatch(user: Id, batch: Id, token: string, now: Instant)
    | RenewBatch(user: Id, batch: Id, token: string, version: int, now: Instant)
    | RecordItem(user: Id, batch: Id, token: string, item: Id, label_: string, payload: string, json: bool, version: int, now: Instant)
    | SubmitBatch(user: Id, batch: Id, token: string, now: Instant)
    | ReviewBatch(batch: Id, accept: bool, reason: string, now: Instant)

  function MeterStep(cfg: Config, t: Tables, c: MeterCall): Result<Tables> {
    match c
    case CreateBatch(workload, batch, ids, now) => M.CreateStep(t, workload, batch, ids, now)
    case ClaimBatch(user, batch, token, now) => M.ClaimStep(TextBefore, t, cfg.meterTtl, user, batch, token, now)
    case RenewBatch(user, batch, token, version, now) => M.RenewStep(TextBefore, t, cfg.meterTtl, user, batch, token, version, now)
    case RecordItem(user, batch, token, item, label_, payload, json, version, now) =>
      M.RecordStep(t, user, batch, token, item, label_, payload, json, version, now)
    case SubmitBatch(user, batch, token, now) => M.SubmitBatchStep(TextBefore, t, user, batch, token, now)
    case ReviewBatch(batch, accept, reason, now) => M.ReviewBatchStep(t, batch, accept, reason, now)
  }

  /** Ledger drafts and releases. */
  datatype LedgerCall =
    | CreateDraft(name: string, id: Id, now: Instant)
    | AddWorkloads(ledger: Id, workloads: seq<Id>, ids: nat -> Id, now: Instant)
    | Freeze(ledger: Id, now: Instant)
    | ReviewLedger(reviewer: Id, ledger: Id, approve: bool, reason: string, now: Instant)
    | Publish(ledger: Id, release: Id, now: Instant)
    | Revoke(release: Id, reason: string, now: Instant)

  function LedgerStep(t: Tables, c: LedgerCall): Result<Tables> {
    match c
    case CreateDraft(name, id, now) => G.CreateDraftStep(t, name, id, now)
    case AddWorkloads(ledger, workloads, ids, now) => G.AddStep(t, ledger, workloads, ids, now)
    case Freeze(ledger, now) => G.FreezeStep(t, ledger, now)
    case ReviewLedger(reviewer, ledger, approve, reason, now) => G.ReviewStep(t, reviewer, ledger, approve, reason, now)
    case Publish(ledger, release, now) => G.PublishStep(t, ledger, release, now)
    case Revoke(release, reason, now) => G.RevokeStep(t, release, reason, now)
  }

  datatype Command =
    | Catalog(providers: map<Id, Provider>, pools: map<Id, Pool>, offers: map<Id, Offer>)
    | OnWorkload(workload: WorkloadCall)
    | OnCapacity(capacity: CapacityCall)
    | OnMeter(meter: MeterCall)
    | OnLedger(ledger: LedgerCall)
    | OnJob(job: J.JobOp)
    | OnEvent(event: O.EventOp)
    | OnCredit(credit: K.CreditOp)
    | RecoverExpired(now: Instant)

  ghost function Exec(cfg: Config, t: Tables, c: Command): Result<Tables> {
    match c
    case Catalog(providers, pools, offers) => Ok(t.(providers := providers, pools := pools, offers := offers))
    case OnWorkload(call) => WorkloadStep(cfg, t, call)
    case OnCapacity(call) => CapacityStep(t, call)
    case OnMeter(call) => MeterStep(cfg, t, call)
    case OnLedger(call) => LedgerStep(t, call)
    case OnJob(op) => if op.Recover? then Err(Validation) else J.JobStep(cfg.jobs.OnText(), t, op)
    case OnEvent(op) => if op.Recover? then Err(Validation) else O.EventStep(cfg.events.OnText(), t, op)
    case OnCredit(op) => K.CreditStep(t, op)
    case RecoverExpired(now) => Ok(R.RecoverStep(TextBefore, t, now))
  }

  /** A rejected call leaves the tables as they were. */
  ghost function After(cfg: Config, t: Tables, c: Command): Tables { Committed(t, Exec(cfg, t, c)) }

  ghost function Run(cfg: Config, t: Tables, cs: seq<Command>): Tables {
    if cs == [] then t else After(cfg, Run(cfg, t, cs[..|cs| - 1]), cs[|cs| - 1])
  }

  lemma {:induction false} RunConcat(cfg: Config, t: Tables, a: seq<Command>, b: seq<Command>)
    ensures Run(cfg, t, a + b) == Run(cfg, Run(cfg, t, a), b)
    decreases |b|
  {
    hide After;
    if b == [] {
      assert a + b == a;
    } else {
      var n := |b| - 1;
      assert (a + b)[..|a + b| - 1] == a + b[..n];
      RunConcat(cfg, t, a, b[..n]);
    }
  }

  /** The tables after migration. */
  const EMPTY := Tables(map[], map[], map[], map[], map[], map[], map[], map[], map[], map[], map[], map[], {}, map[],
                        map[], map[], map[], map[], [], map[])

  /** Some run of calls leads from the empty database to `t`. */
  ghost predicate Reachable(cfg: Config, t: Tables) { exists cs :: Run(cfg, EMPTY, cs) == t }

  // ---- The invariant, table by table ----

  predicate SegmentsOk(streams: map<Id, Stream>, segments: map<Id, Segment>) {
    && (forall s :: s in segments ==>
          (segments[s].stream in streams && 0 <= segments[s].sequence && 0 <= segments[s].start < segments[s].end <= MAX_INT64))
    && (forall a, b :: a in segments && b in segments && a != b && segments[a].stream == segments[b].stream ==>
          (segments[a].sequence != segments[b].sequence && segments[a].key != segments[b].key))
  }

  /** A stream's cached aggregates are the recomputed ones, and once sealed its segments tile. */
  predicate StreamOk(segments: map<Id, Segment>, id: Id, s: Stream) {
    && s.count == |C.SegmentsOf(segments, id)| && s.first == C.FirstNanos(segments, id) && s.last == C.LastNanos(segments, id)
    && !s.status.Invalid?
    && (!s.status.Open? ==> s.count > 0 && C.Tiled(segments, C.SegmentsOf(segments, id)))
  }

  predicate StreamsOk(workloads: map<Id, Workload>, streams: map<Id, Stream>, segments: map<Id, Segment>) {
    && (forall s :: s in streams ==> streams[s].workload in workloads && StreamOk(segments, s, streams[s]))
    && (forall a, b :: a in streams && b in streams && a != b && streams[a].workload == streams[b].workload ==>
          streams[a].kind != streams[b].kind)
  }

  predicate PastSubmission(w: Workload) { w.status.Metering? || w.status.Settled? || w.status.WorkFailed? }

  predicate AllAligned(streams: map<Id, Stream>, workload: Id) {
    |W.StreamsOf(streams, workload)| >= 2 && forall s :: s in W.StreamsOf(streams, workload) ==> streams[s].status.Aligned?
  }

  predicate SubmittedOk(workloads: map<Id, Workload>, streams: map<Id, Stream>) {
    forall w :: w in workloads && PastSubmission(workloads[w]) ==> AllAligned(streams, w)
  }

  /** The segments of a workload, over all its streams. */
  function SegmentsOfWorkload(streams: map<Id, Stream>, segments: map<Id, Segment>, workload: Id): set<Id> {
    set s | s in segments && segments[s].stream in streams && streams[segments[s].stream].workload == workload
  }

  predicate BatchesOk(workloads: map<Id, Workload>, batches: map<Id, Batch>) {
    forall b :: b in batches ==> batches[b].workload in workloads && workloads[batches[b].workload].status.Settled?
  }

  predicate Covered(items: map<Id, MeterItem>, batch: Id, segment: Id) {
    exists i :: i in items && items[i].batch == batch && items[i].segment == segment
  }

  /** The items of each batch are in bijection with the segments of its workload. */
  predicate ItemsOk(streams: map<Id, Stream>, segments: map<Id, Segment>, batches: map<Id, Batch>, items: map<Id, MeterItem>) {
    && (forall i :: i in items ==>
          (items[i].batch in batches
           && items[i].segment in SegmentsOfWorkload(streams, segments, batches[items[i].batch].workload)))
    && (forall i, j :: i in items && j in items && i != j && items[i].batch == items[j].batch ==> items[i].segment != items[j].segment)
    && (forall b, s :: b in batches && s in SegmentsOfWorkload(streams, segments, batches[b].workload) ==> Covered(items, b, s))
  }

  predicate Closed(b: Batch) { b.status.Submitted? || b.status.Accepted? }

  predicate CompleteOk(batches: map<Id, Batch>, items: map<Id, MeterItem>) {
    forall i :: i in items && items[i].batch in batches && Closed(batches[items[i].batch]) ==> items[i].complete
  }

  /** What `EligibleWorkload` checks. */
  predicate EligibleNow(workloads: map<Id, Workload>, batches: map<Id, Batch>, w: Id) {
    && w in workloads && workloads[w].status.Settled? && !Blank(workloads[w].reservation)
    && exists b :: b in batches && batches[b].workload == w && batches[b].status.Accepted?
  }

  predicate MembersOk(workloads: map<Id, Workload>, batches: map<Id, Batch>, drafts: map<Id, LedgerDraft>, members: map<Id, Member>) {
    && (forall m :: m in members ==> members[m].ledger in drafts && EligibleNow(workloads, batches, members[m].workload))
    && (forall a, b :: a in members && b in members && a != b && members[a].ledger == members[b].ledger ==>
          members[a].workload != members[b].workload)
  }

  /** The cached count is the recomputed one, and from freezing on so is the digest. */
  predicate DraftOk(members: map<Id, Member>, id: Id, d: LedgerDraft) {
    && d.count == |G.MembersOf(members, id)| && d.revision == 1
    && (d.status.Draft? || d.status.Frozen? || d.status.Approved? || d.status.Published?)
    && (!d.status.Draft? ==> d.count > 0 && d.digest == G.DigestOf(members, id))
  }

  predicate DraftsOk(drafts: map<Id, LedgerDraft>, members: map<Id, Member>) {
    forall d :: d in drafts ==> DraftOk(members, d, drafts[d])
  }

  predicate ReleaseOk(drafts: map<Id, LedgerDraft>, r: Release) {
    && r.ledger in drafts && drafts[r.ledger].status.Published? && r.digest == drafts[r.ledger].digest && r.revision == 1
    && (r.status.Published? || r.status.Revoked?)
  }

  /** A release belongs to a published draft, and its items are exactly the draft's members. */
  predicate ReleasesOk(drafts: map<Id, LedgerDraft>, members: map<Id, Member>, releases: map<Id, Release>, items: set<(Id, Id)>) {
    && (forall r :: r in releases ==> ReleaseOk(drafts, releases[r]))
    && (forall i :: i in items ==> i.0 in releases && i.1 in G.MembersOf(members, releases[i.0].ledger))
    && (forall r, m :: r in releases && m in G.MembersOf(members, releases[r].ledger) ==> (r, m) in items)
  }

  /** A draft past its review was approved in the only review its ledger can have. */
  predicate ReviewsOk(drafts: map<Id, LedgerDraft>, reviews: map<(Id, int), Review>) {
    && (forall k :: k in reviews ==> k.1 == 1)
    && (forall d :: d in drafts && (drafts[d].status.Approved? || drafts[d].status.Published?) ==>
          (d, 1) in reviews && reviews[(d, 1)].approved)
  }

  predicate JobsOk(releases: map<Id, Release>, jobs: map<Id, Job>) {
    forall j :: j in jobs ==> jobs[j].release in releases && (jobs[j].status.Active() ==> releases[jobs[j].release].status.Published?)
  }

  predicate HasLease(leases: map<Id, PoolLease>, pool: Id, workload: Id) {
    exists l :: l in leases && leases[l].pool == pool && leases[l].workload == workload
  }

  /** Every workload has a lease row for its own pool. */
  predicate LeasesOk(workloads: map<Id, Workload>, leases: map<Id, PoolLease>) {
    forall w :: w in workloads ==> HasLease(leases, workloads[w].pool, w)
  }

  ghost predicate Inv(t: Tables) {
    && SegmentsOk(t.streams, t.segments)
    && StreamsOk(t.workloads, t.streams, t.segments)
    && SubmittedOk(t.workloads, t.streams)
    && BatchesOk(t.workloads, t.batches)
    && ItemsOk(t.streams, t.segments, t.batches, t.items)
    && CompleteOk(t.batches, t.items)
    && MembersOk(t.workloads, t.batches, t.drafts, t.members)
    && DraftsOk(t.drafts, t.members)
    && ReleasesOk(t.drafts, t.members, t.releases, t.releaseItems)
    && ReviewsOk(t.drafts, t.reviews)
    && JobsOk(t.releases, t.jobs)
    && LeasesOk(t.workloads, t.leases)
  }

  /** The invariant, part by part, for proofs that hide the parts. */
  lemma InvParts(t: Tables)
    ensures Inv(t) <==> (
      && SegmentsOk(t.streams, t.segments)
      && StreamsOk(t.workloads, t.streams, t.segments)
      && SubmittedOk(t.workloads, t.streams)
      && BatchesOk(t.workloads, t.batches)
      && ItemsOk(t.streams, t.segments, t.batches, t.items)
      && CompleteOk(t.batches, t.items)
      && MembersOk(t.workloads, t.batches, t.drafts, t.members)
      && DraftsOk(t.drafts, t.members)
      && ReleasesOk(t.drafts, t.members, t.releases, t.releaseItems)
      && ReviewsOk(t.drafts, t.reviews)
      && JobsOk(t.releases, t.jobs)
      && LeasesOk(t.workloads, t.leases))
  {
  }

  /** The tables that the invariant speaks of. */
  predicate SamePipeline(t: Tables, u: Tables) {
    && u.workloads == t.workloads && u.leases == t.leases && u.streams == t.streams && u.segments == t.segments
    && u.batches == t.batches && u.items == t.items && u.drafts == t.drafts && u.members == t.members
    && u.releases == t.releases && u.releaseItems == t.releaseItems && u.reviews == t.reviews && u.jobs == t.jobs
  }

  lemma InvAside(t: Tables, u: Tables)
    requires Inv(t) && SamePipeline(t, u)
    ensures Inv(u)
  {
    hide SegmentsOk, StreamsOk, SubmittedOk, BatchesOk, ItemsOk, CompleteOk, MembersOk, DraftsOk, ReleasesOk, ReviewsOk, JobsOk, LeasesOk;
  }
}
