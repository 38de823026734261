/** What an error answer says: malformed, missing, foreign, reused under another meaning, or not held. */
module Refusals {
  import opened Basics
  import opened Domain
  import opened System
  import opened Timestamps
  import W = Workloads
  import C = Capacity
  import M = Metering
  import G = Ledger
  import J = Scheduler
  import O = Outbox
  import K = Credit
  import L = Leases
  import F = Frames
  import A = AppendProofs
  import CI = CapacityInvariants
  import LS = LedgerStability
  import Reachability
  import WH = WorkloadHistory
  import UH = UsageHistory
  import PH = PoolHistory
  import MH = MeterHistory
  import QH = QueueHistory

  // ---- Which rows a call needs ----

  /** The row that the call is about is there; a claim is about the first due row. */
  ghost predicate Found(t: Tables, c: Command) {
    match c
    case OnWorkload(call) => WorkloadFound(t, call)
    case OnCapacity(call) => CapacityFound(t, call)
    case OnMeter(call) => if call.CreateBatch? then call.workload in t.workloads else call.batch in t.batches
    case OnLedger(call) =>
      if call.CreateDraft? then true else if call.Revoke? then call.release in t.releases else call.ledger in t.drafts
    case OnJob(op) => JobFound(t, op)
    case OnEvent(op) => EventFound(t, op)
    case OnCredit(op) => op.OpenOp? || op.account in t.accounts
    case _ => true
  }

  predicate WorkloadFound(t: Tables, c: WorkloadCall) {
    match c
    case Plan(_, _, _, _) => true
    case ReservePool(pools, _, pool, _, _, _) => pool in pools
    case RenewPool(leases, _, pool, _, _, _, _) => !PH.Free(leases, pool)
    case ReleasePool(leases, _, pool, _, _, _, _) => !PH.Free(leases, pool)
    case _ => c.id in t.workloads
  }

  predicate CapacityFound(t: Tables, c: CapacityCall) {
    match c
    case OpenStream(_, workload, _, _, _) => workload in t.workloads
    case Align(_, workload, _, _) => workload in t.workloads
    case _ => c.stream in t.streams && t.streams[c.stream].workload in t.workloads
  }

  ghost predicate JobFound(t: Tables, op: J.JobOp) {
    match op
    case Enqueue(_, release, _, _) => release in t.releases
    case Claim(_, _, now) => exists j :: j in t.jobs && J.DueRow(TextBefore, t.jobs[j], now)
    case Recover(_) => true
    case _ => op.id in t.jobs
  }

  ghost predicate EventFound(t: Tables, op: O.EventOp) {
    match op
    case Enqueue(_, _, _) => true
    case Claim(_, _, now) => exists e :: e in t.events && O.DueRow(TextBefore, t.events[e], now)
    case Recover(_) => true
    case _ => op.id in t.events
  }

  /** So are the rows that it refers to besides. */
  predicate Listed(t: Tables, c: Command) {
    && (c.OnWorkload? && c.workload.Plan? ==>
          c.workload.input.provider in t.providers && c.workload.input.pool in t.pools && c.workload.input.offer in t.offers)
    && (c.OnMeter? && c.meter.RecordItem? ==> c.meter.item in t.items && t.items[c.meter.item].batch == c.meter.batch)
    && (c.OnLedger? && c.ledger.AddWorkloads? ==>
          forall k :: 0 <= k < |c.ledger.workloads| ==> c.ledger.workloads[k] in t.workloads)
    && (c.OnLedger? && c.ledger.Freeze? ==>
          forall m :: m in t.members && t.members[m].ledger == c.ledger.ledger ==> t.members[m].workload in t.workloads)
  }

  /** The answer fits the rows: not found only without them, and nothing later than that without the main one. */
  ghost predicate Finds(t: Tables, c: Command, r: Result<Tables>) {
    && (r == Err(NotFound) ==> !Found(t, c) || !Listed(t, c))
    && (!Found(t, c) ==> r == Err(NotFound) || r == Err(Validation))
    && (r == Err(Forbidden) ==> c.OnWorkload? || c.OnCapacity?)
    && (r == Err(IdempotencyConflict) ==> c.OnWorkload? || c.OnCapacity?)
    && (r == Err(LeaseLost) ==> c.OnWorkload? || c.OnMeter? || c.OnJob? || c.OnEvent?)
  }

  lemma LiveUnlessFree(leases: map<Id, PoolLease>, pool: Id)
    ensures W.LiveLease(leases, pool).None? <==> PH.Free(leases, pool)
  {
    assert forall l :: l in W.LiveLeases(leases, pool) <==> l in leases && leases[l].pool == pool && PH.Live(leases[l]);
  }

  lemma WorkloadFinds(cfg: Config, t: Tables, c: WorkloadCall)
    ensures Finds(t, OnWorkload(c), WorkloadStep(cfg, t, c))
  {
    hide W.ValidPlan, W.Fingerprint, W.LeaseCollides, W.LiveLease, W.Names, PH.Free, TextBefore;
    if c.RenewPool? || c.ReleasePool? { LiveUnlessFree(c.leases, c.pool); }
  }

  lemma CapacityFinds(t: Tables, c: CapacityCall)
    ensures Finds(t, OnCapacity(c), CapacityStep(t, c))
  {
    hide C.ValidInputs, C.Alignable, C.SegmentRows, C.Adjacent, W.StreamsOf, C.AppendFrom;
    if c.Append? { AppendAnswers(t.segments, c.stream, c.inputs, c.ids, 0, c.now); }
  }

  /** Inserting segments fails over a key that has another meaning, or over a key of the schema. */
  lemma {:induction false} AppendAnswers(
    segments: map<Id, Segment>, stream: Id, inputs: seq<C.SegmentInput>, ids: nat -> Id, k: nat, now: Instant)
    requires k <= |inputs|
    ensures var r := C.AppendFrom(segments, stream, inputs, ids, k, now);
      r.Err? ==> r.error.IdempotencyConflict? || r.error.Storage?
    decreases |inputs| - k
  {
    hide C.KeyOwners, C.SequenceTaken, C.SameSegment;
    if k < |inputs| {
      var one := C.AppendOne(segments, stream, inputs[k], ids(k), now);
      if one.Ok? { AppendAnswers(one.value, stream, inputs, ids, k + 1, now); }
    }
  }

  lemma {:induction false} InsertAnswers(
    items: map<Id, MeterItem>, batch: Id, segments: seq<Id>, ids: nat -> Id, k: nat, now: Instant)
    requires k <= |segments|
    ensures var r := M.InsertFrom(items, batch, segments, ids, k, now); r.Err? ==> r.error.Storage?
    decreases |segments| - k
  {
    hide M.ItemsOf;
    if k < |segments| { InsertAnswers(items[ids(k) := M.NewItem(batch, segments[k], now)], batch, segments, ids, k + 1, now); }
  }

  lemma MeterFinds(cfg: Config, t: Tables, c: MeterCall)
    ensures Finds(t, OnMeter(c), MeterStep(cfg, t, c))
  {
    hide M.SegmentIds, C.ListStreams, M.InsertFrom, Blank, Trim, TextBefore;
    if c.CreateBatch? { InsertAnswers(t.items, c.batch, M.SegmentIds(t.segments, C.ListStreams(t.streams, c.workload)), c.ids, 0, c.now); }
  }

  lemma {:induction false} EligibleAnswers(t: Tables, workloads: seq<Id>)
    ensures var r := G.AllEligible(t, workloads);
      r.Err? ==> r.error.Precondition? || (r.error.NotFound? && exists k :: 0 <= k < |workloads| && workloads[k] !in t.workloads)
  {
    hide Blank;
    if workloads != [] {
      EligibleAnswers(t, workloads[1..]);
      assert forall k :: 0 <= k < |workloads| - 1 ==> workloads[1..][k] == workloads[k + 1];
    }
  }

  lemma {:induction false} AddAnswers(
    members: map<Id, Member>, ledger: Id, revision: nat, workloads: seq<Id>, ids: nat -> Id, k: nat, now: Instant)
    requires k <= |workloads|
    ensures var r := G.AddFrom(members, ledger, revision, workloads, ids, k, now); r.Err? ==> r.error.Storage?
    decreases |workloads| - k
  {
    hide G.MembersOf;
    if k < |workloads| {
      AddAnswers(members[ids(k) := Member(ledger, workloads[k], revision, now)], ledger, revision, workloads, ids, k + 1, now);
    }
  }

  lemma AddFinds(t: Tables, c: LedgerCall)
    requires c.AddWorkloads?
    ensures Finds(t, OnLedger(c), LedgerStep(t, c))
  {
    hide G.AllEligible, G.AddFrom, G.ValidRequest, G.MembersOf;
    EligibleAnswers(t, c.workloads);
    if c.ledger in t.drafts { AddAnswers(t.members, c.ledger, t.drafts[c.ledger].revision, c.workloads, c.ids, 0, c.now); }
  }

  lemma FreezeFinds(t: Tables, c: LedgerCall)
    requires c.Freeze?
    ensures Finds(t, OnLedger(c), LedgerStep(t, c))
  {
    hide G.AllEligible, G.ListMembers, G.Workloads, G.DigestOf;
    MembersListed(t, c.ledger);
  }

  lemma MembersListed(t: Tables, ledger: Id)
    ensures var r := G.AllEligible(t, G.Workloads(t.members, G.ListMembers(t.members, ledger)));
      r.Err? ==> r.error.Precondition?
                 || (r.error.NotFound? && exists m :: m in t.members && t.members[m].ledger == ledger && t.members[m].workload !in t.workloads)
  {
    hide G.AllEligible;
    var ids := G.ListMembers(t.members, ledger);
    EligibleAnswers(t, G.Workloads(t.members, ids));
    assert forall k :: 0 <= k < |ids| ==> ids[k] in ids;
  }

  lemma LedgerFinds(t: Tables, c: LedgerCall)
    ensures Finds(t, OnLedger(c), LedgerStep(t, c))
  {
    if c.AddWorkloads? {
      AddFinds(t, c);
    } else if c.Freeze? {
      FreezeFinds(t, c);
    } else {
      hide G.ListMembers, G.DigestOf, G.MembersOf, G.ActiveJobs, Blank, Trim;
    }
  }

  lemma JobFinds(cfg: L.Timing, t: Tables, op: J.JobOp)
    ensures Finds(t, OnJob(op), J.JobStep(cfg.OnText(), t, op))
  {
    hide L.Before, L.Backoff, L.Next, J.FirstDue, Blank, Trim, TextBefore;
    if op.Claim? {
      TextBeforeWeak();
      JobsDue(t.jobs, op.now);
    }
  }

  lemma JobsDue(jobs: map<Id, Job>, now: Instant)
    ensures L.Next(TextBefore, J.Items(jobs), now).Some? <==> exists j :: j in jobs && J.DueRow(TextBefore, jobs[j], now)
  {
    hide TextBefore, L.Before, L.Next;
    TextBeforeWeak();
    var t := J.Items(jobs);
    L.NextIsLeastDue(TextBefore, t, now);
    assert forall j :: j in jobs ==> (t[j].Due(TextBefore, now) <==> J.DueRow(TextBefore, jobs[j], now));
  }

  lemma EventsDue(events: map<Id, Event>, now: Instant)
    ensures L.Next(TextBefore, O.Items(events), now).Some? <==> exists e :: e in events && O.DueRow(TextBefore, events[e], now)
  {
    hide TextBefore, L.Before, L.Next;
    TextBeforeWeak();
    var t := O.Items(events);
    L.NextIsLeastDue(TextBefore, t, now);
    assert forall e :: e in events ==> (t[e].Due(TextBefore, now) <==> O.DueRow(TextBefore, events[e], now));
  }

  lemma EventFinds(cfg: L.Timing, t: Tables, op: O.EventOp)
    ensures Finds(t, OnEvent(op), O.EventStep(cfg.OnText(), t, op))
  {
    hide L.Before, L.Backoff, L.Next, Blank, Trim, TextBefore;
    if op.Claim? { EventsDue(t.events, op.now); }
  }

  lemma CreditFinds(t: Tables, op: K.CreditOp)
    ensures Finds(t, OnCredit(op), K.CreditStep(t, op))
  {
    hide Blank, Trim, K.Upper, K.FindEntry, K.EntryIdTaken;
  }

  lemma CallFinds(cfg: Config, t: Tables, c: Command)
    ensures Finds(t, c, Exec(cfg, t, c))
  {
    hide WorkloadStep, CapacityStep, MeterStep, LedgerStep, J.JobStep, O.EventStep, K.CreditStep, Found, Listed;
    match c
    case OnWorkload(call) => WorkloadFinds(cfg, t, call);
    case OnCapacity(call) => CapacityFinds(t, call);
    case OnMeter(call) => MeterFinds(cfg, t, call);
    case OnLedger(call) => LedgerFinds(t, call);
    case OnJob(op) => JobFinds(cfg.jobs, t, op);
    case OnEvent(op) => EventFinds(cfg.events, t, op);
    case OnCredit(op) => CreditFinds(t, op);
    case _ => AlwaysFound(t, c);
  }

  /** "Not found" answers that a row is missing that the call needs, and the row that it is about comes first. */
  lemma NotFoundMeansMissing(cfg: Config, t: Tables, c: Command)
    ensures Exec(cfg, t, c) == Err(NotFound) ==> !Found(t, c) || !Listed(t, c)
    ensures !Found(t, c) ==> Exec(cfg, t, c) == Err(NotFound) || Exec(cfg, t, c) == Err(Validation)
  {
    hide Exec, Found, Listed;
    CallFinds(cfg, t, c);
  }

  lemma AlwaysFound(t: Tables, c: Command)
    requires c.Catalog? || c.RecoverExpired?
    ensures Found(t, c)
  {
  }

  // ---- Malformed calls ----

  lemma WorkloadFormIsFixed(cfg: Config, t: Tables, u: Tables, c: WorkloadCall)
    requires WorkloadStep(cfg, t, c) == Err(Validation)
    ensures WorkloadStep(cfg, u, c) == Err(Validation)
  {
    hide W.ValidPlan, W.Fingerprint, W.LeaseCollides, W.LiveLease, W.Names, TextBefore;
  }

  lemma CapacityFormIsFixed(t: Tables, u: Tables, c: CapacityCall)
    requires CapacityStep(t, c) == Err(Validation)
    ensures CapacityStep(u, c) == Err(Validation)
  {
    hide C.ValidInputs, C.Alignable, C.SegmentRows, C.Adjacent, W.StreamsOf, C.AppendFrom;
    if c.Append? { AppendAnswers(t.segments, c.stream, c.inputs, c.ids, 0, c.now); }
  }

  lemma MeterFormIsFixed(cfg: Config, t: Tables, u: Tables, c: MeterCall)
    requires MeterStep(cfg, t, c) == Err(Validation)
    ensures MeterStep(cfg, u, c) == Err(Validation)
  {
    hide M.SegmentIds, C.ListStreams, M.InsertFrom, Blank, Trim, TextBefore;
    if c.CreateBatch? { InsertAnswers(t.items, c.batch, M.SegmentIds(t.segments, C.ListStreams(t.streams, c.workload)), c.ids, 0, c.now); }
  }

  lemma LedgerFormIsFixed(t: Tables, u: Tables, c: LedgerCall)
    requires LedgerStep(t, c) == Err(Validation)
    ensures LedgerStep(u, c) == Err(Validation)
  {
    hide G.AllEligible, G.AddFrom, G.ValidRequest, G.ListMembers, G.Workloads, G.DigestOf, G.MembersOf, G.ActiveJobs, Blank, Trim;
    if c.AddWorkloads? {
      EligibleAnswers(t, c.workloads);
      if c.ledger in t.drafts { AddAnswers(t.members, c.ledger, t.drafts[c.ledger].revision, c.workloads, c.ids, 0, c.now); }
    } else if c.Freeze? {
      MembersListed(t, c.ledger);
    }
  }

  lemma JobFormIsFixed(cfg: L.Timing, t: Tables, u: Tables, op: J.JobOp)
    requires J.JobStep(cfg.OnText(), t, op) == Err(Validation)
    ensures J.JobStep(cfg.OnText(), u, op) == Err(Validation)
  {
    hide L.Before, L.Backoff, L.Next, Blank, Trim, TextBefore;
  }

  lemma EventFormIsFixed(cfg: L.Timing, t: Tables, u: Tables, op: O.EventOp)
    requires O.EventStep(cfg.OnText(), t, op) == Err(Validation)
    ensures O.EventStep(cfg.OnText(), u, op) == Err(Validation)
  {
    hide L.Before, L.Backoff, L.Next, Blank, Trim, TextBefore;
  }

  lemma CreditFormIsFixed(t: Tables, u: Tables, op: K.CreditOp)
    requires K.CreditStep(t, op) == Err(Validation)
    ensures K.CreditStep(u, op) == Err(Validation)
  {
    hide Blank, Trim, K.Upper, K.FindEntry, K.EntryIdTaken;
  }

  /** The verdict "malformed" is about the call alone: what is malformed in one state is in every other. */
  lemma MalformedEverywhere(cfg: Config, t: Tables, u: Tables, c: Command)
    requires Exec(cfg, t, c) == Err(Validation)
    ensures Exec(cfg, u, c) == Err(Validation)
  {
    hide WorkloadStep, CapacityStep, MeterStep, LedgerStep, J.JobStep, O.EventStep, K.CreditStep;
    match c
    case OnWorkload(call) => WorkloadFormIsFixed(cfg, t, u, call);
    case OnCapacity(call) => CapacityFormIsFixed(t, u, call);
    case OnMeter(call) => MeterFormIsFixed(cfg, t, u, call);
    case OnLedger(call) => LedgerFormIsFixed(t, u, call);
    case OnJob(op) => if !op.Recover? { JobFormIsFixed(cfg.jobs, t, u, op); }
    case OnEvent(op) => if !op.Recover? { EventFormIsFixed(cfg.events, t, u, op); }
    case OnCredit(op) => CreditFormIsFixed(t, u, op);
    case _ =>
  }

  // ---- Calls on what belongs to another operator ----

  predicate Owned(t: Tables, w: Id, user: Id) { w in t.workloads && t.workloads[w].operator == user }

  /** The call is well formed and comes at the right time, but for a workload of another operator. */
  predicate Foreign(t: Tables, c: Command) {
    match c
    case OnWorkload(call) => ForeignWorkload(t, call)
    case OnCapacity(call) => ForeignCapacity(t, call)
    case _ => false
  }

  predicate ForeignWorkload(t: Tables, c: WorkloadCall) {
    (c.Change? || c.Submit? || c.Cancel? || c.Reopen?) && c.id in t.workloads && !Owned(t, c.id, c.p.user)
    && (c.Change? ==> c.p.operator && c.id != "" && WH.StartsFrom(c.call, t.workloads[c.id].status))
    && (c.Cancel? ==> c.p.operator
                      && (t.workloads[c.id].status.Planned? || t.workloads[c.id].status.Ready? || t.workloads[c.id].status.Executing?))
  }

  predicate ForeignCapacity(t: Tables, c: CapacityCall) {
    match c
    case OpenStream(p, workload, _, _, _) => workload != "" && workload in t.workloads && !Owned(t, workload, p.user)
    case Append(p, stream, inputs, _, _) =>
      stream != "" && UH.ValidBatch(inputs) && stream in t.streams && t.streams[stream].workload in t.workloads
      && !Owned(t, t.streams[stream].workload, p.user)
    case Seal(_, _, _) => false
    case Align(p, workload, tolerance, _) =>
      p.operator && 0 <= tolerance <= 5_000_000_000 && workload in t.workloads && t.workloads[workload].status.Executing?
      && !Owned(t, workload, p.user)
  }

  lemma WorkloadForbidsIff(cfg: Config, t: Tables, c: WorkloadCall)
    ensures WorkloadStep(cfg, t, c) == Err(Forbidden) <==> ForeignWorkload(t, c)
  {
    hide W.ValidPlan, W.Fingerprint, W.LeaseCollides, W.LiveLease, W.Names, W.StreamsOf, TextBefore;
  }

  lemma CapacityForbidsIff(t: Tables, c: CapacityCall)
    ensures CapacityStep(t, c) == Err(Forbidden) <==> ForeignCapacity(t, c)
  {
    hide C.ValidInputs, UH.ValidBatch, C.Alignable, C.SegmentRows, C.Adjacent, W.StreamsOf, C.AppendFrom;
    if c.Append? {
      UH.BatchIsValid(c.inputs);
      AppendAnswers(t.segments, c.stream, c.inputs, c.ids, 0, c.now);
    }
  }

  /** A call answers "forbidden" exactly when it is a well formed one on a workload of another operator. */
  lemma ForbiddenMeansForeign(cfg: Config, t: Tables, c: Command)
    ensures Exec(cfg, t, c) == Err(Forbidden) <==> Foreign(t, c)
  {
    hide Exec, WorkloadStep, CapacityStep, Found, Listed, ForeignWorkload, ForeignCapacity;
    CallFinds(cfg, t, c);
    F.ExecGroups(cfg, t, c);
    match c
    case OnWorkload(call) => WorkloadForbidsIff(cfg, t, call);
    case OnCapacity(call) => CapacityForbidsIff(t, call);
    case _ =>
  }

  /** Operators are for good: what is forbidden once never commits, whatever happens in between. */
  lemma ForbiddenForever(cfg: Config, t: Tables, cs: seq<Command>, c: Command)
    requires Reachable(cfg, t) && Exec(cfg, t, c) == Err(Forbidden)
    ensures Exec(cfg, Run(cfg, t, cs), c).Err?
  {
    hide Reachable, Inv, Exec, Run, Foreign, LS.FailedKept, A.UsageKept;
    ForbiddenMeansForeign(cfg, t, c);
    Reachability.ReachableInv(cfg, t);
    LS.OperatorsKept(cfg, t, cs);
    A.RunKeepsUsage(cfg, t, cs);
    F.ExecGroups(cfg, t, c);
    F.ExecGroups(cfg, Run(cfg, t, cs), c);
    ForeignStays(cfg, t, Run(cfg, t, cs), c);
  }

  lemma ForeignStays(cfg: Config, t: Tables, v: Tables, c: Command)
    requires Foreign(t, c) && LS.FailedKept(t.workloads, v.workloads)
    requires A.UsageKept(t.streams, t.segments, v.streams, v.segments)
    ensures c.OnWorkload? || c.OnCapacity?
    ensures c.OnWorkload? ==> WorkloadStep(cfg, v, c.workload).Err?
    ensures c.OnCapacity? ==> CapacityStep(v, c.capacity).Err?
  {
    hide W.LeaseCollides, W.LiveLease, W.StreamsOf, UH.ValidBatch, C.ValidInputs, C.Alignable, C.AppendFrom, TextBefore;
  }

  // ---- Keys used again for something else ----

  /** A key of the batch has a stored record of the stream that is not the one the batch brings. */
  predicate Reused(t: Tables, c: CapacityCall)
    requires c.Append?
  {
    exists u, v :: u in A.Stored(t.segments, c.stream) && v in A.Usages(c.inputs) && u.key == v.key && u != v
  }

  lemma {:induction false} ReuseFound(
    segments: map<Id, Segment>, stream: Id, inputs: seq<C.SegmentInput>, ids: nat -> Id, k: nat, now: Instant)
    returns (u: A.Usage, l: nat)
    requires k <= |inputs| && C.AppendFrom(segments, stream, inputs, ids, k, now) == Err(IdempotencyConflict)
    requires forall i, j :: 0 <= i < j < |inputs| ==> inputs[i].key != inputs[j].key
    ensures k <= l < |inputs| && u in A.Stored(segments, stream) && u.key == inputs[l].key && u != A.UsageIn(inputs[l])
    decreases |inputs| - k
  {
    hide C.Lower, C.SequenceTaken;
    var i := inputs[k];
    var owners := C.KeyOwners(segments, stream, i.key);
    if owners != {} {
      var s := A.ListedFirst(owners);
      if !C.SameSegment(segments[s], i) {
        u, l := A.UsageOf(segments[s]), k;
        assert s in C.SegmentsOf(segments, stream);
      } else {
        u, l := ReuseFound(segments, stream, inputs, ids, k + 1, now);
      }
    } else {
      A.StoredInsert(segments, stream, i, ids(k), now);
      u, l := ReuseFound(segments[ids(k) := C.SegmentFor(stream, i, now)], stream, inputs, ids, k + 1, now);
    }
  }

  /** An append answers "reused" only over such a key, and then it never commits, whatever happens in between. */
  lemma ReusedForever(cfg: Config, t: Tables, cs: seq<Command>, c: CapacityCall)
    requires Reachable(cfg, t) && c.Append? && CapacityStep(t, c) == Err(IdempotencyConflict)
    ensures Reused(t, c) && CapacityStep(Run(cfg, t, cs), c).Err?
  {
    hide Reachable, Inv, Run, CapacityStep, A.Stored, A.Usages, A.UsageKept;
    ConflictIsReuse(t, c);
    var u, v :| u in A.Stored(t.segments, c.stream) && v in A.Usages(c.inputs) && u.key == v.key && u != v;
    Reachability.ReachableInv(cfg, t);
    Reachability.RunInv(cfg, t, cs);
    A.RunKeepsUsage(cfg, t, cs);
    A.StoredLasts(t, Run(cfg, t, cs), c.stream);
    assert Reused(Run(cfg, t, cs), c);
    ReusedFails(Run(cfg, t, cs), c);
  }

  lemma ConflictIsReuse(t: Tables, c: CapacityCall)
    requires c.Append? && CapacityStep(t, c) == Err(IdempotencyConflict)
    ensures Reused(t, c)
  {
    hide C.AppendFrom, C.ValidInput, A.Stored, A.UsageIn;
    var u, l := ReuseFound(t.segments, c.stream, c.inputs, c.ids, 0, c.now);
    assert A.UsageIn(c.inputs[l]) in A.Usages(c.inputs);
    assert A.UsageIn(c.inputs[l]).key == c.inputs[l].key by { UsageKey(c.inputs[l]); }
  }

  lemma UsageKey(i: C.SegmentInput)
    ensures A.UsageIn(i).key == i.key
  {
  }

  lemma ReusedFails(t: Tables, c: CapacityCall)
    requires Inv(t) && c.Append? && Reused(t, c)
    ensures CapacityStep(t, c).Err?
  {
    hide Inv, CapacityStep, A.Stored, A.Usages, A.Loop, A.Admitted;
    if CapacityStep(t, c).Ok? {
      CI.InvSegments(t);
      A.AppendCommitsIff(t, c);
      A.AppendAdds(t, c);
    }
  }

  /** Only plans and appends answer "reused", and a plan does while the record of its key is of another request. */
  lemma PlanReusedIff(cfg: Config, t: Tables, c: WorkloadCall)
    ensures WorkloadStep(cfg, t, c) == Err(IdempotencyConflict) <==>
      && c.Plan? && W.ValidPlan(c.input) && c.input.key in t.records && c.now < t.records[c.input.key].expires
      && t.records[c.input.key].fingerprint != W.Fingerprint(c.input)
  {
    hide W.ValidPlan, W.Fingerprint, W.LeaseCollides, W.LiveLease, W.Names, W.StreamsOf, TextBefore;
  }

  // ---- Leases that are not held ----

  /** A call that names a lease comes from its holder and, where it matters, in time. */
  predicate Holding(t: Tables, c: Command) {
    match c
    case OnWorkload(call) => HoldsPool(t, call)
    case OnMeter(call) => HoldsBatch(t, call)
    case OnJob(op) => HoldsJob(t, op)
    case OnEvent(op) => HoldsEvent(t, op)
    case _ => true
  }

  predicate HoldsPool(t: Tables, c: WorkloadCall) {
    match c
    case RenewPool(leases, user, pool, lease, token, version, now) =>
      && PH.Holds(leases, user, pool, lease, token, version) && PH.Holds(t.leases, user, pool, lease, token, version)
      && TextBefore(now, t.leases[lease].expires)
    case ReleasePool(leases, user, pool, lease, token, version, _) =>
      PH.Holds(leases, user, pool, lease, token, version) && PH.Holds(t.leases, user, pool, lease, token, version)
    case _ => true
  }

  predicate HoldsBatch(t: Tables, c: MeterCall) {
    match c
    case RenewBatch(user, batch, token, version, now) =>
      MH.Holder(TextBefore, t, user, batch, token, now) && t.batches[batch].version == version
    case RecordItem(user, batch, token, _, _, _, _, _, now) => MH.Holder(Earlier, t, user, batch, token, now)
    case SubmitBatch(user, batch, token, now) =>
      MH.Holder(Earlier, t, user, batch, token, now) && MH.Holder(TextBefore, t, user, batch, token, now)
    case _ => true
  }

  predicate HoldsJob(t: Tables, op: J.JobOp) {
    match op
    case Renew(id, worker, token, version, now) => QH.RunsAt(t.jobs, id, worker, token, version, now)
    case Checkpoint(id, worker, token, _, version, now) => QH.RunsAt(t.jobs, id, worker, token, version, now)
    case Complete(id, worker, token, _, version, now) => QH.RunsAt(t.jobs, id, worker, token, version, now)
    case Fail(id, worker, token, _, version, _, _) => QH.Runs(t.jobs, id, worker, token, version)
    case _ => true
  }

  predicate HoldsEvent(t: Tables, op: O.EventOp) {
    match op
    case Renew(id, worker, token, version, now) => QH.DeliversAt(t.events, id, worker, token, version, now)
    case Acknowledge(id, worker, token, version, now) => QH.DeliversAt(t.events, id, worker, token, version, now)
    case Fail(id, worker, token, _, version, _, _) => QH.Delivers(t.events, id, worker, token, version)
    case _ => true
  }

  /** The leases that a pool call read, and those it finds, are those of a database with its keys. */
  predicate Snapshot(t: Tables, c: WorkloadCall) {
    c.RenewPool? || c.ReleasePool? ==>
      PH.PoolKeys(c.leases) && (c.lease in c.leases && c.lease in t.leases ==> c.leases[c.lease].pool == t.leases[c.lease].pool)
  }

  lemma PoolLost(cfg: Config, t: Tables, c: WorkloadCall)
    requires Snapshot(t, c)
    ensures WorkloadStep(cfg, t, c) == Err(LeaseLost) ==> !HoldsPool(t, c)
  {
    if c.RenewPool? || c.ReleasePool? {
      hide W.RenewPool, W.ReleasePool, PH.PoolKeys, PH.Holds, TextBefore;
      PH.HolderCommitsIff(c.leases, t, cfg.poolTtl, c.user, c.pool, c.lease, c.token, c.version, c.now);
    } else {
      hide W.ValidPlan, W.Fingerprint, W.LeaseCollides, W.LiveLease, W.StreamsOf, TextBefore;
    }
  }

  lemma BatchLost(cfg: Config, t: Tables, c: MeterCall)
    ensures MeterStep(cfg, t, c) == Err(LeaseLost) ==> !HoldsBatch(t, c)
  {
    hide M.SegmentIds, C.ListStreams, M.InsertFrom, M.ItemsOf, Blank, Trim, TextBefore;
    if c.CreateBatch? { InsertAnswers(t.items, c.batch, M.SegmentIds(t.segments, C.ListStreams(t.streams, c.workload)), c.ids, 0, c.now); }
  }

  lemma JobLost(cfg: L.Timing, t: Tables, op: J.JobOp)
    ensures J.JobStep(cfg.OnText(), t, op) == Err(LeaseLost) ==> !HoldsJob(t, op)
  {
    hide L.Before, L.Backoff, L.Next, Blank, Trim, TextBefore;
  }

  lemma EventLost(cfg: L.Timing, t: Tables, op: O.EventOp)
    ensures O.EventStep(cfg.OnText(), t, op) == Err(LeaseLost) ==> !HoldsEvent(t, op)
  {
    hide L.Before, L.Backoff, L.Next, Blank, Trim, TextBefore;
  }

  /** "Lease lost" answers only a call that does not come from the holder of the lease that it names, or comes too late. */
  lemma LostMeansUnheld(cfg: Config, t: Tables, c: Command)
    requires c.OnWorkload? ==> Snapshot(t, c.workload)
    ensures Exec(cfg, t, c) == Err(LeaseLost) ==> !Holding(t, c)
  {
    hide WorkloadStep, CapacityStep, MeterStep, LedgerStep, J.JobStep, O.EventStep, K.CreditStep, Snapshot, Found, Listed,
      HoldsPool, HoldsBatch, HoldsJob, HoldsEvent;
    CallFinds(cfg, t, c);
    match c
    case OnWorkload(call) => PoolLost(cfg, t, call);
    case OnMeter(call) => BatchLost(cfg, t, call);
    case OnJob(op) => if !op.Recover? { JobLost(cfg.jobs, t, op); }
    case OnEvent(op) => if !op.Recover? { EventLost(cfg.events, t, op); }
    case _ =>
  }
}
