/** Creation times, update times and versions: every write of a row is dated by its call and raises the version by one. */
module Bookkeeping {
  import opened Basics
  import opened Domain
  import opened System
  import opened Timestamps
  import opened History
  import W = Workloads
  import C = Capacity
  import M = Metering
  import G = Ledger
  import J = Scheduler
  import O = Outbox
  import K = Credit
  import R = Recovery
  import L = Leases
  import F = Frames
  import A = AppendProofs
  import CI = CapacityInvariants
  import WI = WorkloadInvariants
  import WH = WorkloadHistory
  import PH = PoolHistory

  /** The bookkeeping columns of a row. */
  datatype Book = Book(created: Instant, updated: Instant, version: int)

  function OfWorkload(x: Workload): Book { Book(x.created, x.updated, x.version) }
  function OfLease(x: PoolLease): Book { Book(x.created, x.updated, x.version) }
  function OfStream(x: Stream): Book { Book(x.created, x.updated, x.version) }
  function OfBatch(x: Batch): Book { Book(x.created, x.updated, x.version) }
  function OfItem(x: MeterItem): Book { Book(x.created, x.updated, x.version) }
  function OfDraft(x: LedgerDraft): Book { Book(x.created, x.updated, x.version) }
  function OfRelease(x: Release): Book { Book(x.created, x.updated, x.version) }
  function OfJob(x: Job): Book { Book(x.created, x.updated, x.version) }
  function OfEvent(x: Event): Book { Book(x.created, x.updated, x.version) }
  function OfAccount(x: Account): Book { Book(x.created, x.updated, x.version) }

  /** No row is deleted, a changed one is dated `now` and one version further, and a new one begins at version one. */
  ghost predicate Booked<R>(before: map<Id, R>, after: map<Id, R>, now: Instant, book: R -> Book) {
    && (forall id :: id in before ==> id in after && (after[id] == before[id] || Next(book(before[id]), book(after[id]), now)))
    && (forall id :: id in after && id !in before ==> book(after[id]) == Book(now, now, 1))
  }

  /** Rows without an update: none is changed or deleted, and a new one is dated `now`. */
  ghost predicate Dated<R>(before: map<Id, R>, after: map<Id, R>, now: Instant, created: R -> Instant) {
    && (forall id :: id in before ==> id in after && after[id] == before[id])
    && (forall id :: id in after && id !in before ==> created(after[id]) == now)
  }

  function DateOfSegment(x: Segment): Instant { x.created }
  function DateOfMember(x: Member): Instant { x.created }

  lemma SameDated<R>(rows: map<Id, R>, now: Instant, created: R -> Instant)
    ensures Dated(rows, rows, now, created)
  {
  }

  predicate Next(a: Book, b: Book, now: Instant) { b == Book(a.created, now, a.version + 1) }

  lemma SameBooked<R>(rows: map<Id, R>, now: Instant, book: R -> Book)
    ensures Booked(rows, rows, now, book)
  {
  }

  lemma OneBooked<R>(rows: map<Id, R>, id: Id, row: R, now: Instant, book: R -> Book)
    requires if id in rows then row == rows[id] || Next(book(rows[id]), book(row), now) else book(row) == Book(now, now, 1)
    ensures Booked(rows, rows[id := row], now, book)
  {
  }

  /** The clock reading of a call; changes of the catalog have none. */
  function ClockOf(c: Command): Instant {
    match c
    case Catalog(_, _, _) => 0
    case OnWorkload(call) => call.now
    case OnCapacity(call) => call.now
    case OnMeter(call) => call.now
    case OnLedger(call) => call.now
    case OnJob(op) => op.now
    case OnEvent(op) => op.now
    case OnCredit(op) => op.now
    case RecoverExpired(now) => now
  }

  /** The ten tables whose rows have these columns, and the two whose rows are only ever inserted. */
  ghost predicate AllBooked(t: Tables, u: Tables, now: Instant) {
    && Booked(t.workloads, u.workloads, now, OfWorkload) && Booked(t.leases, u.leases, now, OfLease)
    && Booked(t.streams, u.streams, now, OfStream)
    && Booked(t.batches, u.batches, now, OfBatch) && Booked(t.items, u.items, now, OfItem)
    && Booked(t.drafts, u.drafts, now, OfDraft) && Booked(t.releases, u.releases, now, OfRelease)
    && Booked(t.jobs, u.jobs, now, OfJob) && Booked(t.events, u.events, now, OfEvent)
    && Booked(t.accounts, u.accounts, now, OfAccount)
    && Dated(t.segments, u.segments, now, DateOfSegment) && Dated(t.members, u.members, now, DateOfMember)
  }

  // ---- Workloads and leases ----

  ghost predicate SessionBooked(t: Tables, u: Tables, now: Instant) {
    Booked(t.workloads, u.workloads, now, OfWorkload) && Booked(t.leases, u.leases, now, OfLease)
  }

  lemma PlanBooked(cfg: Config, t: Tables, c: WorkloadCall)
    requires c.Plan? && WorkloadStep(cfg, t, c).Ok?
    ensures SessionBooked(t, WorkloadStep(cfg, t, c).value, c.now)
  {
    hide WorkloadStep, Booked, WH.Makes, W.LeaseCollides;
    WH.PlanStores(cfg, t, c);
    PH.PlanStores(cfg, t, c);
    SameBooked(t.workloads, c.now, OfWorkload);
    SameBooked(t.leases, c.now, OfLease);
    var made := W.Created(cfg.poolTtl, c.user, c.input, c.draw, c.now);
    if WH.Makes(t.records, c, c.draw.workload) {
      PlanNewIds(cfg, t, c);
      OneBooked(t.workloads, c.draw.workload, made.workload, c.now, OfWorkload);
      OneBooked(t.leases, c.draw.lease, made.lease, c.now, OfLease);
    }
    MakesNow(t, c);
  }

  lemma MakesNow(t: Tables, c: WorkloadCall)
    requires c.Plan?
    ensures WH.Makes(t.records, c, c.draw.workload) <==> !(c.input.key in t.records && c.now < t.records[c.input.key].expires)
  {
  }

  lemma PlanNewIds(cfg: Config, t: Tables, c: WorkloadCall)
    requires c.Plan? && WorkloadStep(cfg, t, c).Ok? && WH.Makes(t.records, c, c.draw.workload)
    ensures c.draw.workload !in t.workloads && c.draw.lease !in t.leases
  {
    hide W.ValidPlan, W.Fingerprint, W.Matched, W.Created, TextBefore;
  }

  lemma StatusBooked(cfg: Config, t: Tables, c: WorkloadCall)
    requires (c.Change? || c.Submit?) && WorkloadStep(cfg, t, c).Ok?
    ensures SessionBooked(t, WorkloadStep(cfg, t, c).value, c.now)
  {
    hide W.StreamsOf, W.Stamped, Booked;
    SameBooked(t.leases, c.now, OfLease);
    OneBooked(t.workloads, c.id, WorkloadStep(cfg, t, c).value.workloads[c.id], c.now, OfWorkload);
  }

  lemma CancelBooked(t: Tables, c: WorkloadCall)
    requires c.Cancel? && W.CancelStep(t, c.p, c.id, c.now).Ok?
    ensures SessionBooked(t, W.CancelStep(t, c.p, c.id, c.now).value, c.now)
  {
    hide W.CancelStep, W.LiveLease, Booked;
    WI.CancelFreesOneLease(t, c.p, c.id, c.now);
    var u := W.CancelStep(t, c.p, c.id, c.now).value;
    OneBooked(t.workloads, c.id, u.workloads[c.id], c.now, OfWorkload);
    SameBooked(t.leases, c.now, OfLease);
    var live := W.LiveLease(t.leases, t.workloads[c.id].pool);
    if live.Some? { OneBooked(t.leases, live.value, W.ReleasedLease(t.leases[live.value], c.now), c.now, OfLease); }
  }

  lemma PoolBooked(cfg: Config, t: Tables, c: WorkloadCall)
    requires (c.ReservePool? || c.RenewPool? || c.ReleasePool?) && WorkloadStep(cfg, t, c).Ok?
    ensures SessionBooked(t, WorkloadStep(cfg, t, c).value, c.now)
  {
    hide W.NamedLease, TextBefore, Booked;
    var l := if c.ReservePool? then c.draw.lease else c.lease;
    SameBooked(t.workloads, c.now, OfWorkload);
    OneBooked(t.leases, l, WorkloadStep(cfg, t, c).value.leases[l], c.now, OfLease);
  }

  lemma WorkloadCallBooked(cfg: Config, t: Tables, c: WorkloadCall)
    requires Inv(t) && WorkloadStep(cfg, t, c).Ok?
    ensures SessionBooked(t, WorkloadStep(cfg, t, c).value, c.now)
  {
    hide Inv, SessionBooked, W.PlanStep, W.ChangeStep, W.SubmitStep, W.CancelStep, W.ReopenStep, W.ReservePool, W.RenewPool,
      W.ReleasePool, TextBefore;
    match c
    case Plan(_, _, _, _) => PlanBooked(cfg, t, c);
    case Change(_, _, _, _) => StatusBooked(cfg, t, c);
    case Submit(_, _, _) => StatusBooked(cfg, t, c);
    case Cancel(_, _, _) => CancelBooked(t, c);
    case Reopen(_, _, _, _) => WH.ReopenRefused(cfg, t, c);
    case _ => PoolBooked(cfg, t, c);
  }

  // ---- Streams and segments ----

  ghost predicate UsageBooked(t: Tables, u: Tables, now: Instant) {
    Booked(t.streams, u.streams, now, OfStream) && Dated(t.segments, u.segments, now, DateOfSegment)
  }

  lemma CapacityCallBooked(t: Tables, c: CapacityCall)
    requires CapacityStep(t, c).Ok?
    ensures UsageBooked(t, CapacityStep(t, c).value, c.now)
  {
    hide CapacityStep, UsageBooked;
    match c
    case Append(_, _, _, _, _) => AppendBooked(t, c);
    case Align(_, _, _, _) => AlignBooked(t, c);
    case _ => StreamBooked(t, c);
  }

  lemma StreamBooked(t: Tables, c: CapacityCall)
    requires (c.OpenStream? || c.Seal?) && CapacityStep(t, c).Ok?
    ensures UsageBooked(t, CapacityStep(t, c).value, c.now)
  {
    hide W.StreamsOf, C.SegmentRows, C.Adjacent, C.SegmentBytes, Booked, Dated;
    var s := if c.OpenStream? then c.id else c.stream;
    SameDated(t.segments, c.now, DateOfSegment);
    OneBooked(t.streams, s, CapacityStep(t, c).value.streams[s], c.now, OfStream);
  }

  lemma {:induction false} AppendDated(
    segments: map<Id, Segment>, stream: Id, inputs: seq<C.SegmentInput>, ids: nat -> Id, k: nat, now: Instant)
    requires k <= |inputs|
    ensures match C.AppendFrom(segments, stream, inputs, ids, k, now)
      case Ok(r) => Dated(segments, r, now, DateOfSegment)
      case Err(_) => true
    decreases |inputs| - k
  {
    hide C.Lower, C.SequenceTaken, C.KeyOwners, C.SameSegment;
    if k < |inputs| {
      var one := C.AppendOne(segments, stream, inputs[k], ids(k), now);
      if one.Ok? { AppendDated(one.value, stream, inputs, ids, k + 1, now); }
    }
  }

  lemma AppendBooked(t: Tables, c: CapacityCall)
    requires c.Append? && CapacityStep(t, c).Ok?
    ensures UsageBooked(t, CapacityStep(t, c).value, c.now)
  {
    hide CapacityStep, C.AppendFrom, C.ValidInputs, C.SegmentsOf, C.FirstNanos, C.LastNanos, Booked, Dated;
    A.AppendCommitsIff(t, c);
    SameBooked(t.streams, c.now, OfStream);
    SameDated(t.segments, c.now, DateOfSegment);
    AppendDated(t.segments, c.stream, c.inputs, c.ids, 0, c.now);
    var u := CapacityStep(t, c).value;
    OneBooked(t.streams, c.stream, C.Refreshed(t.streams[c.stream], u.segments, c.stream, c.now), c.now, OfStream);
  }

  lemma AlignBooked(t: Tables, c: CapacityCall)
    requires c.Align? && CapacityStep(t, c).Ok?
    ensures UsageBooked(t, CapacityStep(t, c).value, c.now)
  {
    hide C.MaxStart, C.MinEnd;
    assert CapacityStep(t, c).value.streams == C.AlignAll(t.streams, W.StreamsOf(t.streams, c.workload), c.now);
    hide W.StreamsOf;
  }

  // ---- Batches and items ----

  ghost predicate MeterBooked(t: Tables, u: Tables, now: Instant) {
    Booked(t.batches, u.batches, now, OfBatch) && Booked(t.items, u.items, now, OfItem)
  }

  lemma {:induction false} InsertBooked(
    items: map<Id, MeterItem>, batch: Id, segments: seq<Id>, ids: nat -> Id, k: nat, now: Instant)
    requires k <= |segments|
    ensures match M.InsertFrom(items, batch, segments, ids, k, now)
      case Ok(r) => Booked(items, r, now, OfItem) && forall i :: i in items ==> r[i] == items[i]
      case Err(_) => true
    decreases |segments| - k
  {
    if k < |segments| && M.InsertFrom(items, batch, segments, ids, k, now).Ok? {
      InsertBooked(items[ids(k) := M.NewItem(batch, segments[k], now)], batch, segments, ids, k + 1, now);
    }
  }

  lemma CreateBooked(cfg: Config, t: Tables, c: MeterCall)
    requires c.CreateBatch? && MeterStep(cfg, t, c).Ok?
    ensures MeterBooked(t, MeterStep(cfg, t, c).value, c.now)
  {
    hide M.InsertFrom, M.SegmentIds, C.ListStreams, Booked;
    OneBooked(t.batches, c.batch, MeterStep(cfg, t, c).value.batches[c.batch], c.now, OfBatch);
    InsertBooked(t.items, c.batch, M.SegmentIds(t.segments, C.ListStreams(t.streams, c.workload)), c.ids, 0, c.now);
  }

  lemma BatchBooked(cfg: Config, t: Tables, c: MeterCall)
    requires (c.ClaimBatch? || c.RenewBatch? || c.SubmitBatch?) && MeterStep(cfg, t, c).Ok?
    ensures MeterBooked(t, MeterStep(cfg, t, c).value, c.now)
  {
    hide M.ItemsOf, TextBefore, Booked;
    SameBooked(t.items, c.now, OfItem);
    OneBooked(t.batches, c.batch, MeterStep(cfg, t, c).value.batches[c.batch], c.now, OfBatch);
  }

  lemma ItemBooked(cfg: Config, t: Tables, c: MeterCall)
    requires c.RecordItem? && MeterStep(cfg, t, c).Ok?
    ensures MeterBooked(t, MeterStep(cfg, t, c).value, c.now)
  {
    hide Blank, Trim, Booked;
    SameBooked(t.batches, c.now, OfBatch);
    OneBooked(t.items, c.item, MeterStep(cfg, t, c).value.items[c.item], c.now, OfItem);
  }

  lemma ReviewBooked(cfg: Config, t: Tables, c: MeterCall)
    requires c.ReviewBatch? && MeterStep(cfg, t, c).Ok?
    ensures MeterBooked(t, MeterStep(cfg, t, c).value, c.now)
  {
    hide Blank;
  }

  lemma MeterCallBooked(cfg: Config, t: Tables, c: MeterCall)
    requires MeterStep(cfg, t, c).Ok?
    ensures MeterBooked(t, MeterStep(cfg, t, c).value, c.now)
  {
    hide MeterStep, MeterBooked;
    match c
    case CreateBatch(_, _, _, _) => CreateBooked(cfg, t, c);
    case RecordItem(_, _, _, _, _, _, _, _, _) => ItemBooked(cfg, t, c);
    case ReviewBatch(_, _, _, _) => ReviewBooked(cfg, t, c);
    case _ => BatchBooked(cfg, t, c);
  }

  // ---- Ledgers and releases ----

  ghost predicate LedgerBooked(t: Tables, u: Tables, now: Instant) {
    && Booked(t.drafts, u.drafts, now, OfDraft) && Booked(t.releases, u.releases, now, OfRelease)
    && Dated(t.members, u.members, now, DateOfMember)
  }

  lemma DraftBooked(t: Tables, c: LedgerCall)
    requires (c.CreateDraft? || c.Freeze?) && LedgerStep(t, c).Ok?
    ensures LedgerBooked(t, LedgerStep(t, c).value, c.now)
  {
    hide G.AllEligible, G.ListMembers, G.DigestOf, G.Workloads, Blank, Trim, Booked, Dated;
    SameBooked(t.releases, c.now, OfRelease);
    SameDated(t.members, c.now, DateOfMember);
    var d := if c.CreateDraft? then c.id else c.ledger;
    OneBooked(t.drafts, d, LedgerStep(t, c).value.drafts[d], c.now, OfDraft);
  }

  lemma {:induction false} AddDated(
    members: map<Id, Member>, ledger: Id, revision: nat, workloads: seq<Id>, ids: nat -> Id, k: nat, now: Instant)
    requires k <= |workloads|
    ensures match G.AddFrom(members, ledger, revision, workloads, ids, k, now)
      case Ok(r) => Dated(members, r, now, DateOfMember)
      case Err(_) => true
    decreases |workloads| - k
  {
    hide G.MembersOf;
    if k < |workloads| && ids(k) !in members {
      AddDated(members[ids(k) := Member(ledger, workloads[k], revision, now)], ledger, revision, workloads, ids, k + 1, now);
    }
  }

  lemma AddBooked(t: Tables, c: LedgerCall)
    requires c.AddWorkloads? && LedgerStep(t, c).Ok?
    ensures LedgerBooked(t, LedgerStep(t, c).value, c.now)
  {
    hide G.AllEligible, G.AddFrom, G.ValidRequest, G.MembersOf, Booked, Dated;
    SameBooked(t.releases, c.now, OfRelease);
    AddDated(t.members, c.ledger, t.drafts[c.ledger].revision, c.workloads, c.ids, 0, c.now);
    OneBooked(t.drafts, c.ledger, LedgerStep(t, c).value.drafts[c.ledger], c.now, OfDraft);
  }

  lemma LedgerReviewBooked(t: Tables, c: LedgerCall)
    requires c.ReviewLedger? && LedgerStep(t, c).Ok?
    ensures LedgerBooked(t, LedgerStep(t, c).value, c.now)
  {
    hide Blank, Booked, Dated;
    SameBooked(t.releases, c.now, OfRelease);
    SameDated(t.members, c.now, DateOfMember);
    OneBooked(t.drafts, c.ledger, LedgerStep(t, c).value.drafts[c.ledger], c.now, OfDraft);
  }

  lemma PublishBooked(t: Tables, c: LedgerCall)
    requires c.Publish? && LedgerStep(t, c).Ok?
    ensures LedgerBooked(t, LedgerStep(t, c).value, c.now)
  {
    hide G.ListMembers, G.DigestOf, G.MembersOf, G.ReleaseRows, Booked, Dated;
    SameDated(t.members, c.now, DateOfMember);
    OneBooked(t.releases, c.release, LedgerStep(t, c).value.releases[c.release], c.now, OfRelease);
    OneBooked(t.drafts, c.ledger, LedgerStep(t, c).value.drafts[c.ledger], c.now, OfDraft);
  }

  lemma RevokeBooked(t: Tables, c: LedgerCall)
    requires c.Revoke? && LedgerStep(t, c).Ok?
    ensures LedgerBooked(t, LedgerStep(t, c).value, c.now)
  {
    hide G.ActiveJobs, Blank, Booked, Dated;
    SameDated(t.members, c.now, DateOfMember);
    SameBooked(t.drafts, c.now, OfDraft);
    OneBooked(t.releases, c.release, LedgerStep(t, c).value.releases[c.release], c.now, OfRelease);
  }

  lemma LedgerCallBooked(t: Tables, c: LedgerCall)
    requires LedgerStep(t, c).Ok?
    ensures LedgerBooked(t, LedgerStep(t, c).value, c.now)
  {
    hide LedgerStep, LedgerBooked;
    match c
    case AddWorkloads(_, _, _, _) => AddBooked(t, c);
    case ReviewLedger(_, _, _, _, _) => LedgerReviewBooked(t, c);
    case Publish(_, _, _) => PublishBooked(t, c);
    case Revoke(_, _, _) => RevokeBooked(t, c);
    case _ => DraftBooked(t, c);
  }

  // ---- Jobs, events, accounts, recovery ----

  lemma JobCallBooked(cfg: L.Config, t: Tables, op: J.JobOp)
    requires !op.Recover? && J.JobStep(cfg, t, op).Ok?
    ensures Booked(t.jobs, J.JobStep(cfg, t, op).value.jobs, op.now, OfJob)
  {
    hide L.Before, L.Backoff, Blank, Trim, Booked;
    var id := if op.Claim? then L.Next(cfg.before, J.Items(t.jobs), op.now).value else op.id;
    OneBooked(t.jobs, id, J.JobStep(cfg, t, op).value.jobs[id], op.now, OfJob);
  }

  lemma EventCallBooked(cfg: L.Config, t: Tables, op: O.EventOp)
    requires !op.Recover? && O.EventStep(cfg, t, op).Ok?
    ensures Booked(t.events, O.EventStep(cfg, t, op).value.events, op.now, OfEvent)
  {
    hide L.Before, L.Backoff, Blank, Trim, Booked;
    var id := if op.Claim? then L.Next(cfg.before, O.Items(t.events), op.now).value else op.id;
    OneBooked(t.events, id, O.EventStep(cfg, t, op).value.events[id], op.now, OfEvent);
  }

  lemma CreditCallBooked(t: Tables, op: K.CreditOp)
    requires K.CreditStep(t, op).Ok?
    ensures Booked(t.accounts, K.CreditStep(t, op).value.accounts, op.now, OfAccount)
  {
    hide K.OpenStep, K.DepositStep, K.ReserveStep, Booked;
    match op
    case OpenOp(currency, id, now) => AccountOpened(t, currency, id, now);
    case DepositOp(account, amount, key, id, now) => DepositBooked(t, account, amount, key, id, now);
    case ReserveOp(account, workload, amount, key, id, now) => HoldBooked(t, account, workload, amount, key, id, now);
  }

  lemma AccountOpened(t: Tables, currency: string, id: Id, now: Instant)
    requires K.OpenStep(t, currency, id, now).Ok?
    ensures Booked(t.accounts, K.OpenStep(t, currency, id, now).value.accounts, now, OfAccount)
  {
    hide Trim, K.Upper, Booked;
    OneBooked(t.accounts, id, K.OpenStep(t, currency, id, now).value.accounts[id], now, OfAccount);
  }

  lemma DepositBooked(t: Tables, account: Id, amount: int, key: string, id: Id, now: Instant)
    requires K.DepositStep(t, account, amount, key, id, now).Ok?
    ensures Booked(t.accounts, K.DepositStep(t, account, amount, key, id, now).value.accounts, now, OfAccount)
  {
    hide Blank, K.FindEntry, K.EntryIdTaken, Booked;
    if K.FindEntry(t.entries, account, key).Some? {
      SameBooked(t.accounts, now, OfAccount);
    } else {
      OneBooked(t.accounts, account, K.DepositStep(t, account, amount, key, id, now).value.accounts[account], now, OfAccount);
    }
  }

  lemma HoldBooked(t: Tables, account: Id, workload: Id, amount: int, key: string, id: Id, now: Instant)
    requires K.ReserveStep(t, account, workload, amount, key, id, now).Ok?
    ensures Booked(t.accounts, K.ReserveStep(t, account, workload, amount, key, id, now).value.accounts, now, OfAccount)
  {
    hide Blank, K.FindEntry, K.EntryIdTaken, Booked;
    if K.FindEntry(t.entries, account, key).Some? {
      SameBooked(t.accounts, now, OfAccount);
    } else {
      OneBooked(t.accounts, account, K.ReserveStep(t, account, workload, amount, key, id, now).value.accounts[account], now, OfAccount);
    }
  }

  lemma RecoveryBooked(before: Comparison, t: Tables, now: Instant)
    ensures Booked(t.leases, W.RecoveredLeases(before, t.leases, now), now, OfLease)
    ensures Booked(t.batches, M.RecoveredBatches(before, t.batches, now), now, OfBatch)
    ensures Booked(t.jobs, J.RecoveredJobs(before, t.jobs, now), now, OfJob)
    ensures Booked(t.events, O.RecoveredEvents(before, t.events, now), now, OfEvent)
  {
  }

  lemma NothingBooked(t: Tables, now: Instant)
    ensures AllBooked(t, t, now)
  {
  }

  /** The call's own tables are booked. */
  ghost predicate OwnBooked(t: Tables, c: Command, u: Tables) {
    && (c.OnWorkload? ==> SessionBooked(t, u, ClockOf(c)))
    && (c.OnCapacity? ==> UsageBooked(t, u, ClockOf(c)))
    && (c.OnMeter? ==> MeterBooked(t, u, ClockOf(c)))
    && (c.OnLedger? ==> LedgerBooked(t, u, ClockOf(c)))
    && (c.OnJob? ==> Booked(t.jobs, u.jobs, ClockOf(c), OfJob))
    && (c.OnEvent? ==> Booked(t.events, u.events, ClockOf(c), OfEvent))
    && (c.OnCredit? ==> Booked(t.accounts, u.accounts, ClockOf(c), OfAccount))
    && (c.RecoverExpired? ==>
          && Booked(t.leases, u.leases, ClockOf(c), OfLease) && Booked(t.batches, u.batches, ClockOf(c), OfBatch)
          && Booked(t.jobs, u.jobs, ClockOf(c), OfJob) && Booked(t.events, u.events, ClockOf(c), OfEvent))
  }

  lemma CallBooked(cfg: Config, t: Tables, c: Command)
    requires Inv(t) && Commits(cfg, t, c)
    ensures OwnBooked(t, c, After(cfg, t, c))
  {
    hide Inv, Exec, WorkloadStep, CapacityStep, MeterStep, LedgerStep, J.JobStep, O.EventStep, K.CreditStep, Booked, Dated, TextBefore;
    F.ExecGroups(cfg, t, c);
    match c
    case OnWorkload(call) => WorkloadCallBooked(cfg, t, call);
    case OnCapacity(call) => CapacityCallBooked(t, call);
    case OnMeter(call) => MeterCallBooked(cfg, t, call);
    case OnLedger(call) => LedgerCallBooked(t, call);
    case OnJob(op) => JobCallBooked(cfg.jobs.OnText(), t, op);
    case OnEvent(op) => EventCallBooked(cfg.events.OnText(), t, op);
    case OnCredit(op) => CreditCallBooked(t, op);
    case RecoverExpired(now) => RecoveryBooked(TextBefore, t, now);
    case Catalog(_, _, _) =>
  }

  lemma FramedBooked(t: Tables, c: Command, u: Tables)
    requires F.Framed(t, c, u) && OwnBooked(t, c, u)
    ensures AllBooked(t, u, ClockOf(c))
  {
    hide Booked, Dated;
    NothingBooked(t, ClockOf(c));
  }

  /**
   * In every state that satisfies the invariant, and so in every reachable one, a call that commits dates each row
   * that it changes and raises its version by exactly one, starts new rows at version one, and deletes none; segments
   * and members are only inserted, dated by their call.
   */
  lemma CallsAreBooked(cfg: Config, t: Tables, c: Command)
    requires Inv(t)
    ensures AllBooked(t, After(cfg, t, c), ClockOf(c))
  {
    hide Inv, Exec, F.Framed, OwnBooked, AllBooked, ClockOf;
    if Commits(cfg, t, c) {
      F.CallFramed(cfg, t, c);
      CallBooked(cfg, t, c);
      FramedBooked(t, c, After(cfg, t, c));
    } else {
      NothingBooked(t, ClockOf(c));
    }
  }
}
