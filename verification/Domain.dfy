/** The rows of the database, the status graphs, and the database itself. */
module Domain {
  import opened Basics

  // ---- Status graphs (internal/domain/status.go) ----

  datatype WorkloadStatus = Planned | Ready | Executing | Metering | Settled | WorkFailed | WorkCanceled | WorkArchived {
    predicate May(to: WorkloadStatus) {
      match this
      case Planned => to.Ready? || to.WorkCanceled?
      case Ready => to.Executing? || to.WorkCanceled?
      case Executing => to.Metering? || to.WorkCanceled?
      case Metering => to.Settled? || to.WorkFailed?
      case WorkFailed => to.Ready? || to.WorkArchived?
      case Settled => to.WorkArchived?
      case WorkCanceled => to.WorkArchived?
      case WorkArchived => false
    }
  }

  datatype StreamStatus = Open | Sealed | Aligned | Invalid {
    predicate May(to: StreamStatus) {
      (Open? && to.Sealed?) || (Sealed? && (to.Aligned? || to.Invalid?)) || (Invalid? && to.Open?)
    }
  }

  datatype BatchStatus = BatchOpen | BatchClaimed | Submitted | Accepted | Rework | BatchCanceled

  datatype LedgerStatus = Draft | Frozen | Approved | Published | Revoked | LedgerArchived {
    predicate May(to: LedgerStatus) {
      match this
      case Draft => to.Frozen? || to.LedgerArchived?
      case Frozen => to.Approved? || to.Draft?
      case Approved => to.Published? || to.Draft?
      case Published => to.Revoked?
      case Revoked => to.LedgerArchived?
      case LedgerArchived => false
    }
  }

  datatype JobStatus = Queued | Running | Retrying | Succeeded | JobFailed | JobCanceled {
    predicate May(to: JobStatus) {
      match this
      case Queued => to.Running? || to.JobCanceled?
      case Running => to.Succeeded? || to.Retrying? || to.JobFailed? || to.JobCanceled?
      case Retrying => to.Running? || to.JobFailed? || to.JobCanceled?
      case _ => false
    }

    predicate Active() { Queued? || Running? || Retrying? }
  }

  datatype EventStatus = Pending | Delivering | Delivered | EventDead

  // ---- Rows ----

  datatype Principal = Principal(user: Id, operator: bool)

  datatype Provider = Provider(active: bool)
  datatype Pool = Pool(provider: Id, capabilities: set<nat>, active: bool)
  datatype Offer = Offer(required: set<nat>, active: bool)

  datatype Times = Times(started: Option<Instant>, submitted: Option<Instant>, settled: Option<Instant>, canceled: Option<Instant>)

  datatype Workload = Workload(
    provider: Id, offer: Id, pool: Id, operator: Id, status: WorkloadStatus, revision: int,
    reservation: string, times: Times, created: Instant, updated: Instant, version: int)

  datatype PoolLease = PoolLease(
    pool: Id, workload: Id, owner: Id, token: string, expires: Instant, released: Option<Instant>,
    created: Instant, updated: Instant, version: int)

  datatype Kind = Gpu | Cpu | Memory | Storing | Network

  datatype Stream = Stream(
    workload: Id, kind: Kind, status: StreamStatus, count: int, first: int, last: int, digest: string,
    created: Instant, updated: Instant, version: int)

  datatype Segment = Segment(
    stream: Id, sequence: int, start: int, end: int, uri: string, checksum: string, key: string, created: Instant)

  datatype Batch = Batch(
    workload: Id, status: BatchStatus, owner: Id, token: string, expires: Option<Instant>,
    submitted: Option<Instant>, reviewed: Option<Instant>, created: Instant, updated: Instant, version: int)

  datatype MeterItem = MeterItem(
    batch: Id, segment: Id, label_: string, payload: string, complete: bool, created: Instant, updated: Instant, version: int)

  datatype LedgerDraft = LedgerDraft(
    name: string, status: LedgerStatus, revision: nat, digest: string, count: int, frozen: Option<Instant>,
    created: Instant, updated: Instant, version: int)

  datatype Member = Member(ledger: Id, workload: Id, revision: nat, created: Instant)

  datatype Release = Release(
    ledger: Id, revision: nat, digest: string, status: LedgerStatus, published: Option<Instant>,
    revoked: Option<Instant>, created: Instant, updated: Instant, version: int)

  datatype Review = Review(reviewer: Id, approved: bool, reason: string, created: Instant)

  datatype Job = Job(
    release: Id, status: JobStatus, owner: Id, token: string, expires: Option<Instant>, attempts: int, max: int,
    checkpoint: string, output: string, lastError: string, nextAt: Instant, created: Instant, updated: Instant, version: int)

  datatype Attempt = Attempt(worker: Id, started: Instant, finished: Option<Instant>, outcome: string, errorText: string)

  datatype Event = Event(
    topic: string, status: EventStatus, owner: Id, token: string, expires: Option<Instant>, attempts: int, max: int,
    lastError: string, nextAt: Instant, created: Instant, updated: Instant, version: int)

  datatype Account = Account(currency: string, balance: int, held: int, created: Instant, updated: Instant, version: int)

  datatype EntryKind = Deposit | Hold
  datatype Entry = Entry(id: Id, account: Id, workload: Option<Id>, kind: EntryKind, amount: int, key: string, created: Instant)

  /** What a successful plan returns; an idempotency record stores it for replays. */
  datatype PlanResult = PlanResult(workloadId: Id, workload: Workload, leaseId: Id, lease: PoolLease)
  datatype IdemRecord = IdemRecord(fingerprint: string, response: PlanResult, created: Instant, expires: Instant)

  // ---- Tables ----

  /**
   * One tenant's tables.  A map is keyed by the primary key; `attempts` and `reviews` are keyed
   * by their UNIQUE keys (job, number) and (object, version), because their ids are never used;
   * `records` by its idempotency key, because only Plan writes it; `entries` is append-only.
   */
  datatype Tables = Tables(
    providers: map<Id, Provider>,
    pools: map<Id, Pool>,
    offers: map<Id, Offer>,
    workloads: map<Id, Workload>,
    leases: map<Id, PoolLease>,
    streams: map<Id, Stream>,
    segments: map<Id, Segment>,
    batches: map<Id, Batch>,
    items: map<Id, MeterItem>,
    drafts: map<Id, LedgerDraft>,
    members: map<Id, Member>,
    releases: map<Id, Release>,
    releaseItems: set<(Id, Id)>,
    reviews: map<(Id, int), Review>,
    jobs: map<Id, Job>,
    attempts: map<(Id, int), Attempt>,
    events: map<Id, Event>,
    accounts: map<Id, Account>,
    entries: seq<Entry>,
    records: map<string, IdemRecord>)

  /** The committed state; a transaction works on a copy and assigns `tables` when it commits. */
  class Database {
    var tables: Tables

    constructor (tables: Tables)
      ensures this.tables == tables
    {
      this.tables := tables;
    }
  }

  /** What `Write` leaves behind: the whole effect of the transaction, or nothing. */
  function Committed(before: Tables, r: Result<Tables>): Tables {
    if r.Ok? then r.value else before
  }

  /** The call returns the row it stored under `id`, or the specified error. */
  ghost predicate Answers<R>(r: Result<R>, spec: Result<Tables>, table: Tables -> map<Id, R>, id: Id) {
    match r
    case Ok(row) => spec.Ok? && id in table(spec.value) && row == table(spec.value)[id]
    case Err(e) => spec == Err(e)
  }

  /** A conditional UPDATE of one row, with the number of changed rows. */
  function UpdateRow<R>(table: map<Id, R>, id: Id, matches: bool, row: R): (map<Id, R>, nat) {
    if matches then (table[id := row], 1) else (table, 0)
  }
}
