/** Workload sessions: idempotent planning, the status calls, and the pool leases they take. */
module Workloads {
  import opened Basics
  import opened Domain
  import opened Listing
  import opened Timestamps
  import Fingerprints

  /** `idempotencyTTL`: 24 hours in nanoseconds. */
  const IDEMPOTENCY_TTL: int := 24 * 3600 * 1_000_000_000

  datatype PlanInput = PlanInput(provider: Id, offer: Id, pool: Id, reservation: string, key: string)

  /** The random values one call draws. */
  datatype Draw = Draw(workload: Id, lease: Id, token: string)

  datatype PlanOutcome = PlanOutcome(tables: Tables, result: PlanResult, replay: bool)

  // ---- Leases on pools ----

  /** What the keys `(pool, workload)` and "one live lease per pool" and the primary key forbid. */
  predicate LeaseCollides(leases: map<Id, PoolLease>, id: Id, pool: Id, workload: Id) {
    || id in leases
    || (exists l :: l in leases && leases[l].pool == pool && leases[l].workload == workload)
    || (exists l :: l in leases && leases[l].pool == pool && leases[l].released.None?)
  }

  function LiveLeases(leases: map<Id, PoolLease>, pool: Id): set<Id> {
    set l | l in leases && leases[l].pool == pool && leases[l].released.None?
  }

  /** `FindActiveLease`: the unreleased lease of the pool. */
  function LiveLease(leases: map<Id, PoolLease>, pool: Id): (r: Option<Id>)
    ensures r.None? <==> LiveLeases(leases, pool) == {}
    ensures r.Some? ==> r.value in LiveLeases(leases, pool)
  {
    var listed := ById(LiveLeases(leases, pool));
    if listed == [] then None
    else
      assert listed[0] in listed;
      Some(listed[0])
  }

  function ReleasedLease(l: PoolLease, now: Instant): PoolLease {
    l.(released := Some(now), updated := now, version := l.version + 1)
  }

  /** `releasePoolLeases` of recovery. */
  function RecoveredLeases(before: Comparison, leases: map<Id, PoolLease>, now: Instant): map<Id, PoolLease> {
    map l | l in leases ::
      if leases[l].released.None? && !before(now, leases[l].expires) then ReleasedLease(leases[l], now) else leases[l]
  }

  /** `seen` are the pools as the call read them before its transaction. */
  function ReservePool(
    seen: map<Id, Pool>, t: Tables, ttl: int, user: Id, pool: Id, workload: Id, lease: Id, token: string, now: Instant): Result<Tables>
  {
    if pool == "" || workload == "" then Err(Validation)
    else if pool !in seen then Err(NotFound)
    else if !seen[pool].active then Err(Precondition)
    else if LeaseCollides(t.leases, lease, pool, workload) || pool !in t.pools || workload !in t.workloads then Err(Conflict)
    else Ok(t.(leases := t.leases[lease := PoolLease(pool, workload, user, token, now + ttl, None, now, now, 1)]))
  }

  predicate Names(l: PoolLease, user: Id, token: string, version: int) {
    l.owner == user && l.token == token && l.version == version
  }

  /** The live lease of the pool, as the call read it before its transaction, when the caller names it. */
  function NamedLease(seen: map<Id, PoolLease>, user: Id, pool: Id, lease: Id, token: string, version: int): (r: Result<PoolLease>)
    ensures r.Ok? ==> lease in seen && r.value == seen[lease] && seen[lease].pool == pool && Names(seen[lease], user, token, version)
  {
    var live := LiveLease(seen, pool);
    if live.None? then Err(NotFound) else
    var l := seen[live.value];
    if live.value != lease || !Names(l, user, token, version) then Err(LeaseLost) else Ok(l)
  }

  function RenewPool(
    before: Comparison, seen: map<Id, PoolLease>, t: Tables, ttl: int, user: Id, pool: Id, lease: Id, token: string, version: int,
    now: Instant): Result<Tables>
  {
    var _ :- NamedLease(seen, user, pool, lease, token, version);
    if lease !in t.leases || !Names(t.leases[lease], user, token, version) || t.leases[lease].released.Some?
       || !before(now, t.leases[lease].expires) then Err(LeaseLost)
    else Ok(t.(leases := t.leases[lease := t.leases[lease].(expires := now + ttl, updated := now, version := version + 1)]))
  }

  function ReleasePool(
    seen: map<Id, PoolLease>, t: Tables, user: Id, pool: Id, lease: Id, token: string, version: int, now: Instant): Result<Tables>
  {
    var _ :- NamedLease(seen, user, pool, lease, token, version);
    if lease !in t.leases || !Names(t.leases[lease], user, token, version) || t.leases[lease].released.Some? then Err(LeaseLost)
    else Ok(t.(leases := t.leases[lease := ReleasedLease(t.leases[lease], now)]))
  }

  // ---- Planning ----

  predicate ValidPlan(input: PlanInput) {
    && input.provider != "" && input.offer != "" && input.pool != "" && !Blank(input.reservation)
    && !Blank(input.key) && |input.key| <= 128
  }

  function Fingerprint(input: PlanInput): string {
    Fingerprints.Framed([input.provider, input.offer, input.pool, input.reservation])
  }

  /**
   * `Lookup`: the record of the key while the clock reads before its expiry, and otherwise the records that
   * the DELETE leaves, whose guard compares the stored text.
   */
  function Lookup(before: Comparison, records: map<string, IdemRecord>, key: string, now: Instant)
    : (Option<IdemRecord>, map<string, IdemRecord>)
  {
    if key !in records then (None, records)
    else if now < records[key].expires then (Some(records[key]), records)
    else (None, if before(now, records[key].expires) then records else records - {key})
  }

  /** The checks on provider, pool and offer. */
  function Matched(t: Tables, input: PlanInput): Result<()> {
    if input.provider !in t.providers || input.pool !in t.pools || input.offer !in t.offers then Err(NotFound) else
    var provider, pool, offer := t.providers[input.provider], t.pools[input.pool], t.offers[input.offer];
    if !provider.active || !pool.active || !offer.active || pool.provider != input.provider
       || offer.required == {} || !(offer.required <= pool.capabilities) then Err(Precondition)
    else Ok(())
  }

  /** What a plan that is not a replay creates. */
  function Created(ttl: int, user: Id, input: PlanInput, draw: Draw, now: Instant): PlanResult {
    PlanResult(
      draw.workload,
      Workload(input.provider, input.offer, input.pool, user, Planned, 1, input.reservation,
               Times(None, None, None, None), now, now, 1),
      draw.lease,
      PoolLease(input.pool, draw.workload, user, draw.token, now + ttl, None, now, now, 1))
  }

  function PlanStep(before: Comparison, t: Tables, ttl: int, user: Id, input: PlanInput, draw: Draw, now: Instant): Result<PlanOutcome> {
    if !ValidPlan(input) then Err(Validation) else
    var (found, records) := Lookup(before, t.records, input.key, now);
    if found.Some? then
      if found.value.fingerprint != Fingerprint(input) then Err(IdempotencyConflict)
      else Ok(PlanOutcome(t, found.value.response, true))
    else
      var _ :- Matched(t, input);
      var r := Created(ttl, user, input, draw, now);
      if draw.workload in t.workloads then Err(Storage)
      else if LeaseCollides(t.leases, draw.lease, input.pool, draw.workload) then Err(Conflict)
      else if input.key in records then Err(Storage)
      else Ok(PlanOutcome(
        t.(workloads := t.workloads[draw.workload := r.workload],
           leases := t.leases[draw.lease := r.lease],
           records := records[input.key := IdemRecord(Fingerprint(input), r, now, now + IDEMPOTENCY_TTL)]),
        r, false))
  }

  // ---- Status calls ----

  function StreamsOf(streams: map<Id, Stream>, workload: Id): set<Id> {
    set s | s in streams && streams[s].workload == workload
  }

  function Moved(w: Workload, to: WorkloadStatus, times: Times, now: Instant): Workload {
    w.(status := to, times := times, updated := now, version := w.version + 1)
  }

  /** The time column a call sets. */
  function Stamped(times: Times, to: WorkloadStatus, now: Instant): Times {
    match to
    case Executing => times.(started := Some(now))
    case Metering => times.(submitted := Some(now))
    case Settled => times.(settled := Some(now))
    case WorkCanceled => times.(canceled := Some(now))
    case _ => times
  }

  datatype StatusCall = MarkReady | Start | Settle | FailWork {
    function From(): WorkloadStatus {
      match this
      case MarkReady => Planned
      case Start => Ready
      case Settle => Metering
      case FailWork => Metering
    }

    function To(): WorkloadStatus {
      match this
      case MarkReady => Ready
      case Start => Executing
      case Settle => Settled
      case FailWork => WorkFailed
    }
  }

  /** `MarkReady`, `Start`, `Settle` and `Fail` share this transition. */
  function ChangeStep(t: Tables, p: Principal, id: Id, call: StatusCall, now: Instant): Result<Tables> {
    var from, to := call.From(), call.To();
    if id == "" then Err(Validation)
    else if id !in t.workloads then Err(NotFound)
    else if t.workloads[id].status != from || !from.May(to) then Err(Precondition)
    else if p.operator && t.workloads[id].operator != p.user then Err(Forbidden)
    else Ok(t.(workloads := t.workloads[id := Moved(t.workloads[id], to, Stamped(t.workloads[id].times, to, now), now)]))
  }

  function SubmitStep(t: Tables, p: Principal, id: Id, now: Instant): Result<Tables> {
    if id !in t.workloads then Err(NotFound) else
    var w, streams := t.workloads[id], StreamsOf(t.streams, id);
    if w.operator != p.user then Err(Forbidden)
    else if !w.status.May(Metering) then Err(Precondition)
    else if |streams| < 2 || exists s :: s in streams && !t.streams[s].status.Aligned? then Err(Precondition)
    else Ok(t.(workloads := t.workloads[id := Moved(w, Metering, w.times.(submitted := Some(now)), now)]))
  }

  function CancelStep(t: Tables, p: Principal, id: Id, now: Instant): Result<Tables> {
    if id !in t.workloads then Err(NotFound) else
    var w := t.workloads[id];
    if !w.status.May(WorkCanceled) then Err(Precondition)
    else if p.operator && w.operator != p.user then Err(Forbidden)
    else
      var live := LiveLease(t.leases, w.pool);
      var workloads := t.workloads[id := Moved(w, WorkCanceled, w.times.(canceled := Some(now)), now)];
      if live.None? then Ok(t.(workloads := workloads))
      else
        var l := live.value;
        if t.leases[l].workload != id then Err(Conflict)
        else Ok(t.(workloads := workloads, leases := t.leases[l := ReleasedLease(t.leases[l], now)]))
  }

  function ReopenStep(t: Tables, ttl: int, p: Principal, id: Id, draw: Draw, now: Instant): Result<Tables> {
    if id !in t.workloads then Err(NotFound) else
    var w := t.workloads[id];
    if w.operator != p.user then Err(Forbidden)
    else if !w.status.May(Ready) then Err(Precondition)
    else if LeaseCollides(t.leases, draw.lease, w.pool, id) then Err(Conflict)
    else if !w.status.WorkFailed? then Err(Conflict)
    else Ok(t.(leases := t.leases[draw.lease := PoolLease(w.pool, id, p.user, draw.token, now + ttl, None, now, now, 1)],
               workloads := t.workloads[id := w.(status := Ready, revision := w.revision + 1,
                                                 times := w.times.(started := None, submitted := None, settled := None),
                                                 updated := now, version := w.version + 1)]))
  }

  class Service {
    const db: Database
    const ttl: int

    constructor (db: Database, ttl: int)
      ensures this.db == db && this.ttl == ttl
    {
      this.db, this.ttl := db, ttl;
    }

    method Plan(user: Id, input: PlanInput, draw: Draw, now: Instant) returns (r: Result<(PlanResult, bool)>)
      modifies db
      ensures match PlanStep(TextBefore, old(db.tables), ttl, user, input, draw, now)
        case Ok(planned) => db.tables == planned.tables && r == Ok((planned.result, planned.replay))
        case Err(e) => db.tables == old(db.tables) && r == Err(e)
    {
      hide TextBefore;
      if !ValidPlan(input) { return Err(Validation); }
      var fingerprint := Fingerprint(input);
      var tx := db.tables;
      if input.key in tx.records {
        var record := tx.records[input.key];
        if now < record.expires {
          if record.fingerprint != fingerprint { return Err(IdempotencyConflict); }
          return Ok((record.response, true));
        }
        if !TextBefore(now, record.expires) { tx := tx.(records := tx.records - {input.key}); }
      }
      if input.provider !in tx.providers { return Err(NotFound); }
      if input.pool !in tx.pools { return Err(NotFound); }
      if input.offer !in tx.offers { return Err(NotFound); }
      var pool, offer := tx.pools[input.pool], tx.offers[input.offer];
      if !tx.providers[input.provider].active || !pool.active || !offer.active { return Err(Precondition); }
      if pool.provider != input.provider { return Err(Precondition); }
      if offer.required == {} || !(offer.required <= pool.capabilities) { return Err(Precondition); }
      var workload := Workload(input.provider, input.offer, input.pool, user, Planned, 1, input.reservation,
                               Times(None, None, None, None), now, now, 1);
      var lease := PoolLease(input.pool, draw.workload, user, draw.token, now + ttl, None, now, now, 1);
      if draw.workload in tx.workloads { return Err(Storage); }
      tx := tx.(workloads := tx.workloads[draw.workload := workload]);
      if LeaseCollides(tx.leases, draw.lease, input.pool, draw.workload) { return Err(Conflict); }
      tx := tx.(leases := tx.leases[draw.lease := lease]);
      var result := PlanResult(draw.workload, workload, draw.lease, lease);
      if input.key in tx.records { return Err(Storage); }
      tx := tx.(records := tx.records[input.key := IdemRecord(fingerprint, result, now, now + IDEMPOTENCY_TTL)]);
      db.tables := tx;
      r := Ok((result, false));
    }

    method Change(p: Principal, id: Id, call: StatusCall, now: Instant) returns (r: Result<Workload>)
      modifies db
      ensures var spec := ChangeStep(old(db.tables), p, id, call, now);
        db.tables == Committed(old(db.tables), spec) && Answers(r, spec, (t: Tables) => t.workloads, id)
    {
      var from, to := call.From(), call.To();
      if id == "" { return Err(Validation); }
      var tx := db.tables;
      if id !in tx.workloads { return Err(NotFound); }
      var current := tx.workloads[id];
      if current.status != from { return Err(Precondition); }
      if !current.status.May(to) { return Err(Precondition); }
      if p.operator && current.operator != p.user { return Err(Forbidden); }
      current := current.(status := to, times := Stamped(current.times, to, now), updated := now, version := current.version + 1);
      db.tables := tx.(workloads := tx.workloads[id := current]);
      r := Ok(current);
    }

    method Submit(p: Principal, id: Id, now: Instant) returns (r: Result<Workload>)
      modifies db
      ensures var spec := SubmitStep(old(db.tables), p, id, now);
        db.tables == Committed(old(db.tables), spec) && Answers(r, spec, (t: Tables) => t.workloads, id)
    {
      var tx := db.tables;
      if id !in tx.workloads { return Err(NotFound); }
      var current := tx.workloads[id];
      if current.operator != p.user { return Err(Forbidden); }
      if !current.status.May(Metering) { return Err(Precondition); }
      var all := StreamsOf(tx.streams, id);
      var unaligned := set s | s in all && tx.streams[s].status != Aligned;
      assert forall s :: s in all ==> (s in unaligned <==> !tx.streams[s].status.Aligned?);
      assert |unaligned| != 0 ==> exists s :: s in unaligned;
      if |all| < 2 || |unaligned| != 0 { return Err(Precondition); }
      current := current.(status := Metering, times := current.times.(submitted := Some(now)), updated := now, version := current.version + 1);
      db.tables := tx.(workloads := tx.workloads[id := current]);
      r := Ok(current);
    }

    method Cancel(p: Principal, id: Id, now: Instant) returns (r: Result<Workload>)
      modifies db
      ensures var spec := CancelStep(old(db.tables), p, id, now);
        db.tables == Committed(old(db.tables), spec) && Answers(r, spec, (t: Tables) => t.workloads, id)
    {
      hide LiveLease;
      var tx := db.tables;
      if id !in tx.workloads { return Err(NotFound); }
      var current := tx.workloads[id];
      if !current.status.May(WorkCanceled) { return Err(Precondition); }
      if p.operator && current.operator != p.user { return Err(Forbidden); }
      var live := LiveLease(tx.leases, current.pool);
      if live.Some? {
        var l := live.value;
        var lease := tx.leases[l];
        if lease.workload != id { return Err(Conflict); }
        tx := tx.(leases := tx.leases[l := ReleasedLease(lease, now)]);
      }
      current := current.(status := WorkCanceled, times := current.times.(canceled := Some(now)), updated := now, version := current.version + 1);
      db.tables := tx.(workloads := tx.workloads[id := current]);
      r := Ok(current);
    }

    method Reopen(p: Principal, id: Id, draw: Draw, now: Instant) returns (r: Result<Workload>)
      modifies db
      ensures var spec := ReopenStep(old(db.tables), ttl, p, id, draw, now);
        db.tables == Committed(old(db.tables), spec) && Answers(r, spec, (t: Tables) => t.workloads, id)
    {
      var tx := db.tables;
      if id !in tx.workloads { return Err(NotFound); }
      var current := tx.workloads[id];
      if current.operator != p.user { return Err(Forbidden); }
      if !current.status.May(Ready) { return Err(Precondition); }
      var lease := PoolLease(current.pool, id, p.user, draw.token, now + ttl, None, now, now, 1);
      if LeaseCollides(tx.leases, draw.lease, current.pool, id) { return Err(Conflict); }
      tx := tx.(leases := tx.leases[draw.lease := lease]);
      var row := current.(status := Ready, revision := current.revision + 1,
                          times := current.times.(started := None, submitted := None, settled := None),
                          updated := now, version := current.version + 1);
      var (workloads, changed) := UpdateRow(tx.workloads, id, current.status == WorkFailed, row);
      if changed != 1 { return Err(Conflict); }
      db.tables := tx.(workloads := workloads);
      r := Ok(row);
    }
  }

  /** The calls on pool leases (internal/provider/service.go); each reads the pool or its lease before its transaction. */
  class PoolService {
    const db: Database
    const ttl: int

    constructor (db: Database, ttl: int)
      ensures this.db == db && this.ttl == ttl
    {
      this.db, this.ttl := db, ttl;
    }

    method Reserve(seen: map<Id, Pool>, user: Id, pool: Id, workload: Id, id: Id, token: string, now: Instant)
      returns (r: Result<PoolLease>)
      modifies db
      ensures var spec := ReservePool(seen, old(db.tables), ttl, user, pool, workload, id, token, now);
        db.tables == Committed(old(db.tables), spec) && Answers(r, spec, (t: Tables) => t.leases, id)
    {
      if pool == "" || workload == "" { return Err(Validation); }
      if pool !in seen { return Err(NotFound); }
      if !seen[pool].active { return Err(Precondition); }
      var lease := PoolLease(pool, workload, user, token, now + ttl, None, now, now, 1);
      var tx := db.tables;
      if LeaseCollides(tx.leases, id, pool, workload) || pool !in tx.pools || workload !in tx.workloads { return Err(Conflict); }
      db.tables := tx.(leases := tx.leases[id := lease]);
      r := Ok(lease);
    }

    /** Returns the lease as it was read, with its new expiry and version. */
    method Renew(seen: map<Id, PoolLease>, user: Id, pool: Id, lease: Id, token: string, version: int, now: Instant)
      returns (r: Result<PoolLease>)
      modifies db
      ensures var spec := RenewPool(TextBefore, seen, old(db.tables), ttl, user, pool, lease, token, version, now);
        && db.tables == Committed(old(db.tables), spec)
        && match r
           case Ok(l) =>
             spec.Ok? && lease in seen && l == seen[lease].(expires := now + ttl, updated := now, version := version + 1)
           case Err(e) => spec == Err(e)
    {
      hide TextBefore, LiveLease;
      var live := LiveLease(seen, pool);
      if live.None? { return Err(NotFound); }
      var row := seen[live.value];
      if live.value != lease || row.owner != user || row.token != token || row.version != version { return Err(LeaseLost); }
      var tx := db.tables;
      if lease !in tx.leases { return Err(LeaseLost); }
      var current := tx.leases[lease];
      var (leases, changed) := UpdateRow(
        tx.leases, lease, Names(current, user, token, version) && current.released.None? && TextBefore(now, current.expires),
        current.(expires := now + ttl, updated := now, version := current.version + 1));
      if changed != 1 { return Err(LeaseLost); }
      db.tables := tx.(leases := leases);
      r := Ok(row.(expires := now + ttl, updated := now, version := row.version + 1));
    }

    method Release(seen: map<Id, PoolLease>, user: Id, pool: Id, lease: Id, token: string, version: int, now: Instant)
      returns (r: Result<()>)
      modifies db
      ensures var spec := ReleasePool(seen, old(db.tables), user, pool, lease, token, version, now);
        db.tables == Committed(old(db.tables), spec) && r == (if spec.Ok? then Ok(()) else Err(spec.error))
    {
      hide LiveLease;
      var live := LiveLease(seen, pool);
      if live.None? { return Err(NotFound); }
      var row := seen[live.value];
      if live.value != lease || row.owner != user || row.token != token || row.version != version { return Err(LeaseLost); }
      var tx := db.tables;
      if lease !in tx.leases { return Err(LeaseLost); }
      var current := tx.leases[lease];
      var (leases, changed) := UpdateRow(
        tx.leases, lease, Names(current, user, token, version) && current.released.None?, ReleasedLease(current, now));
      if changed != 1 { return Err(LeaseLost); }
      db.tables := tx.(leases := leases);
      r := Ok(());
    }
  }
}
