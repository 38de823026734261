/** Pool leases are the history of the calls on them; a pool has at most one live lease, and who may take it. */
module PoolHistory {
  import opened Basics
  import opened Domain
  import opened System
  import opened Timestamps
  import opened History
  import W = Workloads
  import F = Frames
  import R = Recovery
  import WI = WorkloadInvariants
  import WH = WorkloadHistory
  import LedgerStability

  /** What the calls tell of a lease. */
  datatype Facts = Facts(pool: Id, workload: Id, owner: Id, token: string, expires: Instant, released: Option<Instant>)

  function FactsOf(leases: map<Id, PoolLease>, l: Id): Option<Facts> {
    if l !in leases then None
    else
      var x := leases[l];
      Some(Facts(x.pool, x.workload, x.owner, x.token, x.expires, x.released))
  }

  /** What a committed call tells of lease `l`: canceling a workload releases the lease that is live on its pool. */
  function Told(ttl: int, t: Tables, c: WorkloadCall, l: Id, f: Option<Facts>): Option<Facts> {
    match c
    case Plan(user, input, draw, now) =>
      if WH.Makes(t.records, c, draw.workload) && draw.lease == l then Some(Facts(input.pool, draw.workload, user, draw.token, now + ttl, None)) else f
    case ReservePool(_, user, pool, workload, draw, now) =>
      if draw.lease == l then Some(Facts(pool, workload, user, draw.token, now + ttl, None)) else f
    case RenewPool(_, _, _, lease, _, _, now) => if lease == l && f.Some? then Some(f.value.(expires := now + ttl)) else f
    case ReleasePool(_, _, _, lease, _, _, now) => if lease == l && f.Some? then Some(f.value.(released := Some(now))) else f
    case Cancel(_, id, now) =>
      if f.Some? && f.value.released.None? && id in t.workloads && t.workloads[id].pool == f.value.pool
      then Some(f.value.(released := Some(now))) else f
    case _ => f
  }

  /** What recovery tells: a lease whose expiry reads as passed is released. */
  function Lapsed(now: Instant, f: Option<Facts>): Option<Facts> {
    if f.Some? && f.value.released.None? && !TextBefore(now, f.value.expires) then Some(f.value.(released := Some(now))) else f
  }

  function ToldBy(ttl: int, t: Tables, c: Command, l: Id, f: Option<Facts>): Option<Facts> {
    if c.OnWorkload? then Told(ttl, t, c.workload, l, f) else if c.RecoverExpired? then Lapsed(c.now, f) else f
  }

  ghost function Story(cfg: Config, cs: seq<Command>, l: Id): Option<Facts> {
    if cs == [] then None
    else
      var n := |cs| - 1;
      var before := Story(cfg, cs[..n], l);
      if CommitsAt(cfg, cs, n) then ToldBy(cfg.poolTtl, Before(cfg, cs, n), cs[n], l, before) else before
  }

  // ---- Keys ----

  predicate Live(l: PoolLease) { l.released.None? }

  /** At most one live lease on a pool, and at most one lease of a workload on it. */
  predicate PoolKeys(leases: map<Id, PoolLease>) {
    forall a, b :: a in leases && b in leases && a != b && leases[a].pool == leases[b].pool ==>
      !(Live(leases[a]) && Live(leases[b])) && leases[a].workload != leases[b].workload
  }

  lemma InsertKeepsKeys(leases: map<Id, PoolLease>, id: Id, l: PoolLease)
    requires PoolKeys(leases) && !W.LeaseCollides(leases, id, l.pool, l.workload)
    ensures PoolKeys(leases[id := l])
  {
  }

  /** Rows that stay live only if they were, on their pools and for their workloads. */
  predicate Fewer(before: map<Id, PoolLease>, after: map<Id, PoolLease>) {
    before.Keys == after.Keys
    && forall l :: l in before ==>
         after[l].pool == before[l].pool && after[l].workload == before[l].workload && (Live(after[l]) ==> Live(before[l]))
  }

  lemma FewerKeepsKeys(before: map<Id, PoolLease>, after: map<Id, PoolLease>)
    requires PoolKeys(before) && Fewer(before, after)
    ensures PoolKeys(after)
  {
  }

  lemma OneFewer(leases: map<Id, PoolLease>, l: Id, x: PoolLease)
    requires l in leases && x.pool == leases[l].pool && x.workload == leases[l].workload && (Live(x) ==> Live(leases[l]))
    ensures Fewer(leases, leases[l := x]) && Fewer(leases, leases)
  {
  }

  // ---- Call by call ----

  predicate Tells(cfg: Config, t: Tables, c: WorkloadCall, l: Id, leases: map<Id, PoolLease>) {
    FactsOf(leases, l) == Told(cfg.poolTtl, t, c, l, FactsOf(t.leases, l))
  }

  lemma LookupFinds(records: map<string, IdemRecord>, key: string, now: Instant)
    ensures W.Lookup(TextBefore, records, key, now).0.Some? <==> key in records && now < records[key].expires
  {
    hide TextBefore;
  }

  lemma PlanStores(cfg: Config, t: Tables, c: WorkloadCall)
    requires c.Plan? && WorkloadStep(cfg, t, c).Ok?
    ensures var leases := WorkloadStep(cfg, t, c).value.leases;
      if !WH.Makes(t.records, c, c.draw.workload) then leases == t.leases
      else
        && leases == t.leases[c.draw.lease := W.Created(cfg.poolTtl, c.user, c.input, c.draw, c.now).lease]
        && !W.LeaseCollides(t.leases, c.draw.lease, c.input.pool, c.draw.workload)
  {
    hide W.ValidPlan, W.Fingerprint, W.Matched, W.LeaseCollides, W.Created, W.Lookup, TextBefore;
    LookupFinds(t.records, c.input.key, c.now);
  }

  lemma PlanTells(cfg: Config, t: Tables, c: WorkloadCall, l: Id)
    requires c.Plan? && WorkloadStep(cfg, t, c).Ok? && PoolKeys(t.leases)
    ensures var leases := WorkloadStep(cfg, t, c).value.leases; Tells(cfg, t, c, l, leases) && PoolKeys(leases)
  {
    hide WorkloadStep, WH.Makes, W.LeaseCollides, PoolKeys;
    PlanStores(cfg, t, c);
    if WH.Makes(t.records, c, c.draw.workload) {
      InsertKeepsKeys(t.leases, c.draw.lease, W.Created(cfg.poolTtl, c.user, c.input, c.draw, c.now).lease);
    }
  }

  lemma ReserveTells(cfg: Config, t: Tables, c: WorkloadCall, l: Id)
    requires c.ReservePool? && WorkloadStep(cfg, t, c).Ok? && PoolKeys(t.leases)
    ensures var leases := WorkloadStep(cfg, t, c).value.leases; Tells(cfg, t, c, l, leases) && PoolKeys(leases)
  {
    hide W.LeaseCollides, PoolKeys;
    InsertKeepsKeys(t.leases, c.draw.lease, PoolLease(c.pool, c.workload, c.user, c.draw.token, c.now + cfg.poolTtl, None, c.now, c.now, 1));
  }

  lemma HolderTells(cfg: Config, t: Tables, c: WorkloadCall, l: Id)
    requires (c.RenewPool? || c.ReleasePool?) && WorkloadStep(cfg, t, c).Ok? && PoolKeys(t.leases)
    ensures var leases := WorkloadStep(cfg, t, c).value.leases; Tells(cfg, t, c, l, leases) && PoolKeys(leases)
  {
    hide W.NamedLease, TextBefore, PoolKeys;
    var leases := WorkloadStep(cfg, t, c).value.leases;
    OneFewer(t.leases, c.lease, leases[c.lease]);
    FewerKeepsKeys(t.leases, leases);
  }

  /** The live lease of a pool is the only live row. */
  lemma OnlyLive(leases: map<Id, PoolLease>, pool: Id, l: Id)
    requires PoolKeys(leases) && l in leases
    ensures W.LiveLease(leases, pool) == Some(l) <==> leases[l].pool == pool && Live(leases[l])
  {
    hide W.LiveLease;
    if leases[l].pool == pool && Live(leases[l]) { assert l in W.LiveLeases(leases, pool); }
  }

  lemma CancelTells(cfg: Config, t: Tables, c: WorkloadCall, l: Id)
    requires c.Cancel? && W.CancelStep(t, c.p, c.id, c.now).Ok? && PoolKeys(t.leases)
    ensures var leases := W.CancelStep(t, c.p, c.id, c.now).value.leases; Tells(cfg, t, c, l, leases) && PoolKeys(leases)
  {
    hide W.CancelStep, W.LiveLease, PoolKeys, Fewer;
    WI.CancelFreesOneLease(t, c.p, c.id, c.now);
    if l in t.leases { OnlyLive(t.leases, t.workloads[c.id].pool, l); }
    var live := W.LiveLease(t.leases, t.workloads[c.id].pool);
    if live.Some? {
      OneFewer(t.leases, live.value, W.ReleasedLease(t.leases[live.value], c.now));
      FewerKeepsKeys(t.leases, t.leases[live.value := W.ReleasedLease(t.leases[live.value], c.now)]);
    }
  }

  lemma StatusCallTells(cfg: Config, t: Tables, c: WorkloadCall, l: Id)
    requires c.Change? || c.Submit?
    ensures Tells(cfg, t, c, l, Committed(t, WorkloadStep(cfg, t, c)).leases)
    ensures Committed(t, WorkloadStep(cfg, t, c)).leases == t.leases
  {
    hide W.StreamsOf, W.Stamped;
  }

  lemma CallTells(cfg: Config, t: Tables, c: WorkloadCall, l: Id)
    requires Inv(t) && WorkloadStep(cfg, t, c).Ok? && PoolKeys(t.leases)
    ensures var leases := WorkloadStep(cfg, t, c).value.leases; Tells(cfg, t, c, l, leases) && PoolKeys(leases)
  {
    hide Inv, PoolKeys, Tells, W.PlanStep, W.ChangeStep, W.SubmitStep, W.CancelStep, W.ReopenStep, W.ReservePool, W.RenewPool, W.ReleasePool, TextBefore;
    match c
    case Plan(_, _, _, _) => PlanTells(cfg, t, c, l);
    case Change(_, _, _, _) => StatusCallTells(cfg, t, c, l);
    case Submit(_, _, _) => StatusCallTells(cfg, t, c, l);
    case Cancel(_, _, _) => CancelTells(cfg, t, c, l);
    case Reopen(_, _, _, _) => WH.ReopenRefused(cfg, t, c);
    case ReservePool(_, _, _, _, _, _) => ReserveTells(cfg, t, c, l);
    case RenewPool(_, _, _, _, _, _, _) => HolderTells(cfg, t, c, l);
    case ReleasePool(_, _, _, _, _, _, _) => HolderTells(cfg, t, c, l);
  }

  lemma RecoveryTells(leases: map<Id, PoolLease>, now: Instant, l: Id)
    requires PoolKeys(leases)
    ensures var after := W.RecoveredLeases(TextBefore, leases, now);
      FactsOf(after, l) == Lapsed(now, FactsOf(leases, l)) && PoolKeys(after)
  {
    hide TextBefore;
    FewerKeepsKeys(leases, W.RecoveredLeases(TextBefore, leases, now));
  }

  lemma OthersKeepLeases(cfg: Config, t: Tables, c: Command)
    requires !c.OnWorkload? && !c.RecoverExpired?
    ensures After(cfg, t, c).leases == t.leases
  {
    hide After;
    F.CallFramed(cfg, t, c);
  }

  lemma StepTells(cfg: Config, t: Tables, c: Command, l: Id)
    requires Inv(t) && PoolKeys(t.leases)
    ensures var leases := After(cfg, t, c).leases;
      && PoolKeys(leases)
      && FactsOf(leases, l) == if Commits(cfg, t, c) then ToldBy(cfg.poolTtl, t, c, l, FactsOf(t.leases, l)) else FactsOf(t.leases, l)
  {
    hide Inv, PoolKeys, Exec, WorkloadStep, FactsOf, Told, Lapsed, TextBefore;
    F.ExecGroups(cfg, t, c);
    if c.OnWorkload? {
      if Commits(cfg, t, c) { CallTells(cfg, t, c.workload, l); }
    } else if c.RecoverExpired? {
      RecoveryTells(t.leases, c.now, l);
    } else {
      OthersKeepLeases(cfg, t, c);
    }
  }

  /**
   * After any run from the empty database a pool lease is what the committed calls tell, a pool has at most one
   * live lease, and a workload at most one lease on a pool.
   */
  lemma {:induction false} LeasesAreHistory(cfg: Config, cs: seq<Command>, l: Id)
    ensures var t := Run(cfg, EMPTY, cs); FactsOf(t.leases, l) == Story(cfg, cs, l) && PoolKeys(t.leases)
  {
    hide Inv, After, Commits, FactsOf, ToldBy, PoolKeys;
    if cs == [] {
      NothingTold(l);
    } else {
      var n := |cs| - 1;
      LeasesAreHistory(cfg, cs[..n], l);
      InvAlong(cfg, cs[..n]);
      StepTells(cfg, Run(cfg, EMPTY, cs[..n]), cs[n], l);
    }
  }

  lemma NothingTold(l: Id)
    ensures FactsOf(EMPTY.leases, l) == None && PoolKeys(EMPTY.leases)
  {
  }

  // ---- Who may take a pool ----

  /** No lease on the pool is live. */
  predicate Free(leases: map<Id, PoolLease>, pool: Id) { forall l :: l in leases && leases[l].pool == pool ==> !Live(leases[l]) }

  predicate NeverLeased(leases: map<Id, PoolLease>, pool: Id, workload: Id) {
    forall l :: l in leases && leases[l].pool == pool ==> leases[l].workload != workload
  }

  lemma ReserveCommitsIff(
    seen: map<Id, Pool>, t: Tables, ttl: int, user: Id, pool: Id, workload: Id, lease: Id, token: string, now: Instant)
    ensures W.ReservePool(seen, t, ttl, user, pool, workload, lease, token, now).Ok? <==>
      && pool != "" && workload != "" && pool in seen && seen[pool].active && pool in t.pools && workload in t.workloads
      && lease !in t.leases && Free(t.leases, pool) && NeverLeased(t.leases, pool, workload)
  {
  }

  /** Provider, pool and offer are known and active, the pool is the provider's, and it can do what the offer requires. */
  predicate Serves(t: Tables, i: W.PlanInput) {
    && i.provider in t.providers && t.providers[i.provider].active
    && i.pool in t.pools && t.pools[i.pool].active && t.pools[i.pool].provider == i.provider
    && i.offer in t.offers && t.offers[i.offer].active
    && (exists r :: r in t.offers[i.offer].required) && (forall r :: r in t.offers[i.offer].required ==> r in t.pools[i.pool].capabilities)
  }

  lemma ServesIsMatched(t: Tables, i: W.PlanInput)
    ensures Serves(t, i) <==> W.Matched(t, i).Ok?
  {
  }

  lemma FreeIsClear(leases: map<Id, PoolLease>, lease: Id, pool: Id, workload: Id)
    ensures !W.LeaseCollides(leases, lease, pool, workload) <==>
      lease !in leases && Free(leases, pool) && NeverLeased(leases, pool, workload)
  {
  }

  /** A plan whose key has no live record commits exactly when its input is valid, the catalog serves it and the pool is free. */
  lemma PlanCommitsIff(cfg: Config, t: Tables, c: WorkloadCall)
    requires c.Plan? && WH.Makes(t.records, c, c.draw.workload)
    ensures WorkloadStep(cfg, t, c).Ok? <==>
      && c.input.provider != "" && c.input.offer != "" && c.input.pool != "" && !Blank(c.input.reservation) && !Blank(c.input.key)
      && |c.input.key| <= 128 && Serves(t, c.input)
      && c.draw.workload !in t.workloads && c.draw.lease !in t.leases && Free(t.leases, c.input.pool)
      && NeverLeased(t.leases, c.input.pool, c.draw.workload)
      && (c.input.key in t.records ==> !TextBefore(c.now, t.records[c.input.key].expires))
  {
    hide Blank, W.Matched, W.LeaseCollides, W.Fingerprint, Serves, Free, NeverLeased, TextBefore, W.Created;
    ServesIsMatched(t, c.input);
    FreeIsClear(t.leases, c.draw.lease, c.input.pool, c.draw.workload);
  }

  /** In a reachable state canceling commits exactly for the operator, before metering, unless another workload holds the pool. */
  lemma CancelCommitsIff(t: Tables, p: Principal, id: Id, now: Instant)
    requires PoolKeys(t.leases)
    ensures W.CancelStep(t, p, id, now).Ok? <==>
      && id in t.workloads && (t.workloads[id].status.Planned? || t.workloads[id].status.Ready? || t.workloads[id].status.Executing?)
      && (p.operator ==> p.user == t.workloads[id].operator)
      && (forall l :: l in t.leases && t.leases[l].pool == t.workloads[id].pool && Live(t.leases[l]) ==> t.leases[l].workload == id)
    ensures W.CancelStep(t, p, id, now).Ok? ==> Free(W.CancelStep(t, p, id, now).value.leases, t.workloads[id].pool)
  {
    hide W.LiveLease, PoolKeys, W.ReleasedLease, W.Moved;
    if id in t.workloads {
      forall l | l in t.leases
        ensures W.LiveLease(t.leases, t.workloads[id].pool) == Some(l) <==> t.leases[l].pool == t.workloads[id].pool && Live(t.leases[l])
      {
        OnlyLive(t.leases, t.workloads[id].pool, l);
      }
    }
    CancelFrees(t, p, id, now);
    hide Free;
  }

  lemma CancelFrees(t: Tables, p: Principal, id: Id, now: Instant)
    requires PoolKeys(t.leases)
    ensures W.CancelStep(t, p, id, now).Ok? ==>
      id in t.workloads && Free(W.CancelStep(t, p, id, now).value.leases, t.workloads[id].pool)
  {
    hide W.CancelStep, W.LiveLease, PoolKeys;
    WI.CancelFreesOneLease(t, p, id, now);
    if W.CancelStep(t, p, id, now).Ok? {
      forall l | l in t.leases
        ensures W.LiveLease(t.leases, t.workloads[id].pool) == Some(l) <==> t.leases[l].pool == t.workloads[id].pool && Live(t.leases[l])
      {
        OnlyLive(t.leases, t.workloads[id].pool, l);
      }
    }
  }

  /** The row is a live lease of the pool that the caller names. */
  predicate Holds(leases: map<Id, PoolLease>, user: Id, pool: Id, lease: Id, token: string, version: int) {
    && lease in leases && leases[lease].pool == pool && Live(leases[lease])
    && leases[lease].owner == user && leases[lease].token == token && leases[lease].version == version
  }

  lemma NamedIsHeld(seen: map<Id, PoolLease>, user: Id, pool: Id, lease: Id, token: string, version: int)
    requires PoolKeys(seen)
    ensures W.NamedLease(seen, user, pool, lease, token, version).Ok? <==> Holds(seen, user, pool, lease, token, version)
  {
    hide W.LiveLease, PoolKeys;
    if lease in seen { OnlyLive(seen, pool, lease); }
  }

  /** Renewing commits exactly for the holder, seen before and found again, whose expiry reads as not passed; releasing needs no expiry. */
  lemma HolderCommitsIff(
    seen: map<Id, PoolLease>, t: Tables, ttl: int, user: Id, pool: Id, lease: Id, token: string, version: int, now: Instant)
    requires PoolKeys(seen) && (lease in seen && lease in t.leases ==> seen[lease].pool == t.leases[lease].pool)
    ensures W.RenewPool(TextBefore, seen, t, ttl, user, pool, lease, token, version, now).Ok? <==>
      && Holds(seen, user, pool, lease, token, version) && Holds(t.leases, user, pool, lease, token, version)
      && TextBefore(now, t.leases[lease].expires)
    ensures W.ReleasePool(seen, t, user, pool, lease, token, version, now).Ok? <==>
      Holds(seen, user, pool, lease, token, version) && Holds(t.leases, user, pool, lease, token, version)
  {
    hide W.NamedLease, PoolKeys, TextBefore;
    NamedIsHeld(seen, user, pool, lease, token, version);
  }
}
