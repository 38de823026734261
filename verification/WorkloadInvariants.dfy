/** The workload and pool lease calls keep the invariant of the pipeline. */
module WorkloadInvariants {
  import opened Basics
  import opened Domain
  import opened System
  import W = Workloads

  // ---- Leases ----

  /** No lease row disappears or changes its pool or workload. */
  predicate LeasesKept(before: map<Id, PoolLease>, after: map<Id, PoolLease>) {
    forall l :: l in before ==> l in after && after[l].pool == before[l].pool && after[l].workload == before[l].workload
  }

  lemma HasLeaseKept(before: map<Id, PoolLease>, after: map<Id, PoolLease>, pool: Id, workload: Id)
    requires LeasesKept(before, after) && HasLease(before, pool, workload)
    ensures HasLease(after, pool, workload)
  {
    var l :| l in before && before[l].pool == pool && before[l].workload == workload;
    assert l in after && after[l].pool == pool && after[l].workload == workload;
  }

  lemma LeasesStay(workloads: map<Id, Workload>, leases: map<Id, PoolLease>, workloads': map<Id, Workload>, leases': map<Id, PoolLease>)
    requires LeasesOk(workloads, leases) && LeasesKept(leases, leases')
    requires forall v :: v in workloads' ==>
      if v in workloads then workloads'[v].pool == workloads[v].pool else HasLease(leases', workloads'[v].pool, v)
    ensures LeasesOk(workloads', leases')
  {
    forall v | v in workloads' && v in workloads
      ensures HasLease(leases', workloads'[v].pool, v)
    {
      HasLeaseKept(leases, leases', workloads[v].pool, v);
    }
  }

  lemma LeasesChange(t: Tables, leases: map<Id, PoolLease>)
    requires Inv(t) && LeasesKept(t.leases, leases)
    ensures Inv(t.(leases := leases))
  {
    LeasesStay(t.workloads, t.leases, t.workloads, leases);
    hide *;
    InvParts(t);
    InvParts(t.(leases := leases));
  }

  lemma ReservePoolKeeps(
    seen: map<Id, Pool>, t: Tables, ttl: int, user: Id, pool: Id, workload: Id, lease: Id, token: string, now: Instant)
    requires Inv(t)
    ensures Inv(Committed(t, W.ReservePool(seen, t, ttl, user, pool, workload, lease, token, now)))
  {
    hide Inv;
    var r := W.ReservePool(seen, t, ttl, user, pool, workload, lease, token, now);
    if r.Ok? { LeasesChange(t, r.value.leases); }
  }

  lemma RenewPoolKeeps(
    before: Comparison, seen: map<Id, PoolLease>, t: Tables, ttl: int, user: Id, pool: Id, lease: Id, token: string, version: int,
    now: Instant)
    requires Inv(t)
    ensures Inv(Committed(t, W.RenewPool(before, seen, t, ttl, user, pool, lease, token, version, now)))
  {
    hide Inv, W.NamedLease;
    var r := W.RenewPool(before, seen, t, ttl, user, pool, lease, token, version, now);
    if r.Ok? { LeasesChange(t, r.value.leases); }
  }

  lemma ReleasePoolKeeps(
    seen: map<Id, PoolLease>, t: Tables, user: Id, pool: Id, lease: Id, token: string, version: int, now: Instant)
    requires Inv(t)
    ensures Inv(Committed(t, W.ReleasePool(seen, t, user, pool, lease, token, version, now)))
  {
    hide Inv, W.NamedLease;
    var r := W.ReleasePool(seen, t, user, pool, lease, token, version, now);
    if r.Ok? { LeasesChange(t, r.value.leases); }
  }

  // ---- Workloads ----

  /** The rows other than `id` stay, and `id` is not settled before. */
  predicate OthersStay(before: map<Id, Workload>, after: map<Id, Workload>, id: Id) {
    && (forall v :: v in before ==> v in after && (v == id || after[v] == before[v]))
    && (id in before ==> !before[id].status.Settled?)
  }

  /** Batches and members belong to settled workloads, so another workload may change. */
  lemma SettledElsewhere(t: Tables, workloads: map<Id, Workload>, id: Id)
    requires BatchesOk(t.workloads, t.batches) && MembersOk(t.workloads, t.batches, t.drafts, t.members)
    requires OthersStay(t.workloads, workloads, id)
    ensures BatchesOk(workloads, t.batches) && MembersOk(workloads, t.batches, t.drafts, t.members)
  {
    forall m | m in t.members
      ensures EligibleNow(workloads, t.batches, t.members[m].workload)
    {
      assert EligibleNow(t.workloads, t.batches, t.members[m].workload);
    }
  }

  lemma StreamsStay(t: Tables, workloads: map<Id, Workload>, id: Id)
    requires StreamsOk(t.workloads, t.streams, t.segments) && SubmittedOk(t.workloads, t.streams)
    requires OthersStay(t.workloads, workloads, id) && workloads.Keys == t.workloads.Keys + {id}
    requires id in workloads && (PastSubmission(workloads[id]) ==> AllAligned(t.streams, id))
    ensures StreamsOk(workloads, t.streams, t.segments) && SubmittedOk(workloads, t.streams)
  {
    hide StreamOk, AllAligned;
  }

  /** A workload that is not settled has no batch and no membership, so it may change or be new. */
  lemma WorkloadChange(t: Tables, id: Id, w: Workload, leases: map<Id, PoolLease>)
    requires Inv(t) && (id in t.workloads ==> !t.workloads[id].status.Settled?)
    requires PastSubmission(w) ==> AllAligned(t.streams, id)
    requires LeasesKept(t.leases, leases)
    requires if id in t.workloads then w.pool == t.workloads[id].pool else HasLease(leases, w.pool, id)
    ensures Inv(t.(workloads := t.workloads[id := w], leases := leases))
  {
    var workloads := t.workloads[id := w];
    assert OthersStay(t.workloads, workloads, id);
    hide *;
    InvParts(t);
    SettledElsewhere(t, workloads, id);
    StreamsStay(t, workloads, id);
    LeasesStay(t.workloads, t.leases, workloads, leases);
    InvParts(t.(workloads := workloads, leases := leases));
  }

  lemma ChangeKeeps(t: Tables, p: Principal, id: Id, call: W.StatusCall, now: Instant)
    requires Inv(t)
    ensures Inv(Committed(t, W.ChangeStep(t, p, id, call, now)))
  {
    hide Inv, AllAligned, W.Stamped;
    AlignedOnceSubmitted(t, id);
    var r := W.ChangeStep(t, p, id, call, now);
    if r.Ok? { WorkloadChange(t, id, r.value.workloads[id], t.leases); }
  }

  lemma AlignedOnceSubmitted(t: Tables, id: Id)
    requires Inv(t)
    ensures id in t.workloads && PastSubmission(t.workloads[id]) ==> AllAligned(t.streams, id)
  {
  }

  lemma SubmitKeeps(t: Tables, p: Principal, id: Id, now: Instant)
    requires Inv(t)
    ensures Inv(Committed(t, W.SubmitStep(t, p, id, now)))
  {
    hide Inv;
    var r := W.SubmitStep(t, p, id, now);
    if r.Ok? { WorkloadChange(t, id, r.value.workloads[id], t.leases); }
  }

  lemma CancelFreesOneLease(t: Tables, p: Principal, id: Id, now: Instant)
    ensures match W.CancelStep(t, p, id, now)
      case Ok(u) =>
        && LeasesKept(t.leases, u.leases) && id in t.workloads && id in u.workloads
        && u == t.(workloads := t.workloads[id := u.workloads[id]], leases := u.leases)
        && !t.workloads[id].status.Settled? && !t.workloads[id].status.WorkFailed? && u.workloads[id].status.WorkCanceled?
        && u.workloads[id] == W.Moved(t.workloads[id], WorkCanceled, t.workloads[id].times.(canceled := Some(now)), now)
        && (var live := W.LiveLease(t.leases, t.workloads[id].pool);
            if live.None? then u.leases == t.leases
            else t.leases[live.value].workload == id
                 && u.leases == t.leases[live.value := W.ReleasedLease(t.leases[live.value], now)])
      case Err(_) => true
  {
    hide W.LiveLease, LeasesKept;
    NoneReleased(t.leases);
    if id in t.workloads {
      var live := W.LiveLease(t.leases, t.workloads[id].pool);
      if live.Some? { OneReleased(t.leases, live.value, now); }
    }
  }

  lemma NoneReleased(leases: map<Id, PoolLease>)
    ensures LeasesKept(leases, leases)
  {
  }

  lemma OneReleased(leases: map<Id, PoolLease>, l: Id, now: Instant)
    requires l in leases
    ensures LeasesKept(leases, leases[l := W.ReleasedLease(leases[l], now)])
  {
  }

  lemma CancelKeeps(t: Tables, p: Principal, id: Id, now: Instant)
    requires Inv(t)
    ensures Inv(Committed(t, W.CancelStep(t, p, id, now)))
  {
    hide Inv, AllAligned;
    var r := W.CancelStep(t, p, id, now);
    if r.Ok? {
      CancelFreesOneLease(t, p, id, now);
      hide W.CancelStep;
      WorkloadChange(t, id, r.value.workloads[id], r.value.leases);
    }
  }

  /** Every workload has a lease row on its own pool, so the lease that reopening inserts always collides. */
  lemma ReopenNeverCommits(t: Tables, ttl: int, p: Principal, id: Id, draw: W.Draw, now: Instant)
    requires LeasesOk(t.workloads, t.leases)
    ensures W.ReopenStep(t, ttl, p, id, draw, now).Err?
  {
    if id in t.workloads {
      assert HasLease(t.leases, t.workloads[id].pool, id);
    }
  }

  lemma PlanKeeps(before: Comparison, t: Tables, ttl: int, user: Id, input: W.PlanInput, draw: W.Draw, now: Instant)
    requires Inv(t)
    ensures match W.PlanStep(before, t, ttl, user, input, draw, now)
      case Ok(planned) => Inv(planned.tables)
      case Err(_) => true
  {
    hide Inv, AllAligned;
    var r := W.PlanStep(before, t, ttl, user, input, draw, now);
    if r.Ok? && !r.value.replay {
      var u, made := r.value.tables, r.value.result;
      assert u.leases[draw.lease].pool == made.workload.pool && u.leases[draw.lease].workload == draw.workload;
      WorkloadChange(t, draw.workload, made.workload, u.leases);
      InvAside(t.(workloads := u.workloads, leases := u.leases), u);
    }
  }
}
