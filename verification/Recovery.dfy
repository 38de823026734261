/** Restart recovery: one transaction that takes back every expired lease. */
module Recovery {
  import opened Basics
  import opened Domain
  import opened Listing
  import opened Timestamps
  import W = Workloads
  import M = Metering
  import J = Scheduler
  import O = Outbox

  /** The whole effect of recovery at clock reading `now`. */
  function RecoverStep(before: Comparison, t: Tables, now: Instant): Tables {
    t.(leases := W.RecoveredLeases(before, t.leases, now), batches := M.RecoveredBatches(before, t.batches, now),
       jobs := J.RecoveredJobs(before, t.jobs, now), events := O.RecoveredEvents(before, t.events, now))
  }

  function ExpiredJobs(before: Comparison, jobs: map<Id, Job>, now: Instant): set<Id> {
    set j | j in jobs && J.Expired(before, jobs[j], now)
  }

  function ExpiredLeases(before: Comparison, leases: map<Id, PoolLease>, now: Instant): set<Id> {
    set l | l in leases && leases[l].released.None? && !before(now, leases[l].expires)
  }

  function ExpiredBatches(before: Comparison, batches: map<Id, Batch>, now: Instant): set<Id> {
    set b | b in batches && batches[b].status.BatchClaimed? && batches[b].expires.Some? && !before(now, batches[b].expires.value)
  }

  function ExpiredEvents(before: Comparison, events: map<Id, Event>, now: Instant): set<Id> {
    set e | e in events && O.Expired(before, events[e], now)
  }

  datatype Counts = Counts(leases: nat, batches: nat, jobs: nat, events: nat)

  /** The jobs when the listed ones have been recovered. */
  function PartlyRecovered(before: Comparison, jobs: map<Id, Job>, done: seq<Id>, now: Instant): map<Id, Job> {
    map j | j in jobs :: if j in done then J.RecoveredJob(before, jobs[j], now) else jobs[j]
  }

  /** The row the loop writes for the next selected job. */
  function LapsedRow(job: Job, now: Instant): Job {
    var status := if job.attempts >= job.max then JobFailed else Retrying;
    J.Freed(job, status, J.RecoveryError(status), now, now)
  }

  lemma RecoverOneMore(before: Comparison, jobs: map<Id, Job>, done: seq<Id>, id: Id, now: Instant)
    requires id in ExpiredJobs(before, jobs, now) && id !in done
    ensures PartlyRecovered(before, jobs, done, now)[id] == jobs[id] && J.Expired(before, jobs[id], now)
    ensures PartlyRecovered(before, jobs, done + [id], now) == PartlyRecovered(before, jobs, done, now)[id := LapsedRow(jobs[id], now)]
  {
  }

  lemma NotYetDone(ids: seq<Id>, k: nat)
    requires k < |ids| && forall i, j :: 0 <= i < j < |ids| ==> ids[i] != ids[j]
    ensures ids[k] in ids && ids[k] !in ids[..k] && ids[..k + 1] == ids[..k] + [ids[k]]
  {
  }

  lemma AllRecovered(before: Comparison, jobs: map<Id, Job>, done: seq<Id>, now: Instant)
    requires forall j :: j in ExpiredJobs(before, jobs, now) ==> j in done
    ensures PartlyRecovered(before, jobs, [], now) == jobs
    ensures PartlyRecovered(before, jobs, done, now) == J.RecoveredJobs(before, jobs, now)
  {
  }

  class Service {
    const db: Database

    constructor (db: Database)
      ensures this.db == db
    {
      this.db := db;
    }

    /** Selects the expired jobs first, then updates them one by one under the same condition. */
    static method RecoverSchedulerJobs(jobs: map<Id, Job>, now: Instant) returns (result: map<Id, Job>, changed: nat)
      ensures result == J.RecoveredJobs(TextBefore, jobs, now) && changed == |ExpiredJobs(TextBefore, jobs, now)|
    {
      hide TextBefore;
      var selected := ById(ExpiredJobs(TextBefore, jobs, now));
      AllRecovered(TextBefore, jobs, selected, now);
      result, changed := jobs, 0;
      for k := 0 to |selected|
        invariant result == PartlyRecovered(TextBefore, jobs, selected[..k], now) && changed == k
      {
        var id := selected[k];
        NotYetDone(selected, k);
        RecoverOneMore(TextBefore, jobs, selected[..k], id, now);
        var job := result[id];
        if J.Expired(TextBefore, job, now) { result, changed := result[id := LapsedRow(job, now)], changed + 1; }
      }
      assert selected[..|selected|] == selected;
    }

    method RecoverExpired(now: Instant) returns (counts: Counts)
      modifies db
      ensures db.tables == RecoverStep(TextBefore, old(db.tables), now)
      ensures var t := old(db.tables);
        counts == Counts(|ExpiredLeases(TextBefore, t.leases, now)|, |ExpiredBatches(TextBefore, t.batches, now)|,
                         |ExpiredJobs(TextBefore, t.jobs, now)|, |ExpiredEvents(TextBefore, t.events, now)|)
    {
      hide TextBefore;
      var tx := db.tables;
      var leases := |ExpiredLeases(TextBefore, tx.leases, now)|;
      tx := tx.(leases := W.RecoveredLeases(TextBefore, tx.leases, now));
      var batches := |ExpiredBatches(TextBefore, tx.batches, now)|;
      tx := tx.(batches := M.RecoveredBatches(TextBefore, tx.batches, now));
      var recovered, jobs := RecoverSchedulerJobs(tx.jobs, now);
      tx := tx.(jobs := recovered);
      var events := |ExpiredEvents(TextBefore, tx.events, now)|;
      tx := tx.(events := O.RecoveredEvents(TextBefore, tx.events, now));
      db.tables := tx;
      counts := Counts(leases, batches, jobs, events);
    }
  }

  /** The counts are those of the rows that recovery changes. */
  lemma CountsChanged(before: Comparison, t: Tables, now: Instant)
    ensures var u := RecoverStep(before, t, now);
      && ExpiredLeases(before, t.leases, now) == (set l | l in t.leases && u.leases[l] != t.leases[l])
      && ExpiredBatches(before, t.batches, now) == (set b | b in t.batches && u.batches[b] != t.batches[b])
      && ExpiredJobs(before, t.jobs, now) == (set j | j in t.jobs && u.jobs[j] != t.jobs[j])
      && ExpiredEvents(before, t.events, now) == (set e | e in t.events && u.events[e] != t.events[e])
  {
  }
}
