/** Idempotent planning over whole runs. */
module Planning {
  import opened Basics
  import opened Domain
  import opened System
  import opened Timestamps
  import Fingerprints
  import W = Workloads
  import F = Frames
  import X = TextLeases

  /** The call plans under the key, commits, and is not a replay. */
  ghost predicate Creates(cfg: Config, t: Tables, c: Command, key: string) {
    c.OnWorkload? && c.workload.Plan? && c.workload.input.key == key && Made(cfg, t, c.workload)
  }

  function Planned(cfg: Config, t: Tables, c: WorkloadCall): Result<W.PlanOutcome>
    requires c.Plan?
  {
    W.PlanStep(TextBefore, t, cfg.poolTtl, c.user, c.input, c.draw, c.now)
  }

  predicate Made(cfg: Config, t: Tables, c: WorkloadCall)
    requires c.Plan?
  {
    Planned(cfg, t, c).Ok? && !Planned(cfg, t, c).value.replay
  }

  function RecordFor(cfg: Config, c: WorkloadCall): IdemRecord
    requires c.Plan?
  {
    IdemRecord(W.Fingerprint(c.input), W.Created(cfg.poolTtl, c.user, c.input, c.draw, c.now), c.now, c.now + W.IDEMPOTENCY_TTL)
  }

  /** A plan that creates stores its record over an expired one or none; any other plan keeps the records. */
  lemma PlanRecords(cfg: Config, t: Tables, c: WorkloadCall)
    requires c.Plan?
    ensures var u := Committed(t, WorkloadStep(cfg, t, c));
      if Made(cfg, t, c) then
        u.records == t.records[c.input.key := RecordFor(cfg, c)]
        && (c.input.key in t.records ==> t.records[c.input.key].expires <= c.now)
        && Planned(cfg, t, c).value.result == RecordFor(cfg, c).response
      else u.records == t.records
  {
    hide W.ValidPlan, W.Fingerprint, W.Matched, W.LeaseCollides, W.Created, TextBefore;
    var r := Planned(cfg, t, c);
    if Made(cfg, t, c) {
      var records := W.Lookup(TextBefore, t.records, c.input.key, c.now).1;
      assert records[c.input.key := RecordFor(cfg, c)] == t.records[c.input.key := RecordFor(cfg, c)];
    }
  }

  /** Only a creation under a key changes the record of that key. */
  lemma RecordStep(cfg: Config, t: Tables, c: Command, key: string)
    ensures var u := After(cfg, t, c);
      if Creates(cfg, t, c, key) then
        u.records == t.records[key := RecordFor(cfg, c.workload)] && (key in t.records ==> t.records[key].expires <= c.workload.now)
      else
        (key in u.records <==> key in t.records) && (key in t.records ==> u.records[key] == t.records[key])
  {
    hide Exec, WorkloadStep, Made, RecordFor;
    F.ExecGroups(cfg, t, c);
    if !c.OnWorkload? {
      F.Unchanged(cfg, t, c);
    } else if c.workload.Plan? {
      PlanRecords(cfg, t, c.workload);
    } else {
      F.WorkloadCallFrame(cfg, t, c.workload);
    }
  }

  /** The record of the key outlives clock reading `at` by the time to live. */
  predicate Outlives(records: map<string, IdemRecord>, key: string, at: Instant) {
    key in records && records[key].expires >= at + W.IDEMPOTENCY_TTL
  }

  lemma {:induction false} RecordOutlives(cfg: Config, t: Tables, cs: seq<Command>, key: string, at: Instant)
    requires Outlives(t.records, key, at)
    ensures Outlives(Run(cfg, t, cs).records, key, at)
  {
    hide After, Creates;
    if cs != [] {
      var n := |cs| - 1;
      RecordOutlives(cfg, t, cs[..n], key, at);
      RecordStep(cfg, Run(cfg, t, cs[..n]), cs[n], key);
    }
  }

  /** No call of the run creates under the key. */
  ghost predicate NoneCreates(cfg: Config, t: Tables, cs: seq<Command>, key: string) {
    forall n :: 0 <= n < |cs| ==> !Creates(cfg, Run(cfg, t, cs[..n]), cs[n], key)
  }

  lemma {:induction false} RecordStays(cfg: Config, t: Tables, cs: seq<Command>, key: string)
    requires key in t.records && NoneCreates(cfg, t, cs, key)
    ensures key in Run(cfg, t, cs).records && Run(cfg, t, cs).records[key] == t.records[key]
  {
    hide After, Creates;
    if cs != [] {
      var n := |cs| - 1;
      forall k | 0 <= k < n
        ensures !Creates(cfg, Run(cfg, t, cs[..n][..k]), cs[..n][k], key)
      {
        assert cs[..n][..k] == cs[..k] && cs[..n][k] == cs[k];
      }
      RecordStays(cfg, t, cs[..n], key);
      RecordStep(cfg, Run(cfg, t, cs[..n]), cs[n], key);
    }
  }

  lemma CreationStores(cfg: Config, t: Tables, c: Command)
    requires c.OnWorkload? && c.workload.Plan? && Made(cfg, t, c.workload)
    ensures var u, key := After(cfg, t, c), c.workload.input.key;
      && key in u.records && u.records[key] == RecordFor(cfg, c.workload)
      && Planned(cfg, t, c.workload).value.result == u.records[key].response
  {
    hide Exec, WorkloadStep, W.PlanStep, RecordFor;
    F.ExecGroups(cfg, t, c);
    PlanRecords(cfg, t, c.workload);
  }

  /** Two creations under one key, with any run between them, are at least the time to live apart. */
  lemma CreationsApart(cfg: Config, t: Tables, first: Command, between: seq<Command>, second: Command, key: string)
    requires Creates(cfg, t, first, key)
    requires Creates(cfg, Run(cfg, After(cfg, t, first), between), second, key)
    ensures second.workload.now >= first.workload.now + 24 * 3600 * 1_000_000_000
  {
    var u := After(cfg, t, first);
    CreationStores(cfg, t, first);
    RecordOutlives(cfg, u, between, key, first.workload.now);
    RecordStep(cfg, Run(cfg, u, between), second, key);
    hide After, Run, Made;
  }

  /** What a plan does when its key has a live record: it replays it or conflicts with it, and writes nothing. */
  lemma LiveRecord(cfg: Config, t: Tables, c: WorkloadCall)
    requires c.Plan? && W.ValidPlan(c.input) && c.input.key in t.records && c.now < t.records[c.input.key].expires
    ensures var record := t.records[c.input.key];
      Planned(cfg, t, c) == if record.fingerprint == W.Fingerprint(c.input)
        then Ok(W.PlanOutcome(t, record.response, true)) else Err(IdempotencyConflict)
  {
    hide W.ValidPlan, W.Fingerprint, W.Matched, TextBefore;
  }

  /** An expired record is not replayed. */
  lemma ExpiredRecord(cfg: Config, t: Tables, c: WorkloadCall)
    requires c.Plan? && c.input.key in t.records && t.records[c.input.key].expires <= c.now
    ensures Planned(cfg, t, c).Ok? ==> !Planned(cfg, t, c).value.replay
  {
    hide W.ValidPlan, W.Fingerprint, W.Matched, W.LeaseCollides, TextBefore;
  }

  /**
   * The DELETE compares texts: a plan that would create without its expired record creates over it exactly when
   * the two times are comparable, and otherwise fails on the key of the record that stayed.
   */
  lemma StaleRecordBlocksIff(cfg: Config, t: Tables, c: WorkloadCall)
    requires c.Plan? && c.input.key in t.records && t.records[c.input.key].expires <= c.now
    requires Printable(c.now) && Printable(t.records[c.input.key].expires)
    requires Made(cfg, t.(records := t.records - {c.input.key}), c)
    ensures Planned(cfg, t, c) ==
      if Comparable(c.now, t.records[c.input.key].expires) then Planned(cfg, t.(records := t.records - {c.input.key}), c)
      else Err(Storage)
  {
    hide W.ValidPlan, W.Fingerprint, W.LeaseCollides, W.Created, Printable, TextBefore, Comparable, W.Matched;
    X.ReadsWrongIff(c.now, t.records[c.input.key].expires);
    SameCatalog(t, c.input);
  }

  lemma SameCatalog(t: Tables, input: W.PlanInput)
    ensures W.Matched(t.(records := t.records - {input.key}), input) == W.Matched(t, input)
  {
  }

  /** On parts without a zero byte, requests under one key have one fingerprint exactly when they are the same. */
  lemma SameRequest(input: W.PlanInput, other: W.PlanInput)
    requires PartsNulFree(input) && PartsNulFree(other) && input.key == other.key
    ensures W.Fingerprint(input) == W.Fingerprint(other) <==> input == other
  {
    var p := [input.provider, input.offer, input.pool, input.reservation];
    var q := [other.provider, other.offer, other.pool, other.reservation];
    if W.Fingerprint(input) == W.Fingerprint(other) {
      Fingerprints.FramedInjective(p, q);
      assert p[0] == q[0] && p[1] == q[1] && p[2] == q[2] && p[3] == q[3];
    }
  }

  predicate PartsNulFree(input: W.PlanInput) {
    && Fingerprints.NulFree(input.provider) && Fingerprints.NulFree(input.offer)
    && Fingerprints.NulFree(input.pool) && Fingerprints.NulFree(input.reservation)
  }

  /**
   * After a creation, and until the next one under its key, a plan under that key within the time to live
   * returns the first workload and lease when the request is the same, conflicts when it differs, and writes
   * nothing either way; a plan that creates comes at least the time to live later.
   */
  lemma ReplaysReturnFirst(cfg: Config, t: Tables, first: Command, between: seq<Command>, again: WorkloadCall)
    requires first.OnWorkload? && first.workload.Plan? && Made(cfg, t, first.workload)
    requires NoneCreates(cfg, After(cfg, t, first), between, first.workload.input.key)
    requires again.Plan? && again.input.key == first.workload.input.key && W.ValidPlan(again.input)
    requires PartsNulFree(first.workload.input) && PartsNulFree(again.input)
    ensures var v := Run(cfg, After(cfg, t, first), between);
      if again.now < first.workload.now + 24 * 3600 * 1_000_000_000 then
        Planned(cfg, v, again) == if again.input == first.workload.input
          then Ok(W.PlanOutcome(v, Planned(cfg, t, first.workload).value.result, true)) else Err(IdempotencyConflict)
      else Planned(cfg, v, again).Ok? ==> !Planned(cfg, v, again).value.replay
  {
    hide After, Run, W.PlanStep, Made, NoneCreates, W.ValidPlan, W.Fingerprint, PartsNulFree;
    var u, key := After(cfg, t, first), first.workload.input.key;
    var v := Run(cfg, u, between);
    CreationStores(cfg, t, first);
    RecordStays(cfg, u, between, key);
    SameRequest(again.input, first.workload.input);
    if again.now < first.workload.now + W.IDEMPOTENCY_TTL { LiveRecord(cfg, v, again); } else { ExpiredRecord(cfg, v, again); }
  }
}
