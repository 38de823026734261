/** Progress of the leased-retry protocol: a bound on the steps and the delay of a row, and a bounded wait. */
module LeaseProgress {
  import opened Basics
  import opened Leases
  import opened LeaseSafety
  import Sorting

  // ---- Termination measure ----

  function Measure(i: Item): int {
    if i.Terminal() then 0 else 2 * (i.max - i.attempts) + (if i.phase.Held? then 1 else 0)
  }

  /** The step changes row `id` other than by renewing or checkpointing. */
  ghost predicate Moves(cfg: Config, t: Table, op: Op, id: Id) {
    id in t && After(cfg, t, op)[id] != t[id] && !op.Renew? && !op.Touch?
  }

  lemma MeasureDrops(cfg: Config, t: Table, op: Op, id: Id)
    requires TableOk(t) && id in t
    ensures var a, b := t[id], After(cfg, t, op)[id];
      0 <= Measure(b) <= Measure(a) && (Moves(cfg, t, op, id) ==> Measure(b) < Measure(a))
  {
  }

  /** How many steps of the run moved row `id`. */
  ghost function MoveCount(cfg: Config, ops: seq<Op>, id: Id): nat {
    if ops == [] then 0
    else
      var n := |ops| - 1;
      MoveCount(cfg, ops[..n], id) + (if Moves(cfg, Run(cfg, map[], ops[..n]), ops[n], id) then 1 else 0)
  }

  lemma NewRowMeasure(cfg: Config, t: Table, op: Op, id: Id)
    requires id !in t && Proper(op)
    ensures id in After(cfg, t, op) ==> 0 <= Measure(After(cfg, t, op)[id]) <= 2 * After(cfg, t, op)[id].max
  {
    hide Before, Backoff;
  }

  /** Over any run a row with budget `max` is moved at most `2*max` times. */
  lemma {:induction false} MovesBounded(cfg: Config, ops: seq<Op>, id: Id)
    requires AllProper(ops)
    ensures var t := Run(cfg, map[], ops);
      if id in t then MoveCount(cfg, ops, id) + Measure(t[id]) <= 2 * t[id].max && Measure(t[id]) >= 0
      else MoveCount(cfg, ops, id) == 0
  {
    hide Step, TableOk, Proper, Measure;
    if ops != [] {
      var n := |ops| - 1;
      var t := Run(cfg, map[], ops[..n]);
      MovesBounded(cfg, ops[..n], id);
      ReachableTableOk(cfg, ops[..n]);
      if id in t {
        MeasureDrops(cfg, t, ops[n], id);
        StepRows(cfg, t, ops[n]);
      } else {
        NewRowMeasure(cfg, t, ops[n], id);
      }
    }
  }

  // ---- Total backoff ----

  /** How long a failure puts row `id` off: from the reading of the call to the next attempt that the row stores. */
  ghost function DelayOf(cfg: Config, t: Table, op: Op, id: Id): int {
    if op.Fail? && op.id == id && id in t && Step(cfg, t, op).Some? then After(cfg, t, op)[id].nextAt - op.now else 0
  }

  ghost function Delay(cfg: Config, ops: seq<Op>, id: Id): int {
    if ops == [] then 0
    else
      var n := |ops| - 1;
      Delay(cfg, ops[..n], id) + DelayOf(cfg, Run(cfg, map[], ops[..n]), ops[n], id)
  }

  function BackoffSum(base: int, n: nat): int {
    if n == 0 then 0 else BackoffSum(base, n - 1) + Backoff(base, n)
  }

  lemma {:induction false} BackoffSumGrows(base: int, m: nat, n: nat)
    requires base >= 0 && m <= n
    ensures 0 <= BackoffSum(base, m) <= BackoffSum(base, n)
    decreases n
  {
    if m < n {
      BackoffNonNegative(base, n);
      BackoffSumGrows(base, m, n - 1);
    } else if n > 0 {
      BackoffNonNegative(base, n);
      BackoffSumGrows(base, n - 1, n - 1);
    }
  }

  lemma {:induction false} BackoffSumClosed(base: int, n: nat)
    requires n >= 0
    ensures BackoffSum(base, n) == base * (if n <= 9 then Pow2(n) - 1 else 511 + 256 * (n - 9))
  {
    if n > 0 {
      BackoffSumClosed(base, n - 1);
      assert Pow2(8) == 256 && Pow2(9) == 512;
      var f := if n <= 9 then Pow2(n - 1) else 256;
      assert Backoff(base, n) == base * f;
      var g := if n <= 10 then Pow2(n - 1) - 1 else 511 + 256 * (n - 10);
      assert base * g + base * f == base * (g + f);
    }
  }

  /** How many attempts of the row can already have contributed a backoff. */
  function Spent(i: Item): int { if i.phase.Waiting? then i.attempts else i.attempts - 1 }

  lemma SpentStep(cfg: Config, t: Table, op: Op, id: Id)
    requires TableOk(t) && cfg.base >= 0 && id in t
    ensures var a, b := Spent(t[id]), Spent(After(cfg, t, op)[id]);
      0 <= a <= b && BackoffSum(cfg.base, a) + DelayOf(cfg, t, op, id) <= BackoffSum(cfg.base, b)
  {
    BackoffSumGrows(cfg.base, Spent(t[id]), Spent(After(cfg, t, op)[id]));
  }

  lemma NewRow(cfg: Config, t: Table, op: Op, id: Id)
    requires id !in t
    ensures DelayOf(cfg, t, op, id) == 0
    ensures id in After(cfg, t, op) ==> Spent(After(cfg, t, op)[id]) == 0
  {
  }

  /** The delay so far is covered by the attempts that can have caused it. */
  ghost predicate DelayCovered(cfg: Config, delay: int, t: Table, id: Id) {
    if id in t then 0 <= Spent(t[id]) && delay <= BackoffSum(cfg.base, Spent(t[id])) else delay == 0
  }

  lemma DelayStep(cfg: Config, delay: int, t: Table, op: Op, id: Id)
    requires TableOk(t) && cfg.base >= 0 && DelayCovered(cfg, delay, t, id)
    ensures DelayCovered(cfg, delay + DelayOf(cfg, t, op, id), After(cfg, t, op), id)
  {
    if id in t {
      StepRows(cfg, t, op);
      SpentStep(cfg, t, op, id);
    } else {
      NewRow(cfg, t, op, id);
      assert BackoffSum(cfg.base, 0) == 0;
    }
  }

  lemma {:induction false} DelaySpent(cfg: Config, ops: seq<Op>, id: Id)
    requires AllProper(ops) && cfg.base >= 0
    ensures DelayCovered(cfg, Delay(cfg, ops, id), Run(cfg, map[], ops), id)
  {
    if ops != [] {
      var n := |ops| - 1;
      DelaySpent(cfg, ops[..n], id);
      ReachableTableOk(cfg, ops[..n]);
      DelayStep(cfg, Delay(cfg, ops[..n], id), Run(cfg, map[], ops[..n]), ops[n], id);
    }
  }

  /** The whole backoff of a row with budget `max`, over any run. */
  lemma DelayBounded(cfg: Config, ops: seq<Op>, id: Id)
    requires AllProper(ops) && cfg.base >= 0
    requires id in Run(cfg, map[], ops)
    ensures var max := Run(cfg, map[], ops)[id].max;
      max >= 1 && Delay(cfg, ops, id) <= cfg.base * Limit(max)
  {
    var i := Run(cfg, map[], ops)[id];
    ReachableTableOk(cfg, ops);
    assert WellFormed(i);
    DelaySpent(cfg, ops, id);
    BackoffLimit(cfg.base, Spent(i), i.max);
  }

  /** The bound on the total backoff of a row with budget `max`. */
  function Limit(max: int): int
    requires max >= 1
  {
    if max <= 10 then Pow2(max - 1) - 1 else 511 + 256 * (max - 10)
  }

  lemma BackoffLimit(base: int, spent: int, max: int)
    requires base >= 0 && 0 <= spent <= max - 1
    ensures BackoffSum(base, spent) <= base * Limit(max)
  {
    BackoffSumGrows(base, spent, max - 1);
    BackoffSumClosed(base, max - 1);
    assert Limit(max) == if max - 1 <= 9 then Pow2(max - 1) - 1 else 511 + 256 * (max - 1 - 9);
  }

  // ---- When a failed row is due again ----

  /** The reading from which a failed row with budget left may be claimed. */
  function RetryAt(base: int, attempts: int, now: Instant): Instant
    requires attempts >= 1
  {
    now + base * Pow2(Min(attempts - 1, 8))
  }

  /**
   * A failure that is not permanent, of a row with budget left, puts it off by the base times 2^min(attempts-1, 8):
   * the row waits, and it is due exactly at the readings that are not before that time.  Any other failure buries it.
   */
  lemma FailPutsOff(cfg: Config, t: Table, op: Op)
    requires TableOk(t) && op.Fail? && Step(cfg, t, op).Some?
    ensures op.id in t && t[op.id].phase.Held? && t[op.id].attempts >= 1
    ensures var a, b := t[op.id], After(cfg, t, op)[op.id];
      if op.permanent || a.attempts >= a.max then b.phase.Dead?
      else
        && b.phase.Waiting? && b.nextAt == RetryAt(cfg.base, a.attempts, op.now) && b.attempts == a.attempts
        && DelayOf(cfg, t, op, op.id) == cfg.base * Pow2(Min(a.attempts - 1, 8))
        && forall x :: b.Due(cfg.before, x) <==> !cfg.before(x, RetryAt(cfg.base, a.attempts, op.now))
  {
    assert WellFormed(t[op.id]);
    hide IsNext;
  }

  lemma WaitingStep(cfg: Config, t: Table, op: Op, id: Id)
    requires id in t && t[id].phase.Waiting? && (op.Claim? ==> cfg.before(op.now, t[id].nextAt))
    ensures id in After(cfg, t, op) && After(cfg, t, op)[id] == t[id]
  {
    hide Before, Backoff;
  }

  /** No run whose claims all read earlier than that serves the row, or changes it in any other way. */
  lemma {:induction false} WaitsForRetry(cfg: Config, t: Table, ops: seq<Op>, id: Id)
    requires id in t && t[id].phase.Waiting?
    requires forall k :: 0 <= k < |ops| && ops[k].Claim? ==> cfg.before(ops[k].now, t[id].nextAt)
    ensures id in Run(cfg, t, ops) && Run(cfg, t, ops)[id] == t[id]
  {
    hide After;
    if ops != [] {
      var n := |ops| - 1;
      WaitsForRetry(cfg, t, ops[..n], id);
      WaitingStep(cfg, Run(cfg, t, ops[..n]), ops[n], id);
    }
  }

  // ---- Bounded wait ----

  /** Recovery and a claim at one clock reading, then any calls other than claims. */
  datatype Round = Round(now: Instant, worker: string, token: string, rest: seq<Op>)

  ghost function AfterRound(cfg: Config, t: Table, r: Round): Table {
    Run(cfg, After(cfg, After(cfg, t, Recover(r.now)), Claim(r.now, r.worker, r.token)), r.rest)
  }

  /** The table as round `i` finds it. */
  ghost function Start(cfg: Config, t: Table, rounds: seq<Round>, i: nat): Table
    requires i <= |rounds|
  {
    if i == 0 then t else AfterRound(cfg, Start(cfg, t, rounds, i - 1), rounds[i - 1])
  }

  /** The table that the claim of round `i` sees. */
  ghost function Seen(cfg: Config, t: Table, rounds: seq<Round>, i: nat): Table
    requires i < |rounds|
  {
    After(cfg, Start(cfg, t, rounds, i), Recover(rounds[i].now))
  }

  predicate Quiet(ops: seq<Op>, since: Instant) {
    forall k :: 0 <= k < |ops| ==> !ops[k].Claim? && Proper(ops[k]) && since < ops[k].now
  }

  /** Every later clock reading exceeds the first one. */
  predicate Orderly(rounds: seq<Round>) {
    && rounds != []
    && (forall i :: 0 < i < |rounds| ==> rounds[0].now < rounds[i].now)
    && (forall i :: 0 <= i < |rounds| ==> Quiet(rounds[i].rest, rounds[0].now))
    && (forall i :: 0 <= i < |rounds| ==> rounds[i].worker != "" && rounds[i].token != "")
  }

  /** The due rows that a claim at `now` prefers to `id`. */
  function Ahead(before: Comparison, t: Table, now: Instant, id: Id): set<Id>
    requires id in t
  {
    set o | o in t && t[o].Due(before, now) && Before(before, t, o, id)
  }

  /** The waiting rows ahead of `id`, whether due or not. */
  function Rivals(before: Comparison, t: Table, id: Id): set<Id>
    requires id in t
  {
    set o | o in t && t[o].phase.Waiting? && Before(before, t, o, id)
  }

  /** A step that is not a claim and reads a later clock leaves a waiting row and its rivals alone. */
  lemma QuietStep(cfg: Config, t: Table, op: Op, id: Id)
    requires ByClock(cfg) && TableOk(t) && cfg.base >= 0 && id in t && t[id].phase.Waiting?
    requires !op.Claim? && t[id].nextAt < op.now
    ensures var u := After(cfg, t, op);
      id in u && u[id] == t[id] && Rivals(cfg.before, u, id) == Rivals(cfg.before, t, id)
  {
    var u := After(cfg, t, op);
    if op.Fail? && op.id in t { BackoffNonNegative(cfg.base, t[op.id].attempts); }
    forall o | o in u
      ensures o in Rivals(cfg.before, u, id) <==> o in Rivals(cfg.before, t, id)
    {
    }
  }

  lemma {:induction false} QuietRun(cfg: Config, t: Table, ops: seq<Op>, id: Id)
    requires ByClock(cfg) && TableOk(t) && cfg.base >= 0 && id in t && t[id].phase.Waiting?
    requires Quiet(ops, t[id].nextAt)
    ensures var u := Run(cfg, t, ops);
      TableOk(u) && id in u && u[id] == t[id] && Rivals(cfg.before, u, id) == Rivals(cfg.before, t, id)
  {
    if ops != [] {
      var n := |ops| - 1;
      QuietRun(cfg, t, ops[..n], id);
      StepKeepsTableOk(cfg, Run(cfg, t, ops[..n]), ops[n]);
      QuietStep(cfg, Run(cfg, t, ops[..n]), ops[n], id);
    }
  }

  /** Once recovery has run at `now`, the rivals of a due row are exactly the due rows ahead of it. */
  lemma RivalsAreAhead(cfg: Config, t: Table, now: Instant, id: Id)
    requires ByClock(cfg) && forall o :: o in t ==> !t[o].Expired(cfg.before, now)
    requires id in t && t[id].Due(cfg.before, now)
    ensures t[id].phase.Waiting? && Rivals(cfg.before, t, id) == Ahead(cfg.before, t, now, id)
  {
  }

  lemma ClockIsWeak(cfg: Config)
    requires ByClock(cfg)
    ensures Sorting.WeakOrder(cfg.before)
  {
  }

  /** A claim right after recovery takes the first rival, or the row itself when it has none. */
  lemma ClaimServes(cfg: Config, t: Table, now: Instant, worker: string, token: string, id: Id)
    requires ByClock(cfg) && TableOk(t) && id in t && t[id].phase.Waiting? && t[id].nextAt <= now
    requires forall o :: o in t ==> !t[o].Expired(cfg.before, now)
    ensures Step(cfg, t, Claim(now, worker, token)).Some?
    ensures if Rivals(cfg.before, t, id) == {} then Next(cfg.before, t, now) == Some(id)
      else
        var u := After(cfg, t, Claim(now, worker, token));
        Next(cfg.before, t, now) != Some(id) && id in u && u[id] == t[id] && |Rivals(cfg.before, u, id)| == |Rivals(cfg.before, t, id)| - 1
  {
    ClockIsWeak(cfg);
    NextIsLeastDue(cfg.before, t, now);
    assert t[id].Due(cfg.before, now);
    var n := Next(cfg.before, t, now).value;
    if Rivals(cfg.before, t, id) == {} {
      forall o | o in t && o != id && t[o].Due(cfg.before, now)
        ensures Before(cfg.before, t, id, o)
      {
        assert o !in Rivals(cfg.before, t, id);
        BeforeTotal(cfg.before, t, o, id);
      }
      assert IsNext(cfg.before, t, now, id);
    } else {
      var r :| r in Rivals(cfg.before, t, id);
      assert t[r].Due(cfg.before, now);
      if n == id {
        BeforeAsymmetric(cfg.before, t, r, id);
      } else {
        assert n in Rivals(cfg.before, t, id);
        var u := After(cfg, t, Claim(now, worker, token));
        assert Rivals(cfg.before, u, id) == Rivals(cfg.before, t, id) - {n};
      }
    }
  }

  lemma {:induction false} RoundByRound(cfg: Config, t: Table, rounds: seq<Round>, id: Id, k: nat, i: nat)
    requires ByClock(cfg) && TableOk(t) && cfg.base >= 0 && Orderly(rounds) && i <= k < |rounds|
    requires var s := Seen(cfg, t, rounds, 0);
      id in s && s[id].Due(cfg.before, rounds[0].now) && |Ahead(cfg.before, s, rounds[0].now, id)| == k
    ensures var s := Seen(cfg, t, rounds, i);
      && TableOk(s) && (forall o :: o in s ==> !s[o].Expired(cfg.before, rounds[i].now))
      && id in s && s[id].phase.Waiting? && s[id].nextAt <= rounds[0].now <= rounds[i].now
      && |Rivals(cfg.before, s, id)| == k - i
  {
    if i == 0 {
      StepKeepsTableOk(cfg, t, Recover(rounds[0].now));
      RivalsAreAhead(cfg, Seen(cfg, t, rounds, 0), rounds[0].now, id);
    } else {
      RoundByRound(cfg, t, rounds, id, k, i - 1);
      var r, s := rounds[i - 1], Seen(cfg, t, rounds, i - 1);
      ClaimServes(cfg, s, r.now, r.worker, r.token, id);
      var u := After(cfg, s, Claim(r.now, r.worker, r.token));
      StepKeepsTableOk(cfg, s, Claim(r.now, r.worker, r.token));
      QuietRun(cfg, u, r.rest, id);
      StepKeepsTableOk(cfg, Start(cfg, t, rounds, i), Recover(rounds[i].now));
      QuietStep(cfg, Start(cfg, t, rounds, i), Recover(rounds[i].now), id);
    }
  }

  /**
   * Bounded wait under guards that read the clock: when recovery runs before each claim at the same reading and the later readings
   * exceed the first, a due row with `k` due rows ahead of it is served by claim `k + 1`, and the
   * `k` claims before that one are accepted and serve other rows.
   */
  lemma BoundedWait(cfg: Config, t: Table, rounds: seq<Round>, id: Id, k: nat)
    requires ByClock(cfg) && TableOk(t) && cfg.base >= 0 && Orderly(rounds) && k < |rounds|
    requires var s := Seen(cfg, t, rounds, 0);
      id in s && s[id].Due(cfg.before, rounds[0].now) && |Ahead(cfg.before, s, rounds[0].now, id)| == k
    ensures forall i :: 0 <= i <= k ==>
      var s, r := Seen(cfg, t, rounds, i), rounds[i];
      Step(cfg, s, Claim(r.now, r.worker, r.token)).Some? && (Next(cfg.before, s, r.now) == Some(id) <==> i == k)
  {
    forall i | 0 <= i <= k
      ensures var s, r := Seen(cfg, t, rounds, i), rounds[i];
        Step(cfg, s, Claim(r.now, r.worker, r.token)).Some? && (Next(cfg.before, s, r.now) == Some(id) <==> i == k)
    {
      RoundByRound(cfg, t, rounds, id, k, i);
      var s, r := Seen(cfg, t, rounds, i), rounds[i];
      ClaimServes(cfg, s, r.now, r.worker, r.token, id);
    }
  }
}
