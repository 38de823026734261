/**
 * The leased-retry protocol behind scheduler jobs and outbox events: a table of items that
 * workers claim under an owner/token/expiry lease, renew, finish or fail, and that recovery
 * takes back.  `Scheduler` and `Outbox` are shown to refine this machine.
 *
 * Every step carries the clock reading `now` of its caller.  Readings are taken before the
 * transaction begins, so nothing here assumes that they grow from step to step.
 *
 * The guards compare times with the configured comparison.  The source compares the texts that
 * it stores (`OnText`); `OnClock` is the machine that its authors have in mind.
 */
module Leases {
  import opened Basics
  import Text
  import Listing
  import Sorting
  import Timestamps

  datatype Phase = Waiting | Held | Done | Dead

  datatype Item = Item(
    phase: Phase,
    owner: string,
    token: string,
    expires: Option<Instant>,
    attempts: int,
    max: int,
    nextAt: Instant,
    created: Instant,
    version: int)
  {
    predicate Expired(before: Comparison, now: Instant) { phase.Held? && expires.Some? && !before(now, expires.value) }

    predicate Live(before: Comparison, now: Instant) { phase.Held? && expires.Some? && before(now, expires.value) }

    predicate Due(before: Comparison, now: Instant) { !before(now, nextAt) && (phase.Waiting? || Expired(before, now)) }

    predicate Terminal() { phase.Done? || phase.Dead? }

    /** The caller names the current owner, token and version. */
    predicate Presented(worker: string, tok: string, v: int) {
      owner == worker && token == tok && version == v
    }

    function Claimed(worker: string, tok: string, until: Instant): Item {
      this.(phase := Held, owner := worker, token := tok, expires := Some(until),
            attempts := attempts + 1, version := version + 1)
    }

    function Released(to: Phase, next: Instant): Item {
      this.(phase := to, owner := "", token := "", expires := None, nextAt := next, version := version + 1)
    }

    /** What recovery at `now` makes of the item. */
    function Recovered(before: Comparison, now: Instant): Item {
      if Expired(before, now) then Released(if attempts >= max then Dead else Waiting, now) else this
    }
  }

  type Table = map<Id, Item>

  datatype Config = Config(ttl: int, base: int, before: Comparison)

  /** The durations a service is configured with. */
  datatype Timing = Timing(ttl: int, base: int) {
    /** Guards on the stored texts, as in the SQL of the source. */
    function OnText(): Config { Config(ttl, base, Timestamps.TextBefore) }

    /** Guards on the instants themselves. */
    function OnClock(): Config { Config(ttl, base, Earlier) }
  }

  ghost predicate ByClock(cfg: Config) { forall a, b :: cfg.before(a, b) <==> a < b }

  datatype Op =
    | Enqueue(id: Id, max: int, now: Instant)
    | Claim(now: Instant, worker: string, token: string)
    | Renew(now: Instant, id: Id, worker: string, token: string, version: int)
    | Touch(now: Instant, id: Id, worker: string, token: string, version: int)
    | Finish(now: Instant, id: Id, worker: string, token: string, version: int)
    | Fail(now: Instant, id: Id, worker: string, token: string, version: int, permanent: bool)
    | Recover(now: Instant)
  {
    /** The step quotes a lease that an earlier claim handed out. */
    predicate Presenting() { Renew? || Touch? || Finish? || Fail? }
  }

  function Pow2(n: nat): (r: nat)
    ensures r >= 1
  {
    if n == 0 then 1 else 2 * Pow2(n - 1)
  }

  /** `retryBase * 2^min(attempt-1, 8)`; the quotient is the source's truncated half when no attempt was made. */
  function Backoff(base: int, attempt: int): int {
    if attempt >= 1 then base * Pow2(Min(attempt - 1, 8)) else base / Pow2(1 - attempt)
  }

  /** `ORDER BY next_attempt_at, created_at, id`. */
  predicate Before(before: Comparison, t: Table, a: Id, b: Id)
    requires a in t && b in t
  {
    before(t[a].nextAt, t[b].nextAt)
    || (!before(t[b].nextAt, t[a].nextAt)
        && (before(t[a].created, t[b].created) || (!before(t[b].created, t[a].created) && Text.Less(a, b))))
  }

  /** The row a due query with `LIMIT 1` selects. */
  predicate IsNext(before: Comparison, t: Table, now: Instant, id: Id) {
    id in t && t[id].Due(before, now) && forall o :: o in t && o != id && t[o].Due(before, now) ==> Before(before, t, id, o)
  }

  ghost function Next(before: Comparison, t: Table, now: Instant): (r: Option<Id>)
    ensures r.Some? ==> IsNext(before, t, now, r.value)
  {
    if exists id :: IsNext(before, t, now, id) then var id :| IsNext(before, t, now, id); Some(id) else None
  }

  /** One step; `None` when the call is rejected. */
  ghost function Step(cfg: Config, t: Table, op: Op): Option<Table> {
    match op
    case Enqueue(id, max, now) =>
      if id in t then None else Some(t[id := Item(Waiting, "", "", None, 0, max, now, now, 1)])
    case Claim(now, worker, token) =>
      var next := Next(cfg.before, t, now);
      if next.None? || t[next.value].attempts >= t[next.value].max then None
      else Some(t[next.value := t[next.value].Claimed(worker, token, now + cfg.ttl)])
    case Renew(now, id, worker, token, version) =>
      if id in t && t[id].Presented(worker, token, version) && t[id].Live(cfg.before, now)
      then Some(t[id := t[id].(expires := Some(now + cfg.ttl), version := version + 1)]) else None
    case Touch(now, id, worker, token, version) =>
      if id in t && t[id].Presented(worker, token, version) && t[id].Live(cfg.before, now)
      then Some(t[id := t[id].(version := version + 1)]) else None
    case Finish(now, id, worker, token, version) =>
      if id in t && t[id].Presented(worker, token, version) && t[id].Live(cfg.before, now)
      then Some(t[id := t[id].Released(Done, t[id].nextAt)]) else None
    case Fail(now, id, worker, token, version, permanent) =>
      if id in t && t[id].Presented(worker, token, version) && t[id].phase.Held? then
        var retry := !permanent && t[id].attempts < t[id].max;
        Some(t[id := t[id].Released(if retry then Waiting else Dead,
                                    if retry then now + Backoff(cfg.base, t[id].attempts) else now)])
      else None
    case Recover(now) =>
      Some(map id | id in t :: t[id].Recovered(cfg.before, now))
  }

  /** A rejected call leaves the table as it was. */
  ghost function After(cfg: Config, t: Table, op: Op): Table {
    var r := Step(cfg, t, op);
    if r.Some? then r.value else t
  }

  ghost function Run(cfg: Config, t: Table, ops: seq<Op>): Table {
    if ops == [] then t else After(cfg, Run(cfg, t, ops[..|ops| - 1]), ops[|ops| - 1])
  }

  lemma {:induction false} RunConcat(cfg: Config, t: Table, a: seq<Op>, b: seq<Op>)
    ensures Run(cfg, t, a + b) == Run(cfg, Run(cfg, t, a), b)
    decreases |b|
  {
    if b == [] {
      assert a + b == a;
    } else {
      var n := |b| - 1;
      assert (a + b)[..|a + b| - 1] == a + b[..n];
      RunConcat(cfg, t, a, b[..n]);
    }
  }

  // ---- The due order ----

  lemma BeforeAsymmetric(before: Comparison, t: Table, a: Id, b: Id)
    requires Sorting.WeakOrder(before) && a in t && b in t && Before(before, t, a, b)
    ensures a != b && !Before(before, t, b, a)
  {
    if Text.Less(a, b) && Text.Less(b, a) { Text.LessTransitive(a, b, a); }
    Text.LessIrreflexive(a);
  }

  /** A weak order is transitive, also through elements that it does not separate. */
  lemma WeakTransitive(before: Comparison, a: Instant, b: Instant, c: Instant)
    requires Sorting.WeakOrder(before) && !before(b, a) && !before(c, b)
    ensures !before(c, a) && (before(a, b) || before(b, c) ==> before(a, c))
  {
  }

  lemma BeforeTransitive(before: Comparison, t: Table, a: Id, b: Id, c: Id)
    requires Sorting.WeakOrder(before) && a in t && b in t && c in t && Before(before, t, a, b) && Before(before, t, b, c)
    ensures Before(before, t, a, c)
  {
    WeakTransitive(before, t[a].nextAt, t[b].nextAt, t[c].nextAt);
    if !before(t[a].nextAt, t[b].nextAt) && !before(t[b].nextAt, t[c].nextAt) {
      WeakTransitive(before, t[a].created, t[b].created, t[c].created);
      if Text.Less(a, b) && Text.Less(b, c) { Text.LessTransitive(a, b, c); }
    }
  }

  lemma BeforeTotal(before: Comparison, t: Table, a: Id, b: Id)
    requires a in t && b in t && a != b
    ensures Before(before, t, a, b) || Before(before, t, b, a)
  {
    Text.LessTotal(a, b);
  }

  lemma NextUnique(before: Comparison, t: Table, now: Instant, a: Id, b: Id)
    requires Sorting.WeakOrder(before) && IsNext(before, t, now, a) && IsNext(before, t, now, b)
    ensures a == b
  {
    if a != b { BeforeAsymmetric(before, t, a, b); }
  }

  lemma BeforeOrders(before: Comparison, t: Table, s: set<Id>)
    requires Sorting.WeakOrder(before) && s <= t.Keys
    ensures Listing.Orders((a, b) => a in t && b in t && Before(before, t, a, b), s)
  {
    hide Before, Sorting.WeakOrder;
    forall a, b | a in s && b in s && Before(before, t, a, b)
      ensures a != b && !Before(before, t, b, a)
    {
      BeforeAsymmetric(before, t, a, b);
    }
    forall a, b, c | a in s && b in s && c in s && Before(before, t, a, b) && Before(before, t, b, c)
      ensures Before(before, t, a, c)
    {
      BeforeTransitive(before, t, a, b, c);
    }
    forall a, b | a in s && b in s && a != b
      ensures Before(before, t, a, b) || Before(before, t, b, a)
    {
      BeforeTotal(before, t, a, b);
    }
  }

  /** The due query finds a row exactly when some row is due, and then the least one. */
  lemma NextIsLeastDue(before: Comparison, t: Table, now: Instant)
    requires Sorting.WeakOrder(before)
    ensures Next(before, t, now).Some? <==> exists id :: id in t && t[id].Due(before, now)
    ensures forall id :: IsNext(before, t, now, id) ==> Next(before, t, now) == Some(id)
  {
    var due := set id | id in t && t[id].Due(before, now);
    assert forall id :: id in due <==> id in t && t[id].Due(before, now);
    assert Next(before, t, now).Some? ==> Next(before, t, now).value in due;
    hide Before, Sorting.WeakOrder;
    if due != {} {
      BeforeOrders(before, t, due);
      var first := Listing.FirstExists((a, b) => a in t && b in t && Before(before, t, a, b), due);
      assert IsNext(before, t, now, first);
    }
    forall id | IsNext(before, t, now, id)
      ensures Next(before, t, now) == Some(id)
    {
      NextUnique(before, t, now, id, Next(before, t, now).value);
    }
  }
}
