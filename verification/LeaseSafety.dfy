/** Safety of the leased-retry protocol over every run: well-formed rows, version fencing, exclusive holds. */
module LeaseSafety {
  import opened Basics
  import opened Leases

  /** Which columns agree with which status, and how the attempt budget is spent. */
  predicate WellFormed(i: Item) {
    && 1 <= i.max
    && (i.owner != "" <==> i.phase.Held?)
    && (i.token != "" <==> i.phase.Held?)
    && i.expires.Some? == i.phase.Held?
    && (i.phase.Waiting? ==> 0 <= i.attempts < i.max)
    && (!i.phase.Waiting? ==> 1 <= i.attempts <= i.max)
  }

  predicate TableOk(t: Table) { forall id :: id in t ==> WellFormed(t[id]) }

  /** What configuration and authentication guarantee about a call. */
  predicate Proper(op: Op) {
    match op
    case Enqueue(_, max, _) => max >= 1
    case Claim(_, worker, token) => worker != "" && token != ""
    case _ => true
  }

  predicate AllProper(ops: seq<Op>) { forall k :: 0 <= k < |ops| ==> Proper(ops[k]) }

  // ---- What every step keeps ----

  /** The relation between a row before and after any step, rejected or not. */
  predicate RowStep(a: Item, b: Item) {
    && b.max == a.max && b.created == a.created
    && a.version <= b.version <= a.version + 1
    && (a.version == b.version ==> a == b)
    && (a.Terminal() ==> a == b)
    && a.attempts <= b.attempts
  }

  lemma StepRows(cfg: Config, t: Table, op: Op)
    ensures t.Keys <= After(cfg, t, op).Keys
    ensures forall id :: id in t ==> RowStep(t[id], After(cfg, t, op)[id])
  {
  }

  lemma StepKeepsTableOk(cfg: Config, t: Table, op: Op)
    requires TableOk(t) && Proper(op)
    ensures TableOk(After(cfg, t, op))
  {
  }

  /** In every reachable table the status, the lease columns and the attempt budget agree. */
  lemma {:induction false} ReachableTableOk(cfg: Config, ops: seq<Op>)
    requires AllProper(ops)
    ensures TableOk(Run(cfg, map[], ops))
  {
    if ops != [] {
      ReachableTableOk(cfg, ops[..|ops| - 1]);
      StepKeepsTableOk(cfg, Run(cfg, map[], ops[..|ops| - 1]), ops[|ops| - 1]);
    }
  }

  /**
   * Across any run: rows are never deleted, versions never decrease, a row whose version is
   * the same is the same row, and a finished row never changes again.
   */
  lemma {:induction false} RunRows(cfg: Config, t: Table, ops: seq<Op>)
    ensures t.Keys <= Run(cfg, t, ops).Keys
    ensures forall id :: id in t ==>
      var a, b := t[id], Run(cfg, t, ops)[id];
      a.version <= b.version && (a.version == b.version ==> a == b) && (a.Terminal() ==> a == b)
  {
    if ops != [] {
      RunRows(cfg, t, ops[..|ops| - 1]);
      StepRows(cfg, Run(cfg, t, ops[..|ops| - 1]), ops[|ops| - 1]);
    }
  }

  /**
   * Fencing: a call that presents the version a row had in `t` is accepted after any further
   * run only if the row is still exactly what it was in `t`.
   */
  lemma VersionFences(cfg: Config, t: Table, ops: seq<Op>, op: Op)
    requires op.Presenting() && op.id in t && op.version == t[op.id].version
    requires Step(cfg, Run(cfg, t, ops), op).Some?
    ensures Run(cfg, t, ops)[op.id] == t[op.id]
    ensures op.worker == t[op.id].owner && op.token == t[op.id].token
  {
    RunRows(cfg, t, ops);
  }

  // ---- Holds ----

  /**
   * One tenure of a row: claimed at `from`, recorded expiry, and the clock reading at which its holder gave
   * it up.  A reclaim or a recovery does not end a tenure early: it lasts until its recorded expiry.
   */
  datatype Hold = Hold(token: string, from: Instant, expiry: Instant, release: Option<Instant>) {
    function Ending(): Instant {
      if release.Some? && release.value < expiry then release.value else expiry
    }

    predicate Covers(x: Instant) { from <= x < Ending() }
  }

  function Last(log: seq<Hold>): Hold
    requires log != []
  {
    log[|log| - 1]
  }

  function WithLast(log: seq<Hold>, h: Hold): seq<Hold>
    requires log != []
  {
    log[..|log| - 1] + [h]
  }

  /** What a step does to the tenure of one row. */
  datatype Effect =
    | Untouched
    | Opened(token: string, from: Instant, expiry: Instant)
    | Extended(until: Instant)
    | Ended(at: Instant)
    | Lapsed(at: Instant)

  ghost function EffectOn(cfg: Config, t: Table, op: Op, id: Id): Effect {
    if id !in t || Step(cfg, t, op).None? then Untouched else
    match op
    case Claim(now, _, token) => if Next(cfg.before, t, now) == Some(id) then Opened(token, now, now + cfg.ttl) else Untouched
    case Renew(now, k, _, _, _) => if k == id then Extended(now + cfg.ttl) else Untouched
    case Finish(now, k, _, _, _) => if k == id then Ended(now) else Untouched
    case Fail(now, k, _, _, _, _) => if k == id then Ended(now) else Untouched
    case Recover(now) => if t[id].Expired(cfg.before, now) then Lapsed(now) else Untouched
    case _ => Untouched
  }

  function Extend(log: seq<Hold>, e: Effect): seq<Hold> {
    match e
    case Untouched => log
    case Opened(token, from, expiry) => log + [Hold(token, from, expiry, None)]
    case Extended(until) => if log != [] then WithLast(log, Last(log).(expiry := until)) else log
    case Ended(at) => if log != [] then WithLast(log, Last(log).(release := Some(at))) else log
    case Lapsed(_) => log
  }

  /** The tenures of row `id` over a run that starts from the empty table, in commit order. */
  ghost function History(cfg: Config, ops: seq<Op>, id: Id): seq<Hold> {
    if ops == [] then []
    else
      var n := |ops| - 1;
      Extend(History(cfg, ops[..n], id), EffectOn(cfg, Run(cfg, map[], ops[..n]), ops[n], id))
  }

  /** Whoever presents a lease on `id` read the clock no earlier than the claim that issued it. */
  ghost predicate Honest(cfg: Config, ops: seq<Op>, id: Id) {
    forall k :: 0 <= k < |ops| ==> HonestAt(cfg, ops, id, k)
  }

  ghost predicate HonestAt(cfg: Config, ops: seq<Op>, id: Id, k: nat)
    requires k < |ops|
  {
    var log := History(cfg, ops[..k], id);
    ops[k].Presenting() && ops[k].id == id && Step(cfg, Run(cfg, map[], ops[..k]), ops[k]).Some? && log != []
    ==> Last(log).from <= ops[k].now
  }

  /** Each tenure ends before the next one begins. */
  predicate Chain(log: seq<Hold>) {
    && (forall i, j :: 0 <= i < j < |log| ==> log[i].Ending() <= log[j].from)
    && (forall i :: 0 <= i < |log| ==> log[i].from <= log[i].Ending())
  }

  /** What the last tenure says about the row. */
  predicate Matches(log: seq<Hold>, i: Item) {
    && (i.phase.Held? ==>
          log != [] && Last(log).release.None? && Last(log).token == i.token && i.expires == Some(Last(log).expiry))
    && (i.phase.Waiting? && log != [] ==> Last(log).Ending() <= i.nextAt)
  }

  ghost predicate HistoryOk(log: seq<Hold>, t: Table, id: Id) {
    Chain(log) && (if id in t then Matches(log, t[id]) else log == [])
  }

  lemma AppendKeepsChain(log: seq<Hold>, h: Hold)
    requires Chain(log) && h.from <= h.Ending()
    requires log != [] ==> Last(log).Ending() <= h.from
    ensures Chain(log + [h])
  {
  }

  /** Changing the end of the last tenure, but not to before its beginning. */
  lemma LastKeepsChain(log: seq<Hold>, h: Hold)
    requires Chain(log) && log != [] && h.from == Last(log).from <= h.Ending()
    ensures Chain(WithLast(log, h)) && WithLast(log, h) != [] && Last(WithLast(log, h)) == h
  {
  }

  /** How a step changes the row under each effect. */
  predicate RowMoves(cfg: Config, a: Item, b: Item, e: Effect) {
    match e
    case Untouched => a.(version := b.version) == b
    case Opened(token, from, expiry) =>
      a.Due(cfg.before, from) && expiry == from + cfg.ttl && b.phase.Held? && b.token == token && b.expires == Some(expiry)
    case Extended(until) => a.phase.Held? && b == a.(expires := Some(until), version := b.version)
    case Ended(at) => a.phase.Held? && !b.phase.Held? && (b.phase.Waiting? ==> at <= b.nextAt)
    case Lapsed(at) => a.Expired(cfg.before, at) && !b.phase.Held? && (b.phase.Waiting? ==> at <= b.nextAt)
  }

  lemma EffectRow(cfg: Config, t: Table, op: Op, id: Id)
    requires cfg.base >= 0 && TableOk(t) && id in t
    ensures RowMoves(cfg, t[id], After(cfg, t, op)[id], EffectOn(cfg, t, op, id))
  {
    if op.Fail? && op.id == id { BackoffNonNegative(cfg.base, t[id].attempts); }
    hide Backoff, IsNext;
  }

  /** Only a caller that presents the lease extends or ends a tenure. */
  lemma EffectPresents(cfg: Config, t: Table, op: Op, id: Id)
    ensures var e := EffectOn(cfg, t, op, id);
      e.Extended? || e.Ended? ==>
        op.Presenting() && op.id == id && Step(cfg, t, op).Some?
        && (e.Extended? ==> e.until == op.now + cfg.ttl) && (e.Ended? ==> e.at == op.now)
  {
    hide Backoff, IsNext;
  }

  lemma ExtendMatches(cfg: Config, log: seq<Hold>, a: Item, b: Item, e: Effect)
    requires ByClock(cfg) && cfg.ttl > 0 && Chain(log) && Matches(log, a) && RowMoves(cfg, a, b, e)
    requires e.Extended? && log != [] ==> Last(log).from <= e.until
    requires e.Ended? && log != [] ==> Last(log).from <= e.at
    ensures Chain(Extend(log, e)) && Matches(Extend(log, e), b)
  {
    match e
    case Untouched =>
    case Opened(token, from, expiry) => AppendKeepsChain(log, Hold(token, from, expiry, None));
    case Extended(until) => LastKeepsChain(log, Last(log).(expiry := until));
    case Ended(at) => LastKeepsChain(log, Last(log).(release := Some(at)));
    case Lapsed(_) =>
  }

  lemma HistoryStep(cfg: Config, log: seq<Hold>, t: Table, op: Op, id: Id)
    requires ByClock(cfg) && cfg.ttl > 0 && cfg.base >= 0 && TableOk(t)
    requires HistoryOk(log, t, id)
    requires op.Presenting() && op.id == id && Step(cfg, t, op).Some? && log != [] ==> Last(log).from <= op.now
    ensures HistoryOk(Extend(log, EffectOn(cfg, t, op, id)), After(cfg, t, op), id)
  {
    if id in t {
      EffectRow(cfg, t, op, id);
      EffectPresents(cfg, t, op, id);
      StepRows(cfg, t, op);
      hide Step, RowMoves;
      ExtendMatches(cfg, log, t[id], After(cfg, t, op)[id], EffectOn(cfg, t, op, id));
    }
  }

  lemma BackoffNonNegative(base: int, attempt: int)
    requires base >= 0
    ensures Backoff(base, attempt) >= 0
  {
    if attempt >= 1 {
      ProductNonNegative(base, Pow2(Min(attempt - 1, 8)));
    } else {
      QuotientNonNegative(base, Pow2(1 - attempt));
    }
  }

  lemma ProductNonNegative(a: nat, b: nat)
    ensures a * b >= 0
  {
  }

  lemma QuotientNonNegative(a: nat, b: nat)
    requires b >= 1
    ensures a / b >= 0
  {
  }

  lemma {:induction false} HistoryHolds(cfg: Config, ops: seq<Op>, id: Id)
    requires ByClock(cfg) && cfg.ttl > 0 && cfg.base >= 0 && AllProper(ops) && Honest(cfg, ops, id)
    ensures HistoryOk(History(cfg, ops, id), Run(cfg, map[], ops), id)
  {
    if ops != [] {
      var n := |ops| - 1;
      forall k | 0 <= k < n
        ensures HonestAt(cfg, ops[..n], id, k)
      {
        assert HonestAt(cfg, ops, id, k);
        assert ops[..n][..k] == ops[..k];
      }
      HistoryHolds(cfg, ops[..n], id);
      ReachableTableOk(cfg, ops[..n]);
      assert HonestAt(cfg, ops, id, n);
      HistoryStep(cfg, History(cfg, ops[..n], id), Run(cfg, map[], ops[..n]), ops[n], id);
    }
  }

  ghost predicate FreshTokens(ops: seq<Op>) {
    forall k, l :: 0 <= k < l < |ops| && ops[k].Claim? && ops[l].Claim? ==> ops[k].token != ops[l].token
  }

  /** Some claim of the run issued the token. */
  predicate Issued(ops: seq<Op>, token: string) {
    exists k :: 0 <= k < |ops| && ops[k].Claim? && ops[k].token == token
  }

  lemma IssuedInPrefix(ops: seq<Op>, n: nat, token: string)
    requires n <= |ops| && Issued(ops[..n], token)
    ensures Issued(ops, token)
    ensures FreshTokens(ops) && n < |ops| && ops[n].Claim? ==> ops[n].token != token
  {
    var k :| 0 <= k < n && ops[..n][k].Claim? && ops[..n][k].token == token;
    assert ops[k].Claim? && ops[k].token == token;
  }

  lemma ExtendTokens(log: seq<Hold>, e: Effect)
    ensures |Extend(log, e)| == |log| + (if e.Opened? then 1 else 0)
    ensures forall i :: 0 <= i < |log| ==> Extend(log, e)[i].token == log[i].token
    ensures e.Opened? ==> Extend(log, e)[|log|].token == e.token
  {
  }

  lemma {:induction false} HistoryTokens(cfg: Config, ops: seq<Op>, id: Id)
    requires FreshTokens(ops)
    ensures forall i :: 0 <= i < |History(cfg, ops, id)| ==> Issued(ops, History(cfg, ops, id)[i].token)
    ensures forall i, j :: 0 <= i < j < |History(cfg, ops, id)| ==>
      History(cfg, ops, id)[i].token != History(cfg, ops, id)[j].token
  {
    if ops != [] {
      var n := |ops| - 1;
      var log, e := History(cfg, ops[..n], id), EffectOn(cfg, Run(cfg, map[], ops[..n]), ops[n], id);
      var log' := Extend(log, e);
      HistoryTokens(cfg, ops[..n], id);
      ExtendTokens(log, e);
      assert e.Opened? ==> ops[n].Claim? && e.token == ops[n].token && Issued(ops, e.token);
      forall i | 0 <= i < |log|
        ensures Issued(ops, log'[i].token) && (|log'| > |log| ==> log'[i].token != log'[|log|].token)
      {
        IssuedInPrefix(ops, n, log[i].token);
      }
    }
  }

  /**
   * Exclusive holds under guards that read the clock: over any run, in whatever order the readings commit,
   * each token has one tenure of a row, and the tenures of different tokens never cover a common instant.
   * `TextLeases` says when the guards on stored texts give the same.
   */
  lemma ExclusiveHolds(cfg: Config, ops: seq<Op>, id: Id)
    requires ByClock(cfg) && cfg.ttl > 0 && cfg.base >= 0 && AllProper(ops)
    requires Honest(cfg, ops, id) && FreshTokens(ops)
    ensures var log := History(cfg, ops, id);
      forall i, j :: 0 <= i < j < |log| ==>
        log[i].token != log[j].token && log[i].Ending() <= log[j].from
        && forall x :: !(log[i].Covers(x) && log[j].Covers(x))
    ensures var t := Run(cfg, map[], ops);
      id in t && t[id].phase.Held? ==>
        var log := History(cfg, ops, id);
        log != [] && Last(log).token == t[id].token && Some(Last(log).Ending()) == t[id].expires
  {
    HistoryHolds(cfg, ops, id);
    HistoryTokens(cfg, ops, id);
  }
}
