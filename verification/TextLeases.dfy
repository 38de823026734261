/** The leased-retry machine with the guards of the source, which compare stored texts: when it is the machine on the clock. */
module TextLeases {
  import opened Basics
  import opened Leases
  import opened Timestamps
  import S = LeaseSafety
  import P = LeaseProgress
  import Sorting
  import Text

  // ---- The condition ----

  /** The times that a step reading `now` compares, in rows that are not finished, are comparable. */
  predicate Legible(t: Table, now: Instant) {
    && (forall a :: a in t && !t[a].Terminal() ==> Comparable(now, t[a].nextAt))
    && (forall a :: a in t && !t[a].Terminal() && t[a].expires.Some? ==> Comparable(now, t[a].expires.value))
    && (forall a, b :: a in t && b in t && !t[a].Terminal() && !t[b].Terminal() ==>
          Comparable(t[a].nextAt, t[b].nextAt) && Comparable(t[a].created, t[b].created))
  }

  /** Enqueuing and failing compare no times. */
  predicate LegibleStep(t: Table, op: Op) { op.Enqueue? || op.Fail? || Legible(t, op.now) }

  ghost predicate LegibleRun(r: Timing, t: Table, ops: seq<Op>) {
    forall k :: 0 <= k < |ops| ==> LegibleStep(Run(r.OnText(), t, ops[..k]), ops[k])
  }

  lemma Agrees(a: Instant, b: Instant)
    requires Comparable(a, b)
    ensures TextBefore(a, b) <==> a < b
    ensures TextBefore(b, a) <==> b < a
  {
    hide TextBefore;
    TextOrderIffComparable(a, b);
  }

  // ---- Transfer ----

  lemma RowAgrees(r: Timing, t: Table, now: Instant, id: Id)
    requires Legible(t, now) && id in t
    ensures var text, clock := r.OnText().before, r.OnClock().before;
      && (t[id].Expired(text, now) <==> t[id].Expired(clock, now)) && (t[id].Live(text, now) <==> t[id].Live(clock, now))
      && (t[id].Due(text, now) <==> t[id].Due(clock, now))
  {
    hide TextBefore, Comparable;
    if !t[id].Terminal() {
      Agrees(now, t[id].nextAt);
      if t[id].expires.Some? { Agrees(now, t[id].expires.value); }
    }
  }

  lemma OrderAgrees(r: Timing, t: Table, now: Instant, a: Id, b: Id)
    requires Legible(t, now) && a in t && b in t && !t[a].Terminal() && !t[b].Terminal()
    ensures Before(r.OnText().before, t, a, b) <==> Before(r.OnClock().before, t, a, b)
  {
    hide TextBefore, Comparable;
    Agrees(t[a].nextAt, t[b].nextAt);
    Agrees(t[a].created, t[b].created);
  }

  lemma NextAgrees(r: Timing, t: Table, now: Instant)
    requires Legible(t, now)
    ensures Next(r.OnText().before, t, now) == Next(r.OnClock().before, t, now)
  {
    var text, clock := r.OnText().before, r.OnClock().before;
    TextBeforeWeak();
    P.ClockIsWeak(r.OnClock());
    hide TextBefore, Sorting.WeakOrder;
    forall id
      ensures IsNext(text, t, now, id) <==> IsNext(clock, t, now, id)
    {
      forall o | o in t
        ensures t[o].Due(text, now) <==> t[o].Due(clock, now)
        ensures id in t && t[o].Due(text, now) && t[id].Due(text, now) ==> (Before(text, t, id, o) <==> Before(clock, t, id, o))
      {
        RowAgrees(r, t, now, o);
        if id in t && !t[o].Terminal() && !t[id].Terminal() { OrderAgrees(r, t, now, id, o); }
      }
    }
    hide IsNext;
    NextIsLeastDue(text, t, now);
    NextIsLeastDue(clock, t, now);
  }

  lemma RecoverAgrees(r: Timing, t: Table, now: Instant)
    requires Legible(t, now)
    ensures Step(r.OnText(), t, Recover(now)) == Step(r.OnClock(), t, Recover(now))
  {
    var a := map id | id in t :: t[id].Recovered(r.OnText().before, now);
    var b := map id | id in t :: t[id].Recovered(r.OnClock().before, now);
    hide TextBefore, Legible;
    forall id | id in t
      ensures a[id] == b[id]
    {
      RowAgrees(r, t, now, id);
    }
    assert a == b;
  }

  /** Where the compared times are comparable, the two machines make the same step. */
  lemma StepAgrees(r: Timing, t: Table, op: Op)
    requires LegibleStep(t, op)
    ensures Step(r.OnText(), t, op) == Step(r.OnClock(), t, op)
  {
    hide TextBefore, IsNext, Backoff, Legible;
    match op
    case Recover(now) => RecoverAgrees(r, t, now);
    case Claim(now, _, _) => NextAgrees(r, t, now);
    case Enqueue(_, _, _) =>
    case Fail(_, _, _, _, _, _) =>
    case Renew(now, id, _, _, _) => if id in t { RowAgrees(r, t, now, id); }
    case Touch(now, id, _, _, _) => if id in t { RowAgrees(r, t, now, id); }
    case Finish(now, id, _, _, _) => if id in t { RowAgrees(r, t, now, id); }
  }

  lemma LegiblePrefix(r: Timing, t: Table, ops: seq<Op>, n: nat)
    requires LegibleRun(r, t, ops) && n <= |ops|
    ensures LegibleRun(r, t, ops[..n])
  {
    hide Run, LegibleStep;
    forall k | 0 <= k < n
      ensures LegibleStep(Run(r.OnText(), t, ops[..n][..k]), ops[..n][k])
    {
      assert ops[..n][..k] == ops[..k];
    }
  }

  /** Transfer: a run whose compared times are comparable is the run of the machine on the clock. */
  lemma {:induction false} RunAgrees(r: Timing, t: Table, ops: seq<Op>)
    requires LegibleRun(r, t, ops)
    ensures Run(r.OnText(), t, ops) == Run(r.OnClock(), t, ops)
  {
    hide Step, LegibleStep;
    if ops != [] {
      var n := |ops| - 1;
      LegiblePrefix(r, t, ops, n);
      RunAgrees(r, t, ops[..n]);
      StepAgrees(r, Run(r.OnText(), t, ops[..n]), ops[n]);
    }
  }

  lemma EffectAgrees(r: Timing, t: Table, op: Op, id: Id)
    requires LegibleStep(t, op)
    ensures S.EffectOn(r.OnText(), t, op, id) == S.EffectOn(r.OnClock(), t, op, id)
  {
    hide TextBefore, IsNext, Step, Legible;
    StepAgrees(r, t, op);
    if id in t {
      match op
      case Claim(now, _, _) => NextAgrees(r, t, now);
      case Recover(now) => RowAgrees(r, t, now, id);
      case _ =>
    }
  }

  lemma {:induction false} HistoryAgrees(r: Timing, ops: seq<Op>, id: Id)
    requires LegibleRun(r, map[], ops)
    ensures S.History(r.OnText(), ops, id) == S.History(r.OnClock(), ops, id)
  {
    hide LegibleStep, S.EffectOn, S.Extend;
    if ops != [] {
      var n := |ops| - 1;
      LegiblePrefix(r, map[], ops, n);
      HistoryAgrees(r, ops[..n], id);
      RunAgrees(r, map[], ops[..n]);
      EffectAgrees(r, Run(r.OnText(), map[], ops[..n]), ops[n], id);
    }
  }

  lemma HonestAgrees(r: Timing, ops: seq<Op>, id: Id)
    requires LegibleRun(r, map[], ops) && S.Honest(r.OnText(), ops, id)
    ensures S.Honest(r.OnClock(), ops, id)
  {
    hide Run, Step, S.History, LegibleStep;
    forall k | 0 <= k < |ops|
      ensures S.HonestAt(r.OnClock(), ops, id, k)
    {
      assert S.HonestAt(r.OnText(), ops, id, k);
      LegiblePrefix(r, map[], ops, k);
      HistoryAgrees(r, ops[..k], id);
      RunAgrees(r, map[], ops[..k]);
      StepAgrees(r, Run(r.OnText(), map[], ops[..k]), ops[k]);
    }
  }

  // ---- Exclusive holds and bounded wait under the guards of the source ----

  /**
   * Exclusive holds under guards on stored texts: when the times that the run compares are comparable, each
   * token has one tenure of a row, and tenures of different tokens never cover a common instant.
   */
  lemma TextHoldsExclude(r: Timing, ops: seq<Op>, id: Id)
    requires r.ttl > 0 && r.base >= 0 && S.AllProper(ops)
    requires S.Honest(r.OnText(), ops, id) && S.FreshTokens(ops) && LegibleRun(r, map[], ops)
    ensures var log := S.History(r.OnText(), ops, id);
      forall i, j :: 0 <= i < j < |log| ==>
        log[i].token != log[j].token && log[i].Ending() <= log[j].from
        && forall x :: !(log[i].Covers(x) && log[j].Covers(x))
    ensures var t := Run(r.OnText(), map[], ops);
      id in t && t[id].phase.Held? ==>
        var log := S.History(r.OnText(), ops, id);
        log != [] && S.Last(log).token == t[id].token && Some(S.Last(log).Ending()) == t[id].expires
  {
    hide Run, S.History, LegibleRun, S.Honest;
    HonestAgrees(r, ops, id);
    HistoryAgrees(r, ops, id);
    RunAgrees(r, map[], ops);
    S.ExclusiveHolds(r.OnClock(), ops, id);
  }

  /** The steps of the rounds before round `i`, and of round `i` up to its recovery and its claim. */
  function Flat(rounds: seq<P.Round>, i: nat): seq<Op>
    requires i <= |rounds|
  {
    if i == 0 then []
    else
      var q := rounds[i - 1];
      Flat(rounds, i - 1) + [Recover(q.now), Claim(q.now, q.worker, q.token)] + q.rest
  }

  lemma RunTwo(cfg: Config, t: Table, a: Op, b: Op)
    ensures Run(cfg, t, [a]) == After(cfg, t, a)
    ensures Run(cfg, t, [a, b]) == After(cfg, After(cfg, t, a), b)
  {
    hide After;
    assert [a][..0] == [] && [a, b][..1] == [a] && [a, b][1] == b;
    assert Run(cfg, t, [a]) == After(cfg, Run(cfg, t, []), a);
  }

  lemma {:induction false} StartIsRun(cfg: Config, t: Table, rounds: seq<P.Round>, i: nat)
    requires i <= |rounds|
    ensures P.Start(cfg, t, rounds, i) == Run(cfg, t, Flat(rounds, i))
  {
    hide After;
    if i > 0 {
      var q := rounds[i - 1];
      StartIsRun(cfg, t, rounds, i - 1);
      var pair := [Recover(q.now), Claim(q.now, q.worker, q.token)];
      RunTwo(cfg, Run(cfg, t, Flat(rounds, i - 1)), pair[0], pair[1]);
      hide Run;
      RunConcat(cfg, t, Flat(rounds, i - 1), pair);
      RunConcat(cfg, t, Flat(rounds, i - 1) + pair, q.rest);
    }
  }

  lemma SeenIsRun(cfg: Config, t: Table, rounds: seq<P.Round>, i: nat)
    requires i < |rounds|
    ensures P.Seen(cfg, t, rounds, i) == Run(cfg, t, Flat(rounds, i) + [Recover(rounds[i].now)])
  {
    StartIsRun(cfg, t, rounds, i);
    var now := rounds[i].now;
    RunTwo(cfg, Run(cfg, t, Flat(rounds, i)), Recover(now), Recover(now));
    hide Run, After;
    RunConcat(cfg, t, Flat(rounds, i), [Recover(now)]);
  }

  lemma {:induction false} FlatGrows(rounds: seq<P.Round>, i: nat, n: nat)
    requires i < n <= |rounds|
    ensures Flat(rounds, i) + [Recover(rounds[i].now), Claim(rounds[i].now, rounds[i].worker, rounds[i].token)] <= Flat(rounds, n)
    decreases n
  {
    if i < n - 1 { FlatGrows(rounds, i, n - 1); }
  }

  lemma ClaimsInFlat(rounds: seq<P.Round>, i: nat)
    requires i < |rounds|
    ensures var q, ops, front := rounds[i], Flat(rounds, |rounds|), Flat(rounds, i) + [Recover(rounds[i].now)];
      |front| < |ops| && ops[..|front|] == front && ops[|front|] == Claim(q.now, q.worker, q.token)
  {
    var q, ops, front := rounds[i], Flat(rounds, |rounds|), Flat(rounds, i) + [Recover(rounds[i].now)];
    FlatGrows(rounds, i, |rounds|);
    hide Flat;
    assert front + [Claim(q.now, q.worker, q.token)] == Flat(rounds, i) + [Recover(q.now), Claim(q.now, q.worker, q.token)];
  }

  /** What round `i` sees, and what its claim does, is the same on the clock. */
  lemma RoundAgrees(r: Timing, t: Table, rounds: seq<P.Round>, i: nat)
    requires i < |rounds| && LegibleRun(r, t, Flat(rounds, |rounds|))
    ensures P.Seen(r.OnText(), t, rounds, i) == P.Seen(r.OnClock(), t, rounds, i)
    ensures Legible(P.Seen(r.OnText(), t, rounds, i), rounds[i].now)
  {
    var ops, front := Flat(rounds, |rounds|), Flat(rounds, i) + [Recover(rounds[i].now)];
    ClaimsInFlat(rounds, i);
    assert LegibleStep(Run(r.OnText(), t, ops[..|front|]), ops[|front|]);
    hide Run, P.Seen, Flat, Legible;
    SeenIsRun(r.OnText(), t, rounds, i);
    SeenIsRun(r.OnClock(), t, rounds, i);
    LegiblePrefix(r, t, ops, |front|);
    RunAgrees(r, t, front);
  }

  /**
   * Bounded wait under guards on stored texts: the claim of round `k + 1` serves the due row that had `k` due
   * rows ahead of it, when the times that the rounds compare are comparable.
   */
  lemma TextWaitBounded(r: Timing, t: Table, rounds: seq<P.Round>, id: Id, k: nat)
    requires S.TableOk(t) && r.base >= 0 && P.Orderly(rounds) && k < |rounds| && LegibleRun(r, t, Flat(rounds, |rounds|))
    requires var s, text := P.Seen(r.OnText(), t, rounds, 0), r.OnText().before;
      id in s && s[id].Due(text, rounds[0].now) && |P.Ahead(text, s, rounds[0].now, id)| == k
    ensures forall i :: 0 <= i <= k ==>
      var s, q := P.Seen(r.OnText(), t, rounds, i), rounds[i];
      && Step(r.OnText(), s, Claim(q.now, q.worker, q.token)).Some?
      && (Next(r.OnText().before, s, q.now) == Some(id) <==> i == k)
  {
    hide P.Seen, Step, LegibleRun, TextBefore;
    var s := P.Seen(r.OnText(), t, rounds, 0);
    RoundAgrees(r, t, rounds, 0);
    AheadAgrees(r, s, rounds[0].now, id);
    RowAgrees(r, s, rounds[0].now, id);
    hide Legible, P.Ahead;
    P.BoundedWait(r.OnClock(), t, rounds, id, k);
    forall i | 0 <= i <= k
      ensures var s, q := P.Seen(r.OnText(), t, rounds, i), rounds[i];
        && Step(r.OnText(), s, Claim(q.now, q.worker, q.token)).Some?
        && (Next(r.OnText().before, s, q.now) == Some(id) <==> i == k)
    {
      var s, q := P.Seen(r.OnText(), t, rounds, i), rounds[i];
      RoundAgrees(r, t, rounds, i);
      StepAgrees(r, s, Claim(q.now, q.worker, q.token));
      NextAgrees(r, s, q.now);
    }
  }

  lemma AheadAgrees(r: Timing, t: Table, now: Instant, id: Id)
    requires Legible(t, now) && id in t && t[id].Due(r.OnText().before, now)
    ensures P.Ahead(r.OnText().before, t, now, id) == P.Ahead(r.OnClock().before, t, now, id)
  {
    hide TextBefore, Before;
    forall o | o in t
      ensures o in P.Ahead(r.OnText().before, t, now, id) <==> o in P.Ahead(r.OnClock().before, t, now, id)
    {
      RowAgrees(r, t, now, o);
      if !t[o].Terminal() { OrderAgrees(r, t, now, o, id); }
    }
    hide Legible;
  }

  // ---- Runs that meet the condition ----

  /** Printed with exactly `d` fractional digits. */
  predicate Regular(x: Instant, d: nat) { Printable(x) && |FractionOf(x)| == d }

  lemma RegularComparable(a: Instant, b: Instant, d: nat)
    requires Regular(a, d) && Regular(b, d)
    ensures Comparable(a, b)
  {
    hide Printable, Fraction;
  }

  /** Whole seconds do not change the printed fraction. */
  lemma WholeSecondsKeepDigits(x: Instant, m: int, d: nat)
    requires Regular(x, d) && m % SECOND == 0 && Printable(x + m)
    ensures Regular(x + m, d)
  {
    hide Printable, Fraction;
    assert (x + m) % SECOND == x % SECOND;
  }

  lemma WholeSecondHasNoFraction(x: Instant)
    requires Printable(x) && x % SECOND == 0
    ensures Regular(x, 0)
  {
    hide Printable;
    PadZero(9);
    ZerosVanish(Pad(0, 9));
  }

  predicate RegularTable(t: Table, d: nat) {
    forall id :: id in t ==>
      Regular(t[id].nextAt, d) && Regular(t[id].created, d) && (t[id].expires.Some? ==> Regular(t[id].expires.value, d))
  }

  /** The reading has `d` fractional digits, and nothing computed from it leaves the printable years. */
  predicate RegularOp(r: Timing, op: Op, d: nat) {
    Regular(op.now, d) && Printable(op.now + r.ttl) && Printable(op.now + 256 * r.base)
  }

  predicate WholeSeconds(r: Timing) { r.ttl >= 0 && r.ttl % SECOND == 0 && r.base >= 0 && r.base % SECOND == 0 }

  lemma {:induction false} Pow2Grows(m: nat, n: nat)
    requires m <= n
    ensures Pow2(m) <= Pow2(n)
  {
    if m < n { Pow2Grows(m, n - 1); }
  }

  lemma ProductOfWhole(m: int, k: nat, top: nat)
    requires m >= 0 && m % SECOND == 0 && k <= top
    ensures 0 <= m * k <= top * m && (m * k) % SECOND == 0
  {
    var q := m / SECOND;
    assert m == SECOND * q;
    assert m * k == SECOND * (q * k);
  }

  lemma BackoffIsWhole(base: nat, attempt: int)
    requires base % SECOND == 0 && attempt >= 1
    ensures 0 <= Backoff(base, attempt) <= 256 * base && Backoff(base, attempt) % SECOND == 0
  {
    var k := Min(attempt - 1, 8);
    Pow2Grows(k, 8);
    assert Pow2(8) == 256;
    ProductOfWhole(base, Pow2(k), 256);
  }

  lemma PrintableNat(x: Instant)
    requires Printable(x)
    ensures x >= 0
  {
    hide StampOf;
  }

  lemma BackoffKeepsDigits(r: Timing, now: Instant, attempt: int, d: nat)
    requires WholeSeconds(r) && attempt >= 1 && Regular(now, d) && Printable(now + 256 * r.base)
    ensures Regular(now + Backoff(r.base, attempt), d)
  {
    hide Backoff, Printable, FractionOf;
    PrintableNat(now);
    BackoffIsWhole(r.base, attempt);
    PrintableBelow(now + Backoff(r.base, attempt), now + 256 * r.base);
    WholeSecondsKeepDigits(now, Backoff(r.base, attempt), d);
  }

  lemma RecoverKeepsRegular(before: Comparison, t: Table, now: Instant, d: nat)
    requires RegularTable(t, d) && Regular(now, d)
    ensures RegularTable(map id | id in t :: t[id].Recovered(before, now), d)
  {
    hide Regular;
  }

  lemma RegularRow(t: Table, id: Id, i: Item, d: nat)
    requires RegularTable(t, d) && Regular(i.nextAt, d) && Regular(i.created, d)
    requires i.expires.Some? ==> Regular(i.expires.value, d)
    ensures RegularTable(t[id := i], d)
  {
    hide Regular;
  }

  lemma ClaimKeepsRegular(r: Timing, t: Table, op: Op, d: nat)
    requires op.Claim? && RegularTable(t, d) && Regular(op.now, d) && Regular(op.now + r.ttl, d)
    ensures RegularTable(After(r.OnText(), t, op), d)
  {
    hide Regular, TextBefore, RegularTable;
    var u := After(r.OnText(), t, op);
    if u != t { ChangedRow(t, Next(r.OnText().before, t, op.now).value, u, d); }
  }

  lemma FailKeepsRegular(r: Timing, t: Table, op: Op, d: nat)
    requires op.Fail? && RegularTable(t, d) && Regular(op.now, d)
    requires op.id in t && t[op.id].phase.Held? ==> Regular(op.now + Backoff(r.base, t[op.id].attempts), d)
    ensures RegularTable(After(r.OnText(), t, op), d)
  {
    hide Regular, RegularTable, Backoff;
    var u := After(r.OnText(), t, op);
    if u != t { ChangedRow(t, op.id, u, d); }
  }

  lemma HoldKeepsRegular(r: Timing, t: Table, op: Op, d: nat)
    requires op.Enqueue? || op.Renew? || op.Touch? || op.Finish?
    requires RegularTable(t, d) && Regular(op.now, d) && Regular(op.now + r.ttl, d)
    ensures RegularTable(After(r.OnText(), t, op), d)
  {
    hide Regular, TextBefore, RegularTable;
    var u := After(r.OnText(), t, op);
    if u != t { ChangedRow(t, op.id, u, d); }
  }

  lemma RegularStep(r: Timing, t: Table, op: Op, d: nat)
    requires WholeSeconds(r) && S.TableOk(t) && RegularTable(t, d) && RegularOp(r, op, d)
    ensures RegularTable(After(r.OnText(), t, op), d)
  {
    hide Regular, Printable, TextBefore, IsNext, Backoff, RegularTable;
    WholeSecondsKeepDigits(op.now, r.ttl, d);
    match op
    case Recover(now) => RecoverKeepsRegular(r.OnText().before, t, now, d);
    case Claim(_, _, _) => ClaimKeepsRegular(r, t, op, d);
    case Fail(now, id, _, _, _, _) =>
      if id in t && t[id].phase.Held? { BackoffKeepsDigits(r, now, t[id].attempts, d); }
      FailKeepsRegular(r, t, op, d);
    case _ => HoldKeepsRegular(r, t, op, d);
  }

  lemma ChangedRow(t: Table, id: Id, u: Table, d: nat)
    requires RegularTable(t, d) && id in u && u == t[id := u[id]]
    requires (id in t && u[id].created == t[id].created) || Regular(u[id].created, d)
    requires (id in t && u[id].nextAt == t[id].nextAt) || Regular(u[id].nextAt, d)
    requires u[id].expires.None? || (id in t && u[id].expires == t[id].expires) || Regular(u[id].expires.value, d)
    ensures RegularTable(u, d)
  {
    hide Regular;
    RegularRow(t, id, u[id], d);
  }

  lemma RegularLegible(r: Timing, t: Table, op: Op, d: nat)
    requires RegularTable(t, d) && RegularOp(r, op, d)
    ensures LegibleStep(t, op)
  {
    hide Regular, Comparable;
    forall a, b: Instant | Regular(a, d) && Regular(b, d)
      ensures Comparable(a, b)
    {
      RegularComparable(a, b, d);
    }
  }

  lemma {:induction false} RegularRun(r: Timing, t: Table, ops: seq<Op>, d: nat)
    requires WholeSeconds(r) && S.AllProper(ops) && S.TableOk(t) && RegularTable(t, d)
    requires forall k :: 0 <= k < |ops| ==> RegularOp(r, ops[k], d)
    ensures LegibleRun(r, t, ops)
    ensures var u := Run(r.OnText(), t, ops);
      RegularTable(u, d) && S.TableOk(u)
  {
    hide RegularOp, RegularTable, LegibleStep, S.TableOk, S.Proper, After;
    if ops != [] {
      var n := |ops| - 1;
      RegularRun(r, t, ops[..n], d);
      var u := Run(r.OnText(), t, ops[..n]);
      RegularLegible(r, u, ops[n], d);
      RegularStep(r, u, ops[n], d);
      S.StepKeepsTableOk(r.OnText(), u, ops[n]);
      forall k | 0 <= k < n
        ensures LegibleStep(Run(r.OnText(), t, ops[..k]), ops[k])
      {
        assert ops[..n][..k] == ops[..k] && ops[..n][k] == ops[k];
        assert LegibleStep(Run(r.OnText(), t, ops[..n][..k]), ops[..n][k]);
      }
    }
  }

  /**
   * The condition is met, and so holds exclude each other, when the time to live and the retry base are whole
   * seconds and all readings are printed with one number of fractional digits, for instance none.
   */
  lemma OneDigitCountExcludes(r: Timing, ops: seq<Op>, id: Id, d: nat)
    requires WholeSeconds(r) && r.ttl > 0 && S.AllProper(ops) && S.Honest(r.OnText(), ops, id) && S.FreshTokens(ops)
    requires forall k :: 0 <= k < |ops| ==> RegularOp(r, ops[k], d)
    ensures var log := S.History(r.OnText(), ops, id);
      forall i, j :: 0 <= i < j < |log| ==> forall x :: !(log[i].Covers(x) && log[j].Covers(x))
  {
    hide RegularOp, S.History, Run, S.Honest;
    RegularRun(r, map[], ops, d);
    TextHoldsExclude(r, ops, id);
  }

  // ---- Runs that do not ----

  lemma HalfFraction()
    ensures Fraction(0) < Fraction(SECOND / 2)
  {
    PadZero(9);
    ZerosVanish(Pad(0, 9));
    if Fraction(SECOND / 2) == "" { FractionInjective(0, SECOND / 2); }
  }

  lemma StampTexts(a: Instant, b: Instant)
    requires Printable(a) && Printable(b)
    ensures a >= 0 && b >= 0 && (TextBefore(a, b) <==> Text.Less(FormatTime(StampOf(a)), FormatTime(StampOf(b))))
  {
    hide StampOf, FormatTime, Text.Less;
  }

  /** Within one second, the order of the texts is the order of what follows the seconds. */
  lemma SameSecondReads(a: Instant, b: Instant)
    requires Printable(a) && Printable(b) && a / SECOND == b / SECOND
    ensures TextBefore(a, b) <==> Text.Less(Tail(a % SECOND), Tail(b % SECOND))
  {
    hide StampOf, Stamp.Valid, Stamp.Nanos, Stamp.Seconds, Tail, FormatTime, Text.Less, Printable, TextBefore;
    StampTexts(a, b);
    StampOfInstant(a);
    StampOfInstant(b);
    SameSecond(StampOf(a), StampOf(b));
  }

  /** Of two times that are not comparable, the text puts the later one first. */
  lemma Misread(a: Instant, b: Instant)
    requires Printable(a) && Printable(b) && a < b && !Comparable(a, b)
    ensures TextBefore(b, a) && !TextBefore(a, b)
  {
    hide Fraction, Tail, Printable, TextBefore, Text.Less;
    if FractionOf(b) < FractionOf(a) { PrefixSmaller(b % SECOND, a % SECOND); }
    PrefixFractions(a % SECOND, b % SECOND);
    SameSecondReads(a, b);
    SameSecondReads(b, a);
  }

  /** The text of the later time comes first exactly when the times are not comparable. */
  lemma ReadsWrongIff(a: Instant, b: Instant)
    requires Printable(a) && Printable(b)
    ensures (TextBefore(a, b) <==> a < b) <==> Comparable(a, b)
  {
    hide Printable, TextBefore, FractionOf;
    if Comparable(a, b) {
      Agrees(a, b);
    } else if a < b {
      Misread(a, b);
    } else if b < a {
      Misread(b, a);
    }
  }

  /** Each guard on a row agrees with the clock exactly when the two times that it compares are comparable. */
  lemma GuardsAgreeIff(r: Timing, i: Item, now: Instant)
    requires Printable(now) && (i.expires.Some? ==> Printable(i.expires.value)) && Printable(i.nextAt)
    ensures var text, clock := r.OnText().before, r.OnClock().before;
      && (i.phase.Held? && i.expires.Some? ==>
            && ((i.Live(text, now) <==> i.Live(clock, now)) <==> Comparable(now, i.expires.value))
            && ((i.Expired(text, now) <==> i.Expired(clock, now)) <==> Comparable(now, i.expires.value)))
      && (i.phase.Waiting? ==> ((i.Due(text, now) <==> i.Due(clock, now)) <==> Comparable(now, i.nextAt)))
  {
    hide Printable, TextBefore, Comparable;
    if i.expires.Some? { ReadsWrongIff(now, i.expires.value); }
    ReadsWrongIff(now, i.nextAt);
  }

  lemma TextIrreflexive(x: Instant)
    ensures !TextBefore(x, x)
  {
    Text.LessIrreflexive(Printed(x));
  }

  /** One job claimed by two workers, at `start` and at `now`. */
  function TwoClaims(start: Instant, now: Instant): seq<Op> {
    [Enqueue("job", 2, start), Claim(start, "first", "a"), Claim(now, "second", "b")]
  }

  /** A claim on a table of one due row takes that row. */
  lemma ClaimsOnlyRow(cfg: Config, i: Item, now: Instant, worker: string, token: string)
    requires i.Due(cfg.before, now) && i.attempts < i.max
    ensures var t, op := map["job" := i], Claim(now, worker, token);
      && Step(cfg, t, op) == Some(map["job" := i.Claimed(worker, token, now + cfg.ttl)])
      && S.EffectOn(cfg, t, op, "job") == S.Opened(token, now, now + cfg.ttl)
  {
    var t := map["job" := i];
    assert IsNext(cfg.before, t, now, "job");
    assert Next(cfg.before, t, now) == Some("job");
    assert t["job" := i.Claimed(worker, token, now + cfg.ttl)] == map["job" := i.Claimed(worker, token, now + cfg.ttl)];
    hide Backoff, Before;
  }

  /** And one on a table whose only row is not due takes nothing. */
  lemma ClaimsNothing(cfg: Config, i: Item, now: Instant, worker: string, token: string)
    requires !i.Due(cfg.before, now)
    ensures S.EffectOn(cfg, map["job" := i], Claim(now, worker, token), "job") == S.Untouched
  {
  }

  /** The first two calls: the job is held from `start` on. */
  lemma FirstClaimRun(cfg: Config, start: Instant, now: Instant)
    requires !cfg.before(start, start)
    ensures var ops, expiry := TwoClaims(start, now), start + cfg.ttl;
      && Run(cfg, map[], ops[..2]) == map["job" := Item(Waiting, "", "", None, 0, 2, start, start, 1).Claimed("first", "a", expiry)]
      && S.History(cfg, ops[..2], "job") == [S.Hold("a", start, expiry, None)]
  {
    var ops, i := TwoClaims(start, now), Item(Waiting, "", "", None, 0, 2, start, start, 1);
    ClaimsOnlyRow(cfg, i, start, "first", "a");
    hide Step, S.EffectOn;
    assert ops[..0] == [] && ops[..1] == [ops[0]] && ops[..2] == [ops[0], ops[1]];
    assert ops[..1][..0] == [] && ops[..2][..1] == ops[..1];
    FirstEnqueue(cfg, ops[0]);
    assert Run(cfg, map[], ops[..1]) == map["job" := i];
    assert S.History(cfg, ops[..1], "job") == [];
  }

  lemma FirstEnqueue(cfg: Config, op: Op)
    requires op.Enqueue?
    ensures Run(cfg, map[], []) == map[] && S.EffectOn(cfg, map[], op, op.id) == S.Untouched
    ensures Step(cfg, map[], op) == Some(map[op.id := Item(Waiting, "", "", None, 0, op.max, op.now, op.now, 1)])
  {
  }

  /** The second claim takes the job exactly when the guards find it due. */
  lemma SecondClaimRun(cfg: Config, start: Instant, now: Instant)
    requires !cfg.before(start, start)
    ensures var ops, expiry := TwoClaims(start, now), start + cfg.ttl;
      S.History(cfg, ops, "job") == [S.Hold("a", start, expiry, None)]
        + (if !cfg.before(now, start) && !cfg.before(now, expiry) then [S.Hold("b", now, now + cfg.ttl, None)] else [])
  {
    var ops, expiry := TwoClaims(start, now), start + cfg.ttl;
    var held := Item(Waiting, "", "", None, 0, 2, start, start, 1).Claimed("first", "a", expiry);
    FirstClaimRun(cfg, start, now);
    if held.Due(cfg.before, now) {
      ClaimsOnlyRow(cfg, held, now, "second", "b");
    } else {
      ClaimsNothing(cfg, held, now, "second", "b");
    }
    hide Step, S.EffectOn, Run;
    assert ops[..3] == ops && ops[..|ops| - 1] == ops[..2];
  }

  lemma NobodyPresents(cfg: Config, ops: seq<Op>)
    requires forall k :: 0 <= k < |ops| ==> !ops[k].Presenting()
    ensures S.Honest(cfg, ops, "job")
  {
    hide Run, Step, S.History;
  }

  /**
   * Exactly when the guards of the source reclaim a live lease: two workers with fresh tokens claim one job at
   * `start` and at a later `now` before the first lease expires, and both tenures cover every instant from
   * `now` to that expiry exactly when `now` is comparable with `start` but not with the expiry; otherwise the
   * second claim finds nothing.
   */
  lemma TextHoldsOverlapIff(r: Timing, start: Instant, now: Instant)
    requires 0 <= start < now < start + r.ttl && Printable(start + r.ttl)
    ensures var cfg, ops, expiry := r.OnText(), TwoClaims(start, now), start + r.ttl;
      && S.AllProper(ops) && S.FreshTokens(ops) && S.Honest(cfg, ops, "job")
      && var log := S.History(cfg, ops, "job");
         if Comparable(start, now) && !Comparable(now, expiry) then
           |log| == 2 && log[0].token != log[1].token && forall x :: now <= x < expiry ==> log[0].Covers(x) && log[1].Covers(x)
         else |log| == 1
  {
    hide TextBefore, Printable, FractionOf, S.History;
    PrintableBelow(now, start + r.ttl);
    PrintableBelow(start, now);
    TextIrreflexive(start);
    ReadsWrongIff(now, start);
    ReadsWrongIff(now, start + r.ttl);
    SecondClaimRun(r.OnText(), start, now);
    NobodyPresents(r.OnText(), TwoClaims(start, now));
  }

  /** Half a second into a second is printed before its start. */
  lemma HalfSecondNotComparable(x: Instant)
    requires x >= 0 && x % SECOND == 0 && Printable(x + SECOND / 2)
    ensures Printable(x) && !Comparable(x, x + SECOND / 2)
  {
    hide Fraction, Printable;
    PrintableBelow(x, x + SECOND / 2);
    HalfFraction();
    assert (x + SECOND / 2) % SECOND == SECOND / 2 && (x + SECOND / 2) / SECOND == x / SECOND;
  }

  const HALF_PAST := Timing(1_500_000_000, 0)

  /**
   * For instance: claimed on the whole second for a second and a half, and claimed again on the next whole
   * second, half a second before the lease expires.
   */
  lemma EarlyReclaim(start: Instant)
    requires start >= 0 && start % SECOND == 0 && Printable(start + 2 * SECOND)
    ensures var now, log := start + SECOND, S.History(HALF_PAST.OnText(), TwoClaims(start, start + SECOND), "job");
      |log| == 2 && forall x :: now <= x < now + SECOND / 2 ==> log[0].Covers(x) && log[1].Covers(x)
  {
    hide TextBefore, Printable, FractionOf, S.History;
    var now := start + SECOND;
    assert now % SECOND == 0 && now / SECOND != start / SECOND;
    PrintableBelow(now + SECOND / 2, start + 2 * SECOND);
    PrintableBelow(start, now + SECOND / 2);
    HalfSecondNotComparable(now);
    assert Comparable(start, now);
    TextHoldsOverlapIff(HALF_PAST, start, now);
  }

  /** And they miss an expired lease: half a second after it expired, recovery leaves the row in place. */
  lemma TextMissesExpired(i: Item, x: Instant)
    requires i.phase.Held? && i.expires == Some(x) && x >= 0 && x % SECOND == 0 && Printable(x + SECOND / 2)
    ensures var text, clock, now := HALF_PAST.OnText().before, HALF_PAST.OnClock().before, x + SECOND / 2;
      i.Expired(clock, now) && i.Live(text, now) && i.Recovered(text, now) == i != i.Recovered(clock, now)
  {
    hide TextBefore, Printable, FractionOf;
    HalfSecondNotComparable(x);
    Misread(x, x + SECOND / 2);
  }
}
