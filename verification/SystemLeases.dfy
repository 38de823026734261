/** Scheduler jobs and outbox events of the whole system run the leased-retry machine. */
module SystemLeases {
  import opened Basics
  import opened Domain
  import opened System
  import opened Timestamps
  import opened History
  import Sorting
  import J = Scheduler
  import JP = SchedulerProofs
  import O = Outbox
  import R = Recovery
  import F = Frames
  import L = Leases
  import S = LeaseSafety
  import P = LeaseProgress
  import X = TextLeases

  /** The two tables of leased rows. */
  datatype Queue = Jobs | Events {
    function Rows(t: Tables): L.Table { if Jobs? then J.Items(t.jobs) else O.Items(t.events) }

    function TimingIn(cfg: Config): L.Timing { if Jobs? then cfg.jobs else cfg.events }

    /** The machine of the queue, with guards on the stored texts. */
    function Machine(cfg: Config): L.Config { TimingIn(cfg).OnText() }

    predicate Owns(c: Command) { if Jobs? then c.OnJob? else c.OnEvent? }

    function StepOf(c: Command): L.Op
      requires Owns(c)
    {
      if Jobs? then JP.MachineOp(c.job) else O.MachineOp(c.event)
    }

    /** Jobs get a positive budget, and claims carry a token; a job claim also names a worker, which the outbox checks itself. */
    predicate Proper(c: Command) {
      if Jobs? then c.OnJob? ==> S.Proper(JP.MachineOp(c.job)) else c.OnEvent? && c.event.Claim? ==> c.event.token != ""
    }

    /** The machine's invariant, and for jobs the attempt rows in step. */
    ghost predicate Sound(t: Tables) { S.TableOk(Rows(t)) && (Jobs? ==> JP.AttemptsOk(t.jobs, t.attempts)) }

    function ClaimCall(worker: Id, token: string, now: Instant): Command {
      if Jobs? then OnJob(J.JobOp.Claim(worker, token, now)) else OnEvent(O.EventOp.Claim(worker, token, now))
    }

    /** The row that the due query selects. */
    predicate FirstDue(t: Tables, now: Instant, id: Id) {
      if Jobs? then J.FirstDue(TextBefore, t.jobs, now, id) else O.FirstDue(TextBefore, t.events, now, id)
    }
  }

  predicate AllProper(q: Queue, cs: seq<Command>) { forall k :: 0 <= k < |cs| ==> q.Proper(cs[k]) }

  /** The machine steps that one call makes: none when it is refused or has no part in the queue. */
  ghost function Steps(q: Queue, cfg: Config, t: Tables, c: Command): seq<L.Op> {
    if q.Owns(c) then (if Exec(cfg, t, c).Ok? then [q.StepOf(c)] else [])
    else if c.RecoverExpired? then [L.Recover(c.now)]
    else []
  }

  ghost function Trace(q: Queue, cfg: Config, t: Tables, cs: seq<Command>): seq<L.Op> {
    if cs == [] then []
    else
      var n := |cs| - 1;
      Trace(q, cfg, t, cs[..n]) + Steps(q, cfg, Run(cfg, t, cs[..n]), cs[n])
  }

  // ---- Every call makes machine steps ----

  /** One call moves the rows as its machine steps do, and keeps them sound. */
  ghost predicate Follows(q: Queue, cfg: Config, t: Tables, c: Command) {
    var u := After(cfg, t, c);
    q.Rows(u) == L.Run(q.Machine(cfg), q.Rows(t), Steps(q, cfg, t, c)) && q.Sound(u)
  }

  lemma RunOne(cfg: L.Config, t: L.Table, op: L.Op)
    ensures L.Run(cfg, t, [op]) == L.After(cfg, t, op)
    ensures L.Run(cfg, t, []) == t
  {
    hide L.After;
    assert [op][..0] == [];
  }

  lemma JobCallFollows(cfg: Config, t: Tables, c: Command)
    requires Jobs.Sound(t) && c.OnJob? && Jobs.Proper(c) && Exec(cfg, t, c).Ok?
    ensures Follows(Jobs, cfg, t, c)
  {
    hide J.JobRows, Exec, JP.MachineOp, L.Step, TextBefore;
    var rows, op := J.RowsIn(t), JP.MachineOp(c.job);
    F.ExecGroups(cfg, t, c);
    JP.JobRefines(cfg.jobs.OnText(), t.releases, rows, c.job);
    JP.JobStepKeepsAttempts(cfg.jobs.OnText(), t.releases, rows, c.job);
    RunOne(cfg.jobs.OnText(), J.Items(t.jobs), op);
    S.StepKeepsTableOk(cfg.jobs.OnText(), J.Items(t.jobs), op);
  }

  lemma EventCallFollows(cfg: Config, t: Tables, c: Command)
    requires Events.Sound(t) && c.OnEvent? && Events.Proper(c) && Exec(cfg, t, c).Ok?
    ensures Follows(Events, cfg, t, c)
  {
    AcceptedEventProper(cfg, t, c);
    hide O.EventRows, Exec, O.MachineOp, L.Step, TextBefore, S.Proper;
    var op := O.MachineOp(c.event);
    F.ExecGroups(cfg, t, c);
    O.EventRefines(cfg.events.OnText(), t.events, c.event);
    RunOne(cfg.events.OnText(), O.Items(t.events), op);
    S.StepKeepsTableOk(cfg.events.OnText(), O.Items(t.events), op);
  }

  /** The outbox refuses a claim without a worker, and gives every event its budget. */
  lemma AcceptedEventProper(cfg: Config, t: Tables, c: Command)
    requires c.OnEvent? && Events.Proper(c) && Exec(cfg, t, c).Ok?
    ensures S.Proper(O.MachineOp(c.event))
  {
    F.ExecGroups(cfg, t, c);
    hide Exec, TextBefore, L.Next;
  }

  lemma JobsRecovered(cfg: L.Config, t: Tables, now: Instant)
    requires Jobs.Sound(t)
    ensures var jobs := J.RecoveredJobs(cfg.before, t.jobs, now);
      J.Items(jobs) == L.After(cfg, J.Items(t.jobs), L.Recover(now)) && JP.AttemptsOk(jobs, t.attempts) && S.TableOk(J.Items(jobs))
  {
    JP.RecoverItems(cfg.before, t.jobs, now);
    JP.JobStepKeepsAttempts(cfg, t.releases, J.RowsIn(t), J.JobOp.Recover(now));
    S.StepKeepsTableOk(cfg, J.Items(t.jobs), L.Recover(now));
  }

  lemma EventsRecovered(cfg: L.Config, t: Tables, now: Instant)
    requires Events.Sound(t)
    ensures var events := O.RecoveredEvents(cfg.before, t.events, now);
      O.Items(events) == L.After(cfg, O.Items(t.events), L.Recover(now)) && S.TableOk(O.Items(events))
  {
    O.RecoverRefines(cfg.before, t.events, now);
    S.StepKeepsTableOk(cfg, O.Items(t.events), L.Recover(now));
  }

  lemma RecoveryFollows(q: Queue, cfg: Config, t: Tables, now: Instant)
    requires q.Sound(t)
    ensures var u := After(cfg, t, RecoverExpired(now));
      q.Rows(u) == L.After(q.Machine(cfg), q.Rows(t), L.Recover(now)) && q.Sound(u)
  {
    hide TextBefore, Exec, L.After, O.Items, O.RecoveredEvents, J.Items, J.RecoveredJobs, S.TableOk, JP.AttemptsOk;
    F.ExecGroups(cfg, t, RecoverExpired(now));
    if q.Jobs? { JobsRecovered(cfg.jobs.OnText(), t, now); } else { EventsRecovered(cfg.events.OnText(), t, now); }
  }

  lemma CallFollows(q: Queue, cfg: Config, t: Tables, c: Command)
    requires q.Sound(t) && q.Proper(c)
    ensures Follows(q, cfg, t, c)
  {
    hide Exec, L.After, TextBefore;
    RunOne(q.Machine(cfg), q.Rows(t), L.Recover(if c.RecoverExpired? then c.now else 0));
    if q.Owns(c) && Exec(cfg, t, c).Ok? {
      if q.Jobs? { JobCallFollows(cfg, t, c); } else { EventCallFollows(cfg, t, c); }
    } else if c.RecoverExpired? {
      RecoveryFollows(q, cfg, t, c.now);
    } else {
      F.Unchanged(cfg, t, c);
    }
  }

  lemma StepsProper(q: Queue, cfg: Config, t: Tables, c: Command)
    requires q.Proper(c)
    ensures S.AllProper(Steps(q, cfg, t, c))
  {
    hide Exec;
    if q.Events? && c.OnEvent? && Exec(cfg, t, c).Ok? { AcceptedEventProper(cfg, t, c); }
  }

  /**
   * Whatever else the system does, the rows of a queue are those of the machine run on the accepted calls and
   * the recoveries; the machine's table invariant holds, and the attempt rows of each job are numbered 1..attempts.
   */
  lemma {:induction false} RunsMachine(q: Queue, cfg: Config, t: Tables, cs: seq<Command>)
    requires q.Sound(t) && AllProper(q, cs)
    ensures q.Rows(Run(cfg, t, cs)) == L.Run(q.Machine(cfg), q.Rows(t), Trace(q, cfg, t, cs))
    ensures q.Sound(Run(cfg, t, cs)) && S.AllProper(Trace(q, cfg, t, cs))
  {
    hide After, Queue.Sound, Queue.Rows, Queue.Proper, Queue.Machine, Steps, L.After, S.Proper;
    if cs != [] {
      var n := |cs| - 1;
      RunsMachine(q, cfg, t, cs[..n]);
      var u := Run(cfg, t, cs[..n]);
      CallFollows(q, cfg, u, cs[n]);
      StepsProper(q, cfg, u, cs[n]);
      L.RunConcat(q.Machine(cfg), q.Rows(t), Trace(q, cfg, t, cs[..n]), Steps(q, cfg, u, cs[n]));
    }
  }

  lemma EmptySound(q: Queue)
    ensures q.Sound(EMPTY) && q.Rows(EMPTY) == map[]
  {
  }

  // ---- Safety and termination over any run ----

  /** Over any run of the whole system a row with budget `max` moves at most 2*max times and waits at most the sum of its backoffs. */
  lemma WorkBounded(q: Queue, cfg: Config, cs: seq<Command>, id: Id)
    requires q.Machine(cfg).base >= 0 && AllProper(q, cs) && id in q.Rows(Run(cfg, EMPTY, cs))
    ensures var m, trace, i := q.Machine(cfg), Trace(q, cfg, EMPTY, cs), q.Rows(Run(cfg, EMPTY, cs))[id];
      i.max >= 1 && P.MoveCount(m, trace, id) <= 2 * i.max && P.Delay(m, trace, id) <= m.base * P.Limit(i.max)
  {
    hide Run, Trace, Queue.Rows;
    EmptySound(q);
    RunsMachine(q, cfg, EMPTY, cs);
    P.MovesBounded(q.Machine(cfg), Trace(q, cfg, EMPTY, cs), id);
    P.DelayBounded(q.Machine(cfg), Trace(q, cfg, EMPTY, cs), id);
  }

  /**
   * Over any run of the whole system whose compared times are comparable as text, holds of different tokens on
   * one row never overlap, and the row shows the last of them.
   */
  lemma HoldsExclude(q: Queue, cfg: Config, cs: seq<Command>, id: Id)
    requires q.Machine(cfg).ttl > 0 && q.Machine(cfg).base >= 0 && AllProper(q, cs)
    requires var trace := Trace(q, cfg, EMPTY, cs);
      S.Honest(q.Machine(cfg), trace, id) && S.FreshTokens(trace) && X.LegibleRun(q.TimingIn(cfg), map[], trace)
    ensures var log := S.History(q.Machine(cfg), Trace(q, cfg, EMPTY, cs), id);
      forall i, j :: 0 <= i < j < |log| ==>
        log[i].token != log[j].token && forall x :: !(log[i].Covers(x) && log[j].Covers(x))
    ensures var rows := q.Rows(Run(cfg, EMPTY, cs));
      id in rows && rows[id].phase.Held? ==>
        var log := S.History(q.Machine(cfg), Trace(q, cfg, EMPTY, cs), id);
        log != [] && S.Last(log).token == rows[id].token && Some(S.Last(log).Ending()) == rows[id].expires
  {
    hide Run, Trace, Queue.Rows, X.LegibleRun, S.Honest, S.History, S.FreshTokens;
    EmptySound(q);
    RunsMachine(q, cfg, EMPTY, cs);
    X.TextHoldsExclude(q.TimingIn(cfg), Trace(q, cfg, EMPTY, cs), id);
  }

  // ---- When a failed row is due again ----

  /** A committed failure that is not permanent, of a row with budget left. */
  ghost predicate Retries(q: Queue, cfg: Config, t: Tables, c: Command) {
    && q.Owns(c) && q.StepOf(c).Fail? && Commits(cfg, t, c) && !q.StepOf(c).permanent
    && var i := q.StepOf(c).id; i in q.Rows(t) && 1 <= q.Rows(t)[i].attempts < q.Rows(t)[i].max
  }

  /** `base * 2^min(attempts-1, 8)` after the reading of the call. */
  function RetryAt(q: Queue, cfg: Config, t: Tables, c: Command): Instant
    requires q.Owns(c) && q.StepOf(c).Fail? && q.StepOf(c).id in q.Rows(t) && 1 <= q.Rows(t)[q.StepOf(c).id].attempts
  {
    P.RetryAt(q.Machine(cfg).base, q.Rows(t)[q.StepOf(c).id].attempts, q.StepOf(c).now)
  }

  lemma FailCallFollows(q: Queue, cfg: Config, t: Tables, c: Command)
    requires q.Sound(t) && q.Proper(c) && q.Owns(c) && q.StepOf(c).Fail? && Commits(cfg, t, c)
    ensures var op := q.StepOf(c);
      && L.Step(q.Machine(cfg), q.Rows(t), op).Some? && q.Rows(After(cfg, t, c)) == L.After(q.Machine(cfg), q.Rows(t), op)
      && S.TableOk(q.Rows(t)) && q.Sound(After(cfg, t, c))
  {
    hide Exec, L.Step, JP.AttemptsOk, S.TableOk, O.EventRows, J.JobRows, TextBefore;
    CallFollows(q, cfg, t, c);
    RunOne(q.Machine(cfg), q.Rows(t), q.StepOf(c));
    F.ExecGroups(cfg, t, c);
    if q.Jobs? {
      JP.JobRefines(cfg.jobs.OnText(), t.releases, J.RowsIn(t), c.job);
    } else {
      O.EventRefines(cfg.events.OnText(), t.events, c.event);
    }
  }

  /**
   * After such a failure the stored row waits and is due exactly at the readings that do not read as before
   * `RetryAt`: for comparable times, from that time on.
   */
  lemma RetryIsDue(q: Queue, cfg: Config, t: Tables, c: Command)
    requires q.Sound(t) && q.Proper(c) && Retries(q, cfg, t, c)
    ensures var rows, id, due := q.Rows(After(cfg, t, c)), q.StepOf(c).id, RetryAt(q, cfg, t, c);
      && id in rows && rows[id].phase.Waiting? && rows[id].nextAt == due
      && (forall x :: rows[id].Due(TextBefore, x) <==> !TextBefore(x, due))
      && (forall x :: Comparable(x, due) ==> (rows[id].Due(TextBefore, x) <==> due <= x))
  {
    hide Exec, After, Queue.Rows, Queue.Sound, Queue.StepOf, Queue.Proper, L.Step, L.After, TextBefore, Comparable, S.TableOk;
    FailCallFollows(q, cfg, t, c);
    P.FailPutsOff(q.Machine(cfg), q.Rows(t), q.StepOf(c));
    S.StepRows(q.Machine(cfg), q.Rows(t), q.StepOf(c));
    forall x | Comparable(x, RetryAt(q, cfg, t, c))
      ensures TextBefore(x, RetryAt(q, cfg, t, c)) <==> x < RetryAt(q, cfg, t, c)
    {
      X.Agrees(x, RetryAt(q, cfg, t, c));
    }
  }

  /** No claim of the run on the queue reads as not before the time. */
  predicate ClaimsBefore(q: Queue, cs: seq<Command>, due: Instant) {
    forall k :: 0 <= k < |cs| && q.Owns(cs[k]) && q.StepOf(cs[k]).Claim? ==> TextBefore(q.StepOf(cs[k]).now, due)
  }

  /** And over any run of the whole system whose claims on the queue read as before that time, the row stays as it is. */
  lemma RetryWaits(q: Queue, cfg: Config, t: Tables, c: Command, cs: seq<Command>)
    requires q.Sound(t) && q.Proper(c) && Retries(q, cfg, t, c) && AllProper(q, cs) && ClaimsBefore(q, cs, RetryAt(q, cfg, t, c))
    ensures var id, u := q.StepOf(c).id, After(cfg, t, c);
      && id in q.Rows(u) && id in q.Rows(Run(cfg, u, cs)) && q.Rows(Run(cfg, u, cs))[id] == q.Rows(u)[id]
  {
    hide Exec, After, Run, Trace, Queue.Rows, Queue.Sound, Queue.StepOf, Queue.Proper, Queue.Owns, TextBefore, Retries, AllProper, ClaimsBefore,
      RetryAt, L.Run;
    RetriesOwned(q, cfg, t, c);
    var u, due := After(cfg, t, c), RetryAt(q, cfg, t, c);
    RetryIsDue(q, cfg, t, c);
    FailCallFollows(q, cfg, t, c);
    RunsMachine(q, cfg, u, cs);
    TraceClaims(q, cfg, u, cs, due);
    P.WaitsForRetry(q.Machine(cfg), q.Rows(u), Trace(q, cfg, u, cs), q.StepOf(c).id);
  }

  lemma RetriesOwned(q: Queue, cfg: Config, t: Tables, c: Command)
    requires Retries(q, cfg, t, c)
    ensures q.Owns(c) && q.StepOf(c).Fail? && Commits(cfg, t, c)
    ensures q.StepOf(c).id in q.Rows(t) && 1 <= q.Rows(t)[q.StepOf(c).id].attempts
  {
    hide Exec;
  }

  predicate EarlyClaims(ops: seq<L.Op>, due: Instant) { forall k :: 0 <= k < |ops| && ops[k].Claim? ==> TextBefore(ops[k].now, due) }

  lemma StepClaims(q: Queue, cfg: Config, t: Tables, c: Command, due: Instant)
    requires q.Owns(c) && q.StepOf(c).Claim? ==> TextBefore(q.StepOf(c).now, due)
    ensures EarlyClaims(Steps(q, cfg, t, c), due)
  {
    hide Exec, Queue.StepOf, TextBefore;
  }

  lemma {:induction false} TraceClaims(q: Queue, cfg: Config, t: Tables, cs: seq<Command>, due: Instant)
    requires ClaimsBefore(q, cs, due)
    ensures EarlyClaims(Trace(q, cfg, t, cs), due)
  {
    hide Steps, Run, Queue.StepOf, TextBefore;
    if cs != [] {
      var n := |cs| - 1;
      TraceClaims(q, cfg, t, cs[..n], due);
      StepClaims(q, cfg, Run(cfg, t, cs[..n]), cs[n], due);
    }
  }

  // ---- Runs with one digit count ----

  function ClockOf(q: Queue, c: Command): Option<Instant> {
    if q.Owns(c) then Some(q.StepOf(c).now) else if c.RecoverExpired? then Some(c.now) else None
  }

  /** Every call on the queue reads a clock that is printed with `d` fractional digits. */
  predicate OneDigitCount(q: Queue, cfg: Config, cs: seq<Command>, d: nat) {
    forall k :: 0 <= k < |cs| ==> RegularCall(q, cfg, cs[k], d)
  }

  predicate RegularCall(q: Queue, cfg: Config, c: Command, d: nat) {
    ClockOf(q, c).Some? ==> X.RegularOp(q.TimingIn(cfg), L.Recover(ClockOf(q, c).value), d)
  }

  lemma StepsRegular(q: Queue, cfg: Config, t: Tables, c: Command, d: nat)
    requires RegularCall(q, cfg, c, d)
    ensures forall k :: 0 <= k < |Steps(q, cfg, t, c)| ==> X.RegularOp(q.TimingIn(cfg), Steps(q, cfg, t, c)[k], d)
  {
    hide Exec, X.Regular, Printable, Queue.StepOf;
  }

  lemma {:induction false} TraceRegular(q: Queue, cfg: Config, t: Tables, cs: seq<Command>, d: nat)
    requires OneDigitCount(q, cfg, cs, d)
    ensures forall k :: 0 <= k < |Trace(q, cfg, t, cs)| ==> X.RegularOp(q.TimingIn(cfg), Trace(q, cfg, t, cs)[k], d)
  {
    hide RegularCall, X.RegularOp, Steps, Run;
    if cs != [] {
      var n := |cs| - 1;
      TraceRegular(q, cfg, t, cs[..n], d);
      StepsRegular(q, cfg, Run(cfg, t, cs[..n]), cs[n], d);
    }
  }

  /** A condition on the calls alone: durations in whole seconds, and readings with one number of fractional digits. */
  lemma OneDigitCountExcludes(q: Queue, cfg: Config, cs: seq<Command>, id: Id, d: nat)
    requires X.WholeSeconds(q.TimingIn(cfg)) && q.Machine(cfg).ttl > 0 && AllProper(q, cs) && OneDigitCount(q, cfg, cs, d)
    requires var trace := Trace(q, cfg, EMPTY, cs); S.Honest(q.Machine(cfg), trace, id) && S.FreshTokens(trace)
    ensures var log := S.History(q.Machine(cfg), Trace(q, cfg, EMPTY, cs), id);
      forall i, j :: 0 <= i < j < |log| ==> forall x :: !(log[i].Covers(x) && log[j].Covers(x))
  {
    hide Run, Trace, Queue.Rows, X.RegularOp, S.Honest, S.History, S.FreshTokens, OneDigitCount;
    EmptySound(q);
    RunsMachine(q, cfg, EMPTY, cs);
    TraceRegular(q, cfg, EMPTY, cs, d);
    X.OneDigitCountExcludes(q.TimingIn(cfg), Trace(q, cfg, EMPTY, cs), id, d);
  }

  // ---- Bounded wait ----

  /** Recovery and a claim at one clock reading, then any calls of the system other than claims on the queue. */
  datatype Round = Round(now: Instant, worker: string, token: string, rest: seq<Command>)

  function Claims(q: Queue, r: Round): Command { q.ClaimCall(r.worker, r.token, r.now) }

  ghost function AfterRound(q: Queue, cfg: Config, t: Tables, r: Round): Tables {
    Run(cfg, After(cfg, After(cfg, t, RecoverExpired(r.now)), Claims(q, r)), r.rest)
  }

  /** The tables as round `i` finds them. */
  ghost function Start(q: Queue, cfg: Config, t: Tables, rounds: seq<Round>, i: nat): Tables
    requires i <= |rounds|
  {
    if i == 0 then t else AfterRound(q, cfg, Start(q, cfg, t, rounds, i - 1), rounds[i - 1])
  }

  /** The tables that the claim of round `i` sees. */
  ghost function Seen(q: Queue, cfg: Config, t: Tables, rounds: seq<Round>, i: nat): Tables
    requires i < |rounds|
  {
    After(cfg, Start(q, cfg, t, rounds, i), RecoverExpired(rounds[i].now))
  }

  /** No claim, and every call on the queue or recovery reads a later clock. */
  predicate Quiet(q: Queue, cs: seq<Command>, since: Instant) {
    AllProper(q, cs) && forall k :: 0 <= k < |cs| ==> QuietCall(q, cs[k], since)
  }

  predicate QuietCall(q: Queue, c: Command, since: Instant) {
    !(q.Owns(c) && q.StepOf(c).Claim?) && (ClockOf(q, c).Some? ==> since < ClockOf(q, c).value)
  }

  predicate Orderly(q: Queue, rounds: seq<Round>) {
    && rounds != []
    && (forall i :: 0 < i < |rounds| ==> rounds[0].now < rounds[i].now)
    && (forall i :: 0 <= i < |rounds| ==> Quiet(q, rounds[i].rest, rounds[0].now))
    && (forall i :: 0 <= i < |rounds| ==> rounds[i].worker != "" && rounds[i].token != "")
  }

  /** The round that the machine goes through. */
  ghost function MachineRound(q: Queue, cfg: Config, t: Tables, r: Round): P.Round {
    P.Round(r.now, r.worker, r.token, Trace(q, cfg, After(cfg, After(cfg, t, RecoverExpired(r.now)), Claims(q, r)), r.rest))
  }

  ghost function MachineRounds(q: Queue, cfg: Config, t: Tables, rounds: seq<Round>): seq<P.Round> {
    seq(|rounds|, i requires 0 <= i < |rounds| => MachineRound(q, cfg, Start(q, cfg, t, rounds, i), rounds[i]))
  }

  /** All machine steps of the rounds. */
  ghost function RoundSteps(q: Queue, cfg: Config, t: Tables, rounds: seq<Round>): seq<L.Op> {
    X.Flat(MachineRounds(q, cfg, t, rounds), |rounds|)
  }

  lemma JobClaimFollows(cfg: Config, t: Tables, r: Round)
    requires Jobs.Sound(t) && r.worker != "" && r.token != ""
    ensures Exec(cfg, t, Claims(Jobs, r)).Ok? <==> L.Step(cfg.jobs.OnText(), J.Items(t.jobs), L.Claim(r.now, r.worker, r.token)).Some?
  {
    hide Exec, J.JobRows, L.Step, TextBefore;
    F.ExecGroups(cfg, t, Claims(Jobs, r));
    JP.JobRefines(cfg.jobs.OnText(), t.releases, J.RowsIn(t), Claims(Jobs, r).job);
  }

  lemma EventClaimFollows(cfg: Config, t: Tables, r: Round)
    requires r.worker != ""
    ensures Exec(cfg, t, Claims(Events, r)).Ok? <==> L.Step(cfg.events.OnText(), O.Items(t.events), L.Claim(r.now, r.worker, r.token)).Some?
  {
    hide Exec, O.EventRows, L.Step, TextBefore;
    F.ExecGroups(cfg, t, Claims(Events, r));
    O.EventRefines(cfg.events.OnText(), t.events, Claims(Events, r).event);
  }

  /** A claim, accepted or not, does to the rows what the machine's claim does. */
  lemma ClaimFollows(q: Queue, cfg: Config, t: Tables, r: Round)
    requires q.Sound(t) && r.worker != "" && r.token != ""
    ensures var u, op := After(cfg, t, Claims(q, r)), L.Claim(r.now, r.worker, r.token);
      && q.Rows(u) == L.After(q.Machine(cfg), q.Rows(t), op) && q.Sound(u)
      && (Exec(cfg, t, Claims(q, r)).Ok? <==> L.Step(q.Machine(cfg), q.Rows(t), op).Some?)
  {
    hide Exec, L.Step, TextBefore, S.TableOk, JP.AttemptsOk;
    if q.Jobs? { JobClaimFollows(cfg, t, r); } else { EventClaimFollows(cfg, t, r); }
    CallFollows(q, cfg, t, Claims(q, r));
    RunOne(q.Machine(cfg), q.Rows(t), L.Claim(r.now, r.worker, r.token));
  }

  lemma RoundFollows(q: Queue, cfg: Config, t: Tables, r: Round)
    requires q.Sound(t) && r.worker != "" && r.token != "" && AllProper(q, r.rest)
    ensures var u := AfterRound(q, cfg, t, r);
      q.Rows(u) == P.AfterRound(q.Machine(cfg), q.Rows(t), MachineRound(q, cfg, t, r)) && q.Sound(u)
  {
    hide After, Run, Queue.Sound, Queue.Rows, Queue.Machine, Trace, L.After, L.Run;
    var seen := After(cfg, t, RecoverExpired(r.now));
    RecoveryFollows(q, cfg, t, r.now);
    ClaimFollows(q, cfg, seen, r);
    RunsMachine(q, cfg, After(cfg, seen, Claims(q, r)), r.rest);
  }

  lemma {:induction false} StartFollows(q: Queue, cfg: Config, t: Tables, rounds: seq<Round>, i: nat)
    requires q.Sound(t) && Orderly(q, rounds) && i <= |rounds|
    ensures q.Rows(Start(q, cfg, t, rounds, i)) == P.Start(q.Machine(cfg), q.Rows(t), MachineRounds(q, cfg, t, rounds), i)
    ensures q.Sound(Start(q, cfg, t, rounds, i))
  {
    hide Queue.Sound, Queue.Rows, Queue.Machine, AfterRound, P.AfterRound, MachineRound;
    if i > 0 {
      StartFollows(q, cfg, t, rounds, i - 1);
      RoundFollows(q, cfg, Start(q, cfg, t, rounds, i - 1), rounds[i - 1]);
    }
  }

  lemma StepsQuiet(q: Queue, cfg: Config, t: Tables, c: Command, since: Instant)
    requires QuietCall(q, c, since) && q.Proper(c)
    ensures P.Quiet(Steps(q, cfg, t, c), since)
  {
    StepsProper(q, cfg, t, c);
    hide Exec, Queue.StepOf, S.Proper;
  }

  lemma {:induction false} TraceQuiet(q: Queue, cfg: Config, t: Tables, cs: seq<Command>, since: Instant)
    requires Quiet(q, cs, since)
    ensures P.Quiet(Trace(q, cfg, t, cs), since)
  {
    hide QuietCall, Steps, S.Proper, Run, Queue.Proper;
    if cs != [] {
      var n := |cs| - 1;
      TraceQuiet(q, cfg, t, cs[..n], since);
      StepsQuiet(q, cfg, Run(cfg, t, cs[..n]), cs[n], since);
    }
  }

  lemma MachineOrderly(q: Queue, cfg: Config, t: Tables, rounds: seq<Round>)
    requires Orderly(q, rounds)
    ensures P.Orderly(MachineRounds(q, cfg, t, rounds))
  {
    hide Quiet, P.Quiet, Trace, Start, After;
    var ms := MachineRounds(q, cfg, t, rounds);
    forall i | 0 <= i < |ms|
      ensures P.Quiet(ms[i].rest, ms[0].now)
    {
      var seen := After(cfg, Start(q, cfg, t, rounds, i), RecoverExpired(rounds[i].now));
      TraceQuiet(q, cfg, After(cfg, seen, Claims(q, rounds[i])), rounds[i].rest, rounds[0].now);
    }
  }

  lemma SeenFollows(q: Queue, cfg: Config, t: Tables, rounds: seq<Round>, i: nat)
    requires q.Sound(t) && Orderly(q, rounds) && i < |rounds|
    ensures q.Rows(Seen(q, cfg, t, rounds, i)) == P.Seen(q.Machine(cfg), q.Rows(t), MachineRounds(q, cfg, t, rounds), i)
    ensures q.Sound(Seen(q, cfg, t, rounds, i))
  {
    hide Queue.Sound, Queue.Rows, Queue.Machine, Start, P.Start, After, L.After, Trace;
    StartFollows(q, cfg, t, rounds, i);
    RecoveryFollows(q, cfg, Start(q, cfg, t, rounds, i), rounds[i].now);
  }

  lemma FirstDueIsNext(q: Queue, t: Tables, now: Instant, id: Id)
    ensures q.FirstDue(t, now, id) <==> L.Next(TextBefore, q.Rows(t), now) == Some(id)
  {
    TextBeforeWeak();
    hide TextBefore, Sorting.WeakOrder, L.Next, J.FirstDue, O.FirstDue;
    if q.Jobs? { J.FindDueSelectsNext(TextBefore, t.jobs, now); } else { O.ListDueSelectsNext(TextBefore, t.events, now); }
  }

  /** The row is due, and the due query prefers `k` due rows to it. */
  predicate DueBehind(q: Queue, t: Tables, now: Instant, id: Id, k: nat) {
    var rows := q.Rows(t);
    id in rows && rows[id].Due(TextBefore, now) && |P.Ahead(TextBefore, rows, now, id)| == k
  }

  /**
   * Bounded wait in the whole system, for jobs and for events: when recovery runs before each claim at the same
   * reading, all later readings exceed the first and the compared times are comparable as text, a due row with
   * `k` due rows ahead of it is claimed by claim `k + 1`, and none of the claims up to that one is refused.
   */
  lemma WaitBounded(q: Queue, cfg: Config, t: Tables, rounds: seq<Round>, id: Id, k: nat)
    requires q.Sound(t) && q.Machine(cfg).base >= 0 && Orderly(q, rounds) && k < |rounds|
    requires X.LegibleRun(q.TimingIn(cfg), q.Rows(t), RoundSteps(q, cfg, t, rounds))
    requires DueBehind(q, Seen(q, cfg, t, rounds, 0), rounds[0].now, id, k)
    ensures forall i :: 0 <= i <= k ==>
      var s := Seen(q, cfg, t, rounds, i);
      Exec(cfg, s, Claims(q, rounds[i])).Ok? && (q.FirstDue(s, rounds[i].now, id) <==> i == k)
  {
    hide Queue.Sound, Queue.Rows, Queue.FirstDue, Claims, Seen, P.Seen, Exec, MachineRound, Start, L.Step, L.Next, P.Ahead, X.LegibleRun, Orderly,
      P.Orderly, TextBefore;
    OrderlyNames(q, rounds);
    MachineOrderly(q, cfg, t, rounds);
    var ms := MachineRounds(q, cfg, t, rounds);
    RoundsMatch(q, cfg, t, rounds);
    SeenFollows(q, cfg, t, rounds, 0);
    SoundRows(q, t);
    X.TextWaitBounded(q.TimingIn(cfg), q.Rows(t), ms, id, k);
    forall i | 0 <= i <= k
      ensures var s := Seen(q, cfg, t, rounds, i);
        Exec(cfg, s, Claims(q, rounds[i])).Ok? && (q.FirstDue(s, rounds[i].now, id) <==> i == k)
    {
      var s := Seen(q, cfg, t, rounds, i);
      SeenFollows(q, cfg, t, rounds, i);
      ClaimFollows(q, cfg, s, rounds[i]);
      FirstDueIsNext(q, s, rounds[i].now, id);
    }
  }

  lemma OrderlyNames(q: Queue, rounds: seq<Round>)
    requires Orderly(q, rounds)
    ensures forall i :: 0 <= i < |rounds| ==> rounds[i].worker != "" && rounds[i].token != ""
  {
    hide Quiet;
  }

  lemma RoundsMatch(q: Queue, cfg: Config, t: Tables, rounds: seq<Round>)
    ensures var ms := MachineRounds(q, cfg, t, rounds);
      && |ms| == |rounds|
      && forall i :: 0 <= i < |ms| ==> ms[i].now == rounds[i].now && ms[i].worker == rounds[i].worker && ms[i].token == rounds[i].token
  {
    hide Trace, Start, After;
  }

  lemma SoundRows(q: Queue, t: Tables)
    requires q.Sound(t)
    ensures S.TableOk(q.Rows(t))
  {
  }

  // ---- Versions fence stale calls ----

  lemma CallVersions(cfg: Config, t: Tables, c: Command)
    ensures var u := After(cfg, t, c);
      JP.Versioned(t.jobs, u.jobs) && O.Versioned(t.events, u.events)
  {
    F.ExecGroups(cfg, t, c);
    F.Unchanged(cfg, t, c);
    hide Exec, J.JobRows, O.EventRows, TextBefore;
    var rows := J.RowsIn(t);
    match c
    case OnJob(op) => JP.JobStepVersions(cfg.jobs.OnText(), t.releases, rows, op);
    case OnEvent(op) => O.EventStepVersions(cfg.events.OnText(), t.events, op);
    case RecoverExpired(now) => RecoveryVersions(TextBefore, t, now);
    case _ =>
  }

  lemma RecoveryVersions(before: Comparison, t: Tables, now: Instant)
    ensures JP.Versioned(t.jobs, J.RecoveredJobs(before, t.jobs, now))
    ensures O.Versioned(t.events, O.RecoveredEvents(before, t.events, now))
  {
  }

  lemma {:induction false} RunVersions(cfg: Config, t: Tables, cs: seq<Command>)
    ensures var u := Run(cfg, t, cs);
      JP.Versioned(t.jobs, u.jobs) && O.Versioned(t.events, u.events)
  {
    hide After;
    if cs != [] {
      var n := |cs| - 1;
      RunVersions(cfg, t, cs[..n]);
      CallVersions(cfg, Run(cfg, t, cs[..n]), cs[n]);
    }
  }

  /** A job call that presents the version a row had commits after any run only if the whole row is still the same. */
  lemma JobsFenced(cfg: Config, t: Tables, cs: seq<Command>, op: J.JobOp)
    requires JP.MachineOp(op).Presenting() && op.id in t.jobs && op.version == t.jobs[op.id].version
    requires J.JobStep(cfg.jobs.OnText(), Run(cfg, t, cs), op).Ok?
    ensures Run(cfg, t, cs).jobs[op.id] == t.jobs[op.id]
    ensures t.jobs[op.id].status.Running? && op.worker == t.jobs[op.id].owner && op.token == t.jobs[op.id].token
  {
    RunVersions(cfg, t, cs);
    hide Run, L.Backoff, Trim, TextBefore;
  }

  lemma EventsFenced(cfg: Config, t: Tables, cs: seq<Command>, op: O.EventOp)
    requires O.MachineOp(op).Presenting() && op.id in t.events && op.version == t.events[op.id].version
    requires O.EventStep(cfg.events.OnText(), Run(cfg, t, cs), op).Ok?
    ensures Run(cfg, t, cs).events[op.id] == t.events[op.id]
    ensures t.events[op.id].status.Delivering? && op.worker == t.events[op.id].owner && op.token == t.events[op.id].token
  {
    RunVersions(cfg, t, cs);
    hide Run, L.Backoff, Trim, TextBefore;
  }
}
