/** Jobs, their attempts and outbox events are the history of the calls on them. */
module QueueHistory {
  import opened Basics
  import opened Domain
  import opened System
  import opened Timestamps
  import opened History
  import Sorting
  import J = Scheduler
  import JP = SchedulerProofs
  import O = Outbox
  import F = Frames
  import L = Leases
  import S = LeaseSafety
  import R = Recovery

  // ---- Jobs ----

  /** What the calls tell of a job. */
  datatype JobFacts = JobFacts(
    release: Id, status: JobStatus, owner: Id, token: string, expires: Option<Instant>, attempts: int, max: int,
    checkpoint: string, output: string, lastError: string, nextAt: Instant)

  function JobFactsOf(jobs: map<Id, Job>, j: Id): Option<JobFacts> {
    if j !in jobs then None
    else
      var x := jobs[j];
      Some(JobFacts(x.release, x.status, x.owner, x.token, x.expires, x.attempts, x.max, x.checkpoint, x.output, x.lastError, x.nextAt))
  }

  /** The lease columns are empty. */
  function Let(f: JobFacts, status: JobStatus, lastError: string, nextAt: Instant): JobFacts {
    f.(status := status, owner := "", token := "", expires := None, lastError := lastError, nextAt := nextAt)
  }

  /** What a committed call tells of job `j`: a claim tells of the job that is first due. */
  function JobTold(timing: L.Timing, jobs: map<Id, Job>, op: J.JobOp, j: Id, f: Option<JobFacts>): Option<JobFacts> {
    match op
    case Enqueue(id, release, max, now) =>
      if id == j then Some(JobFacts(release, Queued, "", "", None, 0, max, "", "", "", now)) else f
    case Claim(worker, token, now) =>
      if f.Some? && J.FirstDue(TextBefore, jobs, now, j)
      then Some(f.value.(status := Running, owner := worker, token := token, expires := Some(now + timing.ttl), attempts := f.value.attempts + 1))
      else f
    case Renew(id, _, _, _, now) => if id == j && f.Some? then Some(f.value.(expires := Some(now + timing.ttl))) else f
    case Checkpoint(id, _, _, text, _, _) => if id == j && f.Some? then Some(f.value.(checkpoint := Trim(text))) else f
    case Complete(id, _, _, output, _, _) =>
      if id == j && f.Some? then Some(Let(f.value.(output := Trim(output)), Succeeded, "", f.value.nextAt)) else f
    case Fail(id, _, _, message, _, permanent, now) =>
      if id != j || f.None? then f
      else if permanent || f.value.attempts >= f.value.max then Some(Let(f.value, JobFailed, Trim(message), now))
      else Some(Let(f.value, Retrying, Trim(message), now + L.Backoff(timing.base, f.value.attempts)))
    case Recover(_) => f
  }

  /** What recovery tells: a running job whose expiry reads as passed is retried while it has budget left. */
  function JobLapsed(now: Instant, f: Option<JobFacts>): Option<JobFacts> {
    if f.None? || !f.value.status.Running? || f.value.expires.None? || TextBefore(now, f.value.expires.value) then f
    else if f.value.attempts < f.value.max then Some(Let(f.value, Retrying, "worker lease expired", now))
    else Some(Let(f.value, JobFailed, "worker lease expired after final attempt", now))
  }

  function JobToldBy(timing: L.Timing, t: Tables, c: Command, j: Id, f: Option<JobFacts>): Option<JobFacts> {
    if c.OnJob? then JobTold(timing, t.jobs, c.job, j, f) else if c.RecoverExpired? then JobLapsed(c.now, f) else f
  }

  ghost function JobStory(cfg: Config, cs: seq<Command>, j: Id): Option<JobFacts> {
    if cs == [] then None
    else
      var n := |cs| - 1;
      var before := JobStory(cfg, cs[..n], j);
      if CommitsAt(cfg, cs, n) then JobToldBy(cfg.jobs, Before(cfg, cs, n), cs[n], j, before) else before
  }

  ghost predicate JobTells(timing: L.Timing, jobs: map<Id, Job>, op: J.JobOp, j: Id, r: Result<J.Rows>) {
    r.Ok? ==> JobFactsOf(r.value.jobs, j) == JobTold(timing, jobs, op, j, JobFactsOf(jobs, j))
  }

  lemma JobClaimTells(timing: L.Timing, releases: map<Id, Release>, rows: J.Rows, op: J.JobOp, j: Id)
    requires op.Claim?
    ensures JobTells(timing, rows.jobs, op, j, J.JobRows(timing.OnText(), releases, rows, op))
  {
    TextBeforeWeak();
    hide TextBefore, Sorting.WeakOrder, L.IsNext, J.Precedes, J.FirstDue;
    J.FindDueSelectsNext(TextBefore, rows.jobs, op.now);
  }

  lemma JobHoldTells(timing: L.Timing, releases: map<Id, Release>, rows: J.Rows, op: J.JobOp, j: Id)
    requires op.Enqueue? || op.Renew? || op.Checkpoint?
    ensures JobTells(timing, rows.jobs, op, j, J.JobRows(timing.OnText(), releases, rows, op))
  {
    hide TextBefore, Blank, Trim;
  }

  lemma JobEndTells(timing: L.Timing, releases: map<Id, Release>, rows: J.Rows, op: J.JobOp, j: Id)
    requires op.Complete? || op.Fail?
    ensures JobTells(timing, rows.jobs, op, j, J.JobRows(timing.OnText(), releases, rows, op))
  {
    hide TextBefore, Blank, Trim, L.Backoff;
  }

  lemma JobCallTells(timing: L.Timing, t: Tables, op: J.JobOp, j: Id)
    requires !op.Recover? && J.JobStep(timing.OnText(), t, op).Ok?
    ensures JobFactsOf(J.JobStep(timing.OnText(), t, op).value.jobs, j) == JobTold(timing, t.jobs, op, j, JobFactsOf(t.jobs, j))
  {
    hide J.JobRows, JobFactsOf, JobTold;
    match op
    case Claim(_, _, _) => JobClaimTells(timing, t.releases, J.RowsIn(t), op, j);
    case Enqueue(_, _, _, _) => JobHoldTells(timing, t.releases, J.RowsIn(t), op, j);
    case Renew(_, _, _, _, _) => JobHoldTells(timing, t.releases, J.RowsIn(t), op, j);
    case Checkpoint(_, _, _, _, _, _) => JobHoldTells(timing, t.releases, J.RowsIn(t), op, j);
    case Complete(_, _, _, _, _, _) => JobEndTells(timing, t.releases, J.RowsIn(t), op, j);
    case Fail(_, _, _, _, _, _, _) => JobEndTells(timing, t.releases, J.RowsIn(t), op, j);
  }

  lemma JobRecoveryTells(jobs: map<Id, Job>, now: Instant, j: Id)
    ensures JobFactsOf(J.RecoveredJobs(TextBefore, jobs, now), j) == JobLapsed(now, JobFactsOf(jobs, j))
  {
    hide TextBefore;
  }

  lemma JobStepTells(cfg: Config, t: Tables, c: Command, j: Id)
    ensures JobFactsOf(After(cfg, t, c).jobs, j) ==
      if Commits(cfg, t, c) then JobToldBy(cfg.jobs, t, c, j, JobFactsOf(t.jobs, j)) else JobFactsOf(t.jobs, j)
  {
    hide Exec, J.JobStep, JobFactsOf, JobTold, JobLapsed, TextBefore;
    F.ExecGroups(cfg, t, c);
    if c.OnJob? {
      if Commits(cfg, t, c) { JobCallTells(cfg.jobs, t, c.job, j); }
    } else if c.RecoverExpired? {
      JobRecoveryTells(t.jobs, c.now, j);
    } else {
      F.Unchanged(cfg, t, c);
    }
  }

  /** After any run from the empty database a job is what the committed calls on it and the recoveries tell. */
  lemma {:induction false} JobsAreHistory(cfg: Config, cs: seq<Command>, j: Id)
    ensures JobFactsOf(Run(cfg, EMPTY, cs).jobs, j) == JobStory(cfg, cs, j)
  {
    hide After, Commits, JobFactsOf, JobToldBy;
    if cs == [] {
      NothingTold(j, 0);
    } else {
      var n := |cs| - 1;
      JobsAreHistory(cfg, cs[..n], j);
      JobStepTells(cfg, Run(cfg, EMPTY, cs[..n]), cs[n], j);
    }
  }

  lemma NothingTold(x: Id, n: int)
    ensures JobFactsOf(EMPTY.jobs, x) == None && EventFactsOf(EMPTY.events, x) == None && AttemptOf(EMPTY.attempts, x, n) == None
  {
  }

  // ---- Attempts ----

  function AttemptOf(attempts: map<(Id, int), Attempt>, j: Id, n: int): Option<Attempt> {
    if (j, n) in attempts then Some(attempts[(j, n)]) else None
  }

  /** What a committed call tells of attempt `n` of job `j`: the claim opens it, the end of the run closes it. */
  function AttemptTold(jobs: map<Id, Job>, op: J.JobOp, j: Id, n: int, f: Option<Attempt>): Option<Attempt> {
    match op
    case Claim(worker, _, now) =>
      if J.FirstDue(TextBefore, jobs, now, j) && jobs[j].attempts + 1 == n then Some(Attempt(worker, now, None, "running", "")) else f
    case Complete(id, _, _, _, _, now) =>
      if id == j && f.Some? && j in jobs && jobs[j].attempts == n then Some(f.value.(finished := Some(now), outcome := "succeeded", errorText := ""))
      else f
    case Fail(id, _, _, message, _, permanent, now) =>
      if id == j && f.Some? && j in jobs && jobs[j].attempts == n then
        var outcome := if permanent || jobs[j].attempts >= jobs[j].max then "failed" else "retrying";
        Some(f.value.(finished := Some(now), outcome := outcome, errorText := Trim(message)))
      else f
    case _ => f
  }

  ghost function AttemptStory(cfg: Config, cs: seq<Command>, j: Id, n: int): Option<Attempt> {
    if cs == [] then None
    else
      var k := |cs| - 1;
      var before := AttemptStory(cfg, cs[..k], j, n);
      if CommitsAt(cfg, cs, k) && cs[k].OnJob? then AttemptTold(Before(cfg, cs, k).jobs, cs[k].job, j, n, before) else before
  }

  ghost predicate AttemptTells(rows: J.Rows, op: J.JobOp, j: Id, n: int, r: Result<J.Rows>) {
    r.Ok? ==> AttemptOf(r.value.attempts, j, n) == AttemptTold(rows.jobs, op, j, n, AttemptOf(rows.attempts, j, n))
  }

  lemma ClaimTellsAttempt(timing: L.Timing, releases: map<Id, Release>, rows: J.Rows, op: J.JobOp, j: Id, n: int)
    requires op.Claim?
    ensures AttemptTells(rows, op, j, n, J.JobRows(timing.OnText(), releases, rows, op))
  {
    TextBeforeWeak();
    hide TextBefore, Sorting.WeakOrder, L.IsNext, J.Precedes;
    J.FindDueSelectsNext(TextBefore, rows.jobs, op.now);
    FirstDueKnown(rows.jobs, op.now, j);
    hide J.FirstDue;
  }

  lemma FirstDueKnown(jobs: map<Id, Job>, now: Instant, j: Id)
    ensures J.FirstDue(TextBefore, jobs, now, j) ==> j in jobs
  {
    hide TextBefore, J.Precedes, J.DueRow;
  }

  lemma OthersTellAttempt(timing: L.Timing, releases: map<Id, Release>, rows: J.Rows, op: J.JobOp, j: Id, n: int)
    requires !op.Claim? && !op.Recover?
    ensures AttemptTells(rows, op, j, n, J.JobRows(timing.OnText(), releases, rows, op))
  {
    hide TextBefore, Blank, Trim, L.Backoff;
  }

  lemma AttemptStepTells(cfg: Config, t: Tables, c: Command, j: Id, n: int)
    ensures AttemptOf(After(cfg, t, c).attempts, j, n) ==
      if Commits(cfg, t, c) && c.OnJob? then AttemptTold(t.jobs, c.job, j, n, AttemptOf(t.attempts, j, n)) else AttemptOf(t.attempts, j, n)
  {
    hide Exec, J.JobRows, AttemptOf, AttemptTold, TextBefore;
    F.ExecGroups(cfg, t, c);
    if !c.OnJob? {
      F.Unchanged(cfg, t, c);
    } else if Commits(cfg, t, c) {
      if c.job.Claim? { ClaimTellsAttempt(cfg.jobs, t.releases, J.RowsIn(t), c.job, j, n); }
      else { OthersTellAttempt(cfg.jobs, t.releases, J.RowsIn(t), c.job, j, n); }
    }
  }

  /** After any run from the empty database an attempt has the worker and time of the claim that opened it, and the outcome of the call that closed it. */
  lemma {:induction false} AttemptsAreHistory(cfg: Config, cs: seq<Command>, j: Id, n: int)
    ensures AttemptOf(Run(cfg, EMPTY, cs).attempts, j, n) == AttemptStory(cfg, cs, j, n)
  {
    hide After, Commits, AttemptOf, AttemptTold;
    if cs == [] {
      NothingTold(j, n);
    } else {
      var k := |cs| - 1;
      AttemptsAreHistory(cfg, cs[..k], j, n);
      AttemptStepTells(cfg, Run(cfg, EMPTY, cs[..k]), cs[k], j, n);
    }
  }

  // ---- Events ----

  datatype EventFacts = EventFacts(
    topic: string, status: EventStatus, owner: Id, token: string, expires: Option<Instant>, attempts: int, max: int,
    lastError: string, nextAt: Instant)

  function EventFactsOf(events: map<Id, Event>, e: Id): Option<EventFacts> {
    if e !in events then None
    else
      var x := events[e];
      Some(EventFacts(x.topic, x.status, x.owner, x.token, x.expires, x.attempts, x.max, x.lastError, x.nextAt))
  }

  function EventLet(f: EventFacts, status: EventStatus, lastError: string, nextAt: Instant): EventFacts {
    f.(status := status, owner := "", token := "", expires := None, lastError := lastError, nextAt := nextAt)
  }

  function EventTold(timing: L.Timing, events: map<Id, Event>, op: O.EventOp, e: Id, f: Option<EventFacts>): Option<EventFacts> {
    match op
    case Enqueue(id, topic, now) => if id == e then Some(EventFacts(topic, Pending, "", "", None, 0, 5, "", now)) else f
    case Claim(worker, token, now) =>
      if f.Some? && O.FirstDue(TextBefore, events, now, e)
      then Some(f.value.(status := Delivering, owner := worker, token := token, expires := Some(now + timing.ttl), attempts := f.value.attempts + 1))
      else f
    case Renew(id, _, _, _, now) => if id == e && f.Some? then Some(f.value.(expires := Some(now + timing.ttl))) else f
    case Acknowledge(id, _, _, _, _) => if id == e && f.Some? then Some(EventLet(f.value, Delivered, "", f.value.nextAt)) else f
    case Fail(id, _, _, message, _, permanent, now) =>
      if id != e || f.None? then f
      else if permanent || f.value.attempts >= f.value.max then Some(EventLet(f.value, EventDead, Trim(message), now))
      else Some(EventLet(f.value, Pending, Trim(message), now + L.Backoff(timing.base, f.value.attempts)))
    case Recover(_) => f
  }

  function EventLapsed(now: Instant, f: Option<EventFacts>): Option<EventFacts> {
    if f.None? || !f.value.status.Delivering? || f.value.expires.None? || TextBefore(now, f.value.expires.value) then f
    else if f.value.attempts < f.value.max then Some(EventLet(f.value, Pending, "delivery lease expired", now))
    else Some(EventLet(f.value, EventDead, "delivery lease expired after final attempt", now))
  }

  function EventToldBy(timing: L.Timing, t: Tables, c: Command, e: Id, f: Option<EventFacts>): Option<EventFacts> {
    if c.OnEvent? then EventTold(timing, t.events, c.event, e, f) else if c.RecoverExpired? then EventLapsed(c.now, f) else f
  }

  ghost function EventStory(cfg: Config, cs: seq<Command>, e: Id): Option<EventFacts> {
    if cs == [] then None
    else
      var n := |cs| - 1;
      var before := EventStory(cfg, cs[..n], e);
      if CommitsAt(cfg, cs, n) then EventToldBy(cfg.events, Before(cfg, cs, n), cs[n], e, before) else before
  }

  ghost predicate EventTells(timing: L.Timing, events: map<Id, Event>, op: O.EventOp, e: Id, r: Result<map<Id, Event>>) {
    r.Ok? ==> EventFactsOf(r.value, e) == EventTold(timing, events, op, e, EventFactsOf(events, e))
  }

  lemma EventClaimTells(timing: L.Timing, events: map<Id, Event>, op: O.EventOp, e: Id)
    requires op.Claim?
    ensures EventTells(timing, events, op, e, O.EventRows(timing.OnText(), events, op))
  {
    TextBeforeWeak();
    hide TextBefore, Sorting.WeakOrder, L.IsNext, O.Precedes, O.FirstDue;
    O.ListDueSelectsNext(TextBefore, events, op.now);
  }

  lemma EventOthersTell(timing: L.Timing, events: map<Id, Event>, op: O.EventOp, e: Id)
    requires !op.Claim? && !op.Recover?
    ensures EventTells(timing, events, op, e, O.EventRows(timing.OnText(), events, op))
  {
    hide TextBefore, Blank, Trim, L.Backoff;
  }

  lemma EventRecoveryTells(events: map<Id, Event>, now: Instant, e: Id)
    ensures EventFactsOf(O.RecoveredEvents(TextBefore, events, now), e) == EventLapsed(now, EventFactsOf(events, e))
  {
    hide TextBefore;
  }

  lemma EventStepTells(cfg: Config, t: Tables, c: Command, e: Id)
    ensures EventFactsOf(After(cfg, t, c).events, e) ==
      if Commits(cfg, t, c) then EventToldBy(cfg.events, t, c, e, EventFactsOf(t.events, e)) else EventFactsOf(t.events, e)
  {
    hide Exec, O.EventRows, EventFactsOf, EventTold, EventLapsed, TextBefore;
    F.ExecGroups(cfg, t, c);
    if c.OnEvent? {
      if Commits(cfg, t, c) {
        if c.event.Claim? { EventClaimTells(cfg.events, t.events, c.event, e); } else { EventOthersTell(cfg.events, t.events, c.event, e); }
      }
    } else if c.RecoverExpired? {
      EventRecoveryTells(t.events, c.now, e);
    } else {
      F.Unchanged(cfg, t, c);
    }
  }

  /** After any run from the empty database an event is what the committed calls on it and the recoveries tell. */
  lemma {:induction false} EventsAreHistory(cfg: Config, cs: seq<Command>, e: Id)
    ensures EventFactsOf(Run(cfg, EMPTY, cs).events, e) == EventStory(cfg, cs, e)
  {
    hide After, Commits, EventFactsOf, EventToldBy;
    if cs == [] {
      NothingTold(e, 0);
    } else {
      var n := |cs| - 1;
      EventsAreHistory(cfg, cs[..n], e);
      EventStepTells(cfg, Run(cfg, EMPTY, cs[..n]), cs[n], e);
    }
  }

  // ---- Which calls commit ----

  /** The caller names the running job's owner, token and version. */
  predicate Runs(jobs: map<Id, Job>, id: Id, worker: Id, token: string, version: int) {
    id in jobs && jobs[id].status.Running? && jobs[id].owner == worker && jobs[id].token == token && jobs[id].version == version
  }

  /** And its expiry reads as not passed. */
  predicate RunsAt(jobs: map<Id, Job>, id: Id, worker: Id, token: string, version: int, now: Instant) {
    Runs(jobs, id, worker, token, version) && jobs[id].expires.Some? && TextBefore(now, jobs[id].expires.value)
  }

  ghost predicate JobAdmitted(releases: map<Id, Release>, jobs: map<Id, Job>, op: J.JobOp) {
    match op
    case Enqueue(id, release, _, _) => release in releases && releases[release].status.Published? && id !in jobs
    case Claim(_, _, now) => exists j :: J.FirstDue(TextBefore, jobs, now, j) && jobs[j].attempts < jobs[j].max
    case Renew(id, worker, token, version, now) => RunsAt(jobs, id, worker, token, version, now)
    case Checkpoint(id, worker, token, text, version, now) =>
      RunsAt(jobs, id, worker, token, version, now) && !Blank(text) && |Trim(text)| <= 2048
    case Complete(id, worker, token, output, version, now) =>
      RunsAt(jobs, id, worker, token, version, now) && !Blank(output) && !Blank(jobs[id].checkpoint)
    case Fail(id, worker, token, message, version, _, _) => Runs(jobs, id, worker, token, version) && !Blank(message)
    case Recover(_) => true
  }

  /**
   * Renewing, checkpointing and completing need a lease that has not expired, failing only the identity of the
   * lease; a claim needs a first due job with budget left.
   */
  lemma JobCommitsIff(timing: L.Timing, releases: map<Id, Release>, rows: J.Rows, op: J.JobOp)
    requires JP.AttemptsOk(rows.jobs, rows.attempts) && S.TableOk(J.Items(rows.jobs))
    ensures J.JobRows(timing.OnText(), releases, rows, op).Ok? <==> JobAdmitted(releases, rows.jobs, op)
  {
    hide J.JobRows, JobAdmitted, S.TableOk, JP.AttemptsOk;
    match op
    case Claim(_, _, _) => JobClaimAdmitted(timing, releases, rows, op);
    case Complete(_, _, _, _, _, _) => JobEndAdmitted(timing, releases, rows, op);
    case Fail(_, _, _, _, _, _, _) => JobEndAdmitted(timing, releases, rows, op);
    case _ => JobHoldAdmitted(timing, releases, rows, op);
  }

  lemma JobHoldAdmitted(timing: L.Timing, releases: map<Id, Release>, rows: J.Rows, op: J.JobOp)
    requires op.Enqueue? || op.Renew? || op.Checkpoint? || op.Recover?
    ensures J.JobRows(timing.OnText(), releases, rows, op).Ok? <==> JobAdmitted(releases, rows.jobs, op)
  {
    hide TextBefore, Blank, Trim;
  }

  lemma JobEndAdmitted(timing: L.Timing, releases: map<Id, Release>, rows: J.Rows, op: J.JobOp)
    requires JP.AttemptsOk(rows.jobs, rows.attempts) && S.TableOk(J.Items(rows.jobs)) && (op.Complete? || op.Fail?)
    ensures J.JobRows(timing.OnText(), releases, rows, op).Ok? <==> JobAdmitted(releases, rows.jobs, op)
  {
    hide TextBefore, Blank, Trim, L.Backoff, S.TableOk, JP.AttemptsOk;
    if op.id in rows.jobs && rows.jobs[op.id].status.Running? { JP.RunningHasOpenAttempt(rows, op.id); }
  }

  lemma JobClaimAdmitted(timing: L.Timing, releases: map<Id, Release>, rows: J.Rows, op: J.JobOp)
    requires JP.AttemptsOk(rows.jobs, rows.attempts) && op.Claim?
    ensures J.JobRows(timing.OnText(), releases, rows, op).Ok? <==> JobAdmitted(releases, rows.jobs, op)
  {
    hide TextBefore, Sorting.WeakOrder, L.Next, J.Precedes, J.FirstDue, JP.AttemptsOk, J.JobRows;
    TextBeforeWeak();
    J.FindDueSelectsNext(TextBefore, rows.jobs, op.now);
    JP.ClaimFails(timing.OnText(), releases, rows, op);
  }

  predicate Delivers(events: map<Id, Event>, id: Id, worker: Id, token: string, version: int) {
    id in events && events[id].status.Delivering? && events[id].owner == worker && events[id].token == token && events[id].version == version
  }

  predicate DeliversAt(events: map<Id, Event>, id: Id, worker: Id, token: string, version: int, now: Instant) {
    Delivers(events, id, worker, token, version) && events[id].expires.Some? && TextBefore(now, events[id].expires.value)
  }

  ghost predicate EventAdmitted(events: map<Id, Event>, op: O.EventOp) {
    match op
    case Enqueue(id, topic, _) => id != "" && topic != "" && id !in events
    case Claim(worker, _, now) => worker != "" && exists e :: O.FirstDue(TextBefore, events, now, e) && events[e].attempts < events[e].max
    case Renew(id, worker, token, version, now) => DeliversAt(events, id, worker, token, version, now)
    case Acknowledge(id, worker, token, version, now) => DeliversAt(events, id, worker, token, version, now)
    case Fail(id, worker, token, message, version, _, _) => Delivers(events, id, worker, token, version) && !Blank(message)
    case Recover(_) => true
  }

  lemma EventCommitsIff(timing: L.Timing, events: map<Id, Event>, op: O.EventOp)
    ensures O.EventRows(timing.OnText(), events, op).Ok? <==> EventAdmitted(events, op)
  {
    TextBeforeWeak();
    hide TextBefore, Sorting.WeakOrder, Blank, Trim, L.Backoff, L.IsNext, O.Precedes, O.FirstDue;
    if op.Claim? { O.ListDueSelectsNext(TextBefore, events, op.now); }
  }
}
