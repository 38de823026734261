/** Workloads are the history of the calls on them, and what a failure and a settlement imply. */
module WorkloadHistory {
  import opened Basics
  import opened Domain
  import opened System
  import opened Timestamps
  import opened History
  import W = Workloads
  import G = Ledger
  import M = Metering
  import F = Frames
  import WI = WorkloadInvariants
  import LedgerStability
  import Reachability

  /** What the calls on a workload tell of it. */
  datatype Facts = Facts(
    status: WorkloadStatus, provider: Id, offer: Id, pool: Id, reservation: string, operator: Id, revision: int,
    started: Option<Instant>, submitted: Option<Instant>, settled: Option<Instant>, canceled: Option<Instant>)

  function FactsOf(workloads: map<Id, Workload>, w: Id): Option<Facts> {
    if w !in workloads then None
    else
      var x := workloads[w];
      Some(Facts(x.status, x.provider, x.offer, x.pool, x.reservation, x.operator, x.revision,
                 x.times.started, x.times.submitted, x.times.settled, x.times.canceled))
  }

  /** The plan creates the workload: no record of its key is alive. */
  predicate Makes(records: map<string, IdemRecord>, c: WorkloadCall, w: Id) {
    c.Plan? && c.draw.workload == w && !(c.input.key in records && c.now < records[c.input.key].expires)
  }

  /** What a committed call tells of workload `w`, given what was told before. */
  function Told(records: map<string, IdemRecord>, c: WorkloadCall, w: Id, f: Option<Facts>): Option<Facts> {
    if Makes(records, c, w) then
      Some(Facts(Planned, c.input.provider, c.input.offer, c.input.pool, c.input.reservation, c.user, 1, None, None, None, None))
    else if f.None? then None
    else match c
      case Change(_, id, call, now) =>
        if id != w then f
        else (match call
              case MarkReady => Some(f.value.(status := Ready))
              case Start => Some(f.value.(status := Executing, started := Some(now)))
              case Settle => Some(f.value.(status := Settled, settled := Some(now)))
              case FailWork => Some(f.value.(status := WorkFailed)))
      case Submit(_, id, now) => if id != w then f else Some(f.value.(status := WorkloadStatus.Metering, submitted := Some(now)))
      case Cancel(_, id, now) => if id != w then f else Some(f.value.(status := WorkCanceled, canceled := Some(now)))
      case _ => f
  }

  /** What the committed calls of a run tell of a workload. */
  ghost function Story(cfg: Config, cs: seq<Command>, w: Id): Option<Facts> {
    if cs == [] then None
    else
      var n := |cs| - 1;
      var before := Story(cfg, cs[..n], w);
      if CommitsAt(cfg, cs, n) && cs[n].OnWorkload? then Told(Before(cfg, cs, n).records, cs[n].workload, w, before) else before
  }

  predicate Tells(t: Tables, c: WorkloadCall, w: Id, u: Tables) {
    FactsOf(u.workloads, w) == Told(t.records, c, w, FactsOf(t.workloads, w))
  }

  lemma PlanStores(cfg: Config, t: Tables, c: WorkloadCall)
    requires c.Plan? && WorkloadStep(cfg, t, c).Ok?
    ensures WorkloadStep(cfg, t, c).value.workloads ==
      if c.input.key in t.records && c.now < t.records[c.input.key].expires then t.workloads
      else t.workloads[c.draw.workload := W.Created(cfg.poolTtl, c.user, c.input, c.draw, c.now).workload]
  {
    hide W.ValidPlan, W.Fingerprint, W.Matched, W.LeaseCollides, W.Created, TextBefore;
  }

  lemma PlanTells(cfg: Config, t: Tables, c: WorkloadCall, w: Id)
    requires c.Plan? && WorkloadStep(cfg, t, c).Ok?
    ensures Tells(t, c, w, WorkloadStep(cfg, t, c).value)
  {
    hide WorkloadStep;
    PlanStores(cfg, t, c);
  }

  lemma ChangeTells(t: Tables, c: WorkloadCall, w: Id)
    requires c.Change? && W.ChangeStep(t, c.p, c.id, c.call, c.now).Ok?
    ensures Tells(t, c, w, W.ChangeStep(t, c.p, c.id, c.call, c.now).value)
  {
  }

  lemma SubmitTells(t: Tables, c: WorkloadCall, w: Id)
    requires c.Submit? && W.SubmitStep(t, c.p, c.id, c.now).Ok?
    ensures Tells(t, c, w, W.SubmitStep(t, c.p, c.id, c.now).value)
  {
    hide W.StreamsOf;
  }

  lemma CancelStores(t: Tables, c: WorkloadCall)
    requires c.Cancel? && W.CancelStep(t, c.p, c.id, c.now).Ok?
    ensures c.id in t.workloads && W.CancelStep(t, c.p, c.id, c.now).value.workloads == t.workloads[c.id :=
      W.Moved(t.workloads[c.id], WorkCanceled, t.workloads[c.id].times.(canceled := Some(c.now)), c.now)]
  {
    hide W.CancelStep, W.LiveLease, W.Moved;
    WI.CancelFreesOneLease(t, c.p, c.id, c.now);
  }

  lemma CancelTells(t: Tables, c: WorkloadCall, w: Id)
    requires c.Cancel? && W.CancelStep(t, c.p, c.id, c.now).Ok?
    ensures Tells(t, c, w, W.CancelStep(t, c.p, c.id, c.now).value)
  {
    hide W.CancelStep;
    CancelStores(t, c);
  }

  lemma ReopenRefused(cfg: Config, t: Tables, c: WorkloadCall)
    requires Inv(t) && c.Reopen?
    ensures WorkloadStep(cfg, t, c).Err?
  {
    hide Inv, LeasesOk, W.ReopenStep;
    LedgerStability.InvLeases(t);
    WI.ReopenNeverCommits(t, cfg.poolTtl, c.p, c.id, c.draw, c.now);
  }

  lemma CallTells(cfg: Config, t: Tables, c: WorkloadCall, w: Id)
    requires Inv(t) && WorkloadStep(cfg, t, c).Ok?
    ensures Tells(t, c, w, WorkloadStep(cfg, t, c).value)
  {
    hide Inv, Tells, W.PlanStep, W.ChangeStep, W.SubmitStep, W.CancelStep, W.ReopenStep, W.ReservePool, W.RenewPool, W.ReleasePool, TextBefore;
    match c
    case Plan(_, _, _, _) => PlanTells(cfg, t, c, w);
    case Change(_, _, _, _) => ChangeTells(t, c, w);
    case Submit(_, _, _) => SubmitTells(t, c, w);
    case Cancel(_, _, _) => CancelTells(t, c, w);
    case Reopen(_, _, _, _) => ReopenRefused(cfg, t, c);
    case _ =>
      LedgerStability.PoolCallsKeepWorkloads(cfg, t, c);
      PoolCallTells(t, c, w, WorkloadStep(cfg, t, c).value);
  }

  lemma PoolCallTells(t: Tables, c: WorkloadCall, w: Id, u: Tables)
    requires (c.ReservePool? || c.RenewPool? || c.ReleasePool?) && u.workloads == t.workloads
    ensures Tells(t, c, w, u)
  {
  }

  lemma StepTells(cfg: Config, t: Tables, c: Command, w: Id)
    requires Inv(t)
    ensures FactsOf(After(cfg, t, c).workloads, w) ==
      if Commits(cfg, t, c) && c.OnWorkload? then Told(t.records, c.workload, w, FactsOf(t.workloads, w)) else FactsOf(t.workloads, w)
  {
    hide Inv, Exec, WorkloadStep, FactsOf, Told;
    F.ExecGroups(cfg, t, c);
    if !c.OnWorkload? {
      F.Unchanged(cfg, t, c);
    } else if Commits(cfg, t, c) {
      CallTells(cfg, t, c.workload, w);
    }
  }

  /**
   * After any run from the empty database a workload is what the committed calls tell: its status is the target
   * of the last one, each time column the reading of the one that stamps it, and the rest what its plan asked for.
   */
  lemma {:induction false} WorkloadsAreHistory(cfg: Config, cs: seq<Command>, w: Id)
    ensures FactsOf(Run(cfg, EMPTY, cs).workloads, w) == Story(cfg, cs, w)
  {
    hide Inv, After, Commits, FactsOf, Told;
    if cs == [] {
      NothingTold(w);
    } else {
      var n := |cs| - 1;
      WorkloadsAreHistory(cfg, cs[..n], w);
      InvAlong(cfg, cs[..n]);
      StepTells(cfg, Run(cfg, EMPTY, cs[..n]), cs[n], w);
    }
  }

  lemma NothingTold(w: Id)
    ensures FactsOf(EMPTY.workloads, w) == None
  {
  }

  // ---- Which calls commit ----

  /** The status that each call starts from. */
  predicate StartsFrom(call: W.StatusCall, s: WorkloadStatus) {
    match call
    case MarkReady => s == Planned
    case Start => s == Ready
    case Settle => s == WorkloadStatus.Metering
    case FailWork => s == WorkloadStatus.Metering
  }

  lemma ChangeCommitsIff(t: Tables, p: Principal, id: Id, call: W.StatusCall, now: Instant)
    ensures W.ChangeStep(t, p, id, call, now).Ok? <==>
      && id != "" && id in t.workloads && StartsFrom(call, t.workloads[id].status)
      && (p.operator ==> p.user == t.workloads[id].operator)
  {
  }

  /** Two different aligned streams of the workload, and none that is not aligned. */
  predicate TwoAligned(streams: map<Id, Stream>, w: Id) {
    && (exists a, b :: a in streams && b in streams && a != b && streams[a].workload == streams[b].workload == w)
    && forall s :: s in streams && streams[s].workload == w ==> streams[s].status.Aligned?
  }

  lemma SubmitCommitsIff(t: Tables, p: Principal, id: Id, now: Instant)
    ensures W.SubmitStep(t, p, id, now).Ok? <==>
      id in t.workloads && t.workloads[id].operator == p.user && t.workloads[id].status.Executing? && TwoAligned(t.streams, id)
  {
    hide W.StreamsOf, TwoAligned;
    StreamsCounted(t.streams, id);
  }

  lemma AtLeastTwo<T>(s: set<T>)
    ensures |s| >= 2 <==> exists a, b :: a in s && b in s && a != b
  {
    if |s| >= 2 {
      var a :| a in s;
      assert |s - {a}| >= 1;
      var b :| b in s - {a};
    }
    if a, b :| a in s && b in s && a != b { assert s == {a, b} + (s - {a, b}); }
  }

  lemma StreamsCounted(streams: map<Id, Stream>, w: Id)
    ensures TwoAligned(streams, w) <==>
      |W.StreamsOf(streams, w)| >= 2 && !exists s :: s in W.StreamsOf(streams, w) && !streams[s].status.Aligned?
  {
    var all := W.StreamsOf(streams, w);
    AtLeastTwo(all);
    assert forall s :: s in all <==> s in streams && streams[s].workload == w;
    hide W.StreamsOf;
  }

  // ---- Final statuses ----

  /** The final status that the call asks for. */
  function Ends(c: Command, w: Id): Option<WorkloadStatus> {
    if !c.OnWorkload? then None
    else match c.workload
      case Change(_, id, call, _) =>
        if id == w && call.Settle? then Some(Settled) else if id == w && call.FailWork? then Some(WorkFailed) else None
      case Cancel(_, id, _) => if id == w then Some(WorkCanceled) else None
      case _ => None
  }

  predicate Final(s: WorkloadStatus) { s == Settled || s == WorkFailed || s == WorkCanceled }

  /** No call on a workload commits once its status is final. */
  lemma FinalCallsRefused(cfg: Config, t: Tables, c: WorkloadCall, w: Id)
    requires Inv(t) && w in t.workloads && Final(t.workloads[w].status) && WorkloadStep(cfg, t, c).Ok?
    ensures (c.Change? || c.Submit? || c.Cancel? || c.Reopen?) ==> c.id != w
    ensures !Makes(t.records, c, w)
  {
    hide Inv, W.ChangeStep, W.SubmitStep, W.CancelStep, W.ReopenStep, W.PlanStep, W.LeaseCollides, TwoAligned;
    match c
    case Change(p, id, call, now) => ChangeCommitsIff(t, p, id, call, now);
    case Submit(p, id, now) => SubmitCommitsIff(t, p, id, now);
    case Cancel(p, id, now) => CancelOnlyEarly(t, p, id, now);
    case Reopen(_, _, _, _) => ReopenRefused(cfg, t, c);
    case Plan(_, _, _, _) => PlansNewId(cfg, t, c);
    case _ =>
  }

  lemma PlansNewId(cfg: Config, t: Tables, c: WorkloadCall)
    requires c.Plan? && WorkloadStep(cfg, t, c).Ok?
    ensures c.draw.workload in t.workloads ==> c.input.key in t.records && c.now < t.records[c.input.key].expires
  {
    hide W.ValidPlan, W.Fingerprint, W.Matched, W.LeaseCollides, W.Created, TextBefore;
  }

  lemma CancelOnlyEarly(t: Tables, p: Principal, id: Id, now: Instant)
    requires W.CancelStep(t, p, id, now).Ok?
    ensures id in t.workloads && (t.workloads[id].status.Planned? || t.workloads[id].status.Ready? || t.workloads[id].status.Executing?)
    ensures p.operator ==> p.user == t.workloads[id].operator
  {
    hide W.LiveLease, W.ReleasedLease, W.Moved;
  }

  predicate Is(f: Option<Facts>, s: WorkloadStatus) { f.Some? && f.value.status == s }

  predicate HasStatus(t: Tables, w: Id, s: WorkloadStatus) { Is(FactsOf(t.workloads, w), s) }

  lemma ToldEnds(records: map<string, IdemRecord>, c: WorkloadCall, w: Id, f: Option<Facts>, s: WorkloadStatus)
    requires Final(s) && (Ends(OnWorkload(c), w).Some? ==> f.Some?)
    requires f.Some? && Final(f.value.status) ==> !Makes(records, c, w) && ((c.Change? || c.Submit? || c.Cancel?) ==> c.id != w)
    ensures Is(Told(records, c, w, f), s) <==> Is(f, s) || Ends(OnWorkload(c), w) == Some(s)
  {
  }

  lemma EndsKnown(cfg: Config, t: Tables, c: WorkloadCall, w: Id)
    requires WorkloadStep(cfg, t, c).Ok? && Ends(OnWorkload(c), w).Some?
    ensures w in t.workloads
  {
    hide W.ChangeStep, W.CancelStep;
    if c.Change? { ChangeCommitsIff(t, c.p, c.id, c.call, c.now); } else { CancelOnlyEarly(t, c.p, c.id, c.now); }
  }

  lemma EndCall(cfg: Config, t: Tables, c: WorkloadCall, w: Id, s: WorkloadStatus)
    requires Inv(t) && Final(s) && WorkloadStep(cfg, t, c).Ok?
    ensures Is(FactsOf(WorkloadStep(cfg, t, c).value.workloads, w), s) <==>
      Is(FactsOf(t.workloads, w), s) || Ends(OnWorkload(c), w) == Some(s)
  {
    hide Inv, WorkloadStep, Told, Makes, Ends;
    CallTells(cfg, t, c, w);
    if w in t.workloads && Final(t.workloads[w].status) { FinalCallsRefused(cfg, t, c, w); }
    if Ends(OnWorkload(c), w).Some? { EndsKnown(cfg, t, c, w); }
    hide Final;
    ToldEnds(t.records, c, w, FactsOf(t.workloads, w), s);
  }

  /** What a call does to the question whether a workload has a final status. */
  lemma EndStep(cfg: Config, t: Tables, c: Command, w: Id, s: WorkloadStatus)
    requires Inv(t) && Final(s)
    ensures HasStatus(After(cfg, t, c), w, s) <==> HasStatus(t, w, s) || (Commits(cfg, t, c) && Asking(w, s)(c))
  {
    hide Inv, Exec, WorkloadStep, Final, Is, FactsOf;
    F.ExecGroups(cfg, t, c);
    if !c.OnWorkload? {
      F.Unchanged(cfg, t, c);
    } else if Commits(cfg, t, c) {
      hide Ends;
      EndCall(cfg, t, c.workload, w, s);
    }
  }

  function Asking(w: Id, s: WorkloadStatus): Command -> bool { (c: Command) => Ends(c, w) == Some(s) }

  /**
   * Over any run from the empty database a workload is settled exactly when a call to settle it has committed,
   * failed exactly when a call to fail it has, and canceled exactly when a call to cancel it has.
   */
  lemma {:induction false} EndedIffAsked(cfg: Config, cs: seq<Command>, w: Id, s: WorkloadStatus)
    requires Final(s)
    ensures HasStatus(Run(cfg, EMPTY, cs), w, s) <==> Happened(cfg, cs, Asking(w, s))
  {
    hide Inv, After, Commits, HasStatus, Happened, Asking;
    if cs == [] {
      NoneEnded(w, s);
      NothingHappened(cfg, Asking(w, s));
    } else {
      var n := |cs| - 1;
      EndedIffAsked(cfg, cs[..n], w, s);
      HappenedNext(cfg, cs, Asking(w, s));
      InvAlong(cfg, cs[..n]);
      EndStep(cfg, Run(cfg, EMPTY, cs[..n]), cs[n], w, s);
    }
  }

  lemma NoneEnded(w: Id, s: WorkloadStatus)
    ensures !HasStatus(EMPTY, w, s)
  {
  }

  // ---- After a failure ----

  /** Nothing of the workload is metered, listed or released. */
  predicate LeftOut(t: Tables, w: Id) {
    && (forall b :: b in t.batches ==> t.batches[b].workload != w)
    && (forall m :: m in t.members ==> t.members[m].workload != w)
    && (forall i :: i in t.releaseItems ==> i.1 in t.members && t.members[i.1].workload != w)
  }

  lemma NotSettledLeftOut(t: Tables, w: Id)
    requires Inv(t) && w in t.workloads && !t.workloads[w].status.Settled?
    ensures LeftOut(t, w)
  {
    InvParts(t);
    hide Inv, SegmentsOk, StreamsOk, SubmittedOk, ItemsOk, CompleteOk, DraftsOk, ReviewsOk, JobsOk, LeasesOk, G.MembersOf, ReleaseOk;
    assert forall m :: m in t.members ==> EligibleNow(t.workloads, t.batches, t.members[m].workload);
    assert forall i :: i in t.releaseItems ==> i.1 in G.MembersOf(t.members, t.releases[i.0].ledger);
    MembersListed(t.members);
  }

  lemma MembersListed(members: map<Id, Member>)
    ensures forall l, m :: m in G.MembersOf(members, l) ==> m in members
  {
  }

  lemma UnsettledNotMetered(t: Tables, w: Id)
    requires w in t.workloads && !t.workloads[w].status.Settled?
    ensures forall batch, ids, now :: M.CreateStep(t, w, batch, ids, now).Err?
  {
    hide M.SegmentIds, M.InsertFrom;
  }

  /**
   * Failing a workload that is being metered leads to failed, with its time columns as they were, and for good:
   * over any further run it gets no batch, no membership and no place in a release.
   */
  lemma FailureIsFinal(cfg: Config, t: Tables, p: Principal, w: Id, now: Instant, cs: seq<Command>)
    requires Reachable(cfg, t) && W.ChangeStep(t, p, w, W.FailWork, now).Ok?
    ensures w in t.workloads && t.workloads[w].status == WorkloadStatus.Metering
    ensures var v := Run(cfg, W.ChangeStep(t, p, w, W.FailWork, now).value, cs);
      && FactsOf(v.workloads, w) == Some(FactsOf(t.workloads, w).value.(status := WorkFailed))
      && LeftOut(v, w) && forall batch, ids, at :: M.CreateStep(v, w, batch, ids, at).Err?
  {
    hide Inv, Reachable, Run, LeftOut, M.CreateStep;
    Reachability.ReachableInv(cfg, t);
    WI.ChangeKeeps(t, p, w, W.FailWork, now);
    var u := W.ChangeStep(t, p, w, W.FailWork, now).value;
    assert u.workloads[w].status == WorkFailed;
    LedgerStability.RunLasts(cfg, u, cs);
    var v := Run(cfg, u, cs);
    Reachability.RunInv(cfg, u, cs);
    NotSettledLeftOut(v, w);
    UnsettledNotMetered(v, w);
  }
}
