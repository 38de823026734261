/** What stays true of ledgers, reviews, releases, jobs and failed workloads from some call on. */
module LedgerStability {
  import opened Basics
  import opened Domain
  import opened System
  import opened Frames
  import opened Reachability
  import opened Settlement
  import opened Sorting
  import opened Timestamps
  import Fingerprints
  import W = Workloads
  import G = Ledger
  import J = Scheduler
  import JP = SchedulerProofs
  import WI = WorkloadInvariants
  import GI = LedgerInvariants

  // ---- Frozen ledgers ----

  /** The stored count and digest are the recomputed ones, and every member is eligible. */
  ghost predicate Consistent(t: Tables, ledger: Id)
    requires ledger in t.drafts
  {
    && t.drafts[ledger].count == |G.MembersOf(t.members, ledger)| > 0
    && t.drafts[ledger].digest == G.DigestOf(t.members, ledger)
    && forall m :: m in G.MembersOf(t.members, ledger) ==> EligibleNow(t.workloads, t.batches, t.members[m].workload)
  }

  lemma FrozenConsistent(cfg: Config, t: Tables, ledger: Id)
    requires Reachable(cfg, t) && ledger in t.drafts && !t.drafts[ledger].status.Draft?
    ensures Consistent(t, ledger)
  {
    hide Reachable, Inv, G.DigestOf, EligibleNow;
    ReachableInv(cfg, t);
    GI.InvDraft(t, ledger);
    MembersEligible(t);
  }

  lemma MembersEligible(t: Tables)
    requires Inv(t)
    ensures forall m :: m in t.members ==> EligibleNow(t.workloads, t.batches, t.members[m].workload)
  {
    hide Inv, EligibleNow;
    assert MembersOk(t.workloads, t.batches, t.drafts, t.members) by {
      InvParts(t);
    }
  }

  /**
   * Publishing never fails its membership check: it commits exactly when the ledger is approved and the
   * new release id is unused.
   */
  lemma PublishCommitsIff(cfg: Config, t: Tables, ledger: Id, release: Id, now: Instant)
    requires Reachable(cfg, t)
    ensures G.PublishStep(t, ledger, release, now).Ok? <==>
      ledger in t.drafts && t.drafts[ledger].status.Approved? && release !in t.releases
    ensures G.PublishStep(t, ledger, release, now) != Err(Conflict)
  {
    hide Reachable, Inv, G.DigestOf, G.ListMembers, EligibleNow, G.ReleaseRows;
    if ledger in t.drafts && t.drafts[ledger].status.Approved? {
      ReachableInv(cfg, t);
      FrozenConsistent(cfg, t, ledger);
      NoReleaseYet(t, ledger);
    }
  }

  lemma NoReleaseYet(t: Tables, ledger: Id)
    requires Inv(t) && ledger in t.drafts && t.drafts[ledger].status.Approved?
    ensures forall r :: r in t.releases ==> t.releases[r].ledger != ledger
  {
    ReleaseParts(t);
    hide Inv, DraftsOk, ReviewsOk, JobsOk, G.MembersOf;
    assert forall r :: r in t.releases ==> ReleaseOk(t.drafts, t.releases[r]);
  }

  /**
   * Adding workloads returns the count that it read plus the number of new members; in every reachable state that
   * is the count it stores.
   */
  lemma AddReturnsStored(cfg: Config, t: Tables, ledger: Id, workloads: seq<Id>, ids: nat -> Id, now: Instant)
    requires Reachable(cfg, t) && G.AddStep(t, ledger, workloads, ids, now).Ok?
    ensures ledger in t.drafts && ledger in G.AddStep(t, ledger, workloads, ids, now).value.drafts
    ensures G.AddStep(t, ledger, workloads, ids, now).value.drafts[ledger].count == t.drafts[ledger].count + |workloads|
  {
    hide Reachable, Inv, G.AddStep, G.AllEligible, G.AddFrom, G.MembersOf, G.DigestOf;
    ReachableInv(cfg, t);
    GI.AddCommits(t, ledger, workloads, ids, now);
    GI.InvDraft(t, ledger);
    GI.AddFromCounts(t.members, ledger, t.drafts[ledger].revision, workloads, ids, 0, now);
  }

  // ---- The digest identifies the members ----

  predicate NulFreeRow(r: G.MemberRow) { Fingerprints.NulFree(r.id) && Fingerprints.NulFree(r.workload) }

  /** On ids without a zero byte, equal digest preimages come from equal lists of members. */
  lemma {:induction false} LinesInjective(a: seq<G.MemberRow>, b: seq<G.MemberRow>)
    requires forall k :: 0 <= k < |a| ==> NulFreeRow(a[k])
    requires forall k :: 0 <= k < |b| ==> NulFreeRow(b[k])
    requires G.Lines(a) == G.Lines(b)
    ensures a == b
  {
    if a != [] && b != [] {
      var x, y := G.Lines(a[1..]), G.Lines(b[1..]);
      hide Fingerprints.MemberLine;
      Fingerprints.MemberLineInjective(a[0].id, a[0].workload, a[0].revision, b[0].id, b[0].workload, b[0].revision, x, y);
      LinesInjective(a[1..], b[1..]);
      assert a == [a[0]] + a[1..] && b == [b[0]] + b[1..];
    } else {
      LineNotEmpty(a);
      LineNotEmpty(b);
    }
  }

  lemma LineNotEmpty(a: seq<G.MemberRow>)
    ensures G.Lines(a) == "" <==> a == []
  {
  }

  /** A row that only one table lists tells the lists apart. */
  lemma SameListSameMember(a: map<Id, Member>, b: map<Id, Member>, ledger: Id, m: Id)
    requires G.RowsOf(a, G.ListMembers(a, ledger)) == G.RowsOf(b, G.ListMembers(b, ledger))
    requires m in G.MembersOf(a, ledger)
    ensures m in G.MembersOf(b, ledger) && G.RowOf(a, m) == G.RowOf(b, m)
  {
    hide G.ListMembers, G.RowsOf;
    GI.RowListed(a, ledger, G.RowOf(a, m));
    GI.RowListed(b, ledger, G.RowOf(a, m));
  }

  /** The digests of a ledger in two tables agree exactly when its member rows do. */
  lemma DigestIdentifiesMembers(a: map<Id, Member>, b: map<Id, Member>, ledger: Id)
    requires forall m :: m in a ==> NulFreeRow(G.RowOf(a, m))
    requires forall m :: m in b ==> NulFreeRow(G.RowOf(b, m))
    ensures G.DigestOf(a, ledger) == G.DigestOf(b, ledger) <==> GI.SameMembers(a, b, ledger)
  {
    hide G.ListMembers, NulFreeRow, G.Lines;
    if G.DigestOf(a, ledger) == G.DigestOf(b, ledger) {
      ListedNulFree(a, ledger);
      ListedNulFree(b, ledger);
      LinesInjective(G.RowsOf(a, G.ListMembers(a, ledger)), G.RowsOf(b, G.ListMembers(b, ledger)));
      forall m | m in G.MembersOf(a, ledger)
        ensures m in G.MembersOf(b, ledger) && G.RowOf(a, m) == G.RowOf(b, m)
      {
        SameListSameMember(a, b, ledger, m);
      }
      forall m | m in G.MembersOf(b, ledger)
        ensures m in G.MembersOf(a, ledger)
      {
        SameListSameMember(b, a, ledger, m);
      }
    }
    if GI.SameMembers(a, b, ledger) { GI.DigestStable(a, b, ledger); }
  }

  lemma ListedNulFree(members: map<Id, Member>, ledger: Id)
    requires forall m :: m in members ==> NulFreeRow(G.RowOf(members, m))
    ensures var x := G.RowsOf(members, G.ListMembers(members, ledger));
      forall k :: 0 <= k < |x| ==> NulFreeRow(x[k])
  {
    hide G.ListMembers, NulFreeRow;
    var ids := G.ListMembers(members, ledger);
    assert forall k :: 0 <= k < |ids| ==> ids[k] in ids;
  }

  // ---- What lasts ----

  /** Workloads keep their operator, and failed ones stay as they are. */
  predicate FailedKept(before: map<Id, Workload>, after: map<Id, Workload>) {
    forall w :: w in before ==>
      w in after && after[w].operator == before[w].operator && (before[w].status.WorkFailed? ==> after[w] == before[w])
  }

  /** Rows that a call leaves in place: reviews and members for good, releases but for revocation, failed workloads, operators. */
  predicate Lasting(t: Tables, u: Tables) {
    && (forall k :: k in t.reviews ==> k in u.reviews && u.reviews[k] == t.reviews[k])
    && (forall m :: m in t.members ==> m in u.members && u.members[m] == t.members[m])
    && (forall r :: r in t.releases ==>
          r in u.releases && u.releases[r].ledger == t.releases[r].ledger && u.releases[r].digest == t.releases[r].digest
          && (t.releases[r].status.Revoked? ==> u.releases[r].status.Revoked?))
    && FailedKept(t.workloads, u.workloads)
  }

  lemma LedgerCallLasts(t: Tables, c: LedgerCall)
    ensures Lasting(t, Committed(t, LedgerStep(t, c)))
  {
    hide G.CreateDraftStep, G.AddStep, G.FreezeStep, G.ReviewStep, G.PublishStep, G.RevokeStep, Lasting;
    match c
    case CreateDraft(_, _, _) => DraftCallLasts(t, c);
    case AddWorkloads(ledger, workloads, ids, now) => AddLasts(t, ledger, workloads, ids, now);
    case Freeze(_, _) => DraftCallLasts(t, c);
    case ReviewLedger(reviewer, ledger, approve, reason, now) => ReviewLasts(t, reviewer, ledger, approve, reason, now);
    case Publish(ledger, release, now) => PublishLasts(t, ledger, release, now);
    case Revoke(release, reason, now) => RevokeLasts(t, release, reason, now);
  }

  lemma DraftCallLasts(t: Tables, c: LedgerCall)
    requires c.CreateDraft? || c.Freeze?
    ensures Lasting(t, Committed(t, LedgerStep(t, c)))
  {
    hide G.AllEligible, G.ListMembers, G.DigestOf, G.Workloads, G.MembersOf, Blank, Trim, Lasting;
    SameRowsLast(t, Committed(t, LedgerStep(t, c)));
  }

  lemma AddLasts(t: Tables, ledger: Id, workloads: seq<Id>, ids: nat -> Id, now: Instant)
    ensures Lasting(t, Committed(t, G.AddStep(t, ledger, workloads, ids, now)))
  {
    hide G.AllEligible, G.ValidRequest, G.MembersOf, G.AddFrom, Lasting;
    var r := G.AddStep(t, ledger, workloads, ids, now);
    SameRowsLast(t, t);
    if r.Ok? {
      AddFromKeeps(t.members, ledger, t.drafts[ledger].revision, workloads, ids, 0, now);
      MoreMembersLast(t, r.value.members, r.value.drafts);
    }
  }

  lemma MoreMembersLast(t: Tables, members: map<Id, Member>, drafts: map<Id, LedgerDraft>)
    requires forall m :: m in t.members ==> m in members && members[m] == t.members[m]
    ensures Lasting(t, t.(members := members, drafts := drafts))
  {
  }

  lemma ReviewLasts(t: Tables, reviewer: Id, ledger: Id, approve: bool, reason: string, now: Instant)
    ensures Lasting(t, Committed(t, G.ReviewStep(t, reviewer, ledger, approve, reason, now)))
  {
    hide Blank, Lasting;
    var r := G.ReviewStep(t, reviewer, ledger, approve, reason, now);
    SameRowsLast(t, t);
    if r.Ok? { ReviewedLasts(t, ledger, r.value.reviews[(ledger, 1)], r.value.drafts); }
  }

  lemma ReviewedLasts(t: Tables, ledger: Id, review: Review, drafts: map<Id, LedgerDraft>)
    requires (ledger, 1) !in t.reviews
    ensures Lasting(t, t.(reviews := t.reviews[(ledger, 1) := review], drafts := drafts))
  {
  }

  lemma PublishLasts(t: Tables, ledger: Id, release: Id, now: Instant)
    ensures Lasting(t, Committed(t, G.PublishStep(t, ledger, release, now)))
  {
    hide G.ListMembers, G.DigestOf, G.MembersOf, G.ReleaseRows, Lasting;
    var r := G.PublishStep(t, ledger, release, now);
    SameRowsLast(t, t);
    if r.Ok? { PublishedLasts(t, release, r.value.releases[release], r.value.releaseItems, r.value.drafts); }
  }

  lemma PublishedLasts(t: Tables, release: Id, row: Release, items: set<(Id, Id)>, drafts: map<Id, LedgerDraft>)
    requires release !in t.releases
    ensures Lasting(t, t.(releases := t.releases[release := row], releaseItems := items, drafts := drafts))
  {
  }

  lemma RevokeLasts(t: Tables, release: Id, reason: string, now: Instant)
    ensures Lasting(t, Committed(t, G.RevokeStep(t, release, reason, now)))
  {
    hide G.ActiveJobs, Blank, Lasting;
    var r := G.RevokeStep(t, release, reason, now);
    SameRowsLast(t, t);
    if r.Ok? { RevokedLasts(t, release, r.value.releases[release]); }
  }

  lemma RevokedLasts(t: Tables, release: Id, row: Release)
    requires release in t.releases && row.ledger == t.releases[release].ledger && row.digest == t.releases[release].digest
    requires row.status.Revoked?
    ensures Lasting(t, t.(releases := t.releases[release := row]))
  {
  }

  lemma {:induction false} AddFromKeeps(
    members: map<Id, Member>, ledger: Id, revision: nat, workloads: seq<Id>, ids: nat -> Id, k: nat, now: Instant)
    requires k <= |workloads|
    ensures match G.AddFrom(members, ledger, revision, workloads, ids, k, now)
      case Ok(r) => forall m :: m in members ==> m in r && r[m] == members[m]
      case Err(_) => true
    decreases |workloads| - k
  {
    if k < |workloads| {
      AddFromKeeps(members[ids(k) := Member(ledger, workloads[k], revision, now)], ledger, revision, workloads, ids, k + 1, now);
    }
  }

  lemma WorkloadCallLasts(cfg: Config, t: Tables, c: WorkloadCall)
    requires Inv(t)
    ensures Lasting(t, Committed(t, WorkloadStep(cfg, t, c)))
  {
    WorkloadCallFrame(cfg, t, c);
    FailedStays(cfg, t, c);
    hide Inv, WorkloadStep;
  }

  lemma FailedStays(cfg: Config, t: Tables, c: WorkloadCall)
    requires Inv(t)
    ensures FailedKept(t.workloads, Committed(t, WorkloadStep(cfg, t, c)).workloads)
  {
    if c.Reopen? {
      InvLeases(t);
      hide Inv, LeasesOk, W.ReopenStep;
      WI.ReopenNeverCommits(t, cfg.poolTtl, c.p, c.id, c.draw, c.now);
    } else {
      hide Inv;
      OthersKeepFailed(cfg, t, c);
    }
  }

  lemma OneRow(workloads: map<Id, Workload>, id: Id, w: Workload)
    requires id in workloads ==> !workloads[id].status.WorkFailed? && w.operator == workloads[id].operator
    ensures FailedKept(workloads, workloads[id := w])
  {
  }

  lemma PlanKeepsFailed(before: Comparison, t: Tables, ttl: int, user: Id, input: W.PlanInput, draw: W.Draw, now: Instant)
    ensures match W.PlanStep(before, t, ttl, user, input, draw, now)
      case Ok(planned) => FailedKept(t.workloads, planned.tables.workloads)
      case Err(_) => true
  {
    hide W.ValidPlan, W.Fingerprint, W.Matched, W.LeaseCollides, W.Lookup, FailedKept;
    NoRow(t.workloads);
    if draw.workload !in t.workloads { OneRow(t.workloads, draw.workload, W.Created(ttl, user, input, draw, now).workload); }
  }

  lemma ChangeKeepsFailed(t: Tables, p: Principal, id: Id, call: W.StatusCall, now: Instant)
    ensures FailedKept(t.workloads, Committed(t, W.ChangeStep(t, p, id, call, now)).workloads)
  {
    hide W.Stamped, FailedKept;
    var r := W.ChangeStep(t, p, id, call, now);
    NoRow(t.workloads);
    if r.Ok? { OneRow(t.workloads, id, r.value.workloads[id]); }
  }

  lemma SubmitKeepsFailed(t: Tables, p: Principal, id: Id, now: Instant)
    ensures FailedKept(t.workloads, Committed(t, W.SubmitStep(t, p, id, now)).workloads)
  {
    hide W.StreamsOf, FailedKept;
    var r := W.SubmitStep(t, p, id, now);
    NoRow(t.workloads);
    if r.Ok? { OneRow(t.workloads, id, r.value.workloads[id]); }
  }

  lemma CancelKeepsFailed(t: Tables, p: Principal, id: Id, now: Instant)
    ensures FailedKept(t.workloads, Committed(t, W.CancelStep(t, p, id, now)).workloads)
  {
    hide W.CancelStep, FailedKept;
    WI.CancelFreesOneLease(t, p, id, now);
    var r := W.CancelStep(t, p, id, now);
    NoRow(t.workloads);
    if r.Ok? { OneRow(t.workloads, id, r.value.workloads[id]); }
  }

  lemma PoolCallsKeepWorkloads(cfg: Config, t: Tables, c: WorkloadCall)
    requires c.ReservePool? || c.RenewPool? || c.ReleasePool?
    ensures Committed(t, WorkloadStep(cfg, t, c)).workloads == t.workloads
  {
    hide W.LeaseCollides, W.NamedLease, TextBefore;
  }

  lemma OthersKeepFailed(cfg: Config, t: Tables, c: WorkloadCall)
    requires !c.Reopen?
    ensures FailedKept(t.workloads, Committed(t, WorkloadStep(cfg, t, c)).workloads)
  {
    hide W.PlanStep, W.ChangeStep, W.SubmitStep, W.CancelStep, W.ReservePool, W.RenewPool, W.ReleasePool, FailedKept, TextBefore;
    match c
    case Plan(user, input, draw, now) =>
      PlanKeepsFailed(TextBefore, t, cfg.poolTtl, user, input, draw, now);
      NoRow(t.workloads);
    case Change(p, id, call, now) => ChangeKeepsFailed(t, p, id, call, now);
    case Submit(p, id, now) => SubmitKeepsFailed(t, p, id, now);
    case Cancel(p, id, now) => CancelKeepsFailed(t, p, id, now);
    case _ =>
      PoolCallsKeepWorkloads(cfg, t, c);
      NoRow(t.workloads);
  }

  lemma NoRow(workloads: map<Id, Workload>)
    ensures FailedKept(workloads, workloads)
  {
  }

  lemma InvLeases(t: Tables)
    requires Inv(t)
    ensures LeasesOk(t.workloads, t.leases)
  {
    hide *;
    InvParts(t);
  }

  lemma CallLasts(cfg: Config, t: Tables, c: Command)
    requires Inv(t)
    ensures Lasting(t, After(cfg, t, c))
  {
    hide Inv, Lasting, Exec, WorkloadStep, LedgerStep;
    ExecGroups(cfg, t, c);
    if c.OnWorkload? {
      WorkloadCallLasts(cfg, t, c.workload);
    } else if c.OnLedger? {
      LedgerCallLasts(t, c.ledger);
    } else {
      Unchanged(cfg, t, c);
      SameRowsLast(t, After(cfg, t, c));
    }
  }

  lemma SameRowsLast(t: Tables, u: Tables)
    requires u.reviews == t.reviews && u.members == t.members && u.releases == t.releases && u.workloads == t.workloads
    ensures Lasting(t, u)
  {
  }

  lemma LastingTransitive(t: Tables, u: Tables, v: Tables)
    requires Lasting(t, u) && Lasting(u, v)
    ensures Lasting(t, v)
  {
  }

  lemma {:induction false} RunLasts(cfg: Config, t: Tables, cs: seq<Command>)
    requires Inv(t)
    ensures Lasting(t, Run(cfg, t, cs))
  {
    hide Inv, After, Lasting;
    if cs == [] {
      SameRowsLast(t, t);
    } else {
      var k := |cs| - 1;
      RunLasts(cfg, t, cs[..k]);
      RunInv(cfg, t, cs[..k]);
      CallLasts(cfg, Run(cfg, t, cs[..k]), cs[k]);
      LastingTransitive(t, Run(cfg, t, cs[..k]), Run(cfg, t, cs));
    }
  }

  /** A member of a ledger stays in it and stays eligible and settled for ever. */
  lemma MembersStayEligible(cfg: Config, t: Tables, cs: seq<Command>, m: Id)
    requires Reachable(cfg, t) && m in t.members
    ensures var u := Run(cfg, t, cs);
      m in u.members && u.members[m] == t.members[m] && G.Eligible(u, t.members[m].workload).Ok? && FullySettled(u, t.members[m].workload)
  {
    hide Reachable, Inv, Run, FullySettled;
    var u := Run(cfg, t, cs);
    ReachableInv(cfg, t);
    RunLasts(cfg, t, cs);
    RunInv(cfg, t, cs);
    MemberSettled(u, m);
    MembersEligible(u);
  }

  /** Reopening never commits, and a failed workload never changes again. */
  lemma FailedForever(cfg: Config, t: Tables, cs: seq<Command>, w: Id)
    requires Reachable(cfg, t) && w in t.workloads && t.workloads[w].status.WorkFailed?
    ensures w in Run(cfg, t, cs).workloads && Run(cfg, t, cs).workloads[w] == t.workloads[w]
  {
    hide Reachable, Inv, Run;
    ReachableInv(cfg, t);
    RunLasts(cfg, t, cs);
  }

  lemma OperatorsKept(cfg: Config, t: Tables, cs: seq<Command>)
    requires Inv(t)
    ensures FailedKept(t.workloads, Run(cfg, t, cs).workloads)
  {
    hide Inv, Run, FailedKept;
    RunLasts(cfg, t, cs);
  }

  /** A ledger is reviewed at most once: after a review that commits, no review of it ever commits. */
  lemma ReviewedOnce(cfg: Config, t: Tables, first: LedgerCall, cs: seq<Command>, second: LedgerCall)
    requires Reachable(cfg, t) && first.ReviewLedger? && second.ReviewLedger? && second.ledger == first.ledger
    requires LedgerStep(t, first).Ok?
    ensures LedgerStep(Run(cfg, LedgerStep(t, first).value, cs), second).Err?
  {
    hide Reachable, Inv, Run, Blank;
    ReachableInv(cfg, t);
    var u := LedgerStep(t, first).value;
    LedgerCallKeeps(t, first);
    assert (first.ledger, 1) in u.reviews;
    RunLasts(cfg, u, cs);
  }

  /** A ledger whose review rejected it is never published, neither now nor later. */
  lemma RejectedNeverPublished(cfg: Config, t: Tables, cs: seq<Command>, ledger: Id)
    requires Reachable(cfg, t) && (ledger, 1) in t.reviews && !t.reviews[(ledger, 1)].approved
    ensures var u := Run(cfg, t, cs);
      && (forall release, now :: G.PublishStep(u, ledger, release, now).Err?)
      && (forall r :: r in u.releases ==> u.releases[r].ledger != ledger)
  {
    hide Reachable, Inv, Run;
    var u := Run(cfg, t, cs);
    ReachableInv(cfg, t);
    RunLasts(cfg, t, cs);
    RunInv(cfg, t, cs);
    RejectedUnpublished(u, ledger);
    hide G.ListMembers, G.DigestOf;
  }

  lemma RejectedUnpublished(t: Tables, ledger: Id)
    requires Inv(t) && (ledger, 1) in t.reviews && !t.reviews[(ledger, 1)].approved
    ensures ledger in t.drafts ==> !t.drafts[ledger].status.Approved? && !t.drafts[ledger].status.Published?
    ensures forall r :: r in t.releases ==> t.releases[r].ledger != ledger
  {
    ReleaseParts(t);
    hide Inv, DraftsOk, JobsOk, G.MembersOf;
    assert forall r :: r in t.releases ==> ReleaseOk(t.drafts, t.releases[r]);
  }

  // ---- Jobs ----

  /** Every queued, running or retrying job belongs to a published release. */
  lemma ActiveJobsArePublished(cfg: Config, t: Tables, j: Id)
    requires Reachable(cfg, t) && j in t.jobs && t.jobs[j].status.Active()
    ensures t.jobs[j].release in t.releases && t.releases[t.jobs[j].release].status.Published?
  {
    hide Reachable, Inv;
    ReachableInv(cfg, t);
    GI.InvJobs(t);
  }

  /** A revoked release stays revoked and never has an active job again. */
  lemma RevokedStaysIdle(cfg: Config, t: Tables, cs: seq<Command>, r: Id)
    requires Reachable(cfg, t) && r in t.releases && t.releases[r].status.Revoked?
    ensures var u := Run(cfg, t, cs);
      r in u.releases && u.releases[r].status.Revoked? && G.ActiveJobs(u.jobs, r) == {}
  {
    hide Reachable, Inv, Run;
    ReachableInv(cfg, t);
    RunLasts(cfg, t, cs);
    RunInv(cfg, t, cs);
    GI.InvJobs(Run(cfg, t, cs));
  }
}
