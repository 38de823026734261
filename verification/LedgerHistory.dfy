/** Ledgers, members, reviews and releases are the history of the calls on them; what a revocation means. */
module LedgerHistory {
  import opened Basics
  import opened Domain
  import opened System
  import opened History
  import G = Ledger
  import J = Scheduler
  import F = Frames
  import GI = LedgerInvariants
  import LedgerStability
  import Reachability
  import Settlement

  // ---- Ledgers ----

  /** What the calls tell of a ledger. */
  datatype Facts = Facts(name: string, status: LedgerStatus, frozen: Option<Instant>)

  function FactsOf(drafts: map<Id, LedgerDraft>, d: Id): Option<Facts> {
    if d in drafts then Some(Facts(drafts[d].name, drafts[d].status, drafts[d].frozen)) else None
  }

  /** What a committed call tells of ledger `d`; a rejection leaves the freezing time in place. */
  function Told(c: LedgerCall, d: Id, f: Option<Facts>): Option<Facts> {
    match c
    case CreateDraft(name, id, _) => if id == d then Some(Facts(Trim(name), Draft, None)) else f
    case AddWorkloads(_, _, _, _) => f
    case Freeze(ledger, now) => if ledger == d && f.Some? then Some(f.value.(status := Frozen, frozen := Some(now))) else f
    case ReviewLedger(_, ledger, approve, _, _) =>
      if ledger == d && f.Some? then Some(f.value.(status := if approve then Approved else Draft)) else f
    case Publish(ledger, _, _) => if ledger == d && f.Some? then Some(f.value.(status := Published)) else f
    case Revoke(_, _, _) => f
  }

  ghost function Story(cfg: Config, cs: seq<Command>, d: Id): Option<Facts> {
    if cs == [] then None
    else
      var n := |cs| - 1;
      var before := Story(cfg, cs[..n], d);
      if CommitsAt(cfg, cs, n) && cs[n].OnLedger? then Told(cs[n].ledger, d, before) else before
  }

  predicate Tells(t: Tables, c: LedgerCall, d: Id, u: Tables) { FactsOf(u.drafts, d) == Told(c, d, FactsOf(t.drafts, d)) }

  lemma DraftTells(t: Tables, c: LedgerCall, d: Id)
    requires (c.CreateDraft? || c.Freeze?) && LedgerStep(t, c).Ok?
    ensures Tells(t, c, d, LedgerStep(t, c).value)
  {
    hide G.AllEligible, G.ListMembers, G.DigestOf, G.Workloads, Blank, Trim;
  }

  lemma AddTells(t: Tables, c: LedgerCall, d: Id)
    requires c.AddWorkloads? && LedgerStep(t, c).Ok?
    ensures Tells(t, c, d, LedgerStep(t, c).value)
  {
    hide G.AllEligible, G.AddFrom, G.ValidRequest, G.MembersOf;
  }

  lemma ReviewTells(t: Tables, c: LedgerCall, d: Id)
    requires c.ReviewLedger? && LedgerStep(t, c).Ok?
    ensures Tells(t, c, d, LedgerStep(t, c).value)
  {
    hide Blank;
  }

  lemma PublishTells(t: Tables, c: LedgerCall, d: Id)
    requires c.Publish? && LedgerStep(t, c).Ok?
    ensures Tells(t, c, d, LedgerStep(t, c).value)
  {
    hide G.ListMembers, G.DigestOf, G.MembersOf, G.ReleaseRows, G.ReleaseCollides;
  }

  lemma RevokeTells(t: Tables, c: LedgerCall, d: Id)
    requires c.Revoke? && LedgerStep(t, c).Ok?
    ensures Tells(t, c, d, LedgerStep(t, c).value)
  {
    hide G.ActiveJobs, Blank;
  }

  lemma CallTells(t: Tables, c: LedgerCall, d: Id)
    requires LedgerStep(t, c).Ok?
    ensures Tells(t, c, d, LedgerStep(t, c).value)
  {
    hide LedgerStep, Tells;
    match c
    case CreateDraft(_, _, _) => DraftTells(t, c, d);
    case AddWorkloads(_, _, _, _) => AddTells(t, c, d);
    case Freeze(_, _) => DraftTells(t, c, d);
    case ReviewLedger(_, _, _, _, _) => ReviewTells(t, c, d);
    case Publish(_, _, _) => PublishTells(t, c, d);
    case Revoke(_, _, _) => RevokeTells(t, c, d);
  }

  lemma StepTells(cfg: Config, t: Tables, c: Command, d: Id)
    ensures FactsOf(After(cfg, t, c).drafts, d) ==
      if Commits(cfg, t, c) && c.OnLedger? then Told(c.ledger, d, FactsOf(t.drafts, d)) else FactsOf(t.drafts, d)
  {
    hide Exec, LedgerStep, FactsOf, Told;
    F.ExecGroups(cfg, t, c);
    if !c.OnLedger? {
      F.Unchanged(cfg, t, c);
    } else if Commits(cfg, t, c) {
      CallTells(t, c.ledger, d);
    }
  }

  /** After any run from the empty database a ledger has the name it was created with, and the status of the last call on it. */
  lemma {:induction false} LedgersAreHistory(cfg: Config, cs: seq<Command>, d: Id)
    ensures FactsOf(Run(cfg, EMPTY, cs).drafts, d) == Story(cfg, cs, d)
  {
    hide After, Commits, FactsOf, Told;
    if cs == [] {
      NothingTold(d);
    } else {
      var n := |cs| - 1;
      LedgersAreHistory(cfg, cs[..n], d);
      StepTells(cfg, Run(cfg, EMPTY, cs[..n]), cs[n], d);
    }
  }

  lemma NothingTold(d: Id)
    ensures FactsOf(EMPTY.drafts, d) == None && ReleaseFactsOf(EMPTY.releases, d) == None
    ensures forall w :: !IsMember(EMPTY.members, d, w)
  {
  }

  // ---- Members ----

  predicate IsMember(members: map<Id, Member>, d: Id, w: Id) {
    exists m :: m in members && members[m].ledger == d && members[m].workload == w
  }

  /** The call adds the workload to the ledger. */
  function Adding(d: Id, w: Id): Command -> bool {
    (c: Command) => c.OnLedger? && c.ledger.AddWorkloads? && c.ledger.ledger == d && w in c.ledger.workloads
  }

  lemma {:induction false} AddFromTells(
    members: map<Id, Member>, ledger: Id, revision: nat, workloads: seq<Id>, ids: nat -> Id, k: nat, now: Instant, d: Id, w: Id)
    requires k <= |workloads|
    ensures match G.AddFrom(members, ledger, revision, workloads, ids, k, now)
      case Ok(r) => IsMember(r, d, w) <==> IsMember(members, d, w) || (d == ledger && w in workloads[k..])
      case Err(_) => true
    decreases |workloads| - k
  {
    hide G.MembersOf;
    if k < |workloads| && ids(k) !in members {
      var next := members[ids(k) := Member(ledger, workloads[k], revision, now)];
      AddFromTells(next, ledger, revision, workloads, ids, k + 1, now, d, w);
      OneMore(members, ids(k), Member(ledger, workloads[k], revision, now), d, w);
      assert workloads[k..] == [workloads[k]] + workloads[k + 1..];
      hide IsMember;
    }
  }

  lemma OneMore(members: map<Id, Member>, m: Id, x: Member, d: Id, w: Id)
    requires m !in members
    ensures IsMember(members[m := x], d, w) <==> IsMember(members, d, w) || (x.ledger == d && x.workload == w)
  {
    var next := members[m := x];
    if IsMember(members, d, w) {
      var o :| o in members && members[o].ledger == d && members[o].workload == w;
      assert o in next && next[o].ledger == d;
    }
    if x.ledger == d && x.workload == w { assert m in next && next[m].ledger == d; }
  }

  lemma MemberStep(cfg: Config, t: Tables, c: Command, d: Id, w: Id)
    ensures IsMember(After(cfg, t, c).members, d, w) <==> IsMember(t.members, d, w) || (Commits(cfg, t, c) && Adding(d, w)(c))
  {
    hide Exec, LedgerStep, IsMember, G.AddFrom;
    F.ExecGroups(cfg, t, c);
    if !c.OnLedger? {
      F.Unchanged(cfg, t, c);
    } else if !c.ledger.AddWorkloads? {
      OthersKeepMembers(t, c.ledger);
    } else if Commits(cfg, t, c) {
      AddingMembers(t, c.ledger);
      var l := c.ledger;
      AddFromTells(t.members, l.ledger, t.drafts[l.ledger].revision, l.workloads, l.ids, 0, l.now, d, w);
      assert l.workloads[0..] == l.workloads;
    }
  }

  lemma AddingMembers(t: Tables, c: LedgerCall)
    requires c.AddWorkloads? && LedgerStep(t, c).Ok?
    ensures c.ledger in t.drafts
    ensures G.AddFrom(t.members, c.ledger, t.drafts[c.ledger].revision, c.workloads, c.ids, 0, c.now) == Ok(LedgerStep(t, c).value.members)
  {
    hide G.AllEligible, G.AddFrom, G.ValidRequest, G.MembersOf;
  }

  lemma DraftStores(t: Tables, c: LedgerCall)
    requires c.CreateDraft? || c.Freeze?
    ensures var u := Committed(t, LedgerStep(t, c)); u.members == t.members && u.releases == t.releases
  {
    hide G.AllEligible, G.ListMembers, G.DigestOf, G.Workloads, Blank, Trim;
  }

  lemma ReviewStores(t: Tables, c: LedgerCall)
    requires c.ReviewLedger?
    ensures var u := Committed(t, LedgerStep(t, c)); u.members == t.members && u.releases == t.releases
  {
    hide Blank;
  }

  lemma AddStores(t: Tables, c: LedgerCall)
    requires c.AddWorkloads?
    ensures Committed(t, LedgerStep(t, c)).releases == t.releases
  {
    hide G.AllEligible, G.AddFrom, G.ValidRequest, G.MembersOf;
  }

  /** What publishing and revoking store. */
  predicate Stores(t: Tables, c: LedgerCall, u: Tables, r: Id) {
    && u.members == t.members && r in u.releases && u.releases == t.releases[r := u.releases[r]]
    && ReleaseFactsOf(u.releases, r) == ReleaseTold(c, r, ReleaseFactsOf(t.releases, r))
  }

  lemma PublishStores(t: Tables, c: LedgerCall)
    requires c.Publish? && LedgerStep(t, c).Ok?
    ensures Stores(t, c, LedgerStep(t, c).value, c.release)
  {
    hide G.ListMembers, G.DigestOf, G.MembersOf, G.ReleaseRows, G.ReleaseCollides, G.Turned;
  }

  lemma RevokeStores(t: Tables, c: LedgerCall)
    requires c.Revoke? && LedgerStep(t, c).Ok?
    ensures Stores(t, c, LedgerStep(t, c).value, c.release)
  {
    hide G.ActiveJobs, Blank;
  }

  lemma OthersKeepMembers(t: Tables, c: LedgerCall)
    requires !c.AddWorkloads?
    ensures Committed(t, LedgerStep(t, c)).members == t.members
  {
    hide LedgerStep, ReleaseFactsOf, ReleaseTold;
    match c
    case CreateDraft(_, _, _) => DraftStores(t, c);
    case Freeze(_, _) => DraftStores(t, c);
    case ReviewLedger(_, _, _, _, _) => ReviewStores(t, c);
    case Publish(_, _, _) => if LedgerStep(t, c).Ok? { PublishStores(t, c); }
    case Revoke(_, _, _) => if LedgerStep(t, c).Ok? { RevokeStores(t, c); }
  }

  /** After any run from the empty database a workload is in a ledger exactly when a committed call added it. */
  lemma {:induction false} MembersAreHistory(cfg: Config, cs: seq<Command>, d: Id, w: Id)
    ensures IsMember(Run(cfg, EMPTY, cs).members, d, w) <==> Happened(cfg, cs, Adding(d, w))
  {
    hide After, Commits, Happened, Adding, IsMember;
    if cs == [] {
      NothingTold(d);
      NothingHappened(cfg, Adding(d, w));
    } else {
      var n := |cs| - 1;
      MembersAreHistory(cfg, cs[..n], d, w);
      HappenedNext(cfg, cs, Adding(d, w));
      MemberStep(cfg, Run(cfg, EMPTY, cs[..n]), cs[n], d, w);
    }
  }

  // ---- Releases ----

  datatype ReleaseFacts = ReleaseFacts(ledger: Id, status: LedgerStatus, published: Option<Instant>, revoked: Option<Instant>)

  function ReleaseFactsOf(releases: map<Id, Release>, r: Id): Option<ReleaseFacts> {
    if r !in releases then None
    else Some(ReleaseFacts(releases[r].ledger, releases[r].status, releases[r].published, releases[r].revoked))
  }

  function ReleaseTold(c: LedgerCall, r: Id, f: Option<ReleaseFacts>): Option<ReleaseFacts> {
    match c
    case Publish(ledger, release, now) => if release == r then Some(ReleaseFacts(ledger, Published, Some(now), None)) else f
    case Revoke(release, _, now) =>
      if release == r && f.Some? then Some(f.value.(status := Revoked, revoked := Some(now))) else f
    case _ => f
  }

  ghost function ReleaseStory(cfg: Config, cs: seq<Command>, r: Id): Option<ReleaseFacts> {
    if cs == [] then None
    else
      var n := |cs| - 1;
      var before := ReleaseStory(cfg, cs[..n], r);
      if CommitsAt(cfg, cs, n) && cs[n].OnLedger? then ReleaseTold(cs[n].ledger, r, before) else before
  }

  lemma OtherReleases(releases: map<Id, Release>, x: Id, row: Release, r: Id)
    requires r != x
    ensures ReleaseFactsOf(releases[x := row], r) == ReleaseFactsOf(releases, r)
  {
  }

  lemma ReleaseCallTells(t: Tables, c: LedgerCall, r: Id)
    requires LedgerStep(t, c).Ok?
    ensures ReleaseFactsOf(LedgerStep(t, c).value.releases, r) == ReleaseTold(c, r, ReleaseFactsOf(t.releases, r))
  {
    hide LedgerStep, ReleaseFactsOf;
    var u := LedgerStep(t, c).value;
    match c
    case CreateDraft(_, _, _) => DraftStores(t, c);
    case AddWorkloads(_, _, _, _) => AddStores(t, c);
    case Freeze(_, _) => DraftStores(t, c);
    case ReviewLedger(_, _, _, _, _) => ReviewStores(t, c);
    case Publish(_, release, _) =>
      PublishStores(t, c);
      if r != release { OtherReleases(t.releases, release, u.releases[release], r); }
    case Revoke(release, _, _) =>
      RevokeStores(t, c);
      if r != release { OtherReleases(t.releases, release, u.releases[release], r); }
  }

  lemma ReleaseStepTells(cfg: Config, t: Tables, c: Command, r: Id)
    ensures ReleaseFactsOf(After(cfg, t, c).releases, r) ==
      if Commits(cfg, t, c) && c.OnLedger? then ReleaseTold(c.ledger, r, ReleaseFactsOf(t.releases, r)) else ReleaseFactsOf(t.releases, r)
  {
    hide Exec, LedgerStep, ReleaseFactsOf, ReleaseTold;
    F.ExecGroups(cfg, t, c);
    if !c.OnLedger? {
      F.Unchanged(cfg, t, c);
    } else if Commits(cfg, t, c) {
      ReleaseCallTells(t, c.ledger, r);
    }
  }

  /** After any run from the empty database a release is what its publication and its revocation tell. */
  lemma {:induction false} ReleasesAreHistory(cfg: Config, cs: seq<Command>, r: Id)
    ensures ReleaseFactsOf(Run(cfg, EMPTY, cs).releases, r) == ReleaseStory(cfg, cs, r)
  {
    hide After, Commits, ReleaseFactsOf, ReleaseTold;
    if cs == [] {
      NothingTold(r);
    } else {
      var n := |cs| - 1;
      ReleasesAreHistory(cfg, cs[..n], r);
      ReleaseStepTells(cfg, Run(cfg, EMPTY, cs[..n]), cs[n], r);
    }
  }

  // ---- Revocation ----

  /** A release is revoked exactly when it is published and none of its jobs is queued, running or retrying. */
  lemma RevokeCommitsIff(t: Tables, r: Id, reason: string, now: Instant)
    ensures G.RevokeStep(t, r, reason, now).Ok? <==>
      && !Blank(reason) && r in t.releases && t.releases[r].status.Published?
      && (forall j :: j in t.jobs && t.jobs[j].release == r ==>
            !(t.jobs[j].status.Queued? || t.jobs[j].status.Running? || t.jobs[j].status.Retrying?))
  {
    hide Blank;
    assert forall j :: j in G.ActiveJobs(t.jobs, r) <==> j in t.jobs && t.jobs[j].release == r && t.jobs[j].status.Active();
  }

  lemma RevokedKept(cfg: Config, t: Tables, c: Command, r: Id)
    requires r in t.releases && t.releases[r].status.Revoked?
    ensures r in After(cfg, t, c).releases && ReleaseFactsOf(After(cfg, t, c).releases, r) == ReleaseFactsOf(t.releases, r)
  {
    hide Exec, LedgerStep;
    ReleaseStepTells(cfg, t, c, r);
    F.ExecGroups(cfg, t, c);
    if Commits(cfg, t, c) && c.OnLedger? { RevokedNotAgain(t, c.ledger, r); }
  }

  lemma RevokedNotAgain(t: Tables, c: LedgerCall, r: Id)
    requires r in t.releases && t.releases[r].status.Revoked? && LedgerStep(t, c).Ok?
    ensures (c.Publish? || c.Revoke?) ==> c.release != r
  {
    hide G.ListMembers, G.DigestOf, G.MembersOf, G.ReleaseRows, G.ActiveJobs, Blank;
    match c
    case Publish(_, _, _) =>
    case Revoke(_, _, _) =>
    case _ =>
  }

  lemma {:induction false} RevokedStays(cfg: Config, t: Tables, cs: seq<Command>, r: Id)
    requires r in t.releases && t.releases[r].status.Revoked?
    ensures var u := Run(cfg, t, cs);
      r in u.releases && ReleaseFactsOf(u.releases, r) == ReleaseFactsOf(t.releases, r)
  {
    hide After;
    if cs != [] {
      var n := |cs| - 1;
      RevokedStays(cfg, t, cs[..n], r);
      RevokedKept(cfg, Run(cfg, t, cs[..n]), cs[n], r);
    }
  }

  /**
   * Once a revocation has committed, and over any further run, the release is revoked at that call's reading, no
   * job is ever enqueued for it again, none of its jobs is active, and it is not revoked a second time.
   */
  lemma RevocationIsFinal(cfg: Config, t: Tables, r: Id, reason: string, now: Instant, cs: seq<Command>)
    requires Reachable(cfg, t) && G.RevokeStep(t, r, reason, now).Ok?
    ensures r in t.releases
    ensures var u := Run(cfg, G.RevokeStep(t, r, reason, now).value, cs);
      && ReleaseFactsOf(u.releases, r) == Some(ReleaseFacts(t.releases[r].ledger, Revoked, t.releases[r].published, Some(now)))
      && G.ActiveJobs(u.jobs, r) == {}
      && (forall id, max, at :: J.JobStep(cfg.jobs.OnText(), u, J.JobOp.Enqueue(id, r, max, at)).Err?)
      && (forall again, at :: G.RevokeStep(u, r, again, at).Err?)
  {
    hide Inv, Reachable, Run, Blank, G.ActiveJobs, J.JobStep;
    var v := G.RevokeStep(t, r, reason, now).value;
    RevokedStays(cfg, v, cs, r);
    RevokedIdle(cfg, t, r, reason, now, cs);
    NoJobsForRevoked(cfg, Run(cfg, v, cs), r);
  }

  lemma RevokedIdle(cfg: Config, t: Tables, r: Id, reason: string, now: Instant, cs: seq<Command>)
    requires Reachable(cfg, t) && G.RevokeStep(t, r, reason, now).Ok?
    ensures G.ActiveJobs(Run(cfg, G.RevokeStep(t, r, reason, now).value, cs).jobs, r) == {}
  {
    hide Inv, Reachable, Run, Blank, JobsOk;
    var v := G.RevokeStep(t, r, reason, now).value;
    assert v.releases[r].status.Revoked?;
    Reachability.ReachableInv(cfg, t);
    GI.RevokeKeeps(t, r, reason, now);
    Reachability.RunInv(cfg, v, cs);
    RevokedStays(cfg, v, cs, r);
    var u := Run(cfg, v, cs);
    GI.InvJobs(u);
    IdleWhenRevoked(u, r);
  }

  lemma IdleWhenRevoked(t: Tables, r: Id)
    requires JobsOk(t.releases, t.jobs) && r in t.releases && t.releases[r].status.Revoked?
    ensures G.ActiveJobs(t.jobs, r) == {}
  {
  }

  lemma NoJobsForRevoked(cfg: Config, t: Tables, r: Id)
    requires r in t.releases && t.releases[r].status.Revoked?
    ensures forall id, max, at :: J.JobStep(cfg.jobs.OnText(), t, J.JobOp.Enqueue(id, r, max, at)).Err?
  {
  }

  // ---- Which calls commit ----

  lemma CreateCommitsIff(t: Tables, name: string, id: Id, now: Instant)
    requires forall d :: d in t.drafts ==> t.drafts[d].revision == 1
    ensures G.CreateDraftStep(t, name, id, now).Ok? <==>
      && !Blank(name) && |Trim(name)| <= 160 && id !in t.drafts && (forall d :: d in t.drafts ==> t.drafts[d].name != Trim(name))
  {
    hide Trim;
  }

  /** The only review of a ledger: it is frozen, was not reviewed before, and a rejection gives a reason. */
  lemma ReviewCommitsIff(t: Tables, reviewer: Id, ledger: Id, approve: bool, reason: string, now: Instant)
    ensures var r := G.ReviewStep(t, reviewer, ledger, approve, reason, now);
      && (r.Ok? <==> ledger in t.drafts && t.drafts[ledger].status.Frozen? && (ledger, 1) !in t.reviews && (approve || !Blank(reason)))
      && (r.Ok? ==> r.value.reviews == t.reviews[(ledger, 1) := Domain.Review(reviewer, approve, reason, now)])
  {
    hide Blank;
  }

  /** Freezing commits exactly for a draft with members all of which are eligible. */
  lemma FreezeCommitsIff(cfg: Config, t: Tables, ledger: Id, now: Instant)
    requires Reachable(cfg, t)
    ensures G.FreezeStep(t, ledger, now).Ok? <==>
      ledger in t.drafts && t.drafts[ledger].status.Draft? && exists w :: IsMember(t.members, ledger, w)
  {
    hide Reachable, Inv, G.DigestOf, G.ListMembers, G.AllEligible, G.MembersOf, G.Workloads, IsMember;
    if ledger in t.drafts {
      Reachability.ReachableInv(cfg, t);
      GI.InvDraft(t, ledger);
      MembersOfIsMember(t.members, ledger);
      LedgerStability.MembersEligible(t);
      ListedEligible(t, ledger);
    }
  }

  lemma MembersOfIsMember(members: map<Id, Member>, ledger: Id)
    ensures (exists w :: IsMember(members, ledger, w)) <==> G.MembersOf(members, ledger) != {}
  {
    if G.MembersOf(members, ledger) != {} {
      var m :| m in G.MembersOf(members, ledger);
      assert IsMember(members, ledger, members[m].workload);
    }
    if w :| IsMember(members, ledger, w) {
      var m :| m in members && members[m].ledger == ledger && members[m].workload == w;
      assert m in G.MembersOf(members, ledger);
    }
  }

  lemma ListedEligible(t: Tables, ledger: Id)
    requires forall m :: m in t.members ==> EligibleNow(t.workloads, t.batches, t.members[m].workload)
    ensures G.AllEligible(t, G.Workloads(t.members, G.ListMembers(t.members, ledger))).Ok?
  {
    hide EligibleNow, G.ListMembers, G.AllEligible;
    var ids := G.ListMembers(t.members, ledger);
    assert forall k :: 0 <= k < |ids| ==> ids[k] in ids;
    AllOk(t, G.Workloads(t.members, ids));
  }

  lemma {:induction false} AllOk(t: Tables, workloads: seq<Id>)
    requires forall k :: 0 <= k < |workloads| ==> EligibleNow(t.workloads, t.batches, workloads[k])
    ensures G.AllEligible(t, workloads).Ok?
  {
    if workloads != [] {
      AllOk(t, workloads[1..]);
      assert EligibleNow(t.workloads, t.batches, workloads[0]);
    }
  }

  /** The ids drawn from position `k` on are new and different. */
  ghost predicate FreshIds<R>(rows: map<Id, R>, ids: nat -> Id, k: nat, n: nat) {
    && (forall i :: k <= i < n ==> ids(i) !in rows)
    && (forall i, j :: k <= i < j < n ==> ids(i) != ids(j))
  }

  lemma {:induction false} AddFromIff(
    members: map<Id, Member>, ledger: Id, revision: nat, workloads: seq<Id>, ids: nat -> Id, k: nat, now: Instant)
    requires k <= |workloads| && forall i, j :: 0 <= i < j < |workloads| ==> workloads[i] != workloads[j]
    ensures G.AddFrom(members, ledger, revision, workloads, ids, k, now).Ok? <==>
      FreshIds(members, ids, k, |workloads|) && forall i :: k <= i < |workloads| ==> !IsMember(members, ledger, workloads[i])
    decreases |workloads| - k
  {
    if k < |workloads| {
      assert (exists m :: m in G.MembersOf(members, ledger) && members[m].workload == workloads[k]) <==> IsMember(members, ledger, workloads[k]);
      if ids(k) !in members {
        var x := Member(ledger, workloads[k], revision, now);
        AddFromIff(members[ids(k) := x], ledger, revision, workloads, ids, k + 1, now);
        forall i | k < i < |workloads|
          ensures IsMember(members[ids(k) := x], ledger, workloads[i]) <==> IsMember(members, ledger, workloads[i])
        {
          OneMore(members, ids(k), x, ledger, workloads[i]);
        }
        hide IsMember, G.MembersOf;
      }
    }
  }

  lemma {:induction false} AllEligibleIff(t: Tables, workloads: seq<Id>)
    ensures G.AllEligible(t, workloads).Ok? <==> forall k :: 0 <= k < |workloads| ==> EligibleNow(t.workloads, t.batches, workloads[k])
  {
    if workloads != [] {
      AllEligibleIff(t, workloads[1..]);
      OneEligibleIff(t, workloads[0]);
      hide G.Eligible, EligibleNow;
      assert workloads == [workloads[0]] + workloads[1..];
    }
  }

  lemma OneEligibleIff(t: Tables, w: Id)
    ensures G.Eligible(t, w).Ok? <==> EligibleNow(t.workloads, t.batches, w)
  {
    hide Blank;
  }

  /** Adding commits exactly for a draft and up to 250 different eligible workloads that it does not have yet. */
  lemma AddCommitsIff(t: Tables, ledger: Id, workloads: seq<Id>, ids: nat -> Id, now: Instant)
    ensures G.AddStep(t, ledger, workloads, ids, now).Ok? <==>
      && ledger != "" && 1 <= |workloads| <= 250 && (forall k :: 0 <= k < |workloads| ==> workloads[k] != "")
      && (forall i, j :: 0 <= i < j < |workloads| ==> workloads[i] != workloads[j])
      && ledger in t.drafts && t.drafts[ledger].status.Draft?
      && (forall k :: 0 <= k < |workloads| ==> EligibleNow(t.workloads, t.batches, workloads[k]))
      && (forall k :: 0 <= k < |workloads| ==> !IsMember(t.members, ledger, workloads[k]))
      && FreshIds(t.members, ids, 0, |workloads|)
  {
    hide G.AllEligible, G.AddFrom, G.MembersOf, EligibleNow, IsMember, FreshIds;
    AllEligibleIff(t, workloads);
    if G.ValidRequest(ledger, workloads) && ledger in t.drafts {
      AddFromIff(t.members, ledger, t.drafts[ledger].revision, workloads, ids, 0, now);
    }
  }
}
