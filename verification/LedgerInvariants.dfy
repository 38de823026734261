/** The ledger, release and job calls keep the invariant of the pipeline. */
module LedgerInvariants {
  import opened Basics
  import opened Domain
  import opened System
  import opened Sorting
  import G = Ledger
  import J = Scheduler
  import JP = SchedulerProofs
  import L = Leases

  // ---- The digest depends only on the ledger's own members ----

  /** Both tables hold the same member rows of the ledger. */
  predicate SameMembers(a: map<Id, Member>, b: map<Id, Member>, ledger: Id) {
    && G.MembersOf(a, ledger) == G.MembersOf(b, ledger)
    && forall m :: m in G.MembersOf(a, ledger) ==> G.RowOf(a, m) == G.RowOf(b, m)
  }

  lemma RowListed(members: map<Id, Member>, ledger: Id, r: G.MemberRow)
    ensures r in G.RowsOf(members, G.ListMembers(members, ledger))
      <==> r.id in G.MembersOf(members, ledger) && r == G.RowOf(members, r.id)
  {
    hide G.ListMembers;
    var ids := G.ListMembers(members, ledger);
    var rows := G.RowsOf(members, ids);
    if r.id in G.MembersOf(members, ledger) && r == G.RowOf(members, r.id) {
      assert r.id in ids;
      var k :| 0 <= k < |ids| && ids[k] == r.id;
      assert rows[k] == r;
    }
    if r in rows {
      var k :| 0 <= k < |rows| && rows[k] == r;
      assert ids[k] in ids;
    }
  }

  lemma DigestStable(a: map<Id, Member>, b: map<Id, Member>, ledger: Id)
    requires SameMembers(a, b, ledger)
    ensures G.DigestOf(a, ledger) == G.DigestOf(b, ledger)
  {
    hide G.ListMembers, G.RowBefore;
    var x, y := G.RowsOf(a, G.ListMembers(a, ledger)), G.RowsOf(b, G.ListMembers(b, ledger));
    forall r: G.MemberRow
      ensures r in x <==> r in y
    {
      RowListed(a, ledger, r);
      RowListed(b, ledger, r);
    }
    G.ListedRowsAscend(a, ledger);
    G.ListedRowsAscend(b, ledger);
    G.RowOrder();
    SameElementsSameOrder(G.RowBefore, x, y);
  }

  lemma DigestNotEmpty(members: map<Id, Member>, ledger: Id)
    requires G.MembersOf(members, ledger) != {}
    ensures G.DigestOf(members, ledger) != ""
  {
    hide G.ListMembers;
    var rows := G.RowsOf(members, G.ListMembers(members, ledger));
    assert |rows| > 0;
    assert G.Lines(rows) != "";
  }

  lemma DraftStable(a: map<Id, Member>, b: map<Id, Member>, ledger: Id, d: LedgerDraft)
    requires SameMembers(a, b, ledger) && DraftOk(a, ledger, d)
    ensures DraftOk(b, ledger, d)
  {
    DigestStable(a, b, ledger);
    hide G.DigestOf;
  }

  // ---- Drafts ----

  /** One draft row, whose digest and count are right, may change unless it is published. */
  lemma DraftChange(t: Tables, ledger: Id, d: LedgerDraft)
    requires Inv(t) && DraftOk(t.members, ledger, d)
    requires ledger in t.drafts ==> !t.drafts[ledger].status.Published?
    requires d.status.Approved? ==> (ledger, 1) in t.reviews && t.reviews[(ledger, 1)].approved
    requires !d.status.Published?
    ensures Inv(t.(drafts := t.drafts[ledger := d]))
  {
    DraftRow(t, ledger, d);
    hide *;
    InvParts(t);
    InvParts(t.(drafts := t.drafts[ledger := d]));
  }

  lemma DraftRow(t: Tables, ledger: Id, d: LedgerDraft)
    requires Inv(t) && DraftOk(t.members, ledger, d) && !d.status.Published?
    requires ledger in t.drafts ==> !t.drafts[ledger].status.Published?
    requires d.status.Approved? ==> (ledger, 1) in t.reviews && t.reviews[(ledger, 1)].approved
    ensures var drafts := t.drafts[ledger := d];
      && MembersOk(t.workloads, t.batches, drafts, t.members) && DraftsOk(drafts, t.members)
      && ReleasesOk(drafts, t.members, t.releases, t.releaseItems) && ReviewsOk(drafts, t.reviews)
  {
    InvParts(t);
    hide Inv, DraftOk, EligibleNow, SegmentsOk, StreamsOk, SubmittedOk, BatchesOk, ItemsOk, CompleteOk, JobsOk, LeasesOk, G.MembersOf;
  }

  lemma CreateKeeps(t: Tables, name: string, id: Id, now: Instant)
    requires Inv(t)
    ensures Inv(Committed(t, G.CreateDraftStep(t, name, id, now)))
  {
    var r := G.CreateDraftStep(t, name, id, now);
    if r.Ok? {
      NoMembersYet(t, id);
      hide Inv, Trim, Blank;
      DraftChange(t, id, r.value.drafts[id]);
    }
  }

  lemma NoMembersYet(t: Tables, id: Id)
    requires Inv(t) && id !in t.drafts
    ensures G.MembersOf(t.members, id) == {}
  {
    InvParts(t);
    hide Inv, EligibleNow;
  }

  lemma InvDraft(t: Tables, ledger: Id)
    requires Inv(t) && ledger in t.drafts
    ensures DraftOk(t.members, ledger, t.drafts[ledger])
  {
    InvParts(t);
    hide Inv, DraftOk;
  }

  lemma FreezeKeeps(t: Tables, ledger: Id, now: Instant)
    requires Inv(t)
    ensures Inv(Committed(t, G.FreezeStep(t, ledger, now)))
  {
    hide Inv, G.ListMembers, G.DigestOf, G.AllEligible, G.Workloads;
    var r := G.FreezeStep(t, ledger, now);
    if r.Ok? {
      InvDraft(t, ledger);
      DigestNotEmpty(t.members, ledger);
      DraftChange(t, ledger, r.value.drafts[ledger]);
    }
  }

  lemma ReviewKeeps(t: Tables, reviewer: Id, ledger: Id, approve: bool, reason: string, now: Instant)
    requires Inv(t)
    ensures Inv(Committed(t, G.ReviewStep(t, reviewer, ledger, approve, reason, now)))
  {
    hide Inv, Blank, G.DigestOf, G.MembersOf, ReviewsOk;
    var r := G.ReviewStep(t, reviewer, ledger, approve, reason, now);
    if r.Ok? {
      InvDraft(t, ledger);
      NewReview(t, ledger, r.value.reviews[(ledger, 1)]);
      var u := t.(reviews := r.value.reviews);
      DraftChange(u, ledger, r.value.drafts[ledger]);
    }
  }

  lemma NewReview(t: Tables, ledger: Id, review: Review)
    requires Inv(t) && (ledger, 1) !in t.reviews
    ensures Inv(t.(reviews := t.reviews[(ledger, 1) := review]))
  {
    var reviews := t.reviews[(ledger, 1) := review];
    ReviewAdded(t.drafts, t.reviews, ledger, review);
    hide *;
    InvParts(t);
    InvParts(t.(reviews := reviews));
  }

  lemma ReviewAdded(drafts: map<Id, LedgerDraft>, reviews: map<(Id, int), Review>, ledger: Id, review: Review)
    requires ReviewsOk(drafts, reviews) && (ledger, 1) !in reviews
    ensures ReviewsOk(drafts, reviews[(ledger, 1) := review])
  {
  }

  // ---- Adding members ----

  lemma {:induction false} AllEligibleNow(t: Tables, workloads: seq<Id>)
    requires G.AllEligible(t, workloads).Ok?
    ensures forall k :: 0 <= k < |workloads| ==> EligibleNow(t.workloads, t.batches, workloads[k])
  {
    if workloads != [] {
      AllEligibleNow(t, workloads[1..]);
      assert EligibleNow(t.workloads, t.batches, workloads[0]);
      hide EligibleNow;
      assert workloads == [workloads[0]] + workloads[1..];
    }
  }

  /** The members after an addition: the old ones, and listed workloads in this ledger. */
  predicate Added(before: map<Id, Member>, after: map<Id, Member>, ledger: Id, workloads: seq<Id>) {
    && (forall m :: m in before ==> m in after && after[m] == before[m])
    && (forall m :: m in after && m !in before ==> after[m].ledger == ledger && after[m].workload in workloads)
  }

  predicate Unrepeated(members: map<Id, Member>) {
    forall a, b :: a in members && b in members && a != b && members[a].ledger == members[b].ledger ==>
      members[a].workload != members[b].workload
  }

  lemma {:induction false} AddFromOk(
    members: map<Id, Member>, ledger: Id, revision: nat, workloads: seq<Id>, ids: nat -> Id, k: nat, now: Instant)
    requires k <= |workloads| && Unrepeated(members)
    ensures match G.AddFrom(members, ledger, revision, workloads, ids, k, now)
      case Ok(r) => Added(members, r, ledger, workloads) && Unrepeated(r)
      case Err(_) => true
    decreases |workloads| - k
  {
    if k < |workloads| && G.AddFrom(members, ledger, revision, workloads, ids, k, now).Ok? {
      var next := members[ids(k) := Member(ledger, workloads[k], revision, now)];
      assert Unrepeated(next) by {
        assert forall m :: m in members && members[m].ledger == ledger ==> m in G.MembersOf(members, ledger);
      }
      hide Unrepeated;
      AddFromOk(next, ledger, revision, workloads, ids, k + 1, now);
    }
  }

  /** Every listed workload adds one member. */
  lemma {:induction false} AddFromCounts(
    members: map<Id, Member>, ledger: Id, revision: nat, workloads: seq<Id>, ids: nat -> Id, k: nat, now: Instant)
    requires k <= |workloads|
    ensures match G.AddFrom(members, ledger, revision, workloads, ids, k, now)
      case Ok(r) => |G.MembersOf(r, ledger)| == |G.MembersOf(members, ledger)| + |workloads| - k
      case Err(_) => true
    decreases |workloads| - k
  {
    if k < |workloads| && ids(k) !in members {
      var next := members[ids(k) := Member(ledger, workloads[k], revision, now)];
      assert G.MembersOf(next, ledger) == G.MembersOf(members, ledger) + {ids(k)};
      AddFromCounts(next, ledger, revision, workloads, ids, k + 1, now);
    }
  }

  lemma MembersAdded(t: Tables, members: map<Id, Member>, ledger: Id, workloads: seq<Id>)
    requires MembersOk(t.workloads, t.batches, t.drafts, t.members) && ledger in t.drafts
    requires Added(t.members, members, ledger, workloads) && Unrepeated(members)
    requires forall k :: 0 <= k < |workloads| ==> EligibleNow(t.workloads, t.batches, workloads[k])
    ensures MembersOk(t.workloads, t.batches, t.drafts, members)
  {
    hide EligibleNow;
  }

  lemma OtherMembersSame(before: map<Id, Member>, after: map<Id, Member>, ledger: Id, workloads: seq<Id>, other: Id)
    requires Added(before, after, ledger, workloads) && other != ledger
    ensures SameMembers(before, after, other)
  {
  }

  lemma DraftsAdded(t: Tables, members: map<Id, Member>, ledger: Id, workloads: seq<Id>, d: LedgerDraft)
    requires DraftsOk(t.drafts, t.members) && Added(t.members, members, ledger, workloads)
    requires DraftOk(members, ledger, d)
    ensures DraftsOk(t.drafts[ledger := d], members)
  {
    hide DraftOk, Added;
    forall o | o in t.drafts && o != ledger
      ensures DraftOk(members, o, t.drafts[o])
    {
      OtherMembersSame(t.members, members, ledger, workloads, o);
      DraftStable(t.members, members, o, t.drafts[o]);
    }
  }

  lemma ReleasesAdded(t: Tables, members: map<Id, Member>, ledger: Id, workloads: seq<Id>, d: LedgerDraft)
    requires ReleasesOk(t.drafts, t.members, t.releases, t.releaseItems)
    requires ledger in t.drafts && t.drafts[ledger].status.Draft? && Added(t.members, members, ledger, workloads)
    ensures ReleasesOk(t.drafts[ledger := d], members, t.releases, t.releaseItems)
  {
    hide Added, G.MembersOf;
    forall r | r in t.releases
      ensures t.releases[r].ledger != ledger
      ensures G.MembersOf(members, t.releases[r].ledger) == G.MembersOf(t.members, t.releases[r].ledger)
    {
      assert ReleaseOk(t.drafts, t.releases[r]);
      OtherMembersSame(t.members, members, ledger, workloads, t.releases[r].ledger);
    }
  }

  lemma KeysAdded(t: Tables, members: map<Id, Member>, ledger: Id, d: LedgerDraft)
    requires MembersOk(t.workloads, t.batches, t.drafts, members) && ReviewsOk(t.drafts, t.reviews)
    requires ledger in t.drafts && t.drafts[ledger].status.Draft? && d.status.Draft?
    ensures MembersOk(t.workloads, t.batches, t.drafts[ledger := d], members) && ReviewsOk(t.drafts[ledger := d], t.reviews)
  {
    hide EligibleNow;
  }

  /** What an addition that commits has checked and what it stores. */
  predicate Extended(t: Tables, ledger: Id, workloads: seq<Id>, ids: nat -> Id, now: Instant, u: Tables) {
    && ledger in t.drafts && t.drafts[ledger].status.Draft? && ledger in u.drafts
    && G.AllEligible(t, workloads).Ok?
    && G.AddFrom(t.members, ledger, t.drafts[ledger].revision, workloads, ids, 0, now) == Ok(u.members)
    && u == t.(members := u.members, drafts := t.drafts[ledger := u.drafts[ledger]])
    && u.drafts[ledger].status.Draft? && u.drafts[ledger].revision == t.drafts[ledger].revision
    && u.drafts[ledger].count == |G.MembersOf(u.members, ledger)|
  }

  lemma AddCommits(t: Tables, ledger: Id, workloads: seq<Id>, ids: nat -> Id, now: Instant)
    ensures var r := G.AddStep(t, ledger, workloads, ids, now);
      r.Ok? ==> Extended(t, ledger, workloads, ids, now, r.value)
  {
    hide G.AllEligible, G.AddFrom, G.ValidRequest;
  }

  lemma ExtendedKeeps(t: Tables, ledger: Id, workloads: seq<Id>, ids: nat -> Id, now: Instant, u: Tables)
    requires Inv(t) && Extended(t, ledger, workloads, ids, now, u)
    ensures Inv(u)
  {
    hide Inv, G.AllEligible, G.AddFrom, G.MembersOf, EligibleNow, Added, Unrepeated;
    InvDraft(t, ledger);
    var d, members := u.drafts[ledger], u.members;
    assert DraftOk(members, ledger, d);
    AllEligibleNow(t, workloads);
    MembersUnrepeated(t);
    AddFromOk(t.members, ledger, t.drafts[ledger].revision, workloads, ids, 0, now);
    AddedKeeps(t, members, ledger, workloads, d);
  }

  lemma MembersUnrepeated(t: Tables)
    requires Inv(t)
    ensures Unrepeated(t.members)
  {
    InvParts(t);
    hide Inv, EligibleNow;
  }

  lemma AddedKeeps(t: Tables, members: map<Id, Member>, ledger: Id, workloads: seq<Id>, d: LedgerDraft)
    requires Inv(t) && ledger in t.drafts && t.drafts[ledger].status.Draft? && d.status.Draft? && DraftOk(members, ledger, d)
    requires Added(t.members, members, ledger, workloads) && Unrepeated(members)
    requires forall k :: 0 <= k < |workloads| ==> EligibleNow(t.workloads, t.batches, workloads[k])
    ensures Inv(t.(members := members, drafts := t.drafts[ledger := d]))
  {
    hide *;
    InvParts(t);
    MembersAdded(t, members, ledger, workloads);
    DraftsAdded(t, members, ledger, workloads, d);
    ReleasesAdded(t, members, ledger, workloads, d);
    KeysAdded(t, members, ledger, d);
    InvParts(t.(members := members, drafts := t.drafts[ledger := d]));
  }

  lemma AddKeeps(t: Tables, ledger: Id, workloads: seq<Id>, ids: nat -> Id, now: Instant)
    requires Inv(t)
    ensures Inv(Committed(t, G.AddStep(t, ledger, workloads, ids, now)))
  {
    hide Inv, G.AddStep, Extended;
    var r := G.AddStep(t, ledger, workloads, ids, now);
    AddCommits(t, ledger, workloads, ids, now);
    if r.Ok? { ExtendedKeeps(t, ledger, workloads, ids, now, r.value); }
  }

  // ---- Releases ----

  lemma PublishedOk(t: Tables, ledger: Id, release: Id, d: LedgerDraft, row: Release, items: set<(Id, Id)>)
    requires ReleasesOk(t.drafts, t.members, t.releases, t.releaseItems)
    requires ledger in t.drafts && t.drafts[ledger].status.Approved? && release !in t.releases
    requires d.status.Published? && row.ledger == ledger && row.digest == d.digest && row.revision == 1 && row.status.Published?
    requires items == t.releaseItems + G.ReleaseRows(release, G.MembersOf(t.members, ledger))
    ensures ReleasesOk(t.drafts[ledger := d], t.members, t.releases[release := row], items)
  {
    hide G.MembersOf;
    var drafts, releases := t.drafts[ledger := d], t.releases[release := row];
    forall r | r in releases
      ensures ReleaseOk(drafts, releases[r])
    {
      assert r != release ==> ReleaseOk(t.drafts, t.releases[r]);
    }
  }

  lemma PublishedRest(t: Tables, ledger: Id, release: Id, d: LedgerDraft, row: Release)
    requires MembersOk(t.workloads, t.batches, t.drafts, t.members) && DraftsOk(t.drafts, t.members)
    requires ReviewsOk(t.drafts, t.reviews) && JobsOk(t.releases, t.jobs)
    requires ledger in t.drafts && t.drafts[ledger].status.Approved? && release !in t.releases && d.status.Published?
    requires DraftOk(t.members, ledger, d)
    ensures MembersOk(t.workloads, t.batches, t.drafts[ledger := d], t.members) && DraftsOk(t.drafts[ledger := d], t.members)
    ensures ReviewsOk(t.drafts[ledger := d], t.reviews) && JobsOk(t.releases[release := row], t.jobs)
  {
    hide EligibleNow, DraftOk;
  }

  lemma PublishKeeps(t: Tables, ledger: Id, release: Id, now: Instant)
    requires Inv(t)
    ensures Inv(Committed(t, G.PublishStep(t, ledger, release, now)))
  {
    hide Inv, G.ListMembers, G.DigestOf, G.MembersOf, G.ReleaseRows;
    var r := G.PublishStep(t, ledger, release, now);
    if r.Ok? {
      var u := r.value;
      InvDraft(t, ledger);
      assert DraftOk(t.members, ledger, u.drafts[ledger]);
      PublicationKeeps(t, ledger, release, u.drafts[ledger], u.releases[release], u.releaseItems);
    }
  }

  lemma PublicationKeeps(t: Tables, ledger: Id, release: Id, d: LedgerDraft, row: Release, items: set<(Id, Id)>)
    requires Inv(t) && ledger in t.drafts && t.drafts[ledger].status.Approved? && release !in t.releases
    requires d.status.Published? && row.ledger == ledger && row.digest == d.digest && row.revision == 1 && row.status.Published?
    requires DraftOk(t.members, ledger, d)
    requires items == t.releaseItems + G.ReleaseRows(release, G.MembersOf(t.members, ledger))
    ensures Inv(t.(drafts := t.drafts[ledger := d], releases := t.releases[release := row], releaseItems := items))
  {
    hide *;
    InvParts(t);
    PublishedOk(t, ledger, release, d, row, items);
    PublishedRest(t, ledger, release, d, row);
    InvParts(t.(drafts := t.drafts[ledger := d], releases := t.releases[release := row], releaseItems := items));
  }

  lemma RevokedOk(t: Tables, release: Id, row: Release)
    requires ReleasesOk(t.drafts, t.members, t.releases, t.releaseItems) && JobsOk(t.releases, t.jobs)
    requires release in t.releases && G.ActiveJobs(t.jobs, release) == {} && row.status.Revoked?
    requires row == t.releases[release].(status := Revoked, revoked := row.revoked, updated := row.updated, version := row.version)
    ensures ReleasesOk(t.drafts, t.members, t.releases[release := row], t.releaseItems)
    ensures JobsOk(t.releases[release := row], t.jobs)
  {
    hide G.MembersOf;
    assert forall j :: j in t.jobs && t.jobs[j].release == release && t.jobs[j].status.Active() ==> j in G.ActiveJobs(t.jobs, release);
    forall r | r in t.releases
      ensures ReleaseOk(t.drafts, t.releases[release := row][r])
    {
      assert ReleaseOk(t.drafts, t.releases[r]);
    }
  }

  lemma RevokeKeeps(t: Tables, release: Id, reason: string, now: Instant)
    requires Inv(t)
    ensures Inv(Committed(t, G.RevokeStep(t, release, reason, now)))
  {
    hide Inv, Blank;
    var r := G.RevokeStep(t, release, reason, now);
    if r.Ok? { RevocationKeeps(t, release, r.value.releases[release]); }
  }

  lemma RevocationKeeps(t: Tables, release: Id, row: Release)
    requires Inv(t) && release in t.releases && G.ActiveJobs(t.jobs, release) == {} && row.status.Revoked?
    requires row == t.releases[release].(status := Revoked, revoked := row.revoked, updated := row.updated, version := row.version)
    ensures Inv(t.(releases := t.releases[release := row]))
  {
    hide *;
    InvParts(t);
    RevokedOk(t, release, row);
    InvParts(t.(releases := t.releases[release := row]));
  }

  // ---- Jobs ----

  lemma JobsChange(t: Tables, rows: J.Rows)
    requires Inv(t) && JobsOk(t.releases, rows.jobs)
    ensures Inv(t.(jobs := rows.jobs, attempts := rows.attempts))
  {
    hide *;
    InvParts(t);
    InvParts(t.(jobs := rows.jobs, attempts := rows.attempts));
  }

  lemma JobCallKeeps(cfg: L.Config, t: Tables, op: J.JobOp)
    requires Inv(t)
    ensures Inv(Committed(t, J.JobStep(cfg, t, op)))
  {
    hide Inv, J.JobRows;
    var r := J.JobRows(cfg, t.releases, J.RowsIn(t), op);
    if r.Ok? {
      InvJobs(t);
      JobRowsOk(cfg, t.releases, J.RowsIn(t), op);
      hide JobsOk;
      JobsChange(t, r.value);
    }
  }

  lemma InvJobs(t: Tables)
    requires Inv(t)
    ensures JobsOk(t.releases, t.jobs)
  {
    hide *;
    InvParts(t);
  }

  lemma JobRowsOk(cfg: L.Config, releases: map<Id, Release>, rows: J.Rows, op: J.JobOp)
    requires JobsOk(releases, rows.jobs)
    ensures match J.JobRows(cfg, releases, rows, op)
      case Ok(u) => JobsOk(releases, u.jobs)
      case Err(_) => true
  {
    hide J.JobRows;
    JP.JobStepKeepsReleases(cfg, releases, rows, op);
  }
}
