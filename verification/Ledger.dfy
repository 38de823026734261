/** Ledger drafts and releases: membership, freezing, review, publication and revocation. */
module Ledger {
  import opened Basics
  import opened Domain
  import opened Listing
  import opened Sorting
  import Text
  import Fingerprints

  // ---- Membership ----

  function MembersOf(members: map<Id, Member>, ledger: Id): set<Id> {
    set m | m in members && members[m].ledger == ledger
  }

  /** One row of `credit_plan_items` as the digest sees it. */
  datatype MemberRow = MemberRow(id: Id, workload: Id, revision: nat)

  /** By workload, then id. */
  predicate RowBefore(a: MemberRow, b: MemberRow) {
    Text.Less(a.workload, b.workload) || (a.workload == b.workload && Text.Less(a.id, b.id))
  }

  lemma RowOrder()
    ensures WeakOrder(RowBefore)
  {
    forall a, b
      ensures !(RowBefore(a, b) && RowBefore(b, a))
    {
      if RowBefore(a, b) && RowBefore(b, a) {
        if Text.Less(a.workload, b.workload) && Text.Less(b.workload, a.workload) { Text.LessTransitive(a.workload, b.workload, a.workload); }
        Text.LessIrreflexive(a.workload);
        if Text.Less(a.id, b.id) && Text.Less(b.id, a.id) { Text.LessTransitive(a.id, b.id, a.id); }
        Text.LessIrreflexive(a.id);
      }
    }
    forall a, b, c | RowBefore(a, c)
      ensures RowBefore(a, b) || RowBefore(b, c)
    {
      Text.LessTotal(a.workload, b.workload);
      Text.LessTotal(a.id, b.id);
      if Text.Less(b.workload, a.workload) && Text.Less(a.workload, c.workload) { Text.LessTransitive(b.workload, a.workload, c.workload); }
      if Text.Less(b.id, a.id) && Text.Less(a.id, c.id) { Text.LessTransitive(b.id, a.id, c.id); }
    }
  }

  function MemberBefore(members: map<Id, Member>): (Id, Id) -> bool {
    (a: Id, b: Id) => a in members && b in members && RowBefore(RowOf(members, a), RowOf(members, b))
  }

  function RowOf(members: map<Id, Member>, id: Id): MemberRow
    requires id in members
  {
    MemberRow(id, members[id].workload, members[id].revision)
  }

  lemma MemberBeforeOrders(members: map<Id, Member>, s: set<Id>)
    requires s <= members.Keys
    ensures Orders(MemberBefore(members), s)
  {
    RowOrder();
    forall a, b | a in s && b in s && a != b
      ensures RowBefore(RowOf(members, a), RowOf(members, b)) || RowBefore(RowOf(members, b), RowOf(members, a))
    {
      Text.LessTotal(members[a].workload, members[b].workload);
      Text.LessTotal(a, b);
    }
  }

  /** `ListItems`: by workload, then id. */
  function ListMembers(members: map<Id, Member>, ledger: Id): (r: seq<Id>)
    ensures |r| == |MembersOf(members, ledger)|
    ensures forall x :: x in r <==> x in MembersOf(members, ledger)
    ensures forall i, j :: 0 <= i < j < |r| ==>
      r[i] in members && r[j] in members && RowBefore(RowOf(members, r[i]), RowOf(members, r[j]))
  {
    MemberBeforeOrders(members, MembersOf(members, ledger));
    Ascending(MemberBefore(members), MembersOf(members, ledger))
  }

  function RowsOf(members: map<Id, Member>, ids: seq<Id>): (r: seq<MemberRow>)
    requires forall x :: x in ids ==> x in members
    ensures |r| == |ids| && forall k :: 0 <= k < |r| ==> r[k] == RowOf(members, ids[k])
  {
    seq(|ids|, k requires 0 <= k < |ids| => RowOf(members, ids[k]))
  }

  /** One line per entry, in the given order. */
  function Lines(entries: seq<MemberRow>): string {
    if entries == [] then ""
    else Fingerprints.MemberLine(entries[0].id, entries[0].workload, entries[0].revision) + Lines(entries[1..])
  }

  lemma LinesNext(entries: seq<MemberRow>, k: nat, before: string)
    requires k <= |entries|
    ensures before + Lines(entries[k..]) ==
      if k == |entries| then before
      else (before + Fingerprints.MemberLine(entries[k].id, entries[k].workload, entries[k].revision)) + Lines(entries[k + 1..])
  {
    hide Fingerprints.MemberLine;
    if k < |entries| { assert entries[k..][1..] == entries[k + 1..]; }
  }

  /** The digest of a ledger as recomputed from its members; the column holds the bytes given to SHA-256. */
  function DigestOf(members: map<Id, Member>, ledger: Id): string {
    Lines(RowsOf(members, ListMembers(members, ledger)))
  }

  /** `membershipDigest`: sorts a copy and writes the lines in that order. */
  method MembershipDigest(entries: seq<MemberRow>) returns (digest: string)
    ensures forall s :: multiset(s) == multiset(entries) && StrictlyAscends(RowBefore, s) ==> digest == Lines(s)
  {
    hide Lines, WeakOrder, Ascends, StrictlyAscends, RowBefore, Fingerprints.MemberLine;
    RowOrder();
    var ordered := SortSlice(RowBefore, entries);
    digest := "";
    assert ordered[0..] == ordered && digest + Lines(ordered) == Lines(ordered);
    for k := 0 to |ordered|
      invariant digest + Lines(ordered[k..]) == Lines(ordered)
    {
      var e := ordered[k];
      LinesNext(ordered, k, digest);
      digest := digest + Fingerprints.MemberLine(e.id, e.workload, e.revision);
    }
    LinesNext(ordered, |ordered|, digest);
    forall s: seq<MemberRow> | multiset(s) == multiset(entries) && StrictlyAscends(RowBefore, s)
      ensures digest == Lines(s)
    {
      SortedUnique(RowBefore, ordered, s);
    }
  }

  // ---- Specification of the calls ----

  function Eligible(t: Tables, workload: Id): Result<()> {
    if workload !in t.workloads then Err(NotFound)
    else if !t.workloads[workload].status.Settled? || Blank(t.workloads[workload].reservation) then Err(Precondition)
    else if !(exists b :: b in t.batches && t.batches[b].workload == workload && t.batches[b].status.Accepted?) then Err(Precondition)
    else Ok(())
  }

  /** The first refusal among the listed workloads. */
  function AllEligible(t: Tables, workloads: seq<Id>): Result<()> {
    if workloads == [] then Ok(())
    else
      var _ :- Eligible(t, workloads[0]);
      AllEligible(t, workloads[1..])
  }

  function CreateDraftStep(t: Tables, name: string, id: Id, now: Instant): Result<Tables> {
    if Blank(name) || |Trim(name)| > 160 then Err(Validation)
    else if id in t.drafts || exists d :: d in t.drafts && t.drafts[d].name == Trim(name) && t.drafts[d].revision == 1 then Err(Storage)
    else Ok(t.(drafts := t.drafts[id := LedgerDraft(Trim(name), Draft, 1, "", 0, None, now, now, 1)]))
  }

  /** The rows that an addition inserts. */
  function NewMembers(ledger: Id, revision: nat, workloads: seq<Id>, ids: nat -> Id, now: Instant): seq<(Id, Member)> {
    seq(|workloads|, k requires 0 <= k < |workloads| => (ids(k), Member(ledger, workloads[k], revision, now)))
  }

  /** All the rows are in the table. */
  predicate Holds(members: map<Id, Member>, rows: seq<(Id, Member)>) {
    forall k :: 0 <= k < |rows| ==> rows[k].0 in members && members[rows[k].0] == rows[k].1
  }

  /** Inserts the members from position `k` on, under the primary key and the key (ledger, workload). */
  function AddFrom(members: map<Id, Member>, ledger: Id, revision: nat, workloads: seq<Id>, ids: nat -> Id, k: nat, now: Instant)
    : Result<map<Id, Member>>
    requires k <= |workloads|
    decreases |workloads| - k
  {
    if k == |workloads| then Ok(members)
    else if ids(k) in members || exists m :: m in MembersOf(members, ledger) && members[m].workload == workloads[k] then Err(Storage)
    else AddFrom(members[ids(k) := Member(ledger, workloads[k], revision, now)], ledger, revision, workloads, ids, k + 1, now)
  }

  predicate ValidRequest(ledger: Id, workloads: seq<Id>) {
    && ledger != "" && 1 <= |workloads| <= 250
    && (forall k :: 0 <= k < |workloads| ==> workloads[k] != "")
    && (forall k, l :: 0 <= k < l < |workloads| ==> workloads[k] != workloads[l])
  }

  function AddStep(t: Tables, ledger: Id, workloads: seq<Id>, ids: nat -> Id, now: Instant): Result<Tables> {
    if !ValidRequest(ledger, workloads) then Err(Validation)
    else if ledger !in t.drafts then Err(NotFound)
    else if !t.drafts[ledger].status.Draft? then Err(Precondition)
    else
      var d := t.drafts[ledger];
      var _ :- AllEligible(t, workloads);
      var members :- AddFrom(t.members, ledger, d.revision, workloads, ids, 0, now);
      Ok(t.(members := members,
            drafts := t.drafts[ledger := d.(count := |MembersOf(members, ledger)|, updated := now, version := d.version + 1)]))
  }

  /** `Transition`: an empty digest keeps the stored one, and only freezing sets the freezing time. */
  function Turned(d: LedgerDraft, to: LedgerStatus, digest: string, now: Instant): LedgerDraft {
    d.(status := to, digest := if digest == "" then d.digest else digest,
       frozen := if to.Frozen? then Some(now) else d.frozen, updated := now, version := d.version + 1)
  }

  function FreezeStep(t: Tables, ledger: Id, now: Instant): Result<Tables> {
    if ledger !in t.drafts then Err(NotFound) else
    var d := t.drafts[ledger];
    var members := ListMembers(t.members, ledger);
    if !d.status.May(Frozen) || |members| == 0 || |members| != d.count then Err(Precondition)
    else
      var _ :- AllEligible(t, Workloads(t.members, members));
      Ok(t.(drafts := t.drafts[ledger := Turned(d, Frozen, DigestOf(t.members, ledger), now)]))
  }

  function Workloads(members: map<Id, Member>, ids: seq<Id>): (r: seq<Id>)
    requires forall x :: x in ids ==> x in members
    ensures |r| == |ids| && forall k :: 0 <= k < |r| ==> r[k] == members[ids[k]].workload
  {
    seq(|ids|, k requires 0 <= k < |ids| => members[ids[k]].workload)
  }

  /** The review row always has version one, so the key (object, version) admits one review per ledger. */
  function ReviewStep(t: Tables, reviewer: Id, ledger: Id, approve: bool, reason: string, now: Instant): Result<Tables> {
    if !approve && Blank(reason) then Err(Validation)
    else if ledger !in t.drafts then Err(NotFound)
    else if !t.drafts[ledger].status.Frozen? then Err(Precondition)
    else if (ledger, 1) in t.reviews then Err(Storage)
    else Ok(t.(reviews := t.reviews[(ledger, 1) := Domain.Review(reviewer, approve, reason, now)],
               drafts := t.drafts[ledger := Turned(t.drafts[ledger], if approve then Approved else Draft, "", now)]))
  }

  /** What the primary key and the key (ledger, revision) forbid. */
  predicate ReleaseCollides(releases: map<Id, Release>, release: Id, ledger: Id, revision: nat) {
    release in releases || exists r :: r in releases && releases[r].ledger == ledger && releases[r].revision == revision
  }

  function ReleaseRows(release: Id, members: set<Id>): set<(Id, Id)> { set m | m in members :: (release, m) }

  function PublishStep(t: Tables, ledger: Id, release: Id, now: Instant): Result<Tables> {
    if ledger !in t.drafts then Err(NotFound) else
    var d := t.drafts[ledger];
    var members := ListMembers(t.members, ledger);
    if !d.status.May(Published) then Err(Precondition)
    else if |members| != d.count || DigestOf(t.members, ledger) != d.digest then Err(Conflict)
    else if ReleaseCollides(t.releases, release, ledger, d.revision) then Err(Storage)
    else Ok(t.(
      releases := t.releases[release := Release(ledger, d.revision, d.digest, Published, Some(now), None, now, now, 1)],
      releaseItems := t.releaseItems + ReleaseRows(release, MembersOf(t.members, ledger)),
      drafts := t.drafts[ledger := Turned(d, Published, "", now)]))
  }

  function ActiveJobs(jobs: map<Id, Job>, release: Id): set<Id> {
    set j | j in jobs && jobs[j].release == release && jobs[j].status.Active()
  }

  function RevokeStep(t: Tables, release: Id, reason: string, now: Instant): Result<Tables> {
    if Blank(reason) then Err(Validation)
    else if release !in t.releases then Err(NotFound)
    else if !t.releases[release].status.May(Revoked) then Err(Precondition)
    else if ActiveJobs(t.jobs, release) != {} then Err(Precondition)
    else
      var r := t.releases[release];
      Ok(t.(releases := t.releases[release := r.(status := Revoked, revoked := Some(now), updated := now, version := r.version + 1)]))
  }

  // ---- The service ----

  lemma ListedRowsAscend(members: map<Id, Member>, ledger: Id)
    ensures StrictlyAscends(RowBefore, RowsOf(members, ListMembers(members, ledger)))
  {
  }

  class Service {
    const db: Database

    constructor (db: Database)
      ensures this.db == db
    {
      this.db := db;
    }

    method Create(name: string, id: Id, now: Instant) returns (r: Result<LedgerDraft>)
      modifies db
      ensures var spec := CreateDraftStep(old(db.tables), name, id, now);
        db.tables == Committed(old(db.tables), spec) && Answers(r, spec, (t: Tables) => t.drafts, id)
    {
      var trimmed := Trim(name);
      if trimmed == "" || |trimmed| > 160 { return Err(Validation); }
      var tx := db.tables;
      if id in tx.drafts { return Err(Storage); }
      if exists d :: d in tx.drafts && tx.drafts[d].name == trimmed && tx.drafts[d].revision == 1 { return Err(Storage); }
      var draft := LedgerDraft(trimmed, Draft, 1, "", 0, None, now, now, 1);
      db.tables := tx.(drafts := tx.drafts[id := draft]);
      r := Ok(draft);
    }

    static method CheckEligible(t: Tables, workloads: seq<Id>) returns (r: Result<()>)
      ensures r == AllEligible(t, workloads)
    {
      for k := 0 to |workloads|
        invariant AllEligible(t, workloads) == AllEligible(t, workloads[k..])
      {
        var one := Eligible(t, workloads[k]);
        if one.Err? { return one; }
        assert workloads[k..][1..] == workloads[k + 1..];
      }
      r := Ok(());
    }

    /** Inserts the members and returns their rows. */
    static method InsertMembers(members: map<Id, Member>, ledger: Id, revision: nat, workloads: seq<Id>, ids: nat -> Id, now: Instant)
      returns (r: Result<(map<Id, Member>, seq<(Id, Member)>)>)
      ensures match AddFrom(members, ledger, revision, workloads, ids, 0, now)
        case Ok(result) =>
          r.Ok? && r.value.0 == result && r.value.1 == NewMembers(ledger, revision, workloads, ids, now) && Holds(result, r.value.1)
        case Err(e) => r == Err(e)
    {
      var current, rows: seq<(Id, Member)> := members, [];
      for k := 0 to |workloads|
        invariant AddFrom(members, ledger, revision, workloads, ids, 0, now) == AddFrom(current, ledger, revision, workloads, ids, k, now)
        invariant rows == NewMembers(ledger, revision, workloads, ids, now)[..k] && Holds(current, rows)
      {
        if ids(k) in current { return Err(Storage); }
        if exists m :: m in MembersOf(current, ledger) && current[m].workload == workloads[k] { return Err(Storage); }
        current := current[ids(k) := Member(ledger, workloads[k], revision, now)];
        rows := rows + [(ids(k), Member(ledger, workloads[k], revision, now))];
      }
      r := Ok((current, rows));
    }

    /**
     * Returns the draft and the added members.  The source adds to the count it read instead of reading the
     * recounted row; `LedgerStability.AddReturnsStored` shows that the two agree.
     */
    method AddWorkloads(ledger: Id, workloads: seq<Id>, ids: nat -> Id, now: Instant)
      returns (r: Result<(LedgerDraft, seq<(Id, Member)>)>)
      modifies db
      ensures var t, spec := old(db.tables), AddStep(old(db.tables), ledger, workloads, ids, now);
        && db.tables == Committed(t, spec)
        && match r
           case Ok((draft, added)) =>
             && spec.Ok? && ledger in t.drafts && ledger in db.tables.drafts
             && draft == db.tables.drafts[ledger].(count := t.drafts[ledger].count + |workloads|)
             && added == NewMembers(ledger, draft.revision, workloads, ids, now) && Holds(db.tables.members, added)
           case Err(e) => spec == Err(e)
    {
      hide AddFrom, AllEligible, NewMembers, Holds, MembersOf;
      if !ValidRequest(ledger, workloads) { return Err(Validation); }
      var tx := db.tables;
      if ledger !in tx.drafts { return Err(NotFound); }
      var draft := tx.drafts[ledger];
      if draft.status != Draft { return Err(Precondition); }
      var checked := CheckEligible(tx, workloads);
      if checked.Err? { return Err(checked.error); }
      var members := InsertMembers(tx.members, ledger, draft.revision, workloads, ids, now);
      if members.Err? { return Err(members.error); }
      tx := tx.(members := members.value.0);
      var row := draft.(count := |MembersOf(tx.members, ledger)|, updated := now, version := draft.version + 1);
      var (drafts, changed) := UpdateRow(tx.drafts, ledger, draft.status == Draft, row);
      if changed != 1 { return Err(Conflict); }
      db.tables := tx.(drafts := drafts);
      r := Ok((draft.(count := draft.count + |workloads|, updated := now, version := draft.version + 1), members.value.1));
    }

    method Freeze(ledger: Id, now: Instant) returns (r: Result<LedgerDraft>)
      modifies db
      ensures var spec := FreezeStep(old(db.tables), ledger, now);
        db.tables == Committed(old(db.tables), spec) && Answers(r, spec, (t: Tables) => t.drafts, ledger)
    {
      var tx := db.tables;
      if ledger !in tx.drafts { return Err(NotFound); }
      var draft := tx.drafts[ledger];
      if !draft.status.May(Frozen) { return Err(Precondition); }
      var ids := ListMembers(tx.members, ledger);
      if |ids| == 0 || |ids| != draft.count { return Err(Precondition); }
      var checked := CheckEligible(tx, Workloads(tx.members, ids));
      if checked.Err? { return Err(checked.error); }
      ListedRowsAscend(tx.members, ledger);
      var digest := MembershipDigest(RowsOf(tx.members, ids));
      draft := Turned(draft, Frozen, digest, now);
      db.tables := tx.(drafts := tx.drafts[ledger := draft]);
      r := Ok(draft);
    }

    /** After a rejection the returned draft has no digest and no freezing time; the stored row keeps both. */
    method Review(reviewer: Id, ledger: Id, approve: bool, reason: string, now: Instant) returns (r: Result<LedgerDraft>)
      modifies db
      ensures var spec := ReviewStep(old(db.tables), reviewer, ledger, approve, reason, now);
        && db.tables == Committed(old(db.tables), spec)
        && match r
           case Ok(d) =>
             spec.Ok? && ledger in old(db.tables).drafts && ledger in db.tables.drafts
             && (approve ==> d == db.tables.drafts[ledger])
             && (!approve ==>
                   (d == db.tables.drafts[ledger].(digest := "", frozen := None)
                    && db.tables.drafts[ledger].digest == old(db.tables).drafts[ledger].digest
                    && db.tables.drafts[ledger].frozen == old(db.tables).drafts[ledger].frozen))
           case Err(e) => spec == Err(e)
    {
      if !approve && Trim(reason) == "" { return Err(Validation); }
      var tx := db.tables;
      if ledger !in tx.drafts { return Err(NotFound); }
      var draft := tx.drafts[ledger];
      if draft.status != Frozen { return Err(Precondition); }
      var to := Draft;
      if approve { to := Approved; }
      if (ledger, 1) in tx.reviews { return Err(Storage); }
      tx := tx.(reviews := tx.reviews[(ledger, 1) := Domain.Review(reviewer, approve, reason, now)]);
      tx := tx.(drafts := tx.drafts[ledger := Turned(draft, to, "", now)]);
      db.tables := tx;
      draft := draft.(status := to, updated := now, version := draft.version + 1);
      if !approve { draft := draft.(frozen := None, digest := ""); }
      r := Ok(draft);
    }

    static method InsertReleaseItems(existing: set<(Id, Id)>, release: Id, ids: seq<Id>) returns (items: set<(Id, Id)>)
      ensures items == existing + ReleaseRows(release, (set m | m in ids))
    {
      items := existing;
      for k := 0 to |ids|
        invariant items == existing + ReleaseRows(release, (set m | m in ids[..k]))
      {
        assert forall m :: m in ids[..k + 1] <==> m in ids[..k] || m == ids[k];
        items := items + {(release, ids[k])};
      }
      assert ids[..|ids|] == ids;
    }

    method Publish(ledger: Id, release: Id, now: Instant) returns (r: Result<Release>)
      modifies db
      ensures var spec := PublishStep(old(db.tables), ledger, release, now);
        db.tables == Committed(old(db.tables), spec) && Answers(r, spec, (t: Tables) => t.releases, release)
    {
      var tx := db.tables;
      if ledger !in tx.drafts { return Err(NotFound); }
      var draft := tx.drafts[ledger];
      if !draft.status.May(Published) { return Err(Precondition); }
      var ids := ListMembers(tx.members, ledger);
      ListedRowsAscend(tx.members, ledger);
      var digest := MembershipDigest(RowsOf(tx.members, ids));
      if |ids| != draft.count || digest != draft.digest { return Err(Conflict); }
      if ReleaseCollides(tx.releases, release, ledger, draft.revision) { return Err(Storage); }
      var row := Release(ledger, draft.revision, draft.digest, Published, Some(now), None, now, now, 1);
      tx := tx.(releases := tx.releases[release := row]);
      var items := InsertReleaseItems(tx.releaseItems, release, ids);
      assert (set m | m in ids) == MembersOf(tx.members, ledger);
      tx := tx.(releaseItems := items, drafts := tx.drafts[ledger := Turned(draft, Published, "", now)]);
      db.tables := tx;
      r := Ok(row);
    }

    method Revoke(release: Id, reason: string, now: Instant) returns (r: Result<Release>)
      modifies db
      ensures var spec := RevokeStep(old(db.tables), release, reason, now);
        db.tables == Committed(old(db.tables), spec) && Answers(r, spec, (t: Tables) => t.releases, release)
    {
      if Trim(reason) == "" { return Err(Validation); }
      var tx := db.tables;
      if release !in tx.releases { return Err(NotFound); }
      var row := tx.releases[release];
      if !row.status.May(Revoked) { return Err(Precondition); }
      if |ActiveJobs(tx.jobs, release)| != 0 { return Err(Precondition); }
      row := row.(status := Revoked, revoked := Some(now), updated := now, version := row.version + 1);
      db.tables := tx.(releases := tx.releases[release := row]);
      r := Ok(row);
    }
  }
}
