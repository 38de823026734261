/** What every reachable state guarantees about releases, ledgers, alignment and reopening. */
module Settlement {
  import opened Basics
  import opened Domain
  import opened System
  import opened Frames
  import opened Reachability
  import W = Workloads
  import C = Capacity
  import M = Metering
  import G = Ledger
  import WI = WorkloadInvariants
  import GI = LedgerInvariants

  // ---- What a release contains ----

  /** The batch is accepted, and its items are complete and in bijection with the segments of the workload. */
  predicate Meters(t: Tables, batch: Id, w: Id) {
    var items, segments := M.ItemsOf(t.items, batch), SegmentsOfWorkload(t.streams, t.segments, w);
    && batch in t.batches && t.batches[batch].workload == w && t.batches[batch].status.Accepted?
    && (forall i :: i in items ==> t.items[i].complete && t.items[i].segment in segments)
    && (forall i, j :: i in items && j in items && i != j ==> t.items[i].segment != t.items[j].segment)
    && (forall s :: s in segments ==> exists i :: i in items && t.items[i].segment == s)
  }

  predicate TiledStream(t: Tables, s: Id) {
    C.SegmentsOf(t.segments, s) != {} && C.Tiled(t.segments, C.SegmentsOf(t.segments, s))
  }

  /** The workload is settled, its streams are aligned and tiled, and an accepted batch meters all of it. */
  predicate FullySettled(t: Tables, w: Id) {
    && w in t.workloads && t.workloads[w].status.Settled? && !Blank(t.workloads[w].reservation)
    && AllAligned(t.streams, w)
    && (forall s :: s in W.StreamsOf(t.streams, w) ==> TiledStream(t, s))
    && exists b :: b in t.batches && Meters(t, b, w)
  }

  lemma AcceptedMeters(t: Tables, b: Id)
    requires ItemsOk(t.streams, t.segments, t.batches, t.items) && CompleteOk(t.batches, t.items)
    requires b in t.batches && t.batches[b].status.Accepted?
    ensures Meters(t, b, t.batches[b].workload)
  {
    hide SegmentsOfWorkload;
    forall s | s in SegmentsOfWorkload(t.streams, t.segments, t.batches[b].workload)
      ensures exists i :: i in M.ItemsOf(t.items, b) && t.items[i].segment == s
    {
      CoveringItem(t.items, b, s);
    }
    hide Covered;
  }

  lemma CoveringItem(items: map<Id, MeterItem>, b: Id, s: Id)
    requires Covered(items, b, s)
    ensures exists i :: i in M.ItemsOf(items, b) && items[i].segment == s
  {
    var i :| i in items && items[i].batch == b && items[i].segment == s;
    assert i in M.ItemsOf(items, b);
  }

  lemma AlignedTiled(t: Tables, s: Id)
    requires StreamsOk(t.workloads, t.streams, t.segments) && s in t.streams && t.streams[s].status.Aligned?
    ensures TiledStream(t, s)
  {
    assert StreamOk(t.segments, s, t.streams[s]);
  }

  lemma MemberEligible(t: Tables, m: Id)
    requires MembersOk(t.workloads, t.batches, t.drafts, t.members) && m in t.members
    ensures EligibleNow(t.workloads, t.batches, t.members[m].workload)
  {
    hide EligibleNow;
  }

  lemma SettledAligned(t: Tables, w: Id)
    requires SubmittedOk(t.workloads, t.streams) && w in t.workloads && t.workloads[w].status.Settled?
    ensures AllAligned(t.streams, w)
  {
    hide AllAligned;
  }

  lemma EligibleSettled(t: Tables, w: Id)
    requires EligibleNow(t.workloads, t.batches, w) && SubmittedOk(t.workloads, t.streams)
    requires StreamsOk(t.workloads, t.streams, t.segments)
    requires ItemsOk(t.streams, t.segments, t.batches, t.items) && CompleteOk(t.batches, t.items)
    ensures FullySettled(t, w)
  {
    hide StreamsOk, SubmittedOk, ItemsOk, CompleteOk, TiledStream, Meters, Blank;
    SettledAligned(t, w);
    var b :| b in t.batches && t.batches[b].workload == w && t.batches[b].status.Accepted?;
    AcceptedMeters(t, b);
    forall s | s in W.StreamsOf(t.streams, w)
      ensures TiledStream(t, s)
    {
      AlignedTiled(t, s);
    }
  }

  lemma MemberSettled(t: Tables, m: Id)
    requires Inv(t) && m in t.members
    ensures FullySettled(t, t.members[m].workload)
  {
    hide *;
    InvParts(t);
    MemberEligible(t, m);
    EligibleSettled(t, t.members[m].workload);
  }

  lemma ReleaseParts(t: Tables)
    requires Inv(t)
    ensures ReleasesOk(t.drafts, t.members, t.releases, t.releaseItems) && DraftsOk(t.drafts, t.members)
    ensures ReviewsOk(t.drafts, t.reviews) && JobsOk(t.releases, t.jobs)
  {
    hide *;
    InvParts(t);
  }

  /**
   * In every reachable state a release is published or revoked and not empty, its items are exactly the
   * members of its ledger, and each of them is fully settled.
   */
  lemma ReleaseContents(cfg: Config, t: Tables, r: Id)
    requires Reachable(cfg, t) && r in t.releases
    ensures t.releases[r].status.Published? || t.releases[r].status.Revoked?
    ensures exists m :: (r, m) in t.releaseItems
    ensures forall m :: (r, m) in t.releaseItems <==> m in G.MembersOf(t.members, t.releases[r].ledger)
    ensures forall m :: (r, m) in t.releaseItems ==> FullySettled(t, t.members[m].workload)
  {
    hide Reachable, Inv, FullySettled;
    ReachableInv(cfg, t);
    ReleaseFilled(t, r);
    forall m | (r, m) in t.releaseItems
      ensures FullySettled(t, t.members[m].workload)
    {
      MemberSettled(t, m);
    }
  }

  lemma ReleaseFilled(t: Tables, r: Id)
    requires Inv(t) && r in t.releases
    ensures t.releases[r].status.Published? || t.releases[r].status.Revoked?
    ensures exists m :: (r, m) in t.releaseItems
    ensures forall m :: (r, m) in t.releaseItems <==> m in G.MembersOf(t.members, t.releases[r].ledger)
  {
    hide Inv, G.DigestOf, G.MembersOf, ReviewsOk, JobsOk;
    ReleaseParts(t);
    assert ReleaseOk(t.drafts, t.releases[r]);
    var members := G.MembersOf(t.members, t.releases[r].ledger);
    assert DraftOk(t.members, t.releases[r].ledger, t.drafts[t.releases[r].ledger]);
    assert |members| > 0;
    var any :| any in members;
    assert (r, any) in t.releaseItems;
  }

  // ---- Alignment happens once ----

  function AlignedSet(streams: map<Id, Stream>, w: Id): set<Id> {
    set s | s in streams && streams[s].workload == w && streams[s].status.Aligned?
  }

  /** The call is an alignment of the workload that commits. */
  ghost predicate Aligns(cfg: Config, t: Tables, c: Command, w: Id) {
    c.OnCapacity? && c.capacity.Align? && c.capacity.workload == w && Exec(cfg, t, c).Ok?
  }

  /** Streams stay in their workload, and none becomes or ceases to be aligned. */
  predicate SameAlignment(before: map<Id, Stream>, after: map<Id, Stream>) {
    && (forall s :: s in before ==>
          s in after && after[s].workload == before[s].workload && (after[s].status.Aligned? <==> before[s].status.Aligned?))
    && (forall s :: s in after && s !in before ==> !after[s].status.Aligned?)
  }

  lemma SameAlignedSet(before: map<Id, Stream>, after: map<Id, Stream>, w: Id)
    requires SameAlignment(before, after)
    ensures AlignedSet(after, w) == AlignedSet(before, w)
  {
  }

  lemma OthersKeepAlignment(t: Tables, c: CapacityCall)
    requires !c.Align?
    ensures SameAlignment(t.streams, Committed(t, CapacityStep(t, c)).streams)
  {
    hide C.ValidInputs, C.AppendFrom, C.SegmentsOf, C.FirstNanos, C.LastNanos, C.SegmentRows, C.Adjacent, C.SegmentBytes, W.StreamsOf;
    match c
    case OpenStream(_, _, _, _, _) =>
    case Append(_, _, _, _, _) =>
    case Seal(_, _, _) =>
  }

  lemma AlignAligns(t: Tables, c: CapacityCall, w: Id)
    requires c.Align? && CapacityStep(t, c).Ok?
    ensures var streams := CapacityStep(t, c).value.streams;
      if c.workload == w then
        AlignedSet(t.streams, w) == {} && AlignedSet(streams, w) == W.StreamsOf(t.streams, w) == W.StreamsOf(streams, w) != {}
      else AlignedSet(streams, w) == AlignedSet(t.streams, w)
  {
    hide C.MaxStart, C.MinEnd;
    var u := CapacityStep(t, c).value;
    assert u.streams == C.AlignAll(t.streams, W.StreamsOf(t.streams, c.workload), c.now);
  }

  lemma CapacityAlignment(t: Tables, c: CapacityCall, w: Id)
    ensures var u := Committed(t, CapacityStep(t, c));
      if c.Align? && c.workload == w && CapacityStep(t, c).Ok? then
        AlignedSet(t.streams, w) == {} && AlignedSet(u.streams, w) == W.StreamsOf(t.streams, w) == W.StreamsOf(u.streams, w) != {}
      else AlignedSet(u.streams, w) == AlignedSet(t.streams, w)
  {
    hide CapacityStep, AlignedSet, W.StreamsOf, SameAlignment;
    if !c.Align? {
      OthersKeepAlignment(t, c);
      SameAlignedSet(t.streams, Committed(t, CapacityStep(t, c)).streams, w);
    } else if CapacityStep(t, c).Ok? {
      AlignAligns(t, c, w);
    }
  }

  /** A call changes the aligned streams of a workload only from none to all of its streams, by aligning it. */
  lemma AlignmentStep(cfg: Config, t: Tables, c: Command, w: Id)
    ensures var u := After(cfg, t, c);
      if Aligns(cfg, t, c, w) then
        AlignedSet(t.streams, w) == {} && AlignedSet(u.streams, w) == W.StreamsOf(t.streams, w) == W.StreamsOf(u.streams, w) != {}
      else AlignedSet(u.streams, w) == AlignedSet(t.streams, w)
  {
    hide AlignedSet, W.StreamsOf, Exec, CapacityStep;
    if c.OnCapacity? {
      CapacityAlignment(t, c.capacity, w);
      ExecGroups(cfg, t, c);
    } else {
      Unchanged(cfg, t, c);
    }
  }

  /** Once a stream of the workload is aligned, the aligned set is final and no further alignment commits. */
  lemma {:induction false} AlignedForever(cfg: Config, t: Tables, cs: seq<Command>, w: Id)
    requires AlignedSet(t.streams, w) != {}
    ensures AlignedSet(Run(cfg, t, cs).streams, w) == AlignedSet(t.streams, w)
    ensures forall n :: 0 <= n < |cs| ==> !Aligns(cfg, Run(cfg, t, cs[..n]), cs[n], w)
  {
    hide After, Aligns, AlignedSet;
    if cs != [] {
      var k := |cs| - 1;
      AlignedForever(cfg, t, cs[..k], w);
      AlignmentStep(cfg, Run(cfg, t, cs[..k]), cs[k], w);
      assert forall n :: 0 <= n < k ==> cs[..k][..n] == cs[..n] && cs[..k][n] == cs[n];
    }
  }

  lemma NothingAligned(w: Id)
    ensures AlignedSet(EMPTY.streams, w) == {}
  {
  }

  /** All aligned streams of a workload were aligned by one call, which found none and aligned all there were. */
  lemma {:induction false} AlignedInOneStep(cfg: Config, cs: seq<Command>, w: Id) returns (n: nat)
    requires AlignedSet(Run(cfg, EMPTY, cs).streams, w) != {}
    ensures n < |cs|
    ensures var t, u := Run(cfg, EMPTY, cs[..n]), Run(cfg, EMPTY, cs[..n + 1]);
      && Aligns(cfg, t, cs[n], w)
      && AlignedSet(t.streams, w) == {} && AlignedSet(u.streams, w) == W.StreamsOf(u.streams, w) == W.StreamsOf(t.streams, w)
      && AlignedSet(Run(cfg, EMPTY, cs).streams, w) == AlignedSet(u.streams, w)
  {
    hide After, Aligns, W.StreamsOf;
    hide AlignedSet;
    NothingAligned(w);
    var k := |cs| - 1;
    var t := Run(cfg, EMPTY, cs[..k]);
    AlignmentStep(cfg, t, cs[k], w);
    if AlignedSet(t.streams, w) == {} {
      n := k;
      assert cs[..k + 1] == cs;
    } else {
      n := AlignedInOneStep(cfg, cs[..k], w);
      assert cs[..k][..n] == cs[..n] && cs[..k][n] == cs[n] && cs[..k][..n + 1] == cs[..n + 1];
    }
  }

  /** The streams of a released workload are those that one call aligned, all at once. */
  lemma ReleasedAlignedOnce(cfg: Config, cs: seq<Command>, t: Tables, r: Id, m: Id) returns (n: nat)
    requires t == Run(cfg, EMPTY, cs) && (r, m) in t.releaseItems
    ensures m in t.members && n < |cs|
    ensures var w, u := t.members[m].workload, Run(cfg, EMPTY, cs[..n]);
      Aligns(cfg, u, cs[n], w) && W.StreamsOf(u.streams, w) == W.StreamsOf(t.streams, w)
  {
    hide *;
    StateOfRun(cfg, cs, t);
    ReachableInv(cfg, t);
    ItemIsMember(t, r, m);
    AllStreamsAligned(t, m);
    n := AlignedInOneStep(cfg, cs, t.members[m].workload);
  }

  lemma StateOfRun(cfg: Config, cs: seq<Command>, t: Tables)
    requires t == Run(cfg, EMPTY, cs)
    ensures Reachable(cfg, t)
  {
    hide Run;
  }

  lemma AllStreamsAligned(t: Tables, m: Id)
    requires Inv(t) && m in t.members
    ensures AlignedSet(t.streams, t.members[m].workload) == W.StreamsOf(t.streams, t.members[m].workload) != {}
  {
    hide Inv, Meters, TiledStream, Blank;
    MemberSettled(t, m);
    assert AllAligned(t.streams, t.members[m].workload);
  }

  lemma ItemIsMember(t: Tables, r: Id, m: Id)
    requires Inv(t) && (r, m) in t.releaseItems
    ensures m in t.members
  {
    ReleaseParts(t);
    hide Inv, DraftsOk, ReviewsOk, JobsOk;
    assert (r, m).0 in t.releases;
  }
}
