/** The metering calls keep the invariant of the pipeline. */
module MeteringInvariants {
  import opened Basics
  import opened Domain
  import opened System
  import W = Workloads
  import C = Capacity
  import M = Metering
  import opened Timestamps
  import X = TextLeases

  // ---- What every change to batches and items keeps ----

  /** Batches keep their workload, and an accepted batch stays accepted. */
  predicate Evolved(before: map<Id, Batch>, after: map<Id, Batch>) {
    forall b :: b in before ==>
      b in after && after[b].workload == before[b].workload && (before[b].status.Accepted? ==> after[b].status.Accepted?)
  }

  /** Items keep their batch and their segment. */
  predicate SameItems(before: map<Id, MeterItem>, after: map<Id, MeterItem>) {
    before.Keys == after.Keys
    && forall i :: i in before ==> after[i].batch == before[i].batch && after[i].segment == before[i].segment
  }

  lemma EligibleKept(workloads: map<Id, Workload>, before: map<Id, Batch>, after: map<Id, Batch>, w: Id)
    requires Evolved(before, after) && EligibleNow(workloads, before, w)
    ensures EligibleNow(workloads, after, w)
  {
    var b :| b in before && before[b].workload == w && before[b].status.Accepted?;
    assert b in after && after[b].workload == w && after[b].status.Accepted?;
  }

  lemma MembersKept(t: Tables, batches: map<Id, Batch>)
    requires MembersOk(t.workloads, t.batches, t.drafts, t.members) && Evolved(t.batches, batches)
    ensures MembersOk(t.workloads, batches, t.drafts, t.members)
  {
    forall m | m in t.members
      ensures EligibleNow(t.workloads, batches, t.members[m].workload)
    {
      EligibleKept(t.workloads, t.batches, batches, t.members[m].workload);
    }
  }

  lemma CoveredKept(before: map<Id, MeterItem>, after: map<Id, MeterItem>, batch: Id, segment: Id)
    requires SameItems(before, after) && Covered(before, batch, segment)
    ensures Covered(after, batch, segment)
  {
    var i :| i in before && before[i].batch == batch && before[i].segment == segment;
    assert i in after && after[i].batch == batch && after[i].segment == segment;
  }

  lemma ItemsKept(t: Tables, batches: map<Id, Batch>, items: map<Id, MeterItem>)
    requires ItemsOk(t.streams, t.segments, t.batches, t.items)
    requires Evolved(t.batches, batches) && batches.Keys == t.batches.Keys && SameItems(t.items, items)
    ensures ItemsOk(t.streams, t.segments, batches, items)
  {
    hide SegmentsOfWorkload;
    forall b, s | b in batches && s in SegmentsOfWorkload(t.streams, t.segments, batches[b].workload)
      ensures Covered(items, b, s)
    {
      CoveredKept(t.items, items, b, s);
    }
  }

  lemma BatchesKept(t: Tables, batches: map<Id, Batch>)
    requires BatchesOk(t.workloads, t.batches) && Evolved(t.batches, batches) && batches.Keys == t.batches.Keys
    ensures BatchesOk(t.workloads, batches)
  {
  }

  /** Batches move under their leases and reviews, and items are filled in or reset. */
  lemma BatchesChange(t: Tables, batches: map<Id, Batch>, items: map<Id, MeterItem>)
    requires Inv(t) && Evolved(t.batches, batches) && batches.Keys == t.batches.Keys && SameItems(t.items, items)
    requires CompleteOk(batches, items)
    ensures Inv(t.(batches := batches, items := items))
  {
    hide *;
    InvParts(t);
    BatchesKept(t, batches);
    MembersKept(t, batches);
    ItemsKept(t, batches, items);
    InvParts(t.(batches := batches, items := items));
  }

  // ---- One batch ----

  lemma StillComplete(batches: map<Id, Batch>, items: map<Id, MeterItem>, batch: Id, b: Batch)
    requires CompleteOk(batches, items)
    requires Closed(b) ==> forall i :: i in M.ItemsOf(items, batch) ==> items[i].complete
    ensures CompleteOk(batches[batch := b], items)
  {
    assert forall i :: i in items && items[i].batch == batch ==> i in M.ItemsOf(items, batch);
  }

  lemma OneEvolved(batches: map<Id, Batch>, batch: Id, b: Batch)
    requires batch in batches && b.workload == batches[batch].workload && !batches[batch].status.Accepted?
    ensures Evolved(batches, batches[batch := b]) && batches[batch := b].Keys == batches.Keys
  {
  }

  lemma ItemsAsTheyWere(items: map<Id, MeterItem>)
    ensures SameItems(items, items)
  {
  }

  /** One batch row changes; the items of a batch that closes are complete. */
  lemma BatchChange(t: Tables, batch: Id, b: Batch)
    requires Inv(t) && batch in t.batches && b.workload == t.batches[batch].workload && !t.batches[batch].status.Accepted?
    requires Closed(b) ==> forall i :: i in M.ItemsOf(t.items, batch) ==> t.items[i].complete
    ensures Inv(t.(batches := t.batches[batch := b]))
  {
    hide *;
    InvParts(t);
    OneEvolved(t.batches, batch, b);
    ItemsAsTheyWere(t.items);
    StillComplete(t.batches, t.items, batch, b);
    BatchesChange(t, t.batches[batch := b], t.items);
  }

  /**
   * The text guard of the UPDATE refuses what the clock allows exactly when the two times are not comparable:
   * an expired batch is claimed, and a complete batch that is still held is submitted, if and only if they are.
   */
  lemma TextGuardMissesIff(t: Tables, ttl: int, user: Id, batch: Id, token: string, now: Instant)
    requires batch in t.batches && batch != "" && t.batches[batch].status.BatchClaimed? && t.batches[batch].expires.Some?
    requires Printable(now) && Printable(t.batches[batch].expires.value)
    ensures var expiry := t.batches[batch].expires.value;
      && (expiry <= now ==> (M.ClaimStep(TextBefore, t, ttl, user, batch, token, now).Ok? <==> Comparable(now, expiry)))
      && (now < expiry && M.Held(Earlier, t.batches[batch], user, token, now)
          && (forall i :: i in M.ItemsOf(t.items, batch) ==> t.items[i].complete) ==>
            (M.SubmitBatchStep(TextBefore, t, user, batch, token, now).Ok? <==> Comparable(now, expiry)))
  {
    hide Printable, TextBefore, Comparable, M.ItemsOf;
    X.ReadsWrongIff(now, t.batches[batch].expires.value);
  }

  lemma ClaimKeeps(before: Comparison, t: Tables, ttl: int, user: Id, batch: Id, token: string, now: Instant)
    requires Inv(t)
    ensures Inv(Committed(t, M.ClaimStep(before, t, ttl, user, batch, token, now)))
  {
    hide Inv;
    var r := M.ClaimStep(before, t, ttl, user, batch, token, now);
    if r.Ok? { BatchChange(t, batch, r.value.batches[batch]); }
  }

  lemma RenewKeeps(before: Comparison, t: Tables, ttl: int, user: Id, batch: Id, token: string, version: int, now: Instant)
    requires Inv(t)
    ensures Inv(Committed(t, M.RenewStep(before, t, ttl, user, batch, token, version, now)))
  {
    hide Inv;
    var r := M.RenewStep(before, t, ttl, user, batch, token, version, now);
    if r.Ok? { BatchChange(t, batch, r.value.batches[batch]); }
  }

  lemma SubmitKeeps(before: Comparison, t: Tables, user: Id, batch: Id, token: string, now: Instant)
    requires Inv(t)
    ensures Inv(Committed(t, M.SubmitBatchStep(before, t, user, batch, token, now)))
  {
    hide Inv;
    var r := M.SubmitBatchStep(before, t, user, batch, token, now);
    if r.Ok? { BatchChange(t, batch, r.value.batches[batch]); }
  }

  lemma RecordKeeps(
    t: Tables, user: Id, batch: Id, token: string, item: Id, label_: string, payload: string, json: bool, version: int, now: Instant)
    requires Inv(t)
    ensures Inv(Committed(t, M.RecordStep(t, user, batch, token, item, label_, payload, json, version, now)))
  {
    hide Inv, Blank, Trim, CompleteOk;
    var r := M.RecordStep(t, user, batch, token, item, label_, payload, json, version, now);
    if r.Ok? {
      var i := r.value.items[item];
      assert SameItems(t.items, t.items[item := i]) && Evolved(t.batches, t.batches);
      InvComplete(t);
      CompletedItem(t.batches, t.items, item, i);
      hide SameItems, Evolved;
      BatchesChange(t, t.batches, t.items[item := i]);
    }
  }

  lemma InvComplete(t: Tables)
    requires Inv(t)
    ensures CompleteOk(t.batches, t.items)
  {
  }

  lemma CompletedItem(batches: map<Id, Batch>, items: map<Id, MeterItem>, item: Id, i: MeterItem)
    requires CompleteOk(batches, items) && i.complete
    ensures CompleteOk(batches, items[item := i])
  {
  }

  lemma ReviewKeeps(t: Tables, batch: Id, accept: bool, reason: string, now: Instant)
    requires Inv(t)
    ensures Inv(Committed(t, M.ReviewBatchStep(t, batch, accept, reason, now)))
  {
    hide Inv, Blank, CompleteOk;
    var r := M.ReviewBatchStep(t, batch, accept, reason, now);
    if r.Ok? {
      InvComplete(t);
      ReviewedComplete(t.batches, t.items, batch, r.value.batches[batch], now);
      BatchesChange(t, r.value.batches, r.value.items);
    }
  }

  /** A submitted batch that is accepted was complete, and one that is rejected no longer counts as closed. */
  lemma ReviewedComplete(batches: map<Id, Batch>, items: map<Id, MeterItem>, batch: Id, b: Batch, now: Instant)
    requires CompleteOk(batches, items) && batch in batches && batches[batch].status.Submitted?
    ensures b.status.Accepted? ==> CompleteOk(batches[batch := b], items)
    ensures b.status.Rework? ==> CompleteOk(batches[batch := b], M.ResetItems(items, batch, now))
  {
  }

  lemma RecoveryKeeps(before: Comparison, t: Tables, now: Instant)
    requires Inv(t)
    ensures Inv(t.(batches := M.RecoveredBatches(before, t.batches, now)))
  {
    hide Inv, CompleteOk;
    InvComplete(t);
    RecoveredComplete(before, t.batches, t.items, now);
    BatchesChange(t, M.RecoveredBatches(before, t.batches, now), t.items);
  }

  lemma RecoveredComplete(before: Comparison, batches: map<Id, Batch>, items: map<Id, MeterItem>, now: Instant)
    requires CompleteOk(batches, items)
    ensures CompleteOk(M.RecoveredBatches(before, batches, now), items)
  {
  }

  // ---- Creation ----

  lemma StreamLists(segments: map<Id, Segment>, stream: Id, x: Id)
    ensures x in C.ListSegments(segments, stream) <==> x in segments && segments[x].stream == stream
  {
    hide C.ListSegments;
  }

  lemma HeadOrTail(streams: seq<Id>)
    requires streams != []
    ensures forall s :: s in streams <==> s == streams[0] || s in streams[1..]
  {
    assert streams == [streams[0]] + streams[1..];
  }

  lemma {:induction false} SegmentIdsCover(segments: map<Id, Segment>, streams: seq<Id>, x: Id)
    ensures x in M.SegmentIds(segments, streams) <==> x in segments && segments[x].stream in streams
  {
    hide C.ListSegments;
    if streams != [] {
      SegmentIdsCover(segments, streams[1..], x);
      StreamLists(segments, streams[0], x);
      HeadOrTail(streams);
    }
  }

  /** The listing that a new batch goes through holds exactly the segments of the workload. */
  lemma CollectsAll(streams: map<Id, Stream>, segments: map<Id, Segment>, workload: Id, x: Id)
    requires SegmentsOk(streams, segments)
    ensures x in M.SegmentIds(segments, C.ListStreams(streams, workload)) <==> x in SegmentsOfWorkload(streams, segments, workload)
  {
    hide C.ListStreams;
    SegmentIdsCover(segments, C.ListStreams(streams, workload), x);
    assert x in segments ==>
      (segments[x].stream in C.ListStreams(streams, workload) <==> segments[x].stream in W.StreamsOf(streams, workload));
  }

  /** The items after an insertion: the old ones, and new ones of this batch with listed segments. */
  predicate Inserted(before: map<Id, MeterItem>, after: map<Id, MeterItem>, batch: Id, segments: seq<Id>) {
    && (forall i :: i in before ==> i in after && after[i] == before[i])
    && (forall i :: i in after && i !in before ==> after[i].batch == batch && after[i].segment in segments && !after[i].complete)
  }

  predicate Distinct(items: map<Id, MeterItem>, batch: Id) {
    forall i, j :: i in items && j in items && i != j && items[i].batch == items[j].batch == batch ==> items[i].segment != items[j].segment
  }

  lemma {:induction false} InsertFromOk(
    items: map<Id, MeterItem>, batch: Id, segments: seq<Id>, ids: nat -> Id, k: nat, now: Instant)
    requires k <= |segments| && Distinct(items, batch)
    ensures match M.InsertFrom(items, batch, segments, ids, k, now)
      case Ok(r) =>
        Inserted(items, r, batch, segments) && Distinct(r, batch) && forall l :: k <= l < |segments| ==> Covered(r, batch, segments[l])
      case Err(_) => true
    decreases |segments| - k
  {
    if k < |segments| && M.InsertFrom(items, batch, segments, ids, k, now).Ok? {
      var next := items[ids(k) := M.NewItem(batch, segments[k], now)];
      assert Distinct(next, batch) by {
        assert forall i :: i in items && items[i].batch == batch ==> i in M.ItemsOf(items, batch);
      }
      InsertFromOk(next, batch, segments, ids, k + 1, now);
      var r := M.InsertFrom(next, batch, segments, ids, k + 1, now).value;
      assert ids(k) in r && r[ids(k)].batch == batch && r[ids(k)].segment == segments[k];
      hide Distinct;
    }
  }

  /** Items of older batches survive the insertion. */
  lemma CoveredStill(before: map<Id, MeterItem>, after: map<Id, MeterItem>, batch: Id, segments: seq<Id>, o: Id, s: Id)
    requires Inserted(before, after, batch, segments) && Covered(before, o, s)
    ensures Covered(after, o, s)
  {
    var i :| i in before && before[i].batch == o && before[i].segment == s;
    assert i in after && after[i].batch == o && after[i].segment == s;
  }

  lemma NewBatchItems(t: Tables, batch: Id, b: Batch, segments: seq<Id>, items: map<Id, MeterItem>)
    requires ItemsOk(t.streams, t.segments, t.batches, t.items) && batch !in t.batches
    requires Inserted(t.items, items, batch, segments) && Distinct(items, batch)
    requires forall x :: x in segments <==> x in SegmentsOfWorkload(t.streams, t.segments, b.workload)
    requires forall x :: x in segments ==> Covered(items, batch, x)
    ensures ItemsOk(t.streams, t.segments, t.batches[batch := b], items)
  {
    hide SegmentsOfWorkload, Covered;
    var batches := t.batches[batch := b];
    forall o, s | o in t.batches && s in SegmentsOfWorkload(t.streams, t.segments, t.batches[o].workload)
      ensures Covered(items, o, s)
    {
      CoveredStill(t.items, items, batch, segments, o, s);
    }
  }

  /** A new open batch has no closed items, and the other batches stay. */
  lemma NewBatchRows(t: Tables, batch: Id, b: Batch, segments: seq<Id>, items: map<Id, MeterItem>)
    requires BatchesOk(t.workloads, t.batches) && CompleteOk(t.batches, t.items) && batch !in t.batches
    requires ItemsOk(t.streams, t.segments, t.batches, t.items)
    requires b.workload in t.workloads && t.workloads[b.workload].status.Settled? && b.status.BatchOpen?
    requires Inserted(t.items, items, batch, segments)
    ensures BatchesOk(t.workloads, t.batches[batch := b]) && CompleteOk(t.batches[batch := b], items)
    ensures Evolved(t.batches, t.batches[batch := b])
  {
    hide SegmentsOfWorkload, Covered;
  }

  lemma NoItemsYet(t: Tables, batch: Id)
    requires ItemsOk(t.streams, t.segments, t.batches, t.items) && batch !in t.batches
    ensures Distinct(t.items, batch)
  {
    hide SegmentsOfWorkload, Covered;
  }

  /** What a creation that commits has checked and what it stores. */
  predicate BatchCreated(t: Tables, workload: Id, batch: Id, ids: nat -> Id, now: Instant, u: Tables) {
    && workload in t.workloads && t.workloads[workload].status.Settled? && batch !in t.batches && batch in u.batches
    && u == t.(batches := t.batches[batch := u.batches[batch]], items := u.items)
    && u.batches[batch].workload == workload && u.batches[batch].status.BatchOpen?
    && M.InsertFrom(t.items, batch, M.SegmentIds(t.segments, C.ListStreams(t.streams, workload)), ids, 0, now) == Ok(u.items)
  }

  lemma CreateCommits(t: Tables, workload: Id, batch: Id, ids: nat -> Id, now: Instant)
    ensures var r := M.CreateStep(t, workload, batch, ids, now);
      r.Ok? ==> BatchCreated(t, workload, batch, ids, now, r.value)
  {
    hide M.InsertFrom, M.SegmentIds, C.ListStreams;
  }

  lemma CreatedKeeps(t: Tables, workload: Id, batch: Id, ids: nat -> Id, now: Instant, u: Tables)
    requires Inv(t) && BatchCreated(t, workload, batch, ids, now, u)
    ensures Inv(u)
  {
    var segments, b, items := M.SegmentIds(t.segments, C.ListStreams(t.streams, workload)), u.batches[batch], u.items;
    hide *;
    InvParts(t);
    forall x
      ensures x in segments <==> x in SegmentsOfWorkload(t.streams, t.segments, workload)
    {
      CollectsAll(t.streams, t.segments, workload, x);
    }
    NoItemsYet(t, batch);
    InsertFromOk(t.items, batch, segments, ids, 0, now);
    NewBatchItems(t, batch, b, segments, items);
    NewBatchRows(t, batch, b, segments, items);
    MembersKept(t, t.batches[batch := b]);
    InvParts(t.(batches := t.batches[batch := b], items := items));
  }

  lemma CreateKeeps(t: Tables, workload: Id, batch: Id, ids: nat -> Id, now: Instant)
    requires Inv(t)
    ensures Inv(Committed(t, M.CreateStep(t, workload, batch, ids, now)))
  {
    hide Inv, M.CreateStep, BatchCreated;
    var r := M.CreateStep(t, workload, batch, ids, now);
    CreateCommits(t, workload, batch, ids, now);
    if r.Ok? { CreatedKeeps(t, workload, batch, ids, now, r.value); }
  }
}
