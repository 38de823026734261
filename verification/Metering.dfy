/** Metering batches: one item per usage segment of a settled workload, completed under a lease and reviewed. */
module Metering {
  import opened Basics
  import opened Domain
  import opened Workloads
  import opened Capacity
  import opened Listing
  import opened Timestamps
  import Sorting
  import Text

  const MAX_PAYLOAD := 65536

  // ---- Creation ----

  function ItemsOf(items: map<Id, MeterItem>, batch: Id): set<Id> {
    set i | i in items && items[i].batch == batch
  }

  /** The segments of the listed streams, stream by stream. */
  function SegmentIds(segments: map<Id, Segment>, streams: seq<Id>): seq<Id> {
    if streams == [] then [] else ListSegments(segments, streams[0]) + SegmentIds(segments, streams[1..])
  }

  lemma SegmentIdsNext(segments: map<Id, Segment>, streams: seq<Id>, k: nat, before: seq<Id>)
    requires k <= |streams|
    ensures before + SegmentIds(segments, streams[k..]) ==
      if k == |streams| then before
      else (before + ListSegments(segments, streams[k])) + SegmentIds(segments, streams[k + 1..])
  {
    hide ListSegments;
    if k < |streams| {
      assert streams[k..][1..] == streams[k + 1..];
    }
  }

  function NewItem(batch: Id, segment: Id, now: Instant): MeterItem { MeterItem(batch, segment, "", "", false, now, now, 1) }

  function NewItems(batch: Id, segments: seq<Id>, ids: nat -> Id, now: Instant): seq<(Id, MeterItem)> {
    seq(|segments|, k requires 0 <= k < |segments| => (ids(k), NewItem(batch, segments[k], now)))
  }

  /** All the rows are in the table. */
  predicate Holds(items: map<Id, MeterItem>, rows: seq<(Id, MeterItem)>) {
    forall k :: 0 <= k < |rows| ==> rows[k].0 in items && items[rows[k].0] == rows[k].1
  }

  /** Inserts an item for each listed segment from position `k` on, under the primary key and the key (batch, segment). */
  function InsertFrom(items: map<Id, MeterItem>, batch: Id, segments: seq<Id>, ids: nat -> Id, k: nat, now: Instant)
    : Result<map<Id, MeterItem>>
    requires k <= |segments|
    decreases |segments| - k
  {
    if k == |segments| then Ok(items)
    else if ids(k) in items || exists i :: i in ItemsOf(items, batch) && items[i].segment == segments[k] then Err(Storage)
    else InsertFrom(items[ids(k) := NewItem(batch, segments[k], now)], batch, segments, ids, k + 1, now)
  }

  function CreateStep(t: Tables, workload: Id, batch: Id, ids: nat -> Id, now: Instant): Result<Tables> {
    if workload == "" then Err(Validation)
    else if workload !in t.workloads then Err(NotFound)
    else if !t.workloads[workload].status.Settled? then Err(Precondition)
    else
      var streams := ListStreams(t.streams, workload);
      if streams == [] then Err(Precondition)
      else if batch in t.batches then Err(Storage)
      else if exists s :: s in streams && !t.streams[s].status.Aligned? then Err(Precondition)
      else
        var segments := SegmentIds(t.segments, streams);
        if segments == [] then Err(Precondition)
        else
          var items :- InsertFrom(t.items, batch, segments, ids, 0, now);
          Ok(t.(batches := t.batches[batch := Batch(workload, BatchOpen, "", "", None, None, None, now, now, 1)], items := items))
  }

  // ---- Lease ----

  predicate Held(before: Comparison, b: Batch, owner: Id, token: string, now: Instant) {
    b.status.BatchClaimed? && b.owner == owner && b.token == token && b.expires.Some? && before(now, b.expires.value)
  }

  predicate Claimable(before: Comparison, b: Batch, now: Instant) {
    b.status.BatchOpen? || b.status.Rework? || (b.status.BatchClaimed? && b.expires.Some? && !before(now, b.expires.value))
  }

  predicate ItemPrecedes(before: Comparison, items: map<Id, MeterItem>, a: Id, b: Id) {
    a in items && b in items
    && (before(items[a].created, items[b].created) || (!before(items[b].created, items[a].created) && Text.Less(a, b)))
  }

  lemma ItemPrecedesOrders(before: Comparison, items: map<Id, MeterItem>, s: set<Id>)
    requires Sorting.WeakOrder(before) && s <= items.Keys
    ensures Orders((a: Id, b: Id) => ItemPrecedes(before, items, a, b), s)
  {
    TextOrders(s);
  }

  /** `ListItems`: by creation time, then id. */
  function ListItems(items: map<Id, MeterItem>, batch: Id): (r: seq<Id>)
    ensures |r| == |ItemsOf(items, batch)| && forall x :: x in r <==> x in ItemsOf(items, batch)
    ensures forall i, j :: 0 <= i < j < |r| ==> ItemPrecedes(TextBefore, items, r[i], r[j])
  {
    TextBeforeWeak();
    ItemPrecedesOrders(TextBefore, items, ItemsOf(items, batch));
    Ascending((a: Id, b: Id) => ItemPrecedes(TextBefore, items, a, b), ItemsOf(items, batch))
  }

  /** The clock must allow the claim, and so must the text guard of the UPDATE. */
  function ClaimStep(before: Comparison, t: Tables, ttl: int, user: Id, batch: Id, token: string, now: Instant): Result<Tables> {
    if batch == "" then Err(Validation)
    else if batch !in t.batches then Err(NotFound)
    else if !Claimable(Earlier, t.batches[batch], now) || !Claimable(before, t.batches[batch], now) then Err(Conflict)
    else
      var b := t.batches[batch];
      Ok(t.(batches := t.batches[batch :=
        b.(status := BatchClaimed, owner := user, token := token, expires := Some(now + ttl), updated := now, version := b.version + 1)]))
  }

  function RenewStep(before: Comparison, t: Tables, ttl: int, user: Id, batch: Id, token: string, version: int, now: Instant): Result<Tables> {
    if batch !in t.batches then Err(NotFound) else
    var b := t.batches[batch];
    if b.version != version || !Held(before, b, user, token, now) then Err(LeaseLost)
    else Ok(t.(batches := t.batches[batch := b.(expires := Some(now + ttl), updated := now, version := version + 1)]))
  }

  function RecordStep(
    t: Tables, user: Id, batch: Id, token: string, item: Id, label_: string, payload: string, json: bool, version: int, now: Instant)
    : Result<Tables>
  {
    if Blank(label_) || Blank(payload) || |Trim(payload)| > MAX_PAYLOAD || !json then Err(Validation)
    else if batch !in t.batches then Err(NotFound)
    else if !Held(Earlier, t.batches[batch], user, token, now) then Err(LeaseLost)
    else if item !in ItemsOf(t.items, batch) then Err(NotFound)
    else if t.items[item].version != version then Err(Conflict)
    else Ok(t.(items := t.items[item := t.items[item].(
      label_ := Trim(label_), payload := Trim(payload), complete := true, updated := now, version := version + 1)]))
  }

  function SubmitBatchStep(before: Comparison, t: Tables, user: Id, batch: Id, token: string, now: Instant): Result<Tables> {
    if batch !in t.batches then Err(NotFound)
    else if !Held(Earlier, t.batches[batch], user, token, now) then Err(LeaseLost)
    else if exists i :: i in ItemsOf(t.items, batch) && !t.items[i].complete then Err(Precondition)
    else if !Held(before, t.batches[batch], user, token, now) then Err(LeaseLost)
    else
      var b := t.batches[batch];
      Ok(t.(batches := t.batches[batch := b.(status := Submitted, owner := "", token := "", expires := None,
                                            submitted := Some(now), updated := now, version := b.version + 1)]))
  }

  /** Rejecting a batch reopens every one of its items. */
  function ResetItems(items: map<Id, MeterItem>, batch: Id, now: Instant): map<Id, MeterItem> {
    map i | i in items ::
      if items[i].batch == batch then items[i].(complete := false, updated := now, version := items[i].version + 1) else items[i]
  }

  function ReviewBatchStep(t: Tables, batch: Id, accept: bool, reason: string, now: Instant): Result<Tables> {
    if !accept && Blank(reason) then Err(Validation)
    else if batch !in t.batches then Err(NotFound)
    else if !t.batches[batch].status.Submitted? then Err(Precondition)
    else
      var b := t.batches[batch];
      Ok(t.(batches := t.batches[batch := b.(status := if accept then Accepted else Rework, reviewed := Some(now),
                                             updated := now, version := b.version + 1)],
            items := if accept then t.items else ResetItems(t.items, batch, now)))
  }

  /** `reopenMeteringBatches` of recovery. */
  function RecoveredBatches(before: Comparison, batches: map<Id, Batch>, now: Instant): map<Id, Batch> {
    map b | b in batches ::
      if batches[b].status.BatchClaimed? && batches[b].expires.Some? && !before(now, batches[b].expires.value)
      then batches[b].(status := BatchOpen, owner := "", token := "", expires := None, updated := now, version := batches[b].version + 1)
      else batches[b]
  }

  class Service {
    const db: Database
    const ttl: int

    constructor (db: Database, ttl: int)
      ensures this.db == db && this.ttl == ttl
    {
      this.db, this.ttl := db, ttl;
    }

    /** Inserts the items and returns their rows. */
    static method InsertItems(items: map<Id, MeterItem>, batch: Id, segments: seq<Id>, ids: nat -> Id, now: Instant)
      returns (r: Result<(map<Id, MeterItem>, seq<(Id, MeterItem)>)>)
      ensures match InsertFrom(items, batch, segments, ids, 0, now)
        case Ok(result) =>
          r.Ok? && r.value.0 == result && r.value.1 == NewItems(batch, segments, ids, now) && Holds(result, r.value.1)
        case Err(e) => r == Err(e)
    {
      var current, rows: seq<(Id, MeterItem)> := items, [];
      for k := 0 to |segments|
        invariant InsertFrom(items, batch, segments, ids, 0, now) == InsertFrom(current, batch, segments, ids, k, now)
        invariant rows == NewItems(batch, segments, ids, now)[..k] && Holds(current, rows)
      {
        if ids(k) in current { return Err(Storage); }
        if exists i :: i in ItemsOf(current, batch) && current[i].segment == segments[k] { return Err(Storage); }
        current := current[ids(k) := NewItem(batch, segments[k], now)];
        rows := rows + [(ids(k), NewItem(batch, segments[k], now))];
      }
      r := Ok((current, rows));
    }

    /** Collects the segments of every stream and refuses an unaligned one. */
    static method CollectSegments(rows: map<Id, Stream>, all: map<Id, Segment>, streams: seq<Id>) returns (r: Result<seq<Id>>)
      requires forall s :: s in streams ==> s in rows
      ensures r == if exists s :: s in streams && !rows[s].status.Aligned? then Err(Precondition) else Ok(SegmentIds(all, streams))
    {
      hide ListSegments, SegmentIds;
      var segments: seq<Id> := [];
      for k := 0 to |streams|
        invariant forall l :: 0 <= l < k ==> rows[streams[l]].status.Aligned?
        invariant segments + SegmentIds(all, streams[k..]) == SegmentIds(all, streams)
      {
        if rows[streams[k]].status != Aligned {
          assert streams[k] in streams;
          return Err(Precondition);
        }
        var listed := ListSegments(all, streams[k]);
        SegmentIdsNext(all, streams, k, segments);
        segments := segments + listed;
      }
      SegmentIdsNext(all, streams, |streams|, segments);
      r := Ok(segments);
    }

    /** Returns the batch and its items, one for each listed segment. */
    method Create(workload: Id, batch: Id, ids: nat -> Id, now: Instant) returns (r: Result<(Batch, seq<(Id, MeterItem)>)>)
      modifies db
      ensures var spec := CreateStep(old(db.tables), workload, batch, ids, now);
        && db.tables == Committed(old(db.tables), spec)
        && match r
           case Ok((row, items)) =>
             && spec.Ok? && batch in db.tables.batches && row == db.tables.batches[batch] && Holds(db.tables.items, items)
             && items == NewItems(batch, SegmentIds(db.tables.segments, ListStreams(db.tables.streams, workload)), ids, now)
           case Err(e) => spec == Err(e)
    {
      hide ListStreams, SegmentIds, InsertFrom, NewItems, Holds;
      if workload == "" { return Err(Validation); }
      var tx := db.tables;
      if workload !in tx.workloads { return Err(NotFound); }
      if tx.workloads[workload].status != Settled { return Err(Precondition); }
      var streams := ListStreams(tx.streams, workload);
      if |streams| == 0 { return Err(Precondition); }
      var row := Batch(workload, BatchOpen, "", "", None, None, None, now, now, 1);
      if batch in tx.batches { return Err(Storage); }
      tx := tx.(batches := tx.batches[batch := row]);
      var segments := CollectSegments(tx.streams, tx.segments, streams);
      if segments.Err? { return Err(segments.error); }
      if |segments.value| == 0 { return Err(Precondition); }
      var items := InsertItems(tx.items, batch, segments.value, ids, now);
      if items.Err? { return Err(items.error); }
      db.tables := tx.(items := items.value.0);
      r := Ok((row, items.value.1));
    }

    /** Returns the batch and its items. */
    method Claim(user: Id, batch: Id, token: string, now: Instant) returns (r: Result<(Batch, seq<Id>)>)
      modifies db
      ensures var spec := ClaimStep(TextBefore, old(db.tables), ttl, user, batch, token, now);
        && db.tables == Committed(old(db.tables), spec)
        && match r
           case Ok((row, items)) =>
             && spec.Ok? && batch in db.tables.batches && row == db.tables.batches[batch]
             && items == ListItems(db.tables.items, batch)
           case Err(e) => spec == Err(e)
    {
      hide TextBefore, ListItems;
      if batch == "" { return Err(Validation); }
      var tx := db.tables;
      if batch !in tx.batches { return Err(NotFound); }
      var b := tx.batches[batch];
      if b.status != BatchOpen && b.status != Rework
         && !(b.status == BatchClaimed && b.expires.Some? && !(now < b.expires.value)) {
        return Err(Conflict);
      }
      var row := b.(status := BatchClaimed, owner := user, token := token, expires := Some(now + ttl),
                    updated := now, version := b.version + 1);
      var (batches, changed) := UpdateRow(tx.batches, batch, Claimable(TextBefore, b, now), row);
      if changed != 1 { return Err(Conflict); }
      db.tables := tx.(batches := batches);
      r := Ok((row, ListItems(tx.items, batch)));
    }

    method Renew(user: Id, batch: Id, token: string, version: int, now: Instant) returns (r: Result<Batch>)
      modifies db
      ensures var spec := RenewStep(TextBefore, old(db.tables), ttl, user, batch, token, version, now);
        db.tables == Committed(old(db.tables), spec) && Answers(r, spec, (t: Tables) => t.batches, batch)
    {
      hide TextBefore;
      var tx := db.tables;
      if batch !in tx.batches { return Err(NotFound); }
      var b := tx.batches[batch];
      if b.owner != user || b.token != token || b.version != version { return Err(LeaseLost); }
      var row := b.(expires := Some(now + ttl), updated := now, version := b.version + 1);
      var (batches, changed) := UpdateRow(tx.batches, batch, Held(TextBefore, b, user, token, now), row);
      if changed != 1 { return Err(LeaseLost); }
      db.tables := tx.(batches := batches);
      r := Ok(row);
    }

    /** `json` says whether the payload is valid JSON. */
    method Record(
      user: Id, batch: Id, token: string, item: Id, label_: string, payload: string, json: bool, version: int, now: Instant)
      returns (r: Result<MeterItem>)
      modifies db
      ensures var spec := RecordStep(old(db.tables), user, batch, token, item, label_, payload, json, version, now);
        && db.tables == Committed(old(db.tables), spec)
        && match r
           case Ok(i) => spec.Ok? && item in spec.value.items && i == spec.value.items[item]
           case Err(e) => spec == Err(e)
    {
      var trimmed, body := Trim(label_), Trim(payload);
      if trimmed == "" || body == "" || |body| > MAX_PAYLOAD { return Err(Validation); }
      if !json { return Err(Validation); }
      var tx := db.tables;
      if batch !in tx.batches { return Err(NotFound); }
      if !Held(Earlier, tx.batches[batch], user, token, now) { return Err(LeaseLost); }
      if item !in ItemsOf(tx.items, batch) { return Err(NotFound); }
      var row := tx.items[item];
      if row.version != version { return Err(Conflict); }
      row := row.(label_ := trimmed, payload := body, complete := true, updated := now, version := row.version + 1);
      db.tables := tx.(items := tx.items[item := row]);
      r := Ok(row);
    }

    method Submit(user: Id, batch: Id, token: string, now: Instant) returns (r: Result<Batch>)
      modifies db
      ensures var spec := SubmitBatchStep(TextBefore, old(db.tables), user, batch, token, now);
        db.tables == Committed(old(db.tables), spec) && Answers(r, spec, (t: Tables) => t.batches, batch)
    {
      hide TextBefore;
      var tx := db.tables;
      if batch !in tx.batches { return Err(NotFound); }
      var b := tx.batches[batch];
      if !Held(Earlier, b, user, token, now) { return Err(LeaseLost); }
      var incomplete := set i | i in ItemsOf(tx.items, batch) && !tx.items[i].complete;
      assert forall i :: i in ItemsOf(tx.items, batch) ==> (i in incomplete <==> !tx.items[i].complete);
      assert |incomplete| != 0 ==> exists i :: i in incomplete;
      if |incomplete| != 0 { return Err(Precondition); }
      var row := b.(status := Submitted, owner := "", token := "", expires := None, submitted := Some(now), updated := now, version := b.version + 1);
      var (batches, changed) := UpdateRow(tx.batches, batch, Held(TextBefore, b, user, token, now), row);
      if changed != 1 { return Err(LeaseLost); }
      db.tables := tx.(batches := batches);
      r := Ok(row);
    }

    method Review(batch: Id, accept: bool, reason: string, now: Instant) returns (r: Result<Batch>)
      modifies db
      ensures var spec := ReviewBatchStep(old(db.tables), batch, accept, reason, now);
        db.tables == Committed(old(db.tables), spec) && Answers(r, spec, (t: Tables) => t.batches, batch)
    {
      if !accept && Trim(reason) == "" { return Err(Validation); }
      var tx := db.tables;
      if batch !in tx.batches { return Err(NotFound); }
      var b := tx.batches[batch];
      if b.status != Submitted { return Err(Precondition); }
      b := b.(status := if accept then Accepted else Rework, reviewed := Some(now), updated := now, version := b.version + 1);
      tx := tx.(batches := tx.batches[batch := b]);
      if !accept { tx := tx.(items := ResetItems(tx.items, batch, now)); }
      db.tables := tx;
      r := Ok(b);
    }
  }
}
