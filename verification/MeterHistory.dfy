/** Metering batches and items are the history of the calls on them; what acceptance and rejection mean. */
module MeterHistory {
  import opened Basics
  import opened Domain
  import opened System
  import opened Timestamps
  import opened History
  import M = Metering
  import C = Capacity
  import G = Ledger
  import F = Frames
  import R = Recovery
  import Settlement
  import Reachability
  import CI = CapacityInvariants
  import MI = MeteringInvariants
  import LH = LedgerHistory

  // ---- Batches ----

  /** What the calls tell of a batch. */
  datatype Facts = Facts(
    workload: Id, status: BatchStatus, owner: Id, token: string, expires: Option<Instant>,
    submitted: Option<Instant>, reviewed: Option<Instant>)

  function FactsOf(batches: map<Id, Batch>, b: Id): Option<Facts> {
    if b !in batches then None
    else
      var x := batches[b];
      Some(Facts(x.workload, x.status, x.owner, x.token, x.expires, x.submitted, x.reviewed))
  }

  /** What a committed call tells of batch `b`. */
  function Told(ttl: int, c: MeterCall, b: Id, f: Option<Facts>): Option<Facts> {
    if c.CreateBatch? then (if c.batch == b then Some(Facts(c.workload, BatchOpen, "", "", None, None, None)) else f)
    else if c.batch != b || f.None? then f
    else match c
      case ClaimBatch(user, _, token, now) =>
        Some(f.value.(status := BatchClaimed, owner := user, token := token, expires := Some(now + ttl)))
      case RenewBatch(_, _, _, _, now) => Some(f.value.(expires := Some(now + ttl)))
      case RecordItem(_, _, _, _, _, _, _, _, _) => f
      case SubmitBatch(_, _, _, now) =>
        Some(f.value.(status := Submitted, owner := "", token := "", expires := None, submitted := Some(now)))
      case ReviewBatch(_, accept, _, now) => Some(f.value.(status := if accept then Accepted else Rework, reviewed := Some(now)))
  }

  /** What recovery tells: a claimed batch whose expiry reads as passed is open again. */
  function Lapsed(now: Instant, f: Option<Facts>): Option<Facts> {
    if f.Some? && f.value.status.BatchClaimed? && f.value.expires.Some? && !TextBefore(now, f.value.expires.value)
    then Some(f.value.(status := BatchOpen, owner := "", token := "", expires := None)) else f
  }

  function ToldBy(ttl: int, c: Command, b: Id, f: Option<Facts>): Option<Facts> {
    if c.OnMeter? then Told(ttl, c.meter, b, f) else if c.RecoverExpired? then Lapsed(c.now, f) else f
  }

  ghost function Story(cfg: Config, cs: seq<Command>, b: Id): Option<Facts> {
    if cs == [] then None
    else
      var n := |cs| - 1;
      var before := Story(cfg, cs[..n], b);
      if CommitsAt(cfg, cs, n) then ToldBy(cfg.meterTtl, cs[n], b, before) else before
  }

  predicate Tells(cfg: Config, t: Tables, c: MeterCall, b: Id, u: Tables) {
    FactsOf(u.batches, b) == Told(cfg.meterTtl, c, b, FactsOf(t.batches, b))
  }

  lemma CreateTells(cfg: Config, t: Tables, c: MeterCall, b: Id)
    requires c.CreateBatch? && MeterStep(cfg, t, c).Ok?
    ensures Tells(cfg, t, c, b, MeterStep(cfg, t, c).value)
  {
    hide M.InsertFrom, M.SegmentIds, C.ListStreams;
  }

  lemma HoldTells(cfg: Config, t: Tables, c: MeterCall, b: Id)
    requires (c.ClaimBatch? || c.RenewBatch? || c.SubmitBatch?) && MeterStep(cfg, t, c).Ok?
    ensures Tells(cfg, t, c, b, MeterStep(cfg, t, c).value)
  {
    hide M.ItemsOf, TextBefore;
  }

  lemma ReviewTells(cfg: Config, t: Tables, c: MeterCall, b: Id)
    requires (c.RecordItem? || c.ReviewBatch?) && MeterStep(cfg, t, c).Ok?
    ensures Tells(cfg, t, c, b, MeterStep(cfg, t, c).value)
  {
    hide M.ItemsOf, M.ResetItems, Blank, Trim;
  }

  lemma CallTells(cfg: Config, t: Tables, c: MeterCall, b: Id)
    requires MeterStep(cfg, t, c).Ok?
    ensures Tells(cfg, t, c, b, MeterStep(cfg, t, c).value)
  {
    hide MeterStep, Tells;
    match c
    case CreateBatch(_, _, _, _) => CreateTells(cfg, t, c, b);
    case ClaimBatch(_, _, _, _) => HoldTells(cfg, t, c, b);
    case RenewBatch(_, _, _, _, _) => HoldTells(cfg, t, c, b);
    case RecordItem(_, _, _, _, _, _, _, _, _) => ReviewTells(cfg, t, c, b);
    case SubmitBatch(_, _, _, _) => HoldTells(cfg, t, c, b);
    case ReviewBatch(_, _, _, _) => ReviewTells(cfg, t, c, b);
  }

  lemma RecoveryTells(batches: map<Id, Batch>, now: Instant, b: Id)
    ensures FactsOf(M.RecoveredBatches(TextBefore, batches, now), b) == Lapsed(now, FactsOf(batches, b))
  {
    hide TextBefore;
  }

  lemma OthersKeepMetering(cfg: Config, t: Tables, c: Command)
    ensures !c.OnMeter? && !c.RecoverExpired? ==> After(cfg, t, c).batches == t.batches
    ensures !c.OnMeter? ==> After(cfg, t, c).items == t.items
  {
    hide After;
    F.CallFramed(cfg, t, c);
  }

  lemma StepTells(cfg: Config, t: Tables, c: Command, b: Id)
    ensures FactsOf(After(cfg, t, c).batches, b) ==
      if Commits(cfg, t, c) then ToldBy(cfg.meterTtl, c, b, FactsOf(t.batches, b)) else FactsOf(t.batches, b)
  {
    hide Exec, MeterStep, FactsOf, Told, Lapsed, TextBefore;
    F.ExecGroups(cfg, t, c);
    if c.OnMeter? {
      if Commits(cfg, t, c) { CallTells(cfg, t, c.meter, b); }
    } else if c.RecoverExpired? {
      RecoveryTells(t.batches, c.now, b);
    } else {
      OthersKeepMetering(cfg, t, c);
    }
  }

  /** After any run from the empty database a batch is what the committed calls on it and the recoveries tell. */
  lemma {:induction false} BatchesAreHistory(cfg: Config, cs: seq<Command>, b: Id)
    ensures FactsOf(Run(cfg, EMPTY, cs).batches, b) == Story(cfg, cs, b)
  {
    hide After, Commits, FactsOf, ToldBy;
    if cs == [] {
      NothingTold(b);
    } else {
      var n := |cs| - 1;
      BatchesAreHistory(cfg, cs[..n], b);
      StepTells(cfg, Run(cfg, EMPTY, cs[..n]), cs[n], b);
    }
  }

  lemma NothingTold(x: Id)
    ensures FactsOf(EMPTY.batches, x) == None && ItemFactsOf(EMPTY.items, x) == None
  {
  }

  // ---- Items ----

  datatype ItemFacts = ItemFacts(batch: Id, label_: string, payload: string, complete: bool)

  function ItemFactsOf(items: map<Id, MeterItem>, i: Id): Option<ItemFacts> {
    if i in items then Some(ItemFacts(items[i].batch, items[i].label_, items[i].payload, items[i].complete)) else None
  }

  /** The call draws the id for one of the listed segments. */
  predicate Draws(t: Tables, c: MeterCall, i: Id)
    requires c.CreateBatch?
  {
    exists k :: 0 <= k < |M.SegmentIds(t.segments, C.ListStreams(t.streams, c.workload))| && c.ids(k) == i
  }

  function ItemTold(t: Tables, c: MeterCall, i: Id, f: Option<ItemFacts>): Option<ItemFacts> {
    match c
    case CreateBatch(_, batch, _, _) => if Draws(t, c, i) then Some(ItemFacts(batch, "", "", false)) else f
    case RecordItem(_, _, _, item, label_, payload, _, _, _) =>
      if item == i && f.Some? then Some(f.value.(label_ := Trim(label_), payload := Trim(payload), complete := true)) else f
    case ReviewBatch(batch, accept, _, _) =>
      if f.Some? && f.value.batch == batch && !accept then Some(f.value.(complete := false)) else f
    case _ => f
  }

  ghost function ItemStory(cfg: Config, cs: seq<Command>, i: Id): Option<ItemFacts> {
    if cs == [] then None
    else
      var n := |cs| - 1;
      var before := ItemStory(cfg, cs[..n], i);
      if CommitsAt(cfg, cs, n) && cs[n].OnMeter? then ItemTold(Before(cfg, cs, n), cs[n].meter, i, before) else before
  }

  /** A created item is new, empty and incomplete. */
  lemma {:induction false} InsertTells(
    items: map<Id, MeterItem>, batch: Id, segments: seq<Id>, ids: nat -> Id, k: nat, now: Instant, i: Id)
    requires k <= |segments|
    ensures match M.InsertFrom(items, batch, segments, ids, k, now)
      case Ok(r) =>
        ItemFactsOf(r, i) == if exists l :: k <= l < |segments| && ids(l) == i then Some(ItemFacts(batch, "", "", false)) else ItemFactsOf(items, i)
      case Err(_) => true
    ensures i in items && M.InsertFrom(items, batch, segments, ids, k, now).Ok? ==> forall l :: k <= l < |segments| ==> ids(l) != i
    decreases |segments| - k
  {
    if k < |segments| && M.InsertFrom(items, batch, segments, ids, k, now).Ok? {
      var next := items[ids(k) := M.NewItem(batch, segments[k], now)];
      InsertTells(next, batch, segments, ids, k + 1, now, i);
    }
  }

  lemma CreateTellsItem(cfg: Config, t: Tables, c: MeterCall, i: Id)
    requires c.CreateBatch? && MeterStep(cfg, t, c).Ok?
    ensures ItemFactsOf(MeterStep(cfg, t, c).value.items, i) == ItemTold(t, c, i, ItemFactsOf(t.items, i))
  {
    hide M.InsertFrom, M.SegmentIds, C.ListStreams;
    InsertTells(t.items, c.batch, M.SegmentIds(t.segments, C.ListStreams(t.streams, c.workload)), c.ids, 0, c.now, i);
  }

  lemma OthersTellItem(cfg: Config, t: Tables, c: MeterCall, i: Id)
    requires !c.CreateBatch? && MeterStep(cfg, t, c).Ok?
    ensures ItemFactsOf(MeterStep(cfg, t, c).value.items, i) == ItemTold(t, c, i, ItemFactsOf(t.items, i))
  {
    hide MeterStep, ItemFactsOf, ItemTold;
    match c
    case ClaimBatch(_, _, _, _) => HoldTellsItem(cfg, t, c, i);
    case RenewBatch(_, _, _, _, _) => HoldTellsItem(cfg, t, c, i);
    case RecordItem(_, _, _, _, _, _, _, _, _) => RecordTellsItem(cfg, t, c, i);
    case SubmitBatch(_, _, _, _) => HoldTellsItem(cfg, t, c, i);
    case ReviewBatch(_, _, _, _) => ReviewTellsItem(cfg, t, c, i);
  }

  lemma HoldTellsItem(cfg: Config, t: Tables, c: MeterCall, i: Id)
    requires (c.ClaimBatch? || c.RenewBatch? || c.SubmitBatch?) && MeterStep(cfg, t, c).Ok?
    ensures ItemFactsOf(MeterStep(cfg, t, c).value.items, i) == ItemTold(t, c, i, ItemFactsOf(t.items, i))
  {
    hide M.ItemsOf, TextBefore;
  }

  lemma RecordTellsItem(cfg: Config, t: Tables, c: MeterCall, i: Id)
    requires c.RecordItem? && MeterStep(cfg, t, c).Ok?
    ensures ItemFactsOf(MeterStep(cfg, t, c).value.items, i) == ItemTold(t, c, i, ItemFactsOf(t.items, i))
  {
    hide Blank, Trim;
  }

  lemma ReviewTellsItem(cfg: Config, t: Tables, c: MeterCall, i: Id)
    requires c.ReviewBatch? && MeterStep(cfg, t, c).Ok?
    ensures ItemFactsOf(MeterStep(cfg, t, c).value.items, i) == ItemTold(t, c, i, ItemFactsOf(t.items, i))
  {
    hide Blank;
  }

  lemma StepTellsItem(cfg: Config, t: Tables, c: Command, i: Id)
    ensures ItemFactsOf(After(cfg, t, c).items, i) ==
      if Commits(cfg, t, c) && c.OnMeter? then ItemTold(t, c.meter, i, ItemFactsOf(t.items, i)) else ItemFactsOf(t.items, i)
  {
    hide Exec, MeterStep, ItemFactsOf, ItemTold;
    F.ExecGroups(cfg, t, c);
    if !c.OnMeter? {
      OthersKeepMetering(cfg, t, c);
    } else if Commits(cfg, t, c) {
      if c.meter.CreateBatch? { CreateTellsItem(cfg, t, c.meter, i); } else { OthersTellItem(cfg, t, c.meter, i); }
    }
  }

  /**
   * After any run from the empty database an item holds what was last recorded for it, and it is complete exactly
   * when that was not followed by a rejecting review of its batch.
   */
  lemma {:induction false} ItemsAreHistory(cfg: Config, cs: seq<Command>, i: Id)
    ensures ItemFactsOf(Run(cfg, EMPTY, cs).items, i) == ItemStory(cfg, cs, i)
  {
    hide After, Commits, ItemFactsOf, ItemTold;
    if cs == [] {
      NothingTold(i);
    } else {
      var n := |cs| - 1;
      ItemsAreHistory(cfg, cs[..n], i);
      StepTellsItem(cfg, Run(cfg, EMPTY, cs[..n]), cs[n], i);
    }
  }

  // ---- Which calls commit ----

  lemma ClaimCommitsIff(t: Tables, ttl: int, user: Id, batch: Id, token: string, now: Instant)
    ensures M.ClaimStep(TextBefore, t, ttl, user, batch, token, now).Ok? <==>
      && batch != "" && batch in t.batches
      && (t.batches[batch].status.BatchOpen? || t.batches[batch].status.Rework?
          || (t.batches[batch].status.BatchClaimed? && t.batches[batch].expires.Some?
              && t.batches[batch].expires.value <= now && !TextBefore(now, t.batches[batch].expires.value)))
  {
    hide TextBefore;
  }

  /** The caller holds the batch, and its expiry is not passed, as the comparison says. */
  predicate Holder(before: Comparison, t: Tables, user: Id, batch: Id, token: string, now: Instant) {
    && batch in t.batches && t.batches[batch].status.BatchClaimed? && t.batches[batch].owner == user && t.batches[batch].token == token
    && t.batches[batch].expires.Some? && before(now, t.batches[batch].expires.value)
  }

  lemma HolderCommitsIff(
    t: Tables, ttl: int, user: Id, batch: Id, token: string, item: Id, label_: string, payload: string, json: bool, version: int,
    now: Instant)
    ensures M.RenewStep(TextBefore, t, ttl, user, batch, token, version, now).Ok? <==>
      Holder(TextBefore, t, user, batch, token, now) && t.batches[batch].version == version
    ensures M.RecordStep(t, user, batch, token, item, label_, payload, json, version, now).Ok? <==>
      && Holder(Earlier, t, user, batch, token, now)
      && !Blank(label_) && !Blank(payload) && |Trim(payload)| <= 65536 && json
      && item in t.items && t.items[item].batch == batch && t.items[item].version == version
    ensures M.SubmitBatchStep(TextBefore, t, user, batch, token, now).Ok? <==>
      && Holder(Earlier, t, user, batch, token, now) && Holder(TextBefore, t, user, batch, token, now)
      && (forall i :: i in t.items && t.items[i].batch == batch ==> t.items[i].complete)
  {
    hide TextBefore, Blank, Trim;
    assert forall i :: i in M.ItemsOf(t.items, batch) <==> i in t.items && t.items[i].batch == batch;
  }

  lemma ReviewCommitsIff(t: Tables, batch: Id, accept: bool, reason: string, now: Instant)
    ensures M.ReviewBatchStep(t, batch, accept, reason, now).Ok? <==>
      batch in t.batches && t.batches[batch].status.Submitted? && (accept || !Blank(reason))
  {
    hide Blank;
  }

  // ---- Reviews ----

  /**
   * A rejection sends the batch back to rework and reopens each of its items, with a new version; every other row
   * stays as it was.  An acceptance touches no item.
   */
  lemma ReviewMeans(t: Tables, batch: Id, accept: bool, reason: string, now: Instant)
    requires M.ReviewBatchStep(t, batch, accept, reason, now).Ok?
    ensures var u := M.ReviewBatchStep(t, batch, accept, reason, now).value;
      && batch in t.batches && u.batches.Keys == t.batches.Keys && u.items.Keys == t.items.Keys
      && u == t.(batches := u.batches, items := u.items)
      && u.batches[batch].status == (if accept then Accepted else Rework)
      && (forall b :: b in t.batches && b != batch ==> u.batches[b] == t.batches[b])
      && (forall i :: i in t.items ==>
            if accept || t.items[i].batch != batch then u.items[i] == t.items[i]
            else !u.items[i].complete && u.items[i].version == t.items[i].version + 1 && u.items[i].batch == batch
                 && u.items[i].segment == t.items[i].segment)
  {
    hide Blank;
  }

  /** Whether the last committed review of the batch accepted it. */
  ghost function LastReview(cfg: Config, cs: seq<Command>, b: Id): Option<bool> {
    if cs == [] then None
    else
      var n := |cs| - 1;
      if CommitsAt(cfg, cs, n) && Reviews(cs[n], b) then Some(cs[n].meter.accept) else LastReview(cfg, cs[..n], b)
  }

  predicate Reviews(c: Command, b: Id) { c.OnMeter? && c.meter.ReviewBatch? && c.meter.batch == b }

  predicate IsAccepted(t: Tables, b: Id) { b in t.batches && t.batches[b].status.Accepted? }

  /** Only a review makes a batch accepted or takes that away. */
  lemma AcceptedStep(cfg: Config, t: Tables, c: Command, b: Id)
    ensures IsAccepted(After(cfg, t, c), b) <==>
      if Commits(cfg, t, c) && Reviews(c, b) then c.meter.accept else IsAccepted(t, b)
  {
    hide Exec, MeterStep, TextBefore;
    StepTells(cfg, t, c, b);
    F.ExecGroups(cfg, t, c);
    if Commits(cfg, t, c) && c.OnMeter? { AcceptedCall(cfg, t, c.meter, b); }
  }

  lemma AcceptedCall(cfg: Config, t: Tables, c: MeterCall, b: Id)
    requires MeterStep(cfg, t, c).Ok?
    ensures c.CreateBatch? && c.batch == b ==> b !in t.batches
    ensures (c.ClaimBatch? || c.SubmitBatch?) && c.batch == b ==> !IsAccepted(t, b)
    ensures c.ReviewBatch? && c.batch == b ==> b in t.batches && t.batches[b].status.Submitted?
  {
    hide M.InsertFrom, M.SegmentIds, C.ListStreams, M.ClaimStep, M.SubmitBatchStep, M.ReviewBatchStep, TextBefore;
    match c
    case ClaimBatch(user, batch, token, now) => ClaimCommitsIff(t, cfg.meterTtl, user, batch, token, now);
    case SubmitBatch(user, batch, token, now) => HolderCommitsIff(t, 0, user, batch, token, "", "", "", true, 0, now);
    case ReviewBatch(batch, accept, reason, now) => ReviewCommitsIff(t, batch, accept, reason, now);
    case _ =>
  }

  /** Over any run from the empty database a batch is accepted exactly when its last committed review accepted it. */
  lemma {:induction false} AcceptedIffReviewed(cfg: Config, cs: seq<Command>, b: Id)
    ensures IsAccepted(Run(cfg, EMPTY, cs), b) <==> LastReview(cfg, cs, b) == Some(true)
  {
    hide After, Commits, IsAccepted, Reviews;
    if cs == [] {
      NoneAccepted(b);
    } else {
      var n := |cs| - 1;
      AcceptedIffReviewed(cfg, cs[..n], b);
      AcceptedStep(cfg, Run(cfg, EMPTY, cs[..n]), cs[n], b);
    }
  }

  lemma NoneAccepted(b: Id)
    ensures !IsAccepted(EMPTY, b)
  {
  }

  function Accepting(b: Id): Command -> bool { (c: Command) => Reviews(c, b) && c.meter.accept }

  lemma {:induction false} ReviewHappened(cfg: Config, cs: seq<Command>, b: Id)
    requires LastReview(cfg, cs, b) == Some(true)
    ensures Happened(cfg, cs, Accepting(b))
  {
    hide CommitsAt, Happened, Reviews;
    HappenedNext(cfg, cs, Accepting(b));
    var n := |cs| - 1;
    if !(CommitsAt(cfg, cs, n) && Reviews(cs[n], b)) { ReviewHappened(cfg, cs[..n], b); }
  }

  /** Every workload in a release has a batch that a committed review accepted. */
  lemma ReleasedWasAccepted(cfg: Config, cs: seq<Command>, r: Id, m: Id) returns (b: Id)
    requires (r, m) in Run(cfg, EMPTY, cs).releaseItems
    ensures var t := Run(cfg, EMPTY, cs);
      && m in t.members && b in t.batches && t.batches[b].workload == t.members[m].workload
      && Happened(cfg, cs, Accepting(b))
  {
    hide Run, Inv, Reachable, Happened, Settlement.Meters, Settlement.TiledStream, Blank;
    var t := Run(cfg, EMPTY, cs);
    InvAlong(cfg, cs);
    Settlement.ItemIsMember(t, r, m);
    Settlement.MemberSettled(t, m);
    b :| b in t.batches && Settlement.Meters(t, b, t.members[m].workload);
    MetersAccepted(t, b, t.members[m].workload);
    AcceptedIffReviewed(cfg, cs, b);
    ReviewHappened(cfg, cs, b);
  }

  lemma MetersAccepted(t: Tables, b: Id, w: Id)
    requires Settlement.Meters(t, b, w)
    ensures IsAccepted(t, b) && t.batches[b].workload == w
  {
  }

  // ---- Which batches can be created ----

  predicate Once(ids: seq<Id>) { forall i, j :: 0 <= i < j < |ids| ==> ids[i] != ids[j] }

  lemma {:induction false} ListedOnce(segments: map<Id, Segment>, streams: seq<Id>)
    requires Once(streams)
    ensures Once(M.SegmentIds(segments, streams))
  {
    hide C.ListSegments;
    if streams != [] {
      ListedOnce(segments, streams[1..]);
      var head, tail := C.ListSegments(segments, streams[0]), M.SegmentIds(segments, streams[1..]);
      forall i, j | 0 <= i < |head| && 0 <= j < |tail|
        ensures head[i] != tail[j]
      {
        assert head[i] in head && tail[j] in tail;
        MI.StreamLists(segments, streams[0], head[i]);
        MI.SegmentIdsCover(segments, streams[1..], tail[j]);
      }
      ConcatOnce(head, tail);
    }
  }

  lemma ConcatOnce(a: seq<Id>, b: seq<Id>)
    requires Once(a) && Once(b) && forall i, j :: 0 <= i < |a| && 0 <= j < |b| ==> a[i] != b[j]
    ensures Once(a + b)
  {
  }

  /** With different new segments, the insertion succeeds exactly when the drawn ids are new and different. */
  lemma {:induction false} InsertCommitsIff(
    items: map<Id, MeterItem>, batch: Id, segments: seq<Id>, ids: nat -> Id, k: nat, now: Instant)
    requires k <= |segments| && forall i, j :: k <= i < j < |segments| ==> segments[i] != segments[j]
    requires forall i, l :: i in items && items[i].batch == batch && k <= l < |segments| ==> items[i].segment != segments[l]
    ensures M.InsertFrom(items, batch, segments, ids, k, now).Ok? <==> LH.FreshIds(items, ids, k, |segments|)
    decreases |segments| - k
  {
    if k < |segments| {
      assert forall i :: i in M.ItemsOf(items, batch) <==> i in items && items[i].batch == batch;
      if ids(k) !in items { InsertCommitsIff(items[ids(k) := M.NewItem(batch, segments[k], now)], batch, segments, ids, k + 1, now); }
    }
  }

  /** The workload is settled, has a stream, and all its streams are aligned. */
  predicate Meterable(t: Tables, w: Id) {
    && w in t.workloads && t.workloads[w].status.Settled?
    && (exists s :: s in t.streams && t.streams[s].workload == w)
    && (forall s :: s in t.streams && t.streams[s].workload == w ==> t.streams[s].status.Aligned?)
  }

  /** In a reachable state a batch is created exactly for a workload that can be metered and has usage, under new ids. */
  lemma CreateCommitsIff(cfg: Config, t: Tables, workload: Id, batch: Id, ids: nat -> Id, now: Instant)
    requires Reachable(cfg, t)
    ensures M.CreateStep(t, workload, batch, ids, now).Ok? <==>
      && workload != "" && Meterable(t, workload) && batch !in t.batches
      && SegmentsOfWorkload(t.streams, t.segments, workload) != {}
      && LH.FreshIds(t.items, ids, 0, |M.SegmentIds(t.segments, C.ListStreams(t.streams, workload))|)
  {
    hide Reachable, Inv, C.ListStreams, M.SegmentIds, M.InsertFrom, LH.FreshIds, SegmentsOfWorkload;
    Reachability.ReachableInv(cfg, t);
    var streams := C.ListStreams(t.streams, workload);
    var all := M.SegmentIds(t.segments, streams);
    ListedStreams(t.streams, workload);
    UsageListed(t, workload);
    if batch !in t.batches {
      ListedOnce(t.segments, streams);
      NoItems(t, batch);
      InsertCommitsIff(t.items, batch, all, ids, 0, now);
    }
  }

  lemma ListedStreams(streams: map<Id, Stream>, workload: Id)
    ensures var listed := C.ListStreams(streams, workload);
      && (listed != [] <==> exists s :: s in streams && streams[s].workload == workload)
      && (forall s :: s in listed <==> s in streams && streams[s].workload == workload)
  {
    hide C.ListStreams;
    var listed := C.ListStreams(streams, workload);
    if listed != [] { assert listed[0] in listed; }
    if s :| s in streams && streams[s].workload == workload { assert s in listed; }
  }

  lemma UsageListed(t: Tables, workload: Id)
    requires Inv(t)
    ensures M.SegmentIds(t.segments, C.ListStreams(t.streams, workload)) != [] <==> SegmentsOfWorkload(t.streams, t.segments, workload) != {}
  {
    hide Inv, C.ListStreams, M.SegmentIds, SegmentsOfWorkload, SegmentsOk;
    CI.InvSegments(t);
    var all := M.SegmentIds(t.segments, C.ListStreams(t.streams, workload));
    if all != [] {
      assert all[0] in all;
      MI.CollectsAll(t.streams, t.segments, workload, all[0]);
    }
    if x :| x in SegmentsOfWorkload(t.streams, t.segments, workload) { MI.CollectsAll(t.streams, t.segments, workload, x); }
  }

  lemma NoItems(t: Tables, batch: Id)
    requires Inv(t) && batch !in t.batches
    ensures forall i :: i in t.items ==> t.items[i].batch != batch
  {
    hide Inv, SegmentsOfWorkload, Covered;
    assert ItemsOk(t.streams, t.segments, t.batches, t.items) by { InvParts(t); }
  }
}
