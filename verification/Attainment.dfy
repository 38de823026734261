/** The guards of the pipeline can all be met: every reachable state leads on to a new published release. */
module Attainment {
  import opened Basics
  import opened Domain
  import opened System
  import opened Timestamps
  import W = Workloads
  import C = Capacity
  import M = Metering
  import G = Ledger
  import F = Frames
  import Reachability
  import Settlement
  import LedgerStability
  import X = TextLeases

  // ---- Runs ----

  /** Some run of calls leads from `t` to `u`. */
  ghost predicate Leads(cfg: Config, t: Tables, u: Tables) { exists cs :: Run(cfg, t, cs) == u }

  lemma LeadsOn(cfg: Config, t: Tables, u: Tables, c: Command)
    requires Leads(cfg, t, u)
    ensures Leads(cfg, t, After(cfg, u, c))
  {
    hide After;
    var cs :| Run(cfg, t, cs) == u;
    assert (cs + [c])[..|cs + [c]| - 1] == cs;
    assert Run(cfg, t, cs + [c]) == After(cfg, u, c);
  }

  lemma LeadsAcross(cfg: Config, t: Tables, u: Tables, v: Tables)
    requires Leads(cfg, t, u) && Leads(cfg, u, v)
    ensures Leads(cfg, t, v) && (Reachable(cfg, t) ==> Reachable(cfg, v))
  {
    hide Run;
    var a, b :| Run(cfg, t, a) == u && Run(cfg, u, b) == v;
    RunConcat(cfg, t, a, b);
    if Reachable(cfg, t) {
      var before :| Run(cfg, EMPTY, before) == t;
      RunConcat(cfg, EMPTY, before, a + b);
    }
  }

  lemma LeadsOne(cfg: Config, t: Tables, c: Command)
    ensures Leads(cfg, t, t) && Leads(cfg, t, After(cfg, t, c))
  {
    hide After;
    assert Run(cfg, t, []) == t;
    LeadsOn(cfg, t, t, c);
  }

  // ---- Names that nothing uses yet ----

  /** The id `x` names one new row in each table, and `y` the second stream, segment and item. */
  predicate GoodNames(x: Id, y: Id) { x != y && y != "" && Trim(x) == x != "" && |x| <= 128 }

  predicate ClearSession(t: Tables, x: Id) {
    x !in t.workloads && x !in t.leases && x !in t.records && forall l :: l in t.leases ==> t.leases[l].pool != x
  }

  predicate ClearUsage(t: Tables, x: Id, y: Id) {
    && x !in t.streams && y !in t.streams && x !in t.segments && y !in t.segments
    && W.StreamsOf(t.streams, x) == {} && C.SegmentsOf(t.segments, x) == {} && C.SegmentsOf(t.segments, y) == {}
  }

  predicate ClearMetering(t: Tables, x: Id, y: Id) {
    x !in t.batches && x !in t.items && y !in t.items && M.ItemsOf(t.items, x) == {}
  }

  predicate ClearLedger(t: Tables, x: Id) {
    && x !in t.drafts && (forall d :: d in t.drafts ==> t.drafts[d].name != x) && x !in t.members && G.MembersOf(t.members, x) == {}
    && x !in t.releases && (forall r :: r in t.releases ==> t.releases[r].ledger != x) && (x, 1) !in t.reviews
  }

  /** Nothing uses the names as ids, pool, name or key. */
  predicate Unused(t: Tables, x: Id, y: Id) {
    && GoodNames(x, y) && ClearSession(t, x)
    && x !in t.streams && y !in t.streams && x !in t.segments && y !in t.segments && ClearMetering(t, x, y) && ClearLedger(t, x)
  }

  lemma UnusedUsage(t: Tables, x: Id, y: Id)
    requires Inv(t) && Unused(t, x, y)
    ensures ClearUsage(t, x, y)
  {
    hide Inv, StreamOk, ClearMetering, ClearLedger;
    assert SegmentsOk(t.streams, t.segments) && StreamsOk(t.workloads, t.streams, t.segments) by { InvParts(t); }
  }

  // ---- The session ----

  function Stock(t: Tables, x: Id): Command {
    Catalog(t.providers[x := Provider(true)], t.pools[x := Pool(x, {0}, true)], t.offers[x := Offer({0}, true)])
  }

  function Plans(x: Id, now: Instant): Command { OnWorkload(Plan(x, W.PlanInput(x, x, x, x, x), W.Draw(x, x, x), now)) }

  function Moves(x: Id, call: W.StatusCall, now: Instant): Command { OnWorkload(Change(Principal(x, true), x, call, now)) }

  predicate Own(t: Tables, x: Id, status: WorkloadStatus) {
    && x in t.workloads && t.workloads[x].status == status && t.workloads[x].operator == x && !Blank(t.workloads[x].reservation)
  }

  lemma Planning(cfg: Config, t: Tables, x: Id, y: Id, now: Instant)
    requires GoodNames(x, y) && ClearSession(t, x) && InStock(t, x)
    ensures var u := After(cfg, t, Plans(x, now));
      Own(u, x, Planned) && u == t.(workloads := u.workloads, leases := u.leases, records := u.records)
  {
    hide Trim, TextBefore, W.PlanStep, InStock, Own, Exec;
    F.ExecGroups(cfg, t, Plans(x, now));
    PlanCommits(t, cfg.poolTtl, x, now);
  }

  /** The catalog offers what the plan asks for. */
  predicate InStock(t: Tables, x: Id) {
    && x in t.providers && t.providers[x].active && x in t.pools && t.pools[x] == Pool(x, {0}, true)
    && x in t.offers && t.offers[x] == Offer({0}, true)
  }

  lemma NoLeaseYet(leases: map<Id, PoolLease>, x: Id)
    requires x !in leases && forall l :: l in leases ==> leases[l].pool != x
    ensures !W.LeaseCollides(leases, x, x, x)
  {
  }

  lemma PlanCommits(t: Tables, ttl: int, x: Id, now: Instant)
    requires Trim(x) == x != "" && |x| <= 128 && x !in t.workloads && x !in t.records && InStock(t, x)
    requires x !in t.leases && forall l :: l in t.leases ==> t.leases[l].pool != x
    ensures var r := W.PlanStep(TextBefore, t, ttl, x, W.PlanInput(x, x, x, x, x), W.Draw(x, x, x), now);
      && r.Ok? && Own(r.value.tables, x, Planned)
      && r.value.tables == t.(workloads := r.value.tables.workloads, leases := r.value.tables.leases, records := r.value.tables.records)
  {
    hide Trim, TextBefore, W.Fingerprint, W.LeaseCollides, W.Matched, W.LiveLease;
    NoLeaseYet(t.leases, x);
    StockMatches(t, x);
  }

  lemma StockMatches(t: Tables, x: Id)
    requires InStock(t, x)
    ensures W.Matched(t, W.PlanInput(x, x, x, x, x)) == Ok(())
  {
  }

  lemma Stocked(cfg: Config, t: Tables, x: Id)
    ensures After(cfg, t, Stock(t, x)) == t.(
      providers := t.providers[x := Provider(true)], pools := t.pools[x := Pool(x, {0}, true)], offers := t.offers[x := Offer({0}, true)])
  {
  }

  lemma StockClear(t: Tables, u: Tables, x: Id)
    requires ClearSession(t, x) && u == t.(providers := u.providers, pools := u.pools, offers := u.offers)
    ensures ClearSession(u, x)
  {
  }

  lemma Moving(cfg: Config, t: Tables, x: Id, call: W.StatusCall, now: Instant)
    requires x != "" && Own(t, x, call.From())
    ensures var u := After(cfg, t, Moves(x, call, now));
      Own(u, x, call.To()) && u == t.(workloads := u.workloads)
  {
    hide Blank, Exec;
    F.ExecGroups(cfg, t, Moves(x, call, now));
  }

  /** The rows outside the session. */
  predicate SameBeyond(t: Tables, u: Tables) {
    && u.streams == t.streams && u.segments == t.segments && u.batches == t.batches && u.items == t.items && u.drafts == t.drafts
    && u.members == t.members && u.releases == t.releases && u.reviews == t.reviews
  }

  lemma SessionStarts(cfg: Config, t: Tables, x: Id, y: Id, now: Instant) returns (u: Tables)
    requires GoodNames(x, y) && ClearSession(t, x)
    ensures Leads(cfg, t, u) && Own(u, x, Executing) && SameBeyond(t, u)
  {
    hide After, Leads, ClearSession, Own, Trim;
    u := After(cfg, t, Stock(t, x));
    LeadsOne(cfg, t, Stock(t, x));
    Stocked(cfg, t, x);
    StockClear(t, u, x);
    Planning(cfg, u, x, y, now);
    LeadsOn(cfg, t, u, Plans(x, now));
    u := After(cfg, u, Plans(x, now));
    Moving(cfg, u, x, W.MarkReady, now);
    LeadsOn(cfg, t, u, Moves(x, W.MarkReady, now));
    u := After(cfg, u, Moves(x, W.MarkReady, now));
    Moving(cfg, u, x, W.Start, now);
    LeadsOn(cfg, t, u, Moves(x, W.Start, now));
    u := After(cfg, u, Moves(x, W.Start, now));
  }

  // ---- Usage ----

  function Opens(x: Id, kind: Kind, id: Id, now: Instant): Command { OnCapacity(OpenStream(Principal(x, true), x, kind, id, now)) }

  /** Sixty-four hexadecimal digits. */
  function Checksum(): string { seq(64, (k: nat) => '0') }

  /** One second of usage, numbered zero. */
  function Input(x: Id): C.SegmentInput { C.SegmentInput(0, 0, 1, x, Checksum(), x) }

  function Always(id: Id): nat -> Id { (k: nat) => id }

  function Appends(x: Id, id: Id, now: Instant): Command { OnCapacity(Append(Principal(x, true), id, [Input(x)], Always(id), now)) }

  function Seals(x: Id, id: Id, now: Instant): Command { OnCapacity(Seal(Principal(x, true), id, now)) }

  function Aligns(x: Id, now: Instant): Command { OnCapacity(Align(Principal(x, true), x, 0, now)) }

  /** A stream of `x` with one segment under its own id. */
  predicate Filled(t: Tables, x: Id, id: Id, status: StreamStatus) {
    && id in t.streams && t.streams[id].workload == x && t.streams[id].status == status
    && t.streams[id].count == 1 && t.streams[id].first == 0 && t.streams[id].last == 1
    && C.SegmentsOf(t.segments, id) == {id} && t.segments[id].sequence == 0
  }

  lemma Opening(cfg: Config, t: Tables, x: Id, kind: Kind, id: Id, now: Instant)
    requires x != "" && Own(t, x, Executing) && id !in t.streams
    requires forall s :: s in W.StreamsOf(t.streams, x) ==> t.streams[s].kind != kind
    ensures After(cfg, t, Opens(x, kind, id, now)) == t.(streams := t.streams[id := Stream(x, kind, Open, 0, 0, 0, "", now, now, 1)])
  {
    hide Blank, Exec, W.StreamsOf;
    F.ExecGroups(cfg, t, Opens(x, kind, id, now));
  }

  lemma InputIsValid(x: Id)
    requires !Blank(x)
    ensures C.ValidInputs([Input(x)])
  {
    hide Blank;
  }

  lemma FirstSegment(segments: map<Id, Segment>, id: Id, i: C.SegmentInput, now: Instant)
    requires C.SegmentsOf(segments, id) == {} && id !in segments
    ensures C.AppendFrom(segments, id, [i], Always(id), 0, now) == Ok(segments[id := C.SegmentFor(id, i, now)])
  {
    hide C.Lower;
    assert forall s :: s in segments && segments[s].stream == id ==> s in C.SegmentsOf(segments, id);
    assert C.KeyOwners(segments, id, i.key) == {};
  }

  lemma OneSegment(segments: map<Id, Segment>, id: Id, s: Segment)
    requires C.SegmentsOf(segments, id) == {} && id !in segments && s.stream == id
    ensures var next := segments[id := s];
      C.SegmentsOf(next, id) == {id} && C.FirstNanos(next, id) == s.start && C.LastNanos(next, id) == s.end
  {
    var next := segments[id := s];
    assert forall o :: o in segments && segments[o].stream == id ==> o in C.SegmentsOf(segments, id);
    assert C.SegmentsOf(next, id) == {id};
    assert C.Starts(next, id) == {s.start} && C.Ends(next, id) == {s.end};
  }

  lemma Appending(cfg: Config, t: Tables, x: Id, id: Id, now: Instant)
    requires id != "" && !Blank(x) && Own(t, x, Executing) && id in t.streams && t.streams[id].workload == x && t.streams[id].status.Open?
    requires C.SegmentsOf(t.segments, id) == {} && id !in t.segments
    ensures var u := After(cfg, t, Appends(x, id, now));
      && Filled(u, x, id, Open)
      && u.streams == t.streams[id := u.streams[id]] && u.streams[id].kind == t.streams[id].kind
      && u.segments == t.segments[id := u.segments[id]] && u.segments[id].stream == id
      && u == t.(streams := u.streams, segments := u.segments)
  {
    hide Blank, Exec, C.ValidInputs, C.AppendFrom, C.SegmentsOf, C.FirstNanos, C.LastNanos, C.Lower;
    F.ExecGroups(cfg, t, Appends(x, id, now));
    InputIsValid(x);
    FirstSegment(t.segments, id, Input(x), now);
    OneSegment(t.segments, id, C.SegmentFor(id, Input(x), now));
  }

  lemma OneListed(segments: map<Id, Segment>, id: Id)
    requires C.SegmentsOf(segments, id) == {id}
    ensures C.ListSegments(segments, id) == [id]
  {
    hide C.ListSegments;
    assert C.ListSegments(segments, id)[0] in C.ListSegments(segments, id);
  }

  lemma OneAdjacent(segments: map<Id, Segment>, id: Id)
    requires C.SegmentsOf(segments, id) == {id} && segments[id].sequence == 0
    ensures |C.SegmentRows(segments, id)| == 1 && C.Adjacent(C.SegmentRows(segments, id))
  {
    hide C.ListSegments, C.SegmentsOf;
    OneListed(segments, id);
  }

  function SealedRow(segments: map<Id, Segment>, id: Id, s: Stream, now: Instant): Stream {
    s.(status := Sealed, digest := C.SegmentBytes(C.SegmentRows(segments, id)), updated := now, version := s.version + 1)
  }

  lemma SealStepIs(t: Tables, x: Id, id: Id, now: Instant)
    requires Own(t, x, Executing) && Filled(t, x, id, Open)
    ensures C.SealStep(t, Principal(x, true), id, now) == Ok(t.(streams := t.streams[id := SealedRow(t.segments, id, t.streams[id], now)]))
  {
    hide Blank, C.SegmentRows, C.Adjacent, C.SegmentBytes, C.SegmentsOf;
    OneAdjacent(t.segments, id);
  }

  lemma Sealing(cfg: Config, t: Tables, x: Id, id: Id, now: Instant)
    requires Own(t, x, Executing) && Filled(t, x, id, Open)
    ensures var u := After(cfg, t, Seals(x, id, now));
      && Filled(u, x, id, Sealed) && u == t.(streams := t.streams[id := u.streams[id]]) && u.streams[id].kind == t.streams[id].kind
  {
    hide Own, Exec, C.SealStep, C.SegmentRows, C.SegmentBytes, C.SegmentsOf;
    F.ExecGroups(cfg, t, Seals(x, id, now));
    SealStepIs(t, x, id, now);
  }

  lemma SameWindow(streams: map<Id, Stream>, ids: set<Id>)
    requires ids <= streams.Keys && ids != {} && forall s :: s in ids ==> streams[s].first == 0 && streams[s].last == 1
    ensures C.MaxStart(streams, ids) == 0 && C.MinEnd(streams, ids) == 1
  {
    var any :| any in ids;
    var lasts := {MAX_INT64} + set s | s in ids :: streams[s].last;
    assert streams[any].last in lasts;
  }

  /** The streams of `x` are `x` and `y`, one segment each. */
  predicate BothFilled(t: Tables, x: Id, y: Id, status: StreamStatus) {
    x != y && W.StreamsOf(t.streams, x) == {x, y} && Filled(t, x, x, status) && Filled(t, x, y, status)
  }

  lemma AlignStepIs(t: Tables, x: Id, y: Id, now: Instant)
    requires Own(t, x, Executing) && BothFilled(t, x, y, Sealed)
    ensures C.AlignStep(t, Principal(x, true), x, 0, now) == Ok(t.(streams := C.AlignAll(t.streams, {x, y}, now)))
  {
    hide Blank, C.MaxStart, C.MinEnd, C.SegmentsOf, W.StreamsOf, C.AlignAll;
    SameWindow(t.streams, {x, y});
  }

  lemma AlignedBoth(t: Tables, x: Id, y: Id, now: Instant)
    requires BothFilled(t, x, y, Sealed)
    ensures BothFilled(t.(streams := C.AlignAll(t.streams, {x, y}, now)), x, y, Aligned)
  {
    hide C.SegmentsOf;
    var streams := C.AlignAll(t.streams, {x, y}, now);
    assert W.StreamsOf(streams, x) == W.StreamsOf(t.streams, x);
    hide W.StreamsOf;
  }

  lemma Aligning(cfg: Config, t: Tables, x: Id, y: Id, now: Instant)
    requires Own(t, x, Executing) && BothFilled(t, x, y, Sealed)
    ensures var u := After(cfg, t, Aligns(x, now));
      BothFilled(u, x, y, Aligned) && u == t.(streams := u.streams)
  {
    hide Own, Exec, BothFilled, C.AlignStep, C.AlignAll;
    F.ExecGroups(cfg, t, Aligns(x, now));
    AlignStepIs(t, x, y, now);
    AlignedBoth(t, x, y, now);
  }

  lemma StreamAdded(streams: map<Id, Stream>, x: Id, id: Id, s: Stream)
    requires s.workload == x
    ensures W.StreamsOf(streams[id := s], x) == W.StreamsOf(streams, x) + {id}
  {
  }

  lemma SegmentAdded(segments: map<Id, Segment>, other: Id, id: Id, s: Segment)
    requires id !in segments && s.stream == id != other
    ensures C.SegmentsOf(segments[id := s], other) == C.SegmentsOf(segments, other)
  {
  }

  /** Rows other than streams and segments, and the workload. */
  predicate SameAround(t: Tables, u: Tables) { u == t.(streams := u.streams, segments := u.segments) }

  lemma UsageOpens(cfg: Config, t: Tables, x: Id, y: Id, now: Instant) returns (u: Tables)
    requires GoodNames(x, y) && Own(t, x, Executing) && ClearUsage(t, x, y)
    ensures Leads(cfg, t, u) && SameAround(t, u) && W.StreamsOf(u.streams, x) == {x, y}
    ensures u.segments == t.segments
    ensures x in u.streams && u.streams[x].workload == x && u.streams[x].status.Open?
    ensures y in u.streams && u.streams[y].workload == x && u.streams[y].status.Open?
  {
    hide After, Leads, W.StreamsOf, Blank, Trim, C.SegmentsOf;
    LeadsOne(cfg, t, Opens(x, Gpu, x, now));
    Opening(cfg, t, x, Gpu, x, now);
    u := After(cfg, t, Opens(x, Gpu, x, now));
    StreamAdded(t.streams, x, x, u.streams[x]);
    LeadsOn(cfg, t, u, Opens(x, Cpu, y, now));
    Opening(cfg, u, x, Cpu, y, now);
    var v := After(cfg, u, Opens(x, Cpu, y, now));
    StreamAdded(u.streams, x, y, v.streams[y]);
    u := v;
  }

  lemma UsageFills(cfg: Config, t: Tables, x: Id, y: Id, now: Instant) returns (u: Tables)
    requires GoodNames(x, y) && Own(t, x, Executing) && W.StreamsOf(t.streams, x) == {x, y}
    requires x !in t.segments && y !in t.segments && C.SegmentsOf(t.segments, x) == {} && C.SegmentsOf(t.segments, y) == {}
    requires x in t.streams && t.streams[x].workload == x && t.streams[x].status.Open?
    requires y in t.streams && t.streams[y].workload == x && t.streams[y].status.Open?
    ensures Leads(cfg, t, u) && SameAround(t, u) && BothFilled(u, x, y, Open)
  {
    hide After, Leads, W.StreamsOf, Trim, C.SegmentsOf;
    LeadsOne(cfg, t, Appends(x, x, now));
    Appending(cfg, t, x, x, now);
    u := After(cfg, t, Appends(x, x, now));
    SegmentAdded(t.segments, y, x, u.segments[x]);
    StreamAdded(t.streams, x, x, u.streams[x]);
    LeadsOn(cfg, t, u, Appends(x, y, now));
    Appending(cfg, u, x, y, now);
    var v := After(cfg, u, Appends(x, y, now));
    SegmentAdded(u.segments, x, y, v.segments[y]);
    StreamAdded(u.streams, x, y, v.streams[y]);
    u := v;
  }

  lemma UsageSeals(cfg: Config, t: Tables, x: Id, y: Id, now: Instant) returns (u: Tables)
    requires GoodNames(x, y) && Own(t, x, Executing) && BothFilled(t, x, y, Open)
    ensures Leads(cfg, t, u) && SameAround(t, u) && BothFilled(u, x, y, Aligned)
  {
    hide After, Leads, W.StreamsOf, Blank, Trim, C.SegmentsOf;
    LeadsOne(cfg, t, Seals(x, x, now));
    Sealing(cfg, t, x, x, now);
    u := After(cfg, t, Seals(x, x, now));
    StreamAdded(t.streams, x, x, u.streams[x]);
    LeadsOn(cfg, t, u, Seals(x, y, now));
    Sealing(cfg, u, x, y, now);
    var v := After(cfg, u, Seals(x, y, now));
    StreamAdded(u.streams, x, y, v.streams[y]);
    LeadsOn(cfg, t, v, Aligns(x, now));
    Aligning(cfg, v, x, y, now);
    u := After(cfg, v, Aligns(x, now));
  }

  // ---- Settling ----

  function Submits(x: Id, now: Instant): Command { OnWorkload(Submit(Principal(x, true), x, now)) }

  lemma Submitting(cfg: Config, t: Tables, x: Id, y: Id, now: Instant)
    requires x != y && Own(t, x, Executing) && BothFilled(t, x, y, Aligned)
    ensures var u := After(cfg, t, Submits(x, now));
      Own(u, x, WorkloadStatus.Metering) && u == t.(workloads := u.workloads)
  {
    hide Blank, Exec, W.StreamsOf, C.SegmentsOf;
    F.ExecGroups(cfg, t, Submits(x, now));
  }

  lemma Settling(cfg: Config, t: Tables, x: Id, y: Id, now: Instant) returns (u: Tables)
    requires GoodNames(x, y) && Own(t, x, Executing) && BothFilled(t, x, y, Aligned)
    ensures Leads(cfg, t, u) && Own(u, x, Settled) && u == t.(workloads := u.workloads)
  {
    hide After, Leads, Own, BothFilled, Trim;
    LeadsOne(cfg, t, Submits(x, now));
    Submitting(cfg, t, x, y, now);
    u := After(cfg, t, Submits(x, now));
    LeadsOn(cfg, t, u, Moves(x, W.Settle, now));
    Moving(cfg, u, x, W.Settle, now);
    u := After(cfg, u, Moves(x, W.Settle, now));
  }

  // ---- Metering ----

  function Pair(x: Id, y: Id): nat -> Id { (k: nat) => if k == 0 then x else y }

  function Creates(x: Id, y: Id, now: Instant): Command { OnMeter(CreateBatch(x, x, Pair(x, y), now)) }

  function Claims(x: Id, now: Instant): Command { OnMeter(ClaimBatch(x, x, x, now)) }

  function Records(x: Id, item: Id, now: Instant): Command { OnMeter(RecordItem(x, x, x, item, x, x, true, 1, now)) }

  function SubmitsBatch(x: Id, now: Instant): Command { OnMeter(SubmitBatch(x, x, x, now)) }

  function Accepts(x: Id, now: Instant): Command { OnMeter(ReviewBatch(x, true, "", now)) }

  lemma TwoStreams(t: Tables, x: Id, y: Id) returns (a: Id, b: Id)
    requires x != y && BothFilled(t, x, y, Aligned)
    ensures {a, b} == {x, y} && a != b
    ensures C.ListStreams(t.streams, x) == [a, b] && M.SegmentIds(t.segments, C.ListStreams(t.streams, x)) == [a, b]
  {
    hide C.ListStreams, C.ListSegments;
    var listed := C.ListStreams(t.streams, x);
    a, b := listed[0], listed[1];
    assert a in listed && b in listed;
    OneListed(t.segments, a);
    OneListed(t.segments, b);
    assert listed == [a, b] && listed[1..] == [b] && [b][1..] == [];
    assert M.SegmentIds(t.segments, []) == [];
    assert M.SegmentIds(t.segments, [b]) == [b];
  }

  /** The batch has exactly the items `x` and `y`. */
  predicate Items(t: Tables, x: Id, y: Id) {
    M.ItemsOf(t.items, x) == {x, y} && t.items[x].version == 1 && t.items[y].version == 1
  }

  lemma TwoItems(items: map<Id, MeterItem>, x: Id, y: Id, a: Id, b: Id, now: Instant)
    requires x != y && a != b && x !in items && y !in items && M.ItemsOf(items, x) == {}
    ensures var next := items[x := M.NewItem(x, a, now)][y := M.NewItem(x, b, now)];
      && M.InsertFrom(items, x, [a, b], Pair(x, y), 0, now) == Ok(next)
      && M.ItemsOf(next, x) == {x, y}
  {
    var one := items[x := M.NewItem(x, a, now)];
    var two := one[y := M.NewItem(x, b, now)];
    assert forall i :: i in items && items[i].batch == x ==> i in M.ItemsOf(items, x);
    assert M.ItemsOf(one, x) == {x};
    assert M.InsertFrom(two, x, [a, b], Pair(x, y), 2, now) == Ok(two);
    assert M.InsertFrom(one, x, [a, b], Pair(x, y), 1, now) == Ok(two);
  }

  lemma CreateStepIs(t: Tables, x: Id, y: Id, now: Instant, a: Id, b: Id)
    requires x != "" && Own(t, x, Settled) && BothFilled(t, x, y, Aligned) && x !in t.batches && {a, b} == {x, y}
    requires C.ListStreams(t.streams, x) == [a, b] && M.SegmentIds(t.segments, [a, b]) == [a, b]
    requires M.InsertFrom(t.items, x, [a, b], Pair(x, y), 0, now).Ok?
    ensures M.CreateStep(t, x, x, Pair(x, y), now) == Ok(t.(
      batches := t.batches[x := Batch(x, BatchOpen, "", "", None, None, None, now, now, 1)],
      items := M.InsertFrom(t.items, x, [a, b], Pair(x, y), 0, now).value))
  {
    hide Blank, M.SegmentIds, C.ListStreams, M.InsertFrom, C.SegmentsOf, W.StreamsOf;
    assert forall s :: s in [a, b] ==> s in {x, y};
  }

  lemma Creating(cfg: Config, t: Tables, x: Id, y: Id, now: Instant)
    requires GoodNames(x, y) && Own(t, x, Settled) && BothFilled(t, x, y, Aligned) && ClearMetering(t, x, y)
    ensures var u := After(cfg, t, Creates(x, y, now));
      && x in u.batches && u.batches[x] == Batch(x, BatchOpen, "", "", None, None, None, now, now, 1) && Items(u, x, y)
      && u == t.(batches := u.batches, items := u.items)
  {
    hide Own, BothFilled, Trim, Exec, M.CreateStep, M.SegmentIds, C.ListStreams, M.InsertFrom, M.ItemsOf;
    F.ExecGroups(cfg, t, Creates(x, y, now));
    var a, b := TwoStreams(t, x, y);
    TwoItems(t.items, x, y, a, b, now);
    CreateStepIs(t, x, y, now, a, b);
  }

  /** The batch is held by `x` until `until`. */
  predicate HeldUntil(t: Tables, x: Id, until: Instant) {
    x in t.batches
    && t.batches[x].workload == x && t.batches[x].status.BatchClaimed? && t.batches[x].owner == t.batches[x].token == x
    && t.batches[x].expires == Some(until)
  }

  lemma Claiming(cfg: Config, t: Tables, x: Id, now: Instant)
    requires x != "" && x in t.batches && t.batches[x].workload == x && t.batches[x].status.BatchOpen?
    ensures var u := After(cfg, t, Claims(x, now));
      HeldUntil(u, x, now + cfg.meterTtl) && u == t.(batches := u.batches)
  {
    hide Exec, TextBefore;
    F.ExecGroups(cfg, t, Claims(x, now));
  }

  /** The item as recording leaves it. */
  function Recorded(i: MeterItem, x: Id, now: Instant): MeterItem {
    i.(label_ := x, payload := x, complete := true, updated := now, version := 2)
  }

  predicate Unrecorded(t: Tables, x: Id, item: Id) { item in M.ItemsOf(t.items, x) && t.items[item].version == 1 }

  lemma RecordStepIs(t: Tables, x: Id, item: Id, ttl: int, now: Instant)
    requires Trim(x) == x != "" && |x| <= 128 && HeldUntil(t, x, now + ttl) && 0 < ttl && Unrecorded(t, x, item)
    ensures M.RecordStep(t, x, x, x, item, x, x, true, 1, now) == Ok(t.(items := t.items[item := Recorded(t.items[item], x, now)]))
  {
    hide Trim;
  }

  lemma SameItemsOf(items: map<Id, MeterItem>, x: Id, item: Id, i: MeterItem)
    requires item in M.ItemsOf(items, x) && i.batch == x
    ensures M.ItemsOf(items[item := i], x) == M.ItemsOf(items, x)
  {
  }

  lemma Recording(cfg: Config, t: Tables, x: Id, y: Id, item: Id, now: Instant)
    requires GoodNames(x, y) && HeldUntil(t, x, now + cfg.meterTtl) && 0 < cfg.meterTtl && Unrecorded(t, x, item)
    ensures var u := After(cfg, t, Records(x, item, now));
      && item in t.items && u == t.(items := t.items[item := Recorded(t.items[item], x, now)])
      && M.ItemsOf(u.items, x) == M.ItemsOf(t.items, x)
  {
    hide Exec, Trim, HeldUntil, M.RecordStep, Recorded;
    F.ExecGroups(cfg, t, Records(x, item, now));
    RecordStepIs(t, x, item, cfg.meterTtl, now);
    RecordedBatch(t, x, item, now);
    SameItemsOf(t.items, x, item, Recorded(t.items[item], x, now));
  }

  lemma RecordedBatch(t: Tables, x: Id, item: Id, now: Instant)
    requires Unrecorded(t, x, item)
    ensures Recorded(t.items[item], x, now).batch == x
  {
  }

  lemma SubmittingBatch(cfg: Config, t: Tables, x: Id, y: Id, now: Instant)
    requires HeldUntil(t, x, now + cfg.meterTtl) && 0 < cfg.meterTtl && TextBefore(now, now + cfg.meterTtl)
    requires M.ItemsOf(t.items, x) == {x, y} && t.items[x].complete && t.items[y].complete
    ensures var u := After(cfg, t, SubmitsBatch(x, now));
      u == t.(batches := u.batches) && x in u.batches && u.batches[x].workload == x && u.batches[x].status.Submitted?
  {
    hide Exec, TextBefore, M.ItemsOf;
    F.ExecGroups(cfg, t, SubmitsBatch(x, now));
  }

  lemma Accepting(cfg: Config, t: Tables, x: Id, now: Instant)
    requires x in t.batches && t.batches[x].workload == x && t.batches[x].status.Submitted?
    ensures var u := After(cfg, t, Accepts(x, now));
      u == t.(batches := u.batches) && x in u.batches && u.batches[x].workload == x && u.batches[x].status.Accepted?
  {
    hide Exec, Blank;
    F.ExecGroups(cfg, t, Accepts(x, now));
  }

  lemma Metering(cfg: Config, t: Tables, x: Id, y: Id, now: Instant) returns (u: Tables)
    requires GoodNames(x, y) && Own(t, x, Settled) && BothFilled(t, x, y, Aligned) && ClearMetering(t, x, y)
    requires 0 < cfg.meterTtl && TextBefore(now, now + cfg.meterTtl)
    ensures Leads(cfg, t, u) && EligibleNow(u.workloads, u.batches, x) && u == t.(batches := u.batches, items := u.items)
  {
    hide After, Leads, BothFilled, Trim, Blank, TextBefore, HeldUntil, M.ItemsOf, M.Held;
    LeadsOne(cfg, t, Creates(x, y, now));
    Creating(cfg, t, x, y, now);
    u := After(cfg, t, Creates(x, y, now));
    LeadsOn(cfg, t, u, Claims(x, now));
    Claiming(cfg, u, x, now);
    u := After(cfg, u, Claims(x, now));
    LeadsOn(cfg, t, u, Records(x, x, now));
    Recording(cfg, u, x, y, x, now);
    HeldStill(u, After(cfg, u, Records(x, x, now)), x, now + cfg.meterTtl);
    u := After(cfg, u, Records(x, x, now));
    LeadsOn(cfg, t, u, Records(x, y, now));
    Recording(cfg, u, x, y, y, now);
    HeldStill(u, After(cfg, u, Records(x, y, now)), x, now + cfg.meterTtl);
    u := After(cfg, u, Records(x, y, now));
    LeadsOn(cfg, t, u, SubmitsBatch(x, now));
    SubmittingBatch(cfg, u, x, y, now);
    u := After(cfg, u, SubmitsBatch(x, now));
    LeadsOn(cfg, t, u, Accepts(x, now));
    Accepting(cfg, u, x, now);
    u := After(cfg, u, Accepts(x, now));
  }

  lemma HeldStill(t: Tables, u: Tables, x: Id, until: Instant)
    requires HeldUntil(t, x, until) && u.batches == t.batches
    ensures HeldUntil(u, x, until)
  {
  }

  // ---- The ledger ----

  function Drafts(x: Id, now: Instant): Command { OnLedger(CreateDraft(x, x, now)) }

  function Adds(x: Id, now: Instant): Command { OnLedger(AddWorkloads(x, [x], Always(x), now)) }

  function Freezes(x: Id, now: Instant): Command { OnLedger(Freeze(x, now)) }

  function Approves(x: Id, now: Instant): Command { OnLedger(ReviewLedger(x, x, true, "", now)) }

  function Publishes(x: Id, now: Instant): Command { OnLedger(Publish(x, x, now)) }

  predicate LedgerIs(t: Tables, x: Id, status: LedgerStatus) { x in t.drafts && t.drafts[x].status == status && t.drafts[x].revision == 1 }

  /** The ledger's only member is the workload, under its id. */
  predicate OnlyMember(t: Tables, x: Id) { G.MembersOf(t.members, x) == {x} && t.members[x].workload == x }

  lemma Drafting(cfg: Config, t: Tables, x: Id, now: Instant)
    requires Trim(x) == x != "" && |x| <= 160 && ClearLedger(t, x)
    ensures var u := After(cfg, t, Drafts(x, now));
      LedgerIs(u, x, Draft) && u == t.(drafts := u.drafts)
  {
    hide Exec, Trim, G.MembersOf;
    F.ExecGroups(cfg, t, Drafts(x, now));
  }

  lemma OneEligible(t: Tables, x: Id)
    requires EligibleNow(t.workloads, t.batches, x)
    ensures G.AllEligible(t, [x]) == Ok(())
  {
    hide Blank;
    assert [x][1..] == [];
    assert G.AllEligible(t, []) == Ok(());
  }

  lemma OneMember(members: map<Id, Member>, x: Id, now: Instant)
    requires x !in members && G.MembersOf(members, x) == {}
    ensures var next := members[x := Member(x, x, 1, now)];
      G.AddFrom(members, x, 1, [x], Always(x), 0, now) == Ok(next) && G.MembersOf(next, x) == {x}
  {
    var next := members[x := Member(x, x, 1, now)];
    assert forall m :: m in members && members[m].ledger == x ==> m in G.MembersOf(members, x);
    assert G.AddFrom(next, x, 1, [x], Always(x), 1, now) == Ok(next);
  }

  lemma Adding(cfg: Config, t: Tables, x: Id, now: Instant)
    requires x != "" && LedgerIs(t, x, Draft) && x !in t.members && G.MembersOf(t.members, x) == {}
    requires EligibleNow(t.workloads, t.batches, x)
    ensures var u := After(cfg, t, Adds(x, now));
      LedgerIs(u, x, Draft) && u.drafts[x].count == 1 && OnlyMember(u, x) && u == t.(drafts := u.drafts, members := u.members)
  {
    hide Exec, EligibleNow, G.AllEligible, G.AddFrom, G.MembersOf;
    F.ExecGroups(cfg, t, Adds(x, now));
    OneEligible(t, x);
    OneMember(t.members, x, now);
  }

  lemma OneMemberListed(members: map<Id, Member>, x: Id)
    requires G.MembersOf(members, x) == {x}
    ensures G.ListMembers(members, x) == [x] && G.Workloads(members, [x]) == [members[x].workload]
  {
    hide G.ListMembers;
    assert G.ListMembers(members, x)[0] in G.ListMembers(members, x);
  }

  lemma FreezeStepIs(t: Tables, x: Id, now: Instant)
    requires LedgerIs(t, x, Draft) && t.drafts[x].count == 1 && OnlyMember(t, x) && EligibleNow(t.workloads, t.batches, x)
    ensures G.FreezeStep(t, x, now) == Ok(t.(drafts := t.drafts[x := G.Turned(t.drafts[x], Frozen, G.DigestOf(t.members, x), now)]))
  {
    hide EligibleNow, G.AllEligible, G.MembersOf, G.ListMembers, G.DigestOf, G.Workloads, G.Turned;
    OneMemberListed(t.members, x);
    OneEligible(t, x);
  }

  lemma Freezing(cfg: Config, t: Tables, x: Id, now: Instant)
    requires LedgerIs(t, x, Draft) && t.drafts[x].count == 1 && OnlyMember(t, x) && EligibleNow(t.workloads, t.batches, x)
    ensures var u := After(cfg, t, Freezes(x, now));
      LedgerIs(u, x, Frozen) && u == t.(drafts := u.drafts)
  {
    hide Exec, EligibleNow, OnlyMember, G.FreezeStep, G.DigestOf;
    F.ExecGroups(cfg, t, Freezes(x, now));
    FreezeStepIs(t, x, now);
  }

  lemma Approving(cfg: Config, t: Tables, x: Id, now: Instant)
    requires LedgerIs(t, x, Frozen) && (x, 1) !in t.reviews
    ensures var u := After(cfg, t, Approves(x, now));
      LedgerIs(u, x, Approved) && u == t.(drafts := u.drafts, reviews := u.reviews)
  {
    hide Exec, Blank;
    F.ExecGroups(cfg, t, Approves(x, now));
  }

  lemma Publishing(cfg: Config, t: Tables, x: Id, now: Instant)
    requires Reachable(cfg, t) && LedgerIs(t, x, Approved) && OnlyMember(t, x) && x !in t.releases
    ensures var u := After(cfg, t, Publishes(x, now));
      && x in u.releases && u.releases[x].status.Published? && u.releases[x].ledger == x && (x, x) in u.releaseItems && OnlyMember(u, x)
      && u.workloads == t.workloads
  {
    hide Exec, Reachable, G.MembersOf, G.ListMembers, G.DigestOf;
    F.ExecGroups(cfg, t, Publishes(x, now));
    LedgerStability.PublishCommitsIff(cfg, t, x, x, now);
    assert (x, x) in G.ReleaseRows(x, {x});
  }

  lemma LedgerApproved(cfg: Config, t: Tables, x: Id, now: Instant) returns (u: Tables)
    requires Trim(x) == x != "" && |x| <= 128 && ClearLedger(t, x) && EligibleNow(t.workloads, t.batches, x)
    ensures Leads(cfg, t, u) && LedgerIs(u, x, Approved) && OnlyMember(u, x) && x !in u.releases
    ensures u == t.(drafts := u.drafts, members := u.members, reviews := u.reviews)
  {
    hide After, Leads, Trim, LedgerIs, OnlyMember, EligibleNow;
    LeadsOne(cfg, t, Drafts(x, now));
    Drafting(cfg, t, x, now);
    u := After(cfg, t, Drafts(x, now));
    LeadsOn(cfg, t, u, Adds(x, now));
    Adding(cfg, u, x, now);
    u := After(cfg, u, Adds(x, now));
    LeadsOn(cfg, t, u, Freezes(x, now));
    Freezing(cfg, u, x, now);
    OnlyMemberStill(u, After(cfg, u, Freezes(x, now)), x);
    u := After(cfg, u, Freezes(x, now));
    LeadsOn(cfg, t, u, Approves(x, now));
    Approving(cfg, u, x, now);
    OnlyMemberStill(u, After(cfg, u, Approves(x, now)), x);
    u := After(cfg, u, Approves(x, now));
  }

  lemma OnlyMemberStill(t: Tables, u: Tables, x: Id)
    requires OnlyMember(t, x) && u.members == t.members
    ensures OnlyMember(u, x)
  {
  }

  // ---- From every reachable state ----

  /** The release `x` is published, and its only item is the workload `x`. */
  predicate Released(t: Tables, x: Id) {
    && x in t.releases && t.releases[x].status.Published? && t.releases[x].ledger == x && (x, x) in t.releaseItems && OnlyMember(t, x)
  }

  lemma UsageDone(cfg: Config, t: Tables, x: Id, y: Id, now: Instant) returns (u: Tables)
    requires GoodNames(x, y) && Own(t, x, Executing) && ClearUsage(t, x, y)
    ensures Leads(cfg, t, u) && SameAround(t, u) && BothFilled(u, x, y, Aligned)
  {
    hide Leads, BothFilled, Filled, Trim, Blank;
    var a := UsageOpens(cfg, t, x, y, now);
    var b := UsageFills(cfg, a, x, y, now);
    LeadsAcross(cfg, t, a, b);
    u := UsageSeals(cfg, b, x, y, now);
    LeadsAcross(cfg, t, b, u);
  }

  lemma SettledAndMetered(cfg: Config, t: Tables, x: Id, y: Id, now: Instant) returns (u: Tables)
    requires GoodNames(x, y) && Own(t, x, Executing) && BothFilled(t, x, y, Aligned) && ClearMetering(t, x, y)
    requires 0 < cfg.meterTtl && TextBefore(now, now + cfg.meterTtl)
    ensures Leads(cfg, t, u) && EligibleNow(u.workloads, u.batches, x)
    ensures u == t.(workloads := u.workloads, batches := u.batches, items := u.items)
  {
    hide Leads, Own, Trim, Blank, EligibleNow, TextBefore, C.SegmentsOf, W.StreamsOf;
    var a := Settling(cfg, t, x, y, now);
    u := Metering(cfg, a, x, y, now);
    LeadsAcross(cfg, t, a, u);
  }

  /**
   * No reachable state is a dead end: under unused names, and while a metering lease taken at `now` reads as not
   * expired at `now`, some run leads to a new published release with one new settled workload in it.
   */
  lemma ReleaseAttainable(cfg: Config, t: Tables, x: Id, y: Id, now: Instant) returns (u: Tables)
    requires Reachable(cfg, t) && Unused(t, x, y)
    requires 0 < cfg.meterTtl && TextBefore(now, now + cfg.meterTtl)
    ensures Leads(cfg, t, u) && Reachable(cfg, u) && Released(u, x) && Settlement.FullySettled(u, x)
  {
    hide Leads, Reachable, Inv, After, Own, BothFilled, Trim, Blank, EligibleNow, TextBefore, ClearUsage, ClearSession, OnlyMember, LedgerIs,
      Settlement.FullySettled;
    Reachability.ReachableInv(cfg, t);
    UnusedUsage(t, x, y);
    var a := SessionStarts(cfg, t, x, y, now);
    ClearStill(t, a, x, y);
    var b := UsageDone(cfg, a, x, y, now);
    OwnStill(a, b, x);
    LeadsAcross(cfg, t, a, b);
    var c := SettledAndMetered(cfg, b, x, y, now);
    LeadsAcross(cfg, t, b, c);
    var d := LedgerApproved(cfg, c, x, now);
    LeadsAcross(cfg, t, c, d);
    LeadsOne(cfg, d, Publishes(x, now));
    u := After(cfg, d, Publishes(x, now));
    LeadsAcross(cfg, t, d, u);
    Publishing(cfg, d, x, now);
    MemberIn(u, x);
    Settlement.ReleaseContents(cfg, u, x);
  }

  lemma ClearStill(t: Tables, u: Tables, x: Id, y: Id)
    requires ClearUsage(t, x, y) && SameBeyond(t, u)
    ensures ClearUsage(u, x, y)
  {
  }

  lemma OwnStill(t: Tables, u: Tables, x: Id)
    requires Own(t, x, Executing) && u.workloads == t.workloads
    ensures Own(u, x, Executing)
  {
  }

  lemma MemberIn(t: Tables, x: Id)
    requires OnlyMember(t, x)
    ensures x in t.members && t.members[x].workload == x
  {
    assert x in G.MembersOf(t.members, x);
  }

  /** So the statements about releases are not empty: with a time to live in whole seconds, a published release is reachable. */
  lemma SomeReleaseReachable(cfg: Config) returns (u: Tables)
    requires 0 < cfg.meterTtl && cfg.meterTtl % SECOND == 0 && Printable(cfg.meterTtl)
    ensures Reachable(cfg, u) && exists r :: r in u.releases && u.releases[r].status.Published?
  {
    hide Leads, TextBefore, Printable, FractionOf, Settlement.FullySettled, OnlyMember;
    PrintableBelow(0, cfg.meterTtl);
    X.WholeSecondHasNoFraction(0);
    X.WholeSecondHasNoFraction(cfg.meterTtl);
    X.RegularComparable(0, cfg.meterTtl, 0);
    X.Agrees(0, cfg.meterTtl);
    assert Reachable(cfg, EMPTY) by { assert Run(cfg, EMPTY, []) == EMPTY; }
    hide Reachable, Run;
    NothingUsed();
    u := ReleaseAttainable(cfg, EMPTY, "x", "y", 0);
  }

  lemma NothingUsed()
    ensures Unused(EMPTY, "x", "y")
  {
    assert Trim("x") == "x";
  }
}
