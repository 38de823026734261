/** Appending is a union of usage records: what it accepts, that replays change nothing, and that batches commute. */
module AppendProofs {
  import opened Basics
  import opened Domain
  import opened Capacity
  import opened System
  import CI = CapacityInvariants
  import Reachability
  import LedgerStability
  import F = Frames
  import W = Workloads
  import Listing

  /** A stored segment, or one input, without its row id and creation time. */
  datatype Usage = Usage(key: string, sequence: int, start: int, end: int, uri: string, checksum: string)

  function UsageOf(s: Segment): Usage { Usage(s.key, s.sequence, s.start, s.end, s.uri, s.checksum) }

  function UsageIn(i: SegmentInput): Usage { Usage(i.key, i.sequence, i.start, i.end, i.uri, Lower(i.checksum)) }

  function Stored(segments: map<Id, Segment>, stream: Id): set<Usage> {
    set s | s in SegmentsOf(segments, stream) :: UsageOf(segments[s])
  }

  function Usages(inputs: seq<SegmentInput>): set<Usage> { set k | 0 <= k < |inputs| :: UsageIn(inputs[k]) }

  /** No two records share a key or a sequence number. */
  predicate Consistent(u: set<Usage>) {
    forall x, y :: x in u && y in u && (x.key == y.key || x.sequence == y.sequence) ==> x == y
  }

  /** The UNIQUE keys of `usage_segments`, for one stream. */
  predicate Distinct(segments: map<Id, Segment>, stream: Id) {
    forall a, b :: a in SegmentsOf(segments, stream) && b in SegmentsOf(segments, stream) && a != b ==>
      segments[a].key != segments[b].key && segments[a].sequence != segments[b].sequence
  }

  lemma DistinctConsistent(segments: map<Id, Segment>, stream: Id)
    requires Distinct(segments, stream)
    ensures Consistent(Stored(segments, stream))
  {
  }

  // ---- What an append accepts ----

  lemma StoredInsert(segments: map<Id, Segment>, stream: Id, i: SegmentInput, id: Id, now: Instant)
    requires id !in segments
    ensures var next := segments[id := SegmentFor(stream, i, now)];
      && Stored(next, stream) == Stored(segments, stream) + {UsageIn(i)}
      && forall o :: o != stream ==> Stored(next, o) == Stored(segments, o)
  {
    hide Lower;
    var next := segments[id := SegmentFor(stream, i, now)];
    assert SegmentsOf(next, stream) == SegmentsOf(segments, stream) + {id};
    assert UsageOf(next[id]) == UsageIn(i);
    forall u
      ensures u in Stored(next, stream) <==> u in Stored(segments, stream) + {UsageIn(i)}
    {
      if u in Stored(segments, stream) {
        var s :| s in SegmentsOf(segments, stream) && UsageOf(segments[s]) == u;
        assert s in SegmentsOf(next, stream) && UsageOf(next[s]) == u;
      }
    }
    forall o | o != stream
      ensures Stored(next, o) == Stored(segments, o)
    {
      assert SegmentsOf(next, o) == SegmentsOf(segments, o);
    }
  }

  lemma AppendOneIff(segments: map<Id, Segment>, stream: Id, i: SegmentInput, id: Id, now: Instant)
    requires Distinct(segments, stream)
    ensures var r := AppendOne(segments, stream, i, id, now);
      && (r.Ok? ==>
            Distinct(r.value, stream) && Stored(r.value, stream) == Stored(segments, stream) + {UsageIn(i)}
            && forall o :: o != stream ==> Stored(r.value, o) == Stored(segments, o))
      && (id !in segments ==> (r.Ok? <==> Consistent(Stored(segments, stream) + {UsageIn(i)})))
  {
    hide Lower;
    var owners, all := KeyOwners(segments, stream, i.key), Stored(segments, stream);
    DistinctConsistent(segments, stream);
    if owners != {} {
      var listed := ListedFirst(owners);
      var s := segments[listed];
      assert listed in SegmentsOf(segments, stream) && UsageOf(s) in all;
      assert SameSegment(s, i) <==> UsageOf(s) == UsageIn(i);
      assert all + {UsageIn(i)} == if SameSegment(s, i) then all else all + {UsageIn(i)};
    } else {
      assert forall s :: s in SegmentsOf(segments, stream) ==> segments[s].key != i.key by {
        assert forall s :: s in SegmentsOf(segments, stream) && segments[s].key == i.key ==> s in owners;
      }
      if id !in segments { StoredInsert(segments, stream, i, id, now); }
      if SequenceTaken(segments, stream, i.sequence) {
        var s :| s in segments && segments[s].stream == stream && segments[s].sequence == i.sequence;
        assert s in SegmentsOf(segments, stream) && UsageOf(segments[s]) in all;
      }
    }
  }

  lemma ListedFirst(ids: set<Id>) returns (first: Id)
    requires ids != {}
    ensures |Listing.ById(ids)| > 0 && first == Listing.ById(ids)[0] && first in ids
  {
    var listed := Listing.ById(ids);
    first := listed[0];
    assert first in listed;
  }

  /** The ids drawn for the inputs are new and different from each other. */
  ghost predicate Fresh(segments: map<Id, Segment>, ids: nat -> Id, from: nat, to: nat) {
    && (forall k :: from <= k < to ==> ids(k) !in segments)
    && (forall k, l :: from <= k < l < to ==> ids(k) != ids(l))
  }

  /** Every new row has one of the drawn ids. */
  ghost predicate DrawnFrom(before: map<Id, Segment>, after: map<Id, Segment>, ids: nat -> Id, from: nat, to: nat) {
    forall s :: s in after && s !in before ==> exists k :: from <= k < to && s == ids(k)
  }

  lemma UsagesFrom(inputs: seq<SegmentInput>, k: nat)
    requires k <= |inputs|
    ensures Usages(inputs[k..]) == if k == |inputs| then {} else {UsageIn(inputs[k])} + Usages(inputs[k + 1..])
  {
    hide Lower, UsageIn;
    var rest := inputs[k..];
    if k < |inputs| {
      forall u
        ensures u in Usages(rest) <==> u in {UsageIn(inputs[k])} + Usages(inputs[k + 1..])
      {
        if u in Usages(rest) {
          var l :| 0 <= l < |rest| && UsageIn(rest[l]) == u;
          assert l > 0 ==> inputs[k + 1..][l - 1] == rest[l];
        }
        if u in Usages(inputs[k + 1..]) {
          var l :| 0 <= l < |inputs[k + 1..]| && UsageIn(inputs[k + 1..][l]) == u;
          assert rest[l + 1] == inputs[k + 1..][l];
        }
        assert rest[0] == inputs[k];
      }
    }
  }

  lemma ConsistentSubset(u: set<Usage>, v: set<Usage>)
    requires u <= v && Consistent(v)
    ensures Consistent(u)
  {
  }

  /**
   * The append loop computes the union of the stored and the given records; with fresh ids it accepts exactly
   * when that union has no two records with one key or one sequence number.
   */
  lemma {:induction false} AppendFromIff(
    segments: map<Id, Segment>, stream: Id, inputs: seq<SegmentInput>, ids: nat -> Id, k: nat, now: Instant)
    requires k <= |inputs| && Distinct(segments, stream)
    ensures var r := AppendFrom(segments, stream, inputs, ids, k, now);
      && (r.Ok? ==>
            Distinct(r.value, stream) && Stored(r.value, stream) == Stored(segments, stream) + Usages(inputs[k..])
            && (forall o :: o != stream ==> Stored(r.value, o) == Stored(segments, o)))
      && (Fresh(segments, ids, k, |inputs|) ==>
            (r.Ok? <==> Consistent(Stored(segments, stream) + Usages(inputs[k..]))))
    decreases |inputs| - k
  {
    hide AppendOne, Distinct, Consistent, Stored, Usages, UsageIn;
    UsagesFrom(inputs, k);
    AppendFromNext(segments, stream, inputs, ids, k, now);
    var all, rest := Stored(segments, stream), Usages(inputs[k..]);
    if k == |inputs| {
      DistinctConsistent(segments, stream);
      assert all + rest == all;
    } else {
      AppendOneIff(segments, stream, inputs[k], ids(k), now);
      var next := AppendOne(segments, stream, inputs[k], ids(k), now);
      assert (all + {UsageIn(inputs[k])}) + Usages(inputs[k + 1..]) == all + rest;
      if next.Ok? {
        AppendFromIff(next.value, stream, inputs, ids, k + 1, now);
        if Fresh(segments, ids, k, |inputs|) { OneKeepsFresh(segments, stream, inputs, ids, k, now); }
      } else if Consistent(all + rest) {
        ConsistentSubset(all + {UsageIn(inputs[k])}, all + rest);
      }
    }
  }

  lemma OneKeepsFresh(segments: map<Id, Segment>, stream: Id, inputs: seq<SegmentInput>, ids: nat -> Id, k: nat, now: Instant)
    requires k < |inputs| && Fresh(segments, ids, k, |inputs|) && AppendOne(segments, stream, inputs[k], ids(k), now).Ok?
    ensures Fresh(AppendOne(segments, stream, inputs[k], ids(k), now).value, ids, k + 1, |inputs|)
  {
    hide Lower;
  }

  lemma {:induction false} AppendDraws(
    segments: map<Id, Segment>, stream: Id, inputs: seq<SegmentInput>, ids: nat -> Id, k: nat, now: Instant)
    requires k <= |inputs| && AppendFrom(segments, stream, inputs, ids, k, now).Ok?
    ensures DrawnFrom(segments, AppendFrom(segments, stream, inputs, ids, k, now).value, ids, k, |inputs|)
    decreases |inputs| - k
  {
    hide Lower;
    if k < |inputs| {
      var next := AppendOne(segments, stream, inputs[k], ids(k), now).value;
      AppendDraws(next, stream, inputs, ids, k + 1, now);
    }
  }

  // ---- Replays ----

  lemma OwnerIs(segments: map<Id, Segment>, stream: Id, i: SegmentInput)
    requires Distinct(segments, stream) && UsageIn(i) in Stored(segments, stream)
    ensures forall id, now :: AppendOne(segments, stream, i, id, now) == Ok(segments)
  {
    hide Lower;
    var s :| s in SegmentsOf(segments, stream) && UsageOf(segments[s]) == UsageIn(i);
    assert s in KeyOwners(segments, stream, i.key);
    var listed := ListedFirst(KeyOwners(segments, stream, i.key));
    assert listed in SegmentsOf(segments, stream);
    assert listed == s;
  }

  lemma {:induction false} StoredReplays(
    segments: map<Id, Segment>, stream: Id, inputs: seq<SegmentInput>, ids: nat -> Id, k: nat, now: Instant)
    requires k <= |inputs| && Distinct(segments, stream)
    requires forall l :: k <= l < |inputs| ==> UsageIn(inputs[l]) in Stored(segments, stream)
    ensures AppendFrom(segments, stream, inputs, ids, k, now) == Ok(segments)
    decreases |inputs| - k
  {
    hide AppendOne, Distinct, Stored, UsageIn;
    AppendFromNext(segments, stream, inputs, ids, k, now);
    if k < |inputs| {
      OwnerIs(segments, stream, inputs[k]);
      StoredReplays(segments, stream, inputs, ids, k + 1, now);
    }
  }

  lemma InputsStored(segments: map<Id, Segment>, stream: Id, inputs: seq<SegmentInput>)
    requires Usages(inputs) <= Stored(segments, stream)
    ensures forall l :: 0 <= l < |inputs| ==> UsageIn(inputs[l]) in Stored(segments, stream)
  {
    hide Stored, UsageIn;
    assert forall l :: 0 <= l < |inputs| ==> UsageIn(inputs[l]) in Usages(inputs);
  }

  // ---- Aggregates ----

  lemma {:induction false} ImageSize(segments: map<Id, Segment>, ids: set<Id>)
    requires ids <= segments.Keys
    requires forall a, b :: a in ids && b in ids && a != b ==> UsageOf(segments[a]) != UsageOf(segments[b])
    ensures |set s | s in ids :: UsageOf(segments[s])| == |ids|
    decreases ids
  {
    hide UsageOf;
    var image := set s | s in ids :: UsageOf(segments[s]);
    if ids != {} {
      var x :| x in ids;
      ImageSize(segments, ids - {x});
      assert image == (set s | s in ids - {x} :: UsageOf(segments[s])) + {UsageOf(segments[x])};
    } else {
      assert image == {};
    }
  }

  /** Count, first and last depend only on the stored records. */
  lemma AggregatesOfRecords(a: map<Id, Segment>, b: map<Id, Segment>, stream: Id)
    requires Distinct(a, stream) && Distinct(b, stream) && Stored(a, stream) == Stored(b, stream)
    ensures |SegmentsOf(a, stream)| == |SegmentsOf(b, stream)|
    ensures FirstNanos(a, stream) == FirstNanos(b, stream) && LastNanos(a, stream) == LastNanos(b, stream)
  {
    ImageSize(a, SegmentsOf(a, stream));
    ImageSize(b, SegmentsOf(b, stream));
    BoundsOfRecords(a, stream);
    BoundsOfRecords(b, stream);
  }

  lemma BoundsOfRecords(segments: map<Id, Segment>, stream: Id)
    ensures Starts(segments, stream) == set u | u in Stored(segments, stream) :: u.start
    ensures Ends(segments, stream) == set u | u in Stored(segments, stream) :: u.end
  {
    assert forall s :: s in SegmentsOf(segments, stream) ==> UsageOf(segments[s]) in Stored(segments, stream);
  }

  // ---- The calls ----

  /** Everything an append checks before it looks at the segments. */
  predicate Admitted(t: Tables, c: CapacityCall)
    requires c.Append?
  {
    && c.stream != "" && 0 < |c.inputs| <= 250 && ValidInputs(c.inputs)
    && c.stream in t.streams && t.streams[c.stream].workload in t.workloads && t.streams[c.stream].status.Open?
    && t.workloads[t.streams[c.stream].workload].operator == c.p.user
    && t.workloads[t.streams[c.stream].workload].status.Executing?
  }

  function Loop(segments: map<Id, Segment>, c: CapacityCall): Result<map<Id, Segment>>
    requires c.Append?
  {
    AppendFrom(segments, c.stream, c.inputs, c.ids, 0, c.now)
  }

  lemma AppendCommitsIff(t: Tables, c: CapacityCall)
    requires c.Append?
    ensures CapacityStep(t, c).Ok? <==> Admitted(t, c) && Loop(t.segments, c).Ok?
    ensures CapacityStep(t, c).Ok? ==> CI.Appended(t, c.stream, c.inputs, c.ids, c.now, CapacityStep(t, c).value)
  {
    hide AppendFrom, ValidInputs, CI.Appended;
    if CapacityStep(t, c).Ok? { CI.AppendCommits(t, c.p, c.stream, c.inputs, c.ids, c.now); }
  }

  /** What an append to any stream leaves for the checks of another one. */
  lemma StillAdmitted(t: Tables, c: CapacityCall, u: Tables, other: CapacityCall)
    requires c.Append? && other.Append? && CI.Appended(t, c.stream, c.inputs, c.ids, c.now, u)
    ensures Admitted(u, other) <==> Admitted(t, other)
  {
    hide ValidInputs, AppendFrom, SegmentsOf, FirstNanos, LastNanos;
  }

  lemma StreamsDistinct(t: Tables)
    requires SegmentsOk(t.streams, t.segments)
    ensures forall s :: Distinct(t.segments, s)
  {
  }

  lemma WholeBatch(inputs: seq<SegmentInput>)
    ensures inputs[0..] == inputs
  {
  }

  /** What an append does to the stored records of every stream. */
  lemma AppendAdds(t: Tables, c: CapacityCall)
    requires c.Append? && SegmentsOk(t.streams, t.segments)
    ensures var r := Loop(t.segments, c);
      && (r.Ok? ==>
            && Distinct(r.value, c.stream) && Stored(r.value, c.stream) == Stored(t.segments, c.stream) + Usages(c.inputs)
            && forall o :: o != c.stream ==> Stored(r.value, o) == Stored(t.segments, o))
      && (r.Ok? ==> Consistent(Stored(t.segments, c.stream) + Usages(c.inputs)))
      && (Fresh(t.segments, c.ids, 0, |c.inputs|) && Consistent(Stored(t.segments, c.stream) + Usages(c.inputs)) ==> r.Ok?)
  {
    hide AppendFrom, Stored, Usages, Consistent, Distinct, SegmentsOk;
    StreamsDistinct(t);
    WholeBatch(c.inputs);
    AppendFromIff(t.segments, c.stream, c.inputs, c.ids, 0, c.now);
    var r := Loop(t.segments, c);
    if r.Ok? { DistinctConsistent(r.value, c.stream); }
  }

  // ---- Usage lasts ----

  /** Segments stay as they are, and streams stay in their workload. */
  predicate UsageKept(streams: map<Id, Stream>, segments: map<Id, Segment>, streams': map<Id, Stream>, segments': map<Id, Segment>) {
    && (forall s :: s in segments ==> s in segments' && segments'[s] == segments[s])
    && (forall s :: s in streams ==> s in streams' && streams'[s].workload == streams[s].workload)
  }

  lemma {:induction false} AppendFromGrows(
    segments: map<Id, Segment>, stream: Id, inputs: seq<SegmentInput>, ids: nat -> Id, k: nat, now: Instant)
    requires k <= |inputs|
    ensures match AppendFrom(segments, stream, inputs, ids, k, now)
      case Ok(r) => forall s :: s in segments ==> s in r && r[s] == segments[s]
      case Err(_) => true
    decreases |inputs| - k
  {
    hide Lower, SameSegment, SequenceTaken;
    if k < |inputs| {
      var next := AppendOne(segments, stream, inputs[k], ids(k), now);
      if next.Ok? { AppendFromGrows(next.value, stream, inputs, ids, k + 1, now); }
    }
  }

  lemma AppendKeepsUsage(t: Tables, c: CapacityCall)
    requires c.Append? && CapacityStep(t, c).Ok?
    ensures var u := CapacityStep(t, c).value; UsageKept(t.streams, t.segments, u.streams, u.segments)
  {
    hide AppendFrom, ValidInputs, SegmentsOf, FirstNanos, LastNanos, CapacityStep;
    AppendCommitsIff(t, c);
    AppendFromGrows(t.segments, c.stream, c.inputs, c.ids, 0, c.now);
  }

  lemma StatusCallKeepsUsage(t: Tables, c: CapacityCall)
    requires !c.Append?
    ensures var u := Committed(t, CapacityStep(t, c)); UsageKept(t.streams, t.segments, u.streams, u.segments)
  {
    hide SegmentRows, Adjacent, SegmentBytes, Alignable, W.StreamsOf;
    match c
    case OpenStream(_, _, _, _, _) =>
    case Seal(_, _, _) =>
    case Align(_, _, _, _) =>
  }

  lemma SameUsageKept(streams: map<Id, Stream>, segments: map<Id, Segment>)
    ensures UsageKept(streams, segments, streams, segments)
  {
  }

  lemma CallKeepsUsage(cfg: Config, t: Tables, c: Command)
    ensures var u := After(cfg, t, c); UsageKept(t.streams, t.segments, u.streams, u.segments)
  {
    hide Exec, CapacityStep, UsageKept;
    SameUsageKept(t.streams, t.segments);
    F.ExecGroups(cfg, t, c);
    if !c.OnCapacity? {
      F.Unchanged(cfg, t, c);
    } else if !c.capacity.Append? {
      StatusCallKeepsUsage(t, c.capacity);
    } else if CapacityStep(t, c.capacity).Ok? {
      AppendKeepsUsage(t, c.capacity);
    }
  }

  lemma {:induction false} RunKeepsUsage(cfg: Config, t: Tables, cs: seq<Command>)
    ensures var u := Run(cfg, t, cs); UsageKept(t.streams, t.segments, u.streams, u.segments)
  {
    hide After;
    if cs != [] {
      var n := |cs| - 1;
      RunKeepsUsage(cfg, t, cs[..n]);
      CallKeepsUsage(cfg, Run(cfg, t, cs[..n]), cs[n]);
    }
  }

  lemma StoredLasts(t: Tables, v: Tables, stream: Id)
    requires UsageKept(t.streams, t.segments, v.streams, v.segments)
    ensures Stored(t.segments, stream) <= Stored(v.segments, stream)
  {
    forall u | u in Stored(t.segments, stream)
      ensures u in Stored(v.segments, stream)
    {
      var s :| s in SegmentsOf(t.segments, stream) && UsageOf(t.segments[s]) == u;
      assert s in SegmentsOf(v.segments, stream) && UsageOf(v.segments[s]) == u;
    }
  }

  /** The stream still takes segments from its operator. */
  predicate TakesUsage(t: Tables, stream: Id) {
    && stream in t.streams && t.streams[stream].workload in t.workloads
    && t.streams[stream].status.Open? && t.workloads[t.streams[stream].workload].status.Executing?
  }

  /** What became of the stream and the workload of an admitted append. */
  lemma AdmittedLater(t: Tables, v: Tables, c: CapacityCall)
    requires c.Append? && Admitted(t, c) && UsageKept(t.streams, t.segments, v.streams, v.segments)
    requires LedgerStability.FailedKept(t.workloads, v.workloads)
    ensures TakesUsage(v, c.stream) ==> Admitted(v, c)
    ensures !TakesUsage(v, c.stream) ==> CapacityStep(v, c) == Err(Precondition)
  {
    hide ValidInputs, AppendFrom;
  }

  lemma ReplayCommits(t: Tables, c: CapacityCall)
    requires c.Append? && Admitted(t, c) && SegmentsOk(t.streams, t.segments)
    requires Usages(c.inputs) <= Stored(t.segments, c.stream)
    ensures CapacityStep(t, c) == Ok(t)
  {
    hide AppendFrom, ValidInputs, Stored, Usages, Distinct, Refreshed, SegmentsOk;
    StreamsDistinct(t);
    InputsStored(t.segments, c.stream, c.inputs);
    StoredReplays(t.segments, c.stream, c.inputs, c.ids, 0, c.now);
  }

  lemma AppendStores(t: Tables, c: CapacityCall)
    requires c.Append? && CapacityStep(t, c).Ok? && SegmentsOk(t.streams, t.segments)
    ensures var u := CapacityStep(t, c).value; Admitted(u, c) && Usages(c.inputs) <= Stored(u.segments, c.stream)
  {
    hide AppendFrom, ValidInputs, Stored, Usages, Distinct, Refreshed, SegmentsOk, CapacityStep;
    AppendCommitsIff(t, c);
    StillAdmitted(t, c, CapacityStep(t, c).value, c);
    AppendAdds(t, c);
  }

  /** The same caller appends the same batch again, with other ids and another clock reading. */
  predicate Repeats(again: CapacityCall, c: CapacityCall) {
    c.Append? && again.Append? && again.p == c.p && again.stream == c.stream && again.inputs == c.inputs
  }

  /**
   * Replaying an accepted batch after any further run of the system, whatever ids and clock reading it draws,
   * changes nothing: it commits without writing while the stream is open and its workload executing, and is
   * refused otherwise.
   */
  lemma AppendIdempotent(cfg: Config, t: Tables, c: CapacityCall, cs: seq<Command>, again: CapacityCall)
    requires Reachable(cfg, t) && c.Append? && CapacityStep(t, c).Ok? && Repeats(again, c)
    ensures var v := Run(cfg, CapacityStep(t, c).value, cs);
      CapacityStep(v, again) == if TakesUsage(v, c.stream) then Ok(v) else Err(Precondition)
  {
    hide Reachable, Inv, CapacityStep, Run, Stored, Usages, ValidInputs, UsageKept, LedgerStability.FailedKept, TakesUsage, SegmentsOk;
    Reachability.ReachableInv(cfg, t);
    CI.InvSegments(t);
    AppendStores(t, c);
    Reachability.CapacityCallKeeps(t, c);
    var u := CapacityStep(t, c).value;
    var v := Run(cfg, u, cs);
    Reachability.RunInv(cfg, u, cs);
    CI.InvSegments(v);
    RunKeepsUsage(cfg, u, cs);
    LedgerStability.OperatorsKept(cfg, u, cs);
    StoredLasts(u, v, c.stream);
    AdmittedLater(u, v, again);
    if TakesUsage(v, c.stream) { ReplayCommits(v, again); }
  }

  /** The same records in every stream, and the same stream rows up to version and time of update. */
  ghost predicate SameUsage(v: Tables, w: Tables) {
    && (forall s :: Stored(v.segments, s) == Stored(w.segments, s))
    && v.streams.Keys == w.streams.Keys
    && (forall s :: s in v.streams ==>
          w.streams[s] == v.streams[s].(updated := w.streams[s].updated, version := w.streams[s].version))
    && v == w.(segments := v.segments, streams := v.streams)
  }

  /** The ids that two batches draw are new and all different. */
  ghost predicate FreshPair(t: Tables, a: CapacityCall, b: CapacityCall)
    requires a.Append? && b.Append?
  {
    && Fresh(t.segments, a.ids, 0, |a.inputs|) && Fresh(t.segments, b.ids, 0, |b.inputs|)
    && forall k, l :: 0 <= k < |a.inputs| && 0 <= l < |b.inputs| ==> a.ids(k) != b.ids(l)
  }

  lemma StillFresh(t: Tables, b: CapacityCall, segments: map<Id, Segment>, a: CapacityCall)
    requires a.Append? && b.Append? && FreshPair(t, a, b) && DrawnFrom(t.segments, segments, b.ids, 0, |b.inputs|)
    ensures Fresh(segments, a.ids, 0, |a.inputs|)
  {
  }

  /** When `a` and then `b` commit, so do `b` and then `a`; the records they leave are the same. */
  lemma OtherOrderCommits(t: Tables, a: CapacityCall, b: CapacityCall)
    requires Inv(t) && a.Append? && b.Append? && FreshPair(t, a, b)
    requires CapacityStep(t, a).Ok? && CapacityStep(CapacityStep(t, a).value, b).Ok?
    ensures CapacityStep(t, b).Ok? && CapacityStep(CapacityStep(t, b).value, a).Ok?
    ensures var v, w := CapacityStep(CapacityStep(t, a).value, b).value, CapacityStep(CapacityStep(t, b).value, a).value;
      forall s :: Stored(v.segments, s) == Stored(w.segments, s)
  {
    hide Inv, AppendFrom, Admitted, Stored, Usages, Consistent, Distinct, Refreshed, CapacityStep, SegmentsOk, FreshPair, Fresh, DrawnFrom,
      ValidInputs;
    var u := CapacityStep(t, a).value;
    Reachability.CapacityCallKeeps(t, a);
    CI.InvSegments(t);
    CI.InvSegments(u);
    AppendCommitsIff(t, a);
    AppendCommitsIff(u, b);
    StillAdmitted(t, a, u, b);
    AppendAdds(t, a);
    AppendAdds(u, b);
    var sa, sb := Stored(t.segments, a.stream), Stored(t.segments, b.stream);
    ConsistentSubset(sb + Usages(b.inputs), Stored(u.segments, b.stream) + Usages(b.inputs));
    AppendAdds(t, b);
    FreshParts(t, a, b);
    AppendCommitsIff(t, b);
    var w := CapacityStep(t, b).value;
    Reachability.CapacityCallKeeps(t, b);
    CI.InvSegments(w);
    StillAdmitted(t, b, w, a);
    AppendDraws(t.segments, b.stream, b.inputs, b.ids, 0, b.now);
    StillFresh(t, b, w.segments, a);
    AppendAdds(w, a);
    if a.stream == b.stream {
      assert (sa + Usages(b.inputs)) + Usages(a.inputs) == (sa + Usages(a.inputs)) + Usages(b.inputs);
    }
    AppendCommitsIff(w, a);
  }

  lemma FreshParts(t: Tables, a: CapacityCall, b: CapacityCall)
    requires a.Append? && b.Append? && FreshPair(t, a, b)
    ensures Fresh(t.segments, a.ids, 0, |a.inputs|) && Fresh(t.segments, b.ids, 0, |b.inputs|)
  {
  }

  /** Up to its aggregates, version and update time, an append leaves every stream row as it is. */
  predicate RowsKept(t: Tables, u: Tables) {
    && u == t.(segments := u.segments, streams := u.streams) && u.streams.Keys == t.streams.Keys
    && forall s :: s in t.streams ==>
         var x, y := t.streams[s], u.streams[s];
         y == x.(count := y.count, first := y.first, last := y.last, updated := y.updated, version := y.version)
  }

  lemma OneRowKept(t: Tables, stream: Id, s: Stream, segments: map<Id, Segment>)
    requires stream in t.streams
    requires var x := t.streams[stream];
      s == x.(count := s.count, first := s.first, last := s.last, updated := s.updated, version := s.version)
    ensures RowsKept(t, t) && RowsKept(t, t.(segments := segments, streams := t.streams[stream := s]))
  {
  }

  lemma AppendKeepsRows(t: Tables, c: CapacityCall)
    requires c.Append? && CapacityStep(t, c).Ok?
    ensures RowsKept(t, CapacityStep(t, c).value)
  {
    hide AppendFrom, ValidInputs, CapacityStep, SegmentsOf, FirstNanos, LastNanos, RowsKept;
    AppendCommitsIff(t, c);
    var u := CapacityStep(t, c).value;
    OneRowKept(t, c.stream, Refreshed(t.streams[c.stream], u.segments, c.stream, c.now), u.segments);
  }

  lemma AggregatesMatch(t: Tables, v: Tables, w: Tables)
    requires Inv(v) && Inv(w) && RowsKept(t, v) && RowsKept(t, w)
    requires forall s :: Stored(v.segments, s) == Stored(w.segments, s)
    ensures SameUsage(v, w)
  {
    hide Inv, Stored, SegmentsOf, FirstNanos, LastNanos, Distinct;
    CI.InvSegments(v);
    CI.InvSegments(w);
    StreamsDistinct(v);
    StreamsDistinct(w);
    hide SegmentsOk;
    forall s | s in v.streams
      ensures v.streams[s].count == w.streams[s].count && v.streams[s].first == w.streams[s].first && v.streams[s].last == w.streams[s].last
    {
      RowAggregates(v, s);
      RowAggregates(w, s);
      AggregatesOfRecords(v.segments, w.segments, s);
    }
  }

  lemma RowAggregates(t: Tables, s: Id)
    requires Inv(t) && s in t.streams
    ensures var row := t.streams[s];
      row.count == |SegmentsOf(t.segments, s)| && row.first == FirstNanos(t.segments, s) && row.last == LastNanos(t.segments, s)
  {
    hide Inv, SegmentsOf, FirstNanos, LastNanos, Tiled;
    assert StreamsOk(t.workloads, t.streams, t.segments) by { InvParts(t); }
    assert StreamOk(t.segments, s, t.streams[s]);
  }

  /** If batches `a` and then `b` commit, then `b` and then `a` commit with the same records and aggregates. */
  lemma AppendsCommute(cfg: Config, t: Tables, a: CapacityCall, b: CapacityCall)
    requires Reachable(cfg, t) && a.Append? && b.Append? && FreshPair(t, a, b)
    requires CapacityStep(t, a).Ok? && CapacityStep(CapacityStep(t, a).value, b).Ok?
    ensures CapacityStep(t, b).Ok? && CapacityStep(CapacityStep(t, b).value, a).Ok?
    ensures SameUsage(CapacityStep(CapacityStep(t, a).value, b).value, CapacityStep(CapacityStep(t, b).value, a).value)
  {
    hide Reachable, Inv, CapacityStep, FreshPair, RowsKept, SameUsage, Stored;
    Reachability.ReachableInv(cfg, t);
    OtherOrderCommits(t, a, b);
    var u, u' := CapacityStep(t, a).value, CapacityStep(t, b).value;
    var v, v' := CapacityStep(u, b).value, CapacityStep(u', a).value;
    Reachability.CapacityCallKeeps(t, a);
    Reachability.CapacityCallKeeps(u, b);
    Reachability.CapacityCallKeeps(t, b);
    Reachability.CapacityCallKeeps(u', a);
    AppendKeepsRows(t, a);
    AppendKeepsRows(u, b);
    AppendKeepsRows(t, b);
    AppendKeepsRows(u', a);
    RowsKeptTwice(t, u, v);
    RowsKeptTwice(t, u', v');
    AggregatesMatch(t, v, v');
  }

  lemma RowsKeptTwice(t: Tables, u: Tables, v: Tables)
    requires RowsKept(t, u) && RowsKept(u, v)
    ensures RowsKept(t, v)
  {
  }
}
