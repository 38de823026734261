/** The capacity calls keep the invariant of the pipeline. */
module CapacityInvariants {
  import opened Basics
  import opened Domain
  import opened System
  import W = Workloads
  import C = Capacity
  import P = CapacityProofs

  // ---- What a change to one workload's streams leaves alone ----

  /** Streams and segments of other workloads stay as they are; none moves between workloads or disappears. */
  predicate Only(
    streams: map<Id, Stream>, segments: map<Id, Segment>, streams': map<Id, Stream>, segments': map<Id, Segment>, workload: Id)
  {
    && (forall s :: s in streams ==>
          s in streams' && streams'[s].workload == streams[s].workload && (streams[s].workload == workload || streams'[s] == streams[s]))
    && (forall s :: s in streams' && s !in streams ==> streams'[s].workload == workload)
    && (forall s :: s in segments ==> s in segments' && segments'[s] == segments[s])
    && (forall s :: s in segments' && s !in segments ==>
          segments'[s].stream in streams' && streams'[segments'[s].stream].workload == workload)
  }

  lemma SubmittedElsewhere(
    workloads: map<Id, Workload>, streams: map<Id, Stream>, segments: map<Id, Segment>,
    streams': map<Id, Stream>, segments': map<Id, Segment>, workload: Id)
    requires SubmittedOk(workloads, streams) && Only(streams, segments, streams', segments', workload)
    requires workload in workloads && !PastSubmission(workloads[workload])
    ensures SubmittedOk(workloads, streams')
  {
    forall w | w in workloads && PastSubmission(workloads[w])
      ensures AllAligned(streams', w)
    {
      assert AllAligned(streams, w);
      assert W.StreamsOf(streams', w) == W.StreamsOf(streams, w);
    }
  }

  lemma SegmentsElsewhere(
    streams: map<Id, Stream>, segments: map<Id, Segment>, streams': map<Id, Stream>, segments': map<Id, Segment>, workload: Id, w: Id)
    requires SegmentsOk(streams, segments) && Only(streams, segments, streams', segments', workload) && w != workload
    ensures SegmentsOfWorkload(streams', segments', w) == SegmentsOfWorkload(streams, segments, w)
  {
    forall s
      ensures s in SegmentsOfWorkload(streams', segments', w) <==> s in SegmentsOfWorkload(streams, segments, w)
    {
    }
  }

  lemma ItemsElsewhere(
    t: Tables, streams': map<Id, Stream>, segments': map<Id, Segment>, workload: Id)
    requires SegmentsOk(t.streams, t.segments) && Only(t.streams, t.segments, streams', segments', workload)
    requires BatchesOk(t.workloads, t.batches) && ItemsOk(t.streams, t.segments, t.batches, t.items)
    requires workload in t.workloads && !PastSubmission(t.workloads[workload])
    ensures ItemsOk(streams', segments', t.batches, t.items)
  {
    forall b | b in t.batches
      ensures SegmentsOfWorkload(streams', segments', t.batches[b].workload) == SegmentsOfWorkload(t.streams, t.segments, t.batches[b].workload)
    {
      SegmentsElsewhere(t.streams, t.segments, streams', segments', workload, t.batches[b].workload);
    }
    hide SegmentsOk, Only, BatchesOk, SegmentsOfWorkload, Covered;
  }

  /** A change to the streams of a workload that has not been submitted. */
  lemma StreamsChange(t: Tables, streams: map<Id, Stream>, segments: map<Id, Segment>, workload: Id)
    requires Inv(t) && workload in t.workloads && !PastSubmission(t.workloads[workload])
    requires Only(t.streams, t.segments, streams, segments, workload)
    requires SegmentsOk(streams, segments) && StreamsOk(t.workloads, streams, segments)
    ensures Inv(t.(streams := streams, segments := segments))
  {
    hide *;
    InvParts(t);
    SubmittedElsewhere(t.workloads, t.streams, t.segments, streams, segments, workload);
    ItemsElsewhere(t, streams, segments, workload);
    InvParts(t.(streams := streams, segments := segments));
  }

  // ---- Opening ----

  lemma OpenKeeps(t: Tables, p: Principal, workload: Id, kind: Kind, id: Id, now: Instant)
    requires Inv(t)
    ensures Inv(Committed(t, C.OpenStep(t, p, workload, kind, id, now)))
  {
    hide Inv, SegmentsOk, StreamsOk;
    var r := C.OpenStep(t, p, workload, kind, id, now);
    if r.Ok? {
      var s := r.value.streams[id];
      assert r.value == t.(streams := t.streams[id := s]);
      InvParts(t);
      NewStreamOk(t, workload, kind, id, s);
      NewStreamOnly(t, id, s);
      hide C.OpenStep, Only;
      StreamsChange(t, t.streams[id := s], t.segments, workload);
    }
  }

  lemma NewStreamRow(segments: map<Id, Segment>, id: Id, s: Stream)
    requires forall x :: x in segments ==> segments[x].stream != id
    requires s.status.Open? && s.count == s.first == s.last == 0
    ensures StreamOk(segments, id, s)
  {
    assert C.SegmentsOf(segments, id) == {};
    assert C.Starts(segments, id) == {} && C.Ends(segments, id) == {};
  }

  lemma NewStreamOk(t: Tables, workload: Id, kind: Kind, id: Id, s: Stream)
    requires SegmentsOk(t.streams, t.segments) && StreamsOk(t.workloads, t.streams, t.segments)
    requires id !in t.streams && workload in t.workloads && s.workload == workload && s.kind == kind
    requires s.status.Open? && s.count == s.first == s.last == 0
    requires forall o :: o in W.StreamsOf(t.streams, workload) ==> t.streams[o].kind != kind
    ensures SegmentsOk(t.streams[id := s], t.segments) && StreamsOk(t.workloads, t.streams[id := s], t.segments)
  {
    hide StreamOk;
    NewStreamRow(t.segments, id, s);
    assert forall o :: o in t.streams && t.streams[o].workload == workload ==> o in W.StreamsOf(t.streams, workload);
  }

  lemma NewStreamOnly(t: Tables, id: Id, s: Stream)
    requires id !in t.streams
    ensures Only(t.streams, t.segments, t.streams[id := s], t.segments, s.workload)
  {
  }

  // ---- Appending ----

  /** The segments after an append: the old ones, and new ones of this stream. */
  predicate Grown(before: map<Id, Segment>, after: map<Id, Segment>, stream: Id) {
    && (forall s :: s in before ==> s in after && after[s] == before[s])
    && (forall s :: s in after && s !in before ==> after[s].stream == stream)
  }

  lemma AppendOneOk(streams: map<Id, Stream>, segments: map<Id, Segment>, stream: Id, i: C.SegmentInput, id: Id, now: Instant)
    requires SegmentsOk(streams, segments) && stream in streams && C.ValidInput(i)
    ensures match C.AppendOne(segments, stream, i, id, now)
      case Ok(next) => SegmentsOk(streams, next) && Grown(segments, next, stream)
      case Err(_) => true
  {
    hide C.Lower, C.HexDigit, Blank;
    if C.KeyOwners(segments, stream, i.key) == {} {
      assert forall s :: s in segments && segments[s].stream == stream && segments[s].key == i.key ==> s in C.KeyOwners(segments, stream, i.key);
    }
  }

  lemma {:induction false} AppendFromOk(
    streams: map<Id, Stream>, segments: map<Id, Segment>, stream: Id, inputs: seq<C.SegmentInput>, ids: nat -> Id, k: nat, now: Instant)
    requires SegmentsOk(streams, segments) && stream in streams && k <= |inputs|
    requires forall l :: 0 <= l < |inputs| ==> C.ValidInput(inputs[l])
    ensures match C.AppendFrom(segments, stream, inputs, ids, k, now)
      case Ok(result) => SegmentsOk(streams, result) && Grown(segments, result, stream)
      case Err(_) => true
    decreases |inputs| - k
  {
    hide SegmentsOk, C.AppendOne, C.ValidInput;
    if k < |inputs| {
      AppendOneOk(streams, segments, stream, inputs[k], ids(k), now);
      var next := C.AppendOne(segments, stream, inputs[k], ids(k), now);
      if next.Ok? { AppendFromOk(streams, next.value, stream, inputs, ids, k + 1, now); }
    }
  }

  /** Segments of another stream do not influence its aggregates. */
  lemma StreamOkElsewhere(before: map<Id, Segment>, after: map<Id, Segment>, stream: Id, id: Id, s: Stream)
    requires Grown(before, after, stream) && id != stream && StreamOk(before, id, s)
    ensures StreamOk(after, id, s)
  {
    assert C.SegmentsOf(after, id) == C.SegmentsOf(before, id);
    assert C.Starts(after, id) == C.Starts(before, id);
    assert C.Ends(after, id) == C.Ends(before, id);
    if !s.status.Open? {
      forall k | 0 <= k < |C.SegmentsOf(after, id)|
        ensures C.Numbered(after, C.SegmentsOf(after, id), k)
      {
        assert C.Numbered(before, C.SegmentsOf(before, id), k);
      }
    }
  }

  lemma AppendedOk(t: Tables, stream: Id, segments: map<Id, Segment>, s: Stream)
    requires StreamsOk(t.workloads, t.streams, t.segments) && stream in t.streams && Grown(t.segments, segments, stream)
    requires StreamOk(segments, stream, s) && s.workload == t.streams[stream].workload && s.kind == t.streams[stream].kind
    ensures StreamsOk(t.workloads, t.streams[stream := s], segments)
  {
    forall o | o in t.streams && o != stream
      ensures StreamOk(segments, o, t.streams[o])
    {
      StreamOkElsewhere(t.segments, segments, stream, o, t.streams[o]);
    }
    hide StreamOk, Grown;
  }

  /** What an append that commits has checked and what it stores. */
  predicate Appended(t: Tables, stream: Id, inputs: seq<C.SegmentInput>, ids: nat -> Id, now: Instant, u: Tables) {
    && stream in t.streams && t.streams[stream].workload in t.workloads && t.streams[stream].status.Open?
    && t.workloads[t.streams[stream].workload].status.Executing?
    && C.ValidInputs(inputs)
    && C.AppendFrom(t.segments, stream, inputs, ids, 0, now) == Ok(u.segments)
    && u == if u.segments == t.segments then t else t.(
         segments := u.segments, streams := t.streams[stream := C.Refreshed(t.streams[stream], u.segments, stream, now)])
  }

  lemma AppendCommits(t: Tables, p: Principal, stream: Id, inputs: seq<C.SegmentInput>, ids: nat -> Id, now: Instant)
    ensures var r := C.AppendStep(t, p, stream, inputs, ids, now);
      r.Ok? ==> Appended(t, stream, inputs, ids, now, r.value)
  {
    hide C.AppendFrom, C.Refreshed, C.ValidInputs;
  }

  lemma RefreshedOk(segments: map<Id, Segment>, stream: Id, s: Stream, now: Instant)
    requires s.status.Open?
    ensures var s' := C.Refreshed(s, segments, stream, now);
      StreamOk(segments, stream, s') && s'.workload == s.workload && s'.kind == s.kind
  {
  }

  lemma GrownOnly(streams: map<Id, Stream>, segments: map<Id, Segment>, stream: Id, s: Stream, segments': map<Id, Segment>)
    requires Grown(segments, segments', stream) && stream in streams && s.workload == streams[stream].workload
    ensures Only(streams, segments, streams[stream := s], segments', s.workload)
  {
  }

  lemma AppendedKeeps(t: Tables, stream: Id, inputs: seq<C.SegmentInput>, ids: nat -> Id, now: Instant, u: Tables)
    requires Inv(t) && Appended(t, stream, inputs, ids, now, u)
    ensures Inv(u)
  {
    hide Inv, C.AppendFrom, C.ValidInput, Grown, C.Refreshed;
    EachValid(inputs);
    InvSegments(t);
    AppendFromOk(t.streams, t.segments, stream, inputs, ids, 0, now);
    GrowthKeeps(t, stream, u.segments, now);
  }

  lemma InvSegments(t: Tables)
    requires Inv(t)
    ensures SegmentsOk(t.streams, t.segments)
  {
    hide *;
    InvParts(t);
  }

  lemma GrowthKeeps(t: Tables, stream: Id, segments: map<Id, Segment>, now: Instant)
    requires Inv(t) && stream in t.streams && t.streams[stream].status.Open?
    requires t.streams[stream].workload in t.workloads && !PastSubmission(t.workloads[t.streams[stream].workload])
    requires SegmentsOk(t.streams, segments) && Grown(t.segments, segments, stream)
    ensures Inv(t.(segments := segments, streams := t.streams[stream := C.Refreshed(t.streams[stream], segments, stream, now)]))
  {
    hide *;
    var s := C.Refreshed(t.streams[stream], segments, stream, now);
    InvParts(t);
    RefreshedOk(segments, stream, t.streams[stream], now);
    AppendedOk(t, stream, segments, s);
    GrownOnly(t.streams, t.segments, stream, s, segments);
    SameStreams(t.streams, t.streams[stream := s], segments);
    StreamsChange(t, t.streams[stream := s], segments, s.workload);
  }

  lemma AppendKeeps(t: Tables, p: Principal, stream: Id, inputs: seq<C.SegmentInput>, ids: nat -> Id, now: Instant)
    requires Inv(t)
    ensures Inv(Committed(t, C.AppendStep(t, p, stream, inputs, ids, now)))
  {
    hide Inv, C.AppendStep, Appended;
    var r := C.AppendStep(t, p, stream, inputs, ids, now);
    AppendCommits(t, p, stream, inputs, ids, now);
    if r.Ok? { AppendedKeeps(t, stream, inputs, ids, now, r.value); }
  }

  lemma EachValid(inputs: seq<C.SegmentInput>)
    requires C.ValidInputs(inputs)
    ensures forall k :: 0 <= k < |inputs| ==> C.ValidInput(inputs[k])
  {
    hide C.ValidInput;
  }

  lemma SameStreams(streams: map<Id, Stream>, streams': map<Id, Stream>, segments: map<Id, Segment>)
    requires SegmentsOk(streams, segments) && streams.Keys == streams'.Keys
    ensures SegmentsOk(streams', segments)
  {
  }

  // ---- Sealing and aligning ----

  lemma SealKeeps(t: Tables, p: Principal, stream: Id, now: Instant)
    requires Inv(t)
    ensures Inv(Committed(t, C.SealStep(t, p, stream, now)))
  {
    hide Inv, C.Adjacent, C.SegmentRows, C.SegmentBytes, SegmentsOk, StreamsOk;
    var r := C.SealStep(t, p, stream, now);
    if r.Ok? {
      var s := r.value.streams[stream];
      InvParts(t);
      SealedOk(t, stream, s);
      SameStreams(t.streams, r.value.streams, t.segments);
      StreamsChange(t, r.value.streams, t.segments, s.workload);
    }
  }

  lemma SealedOk(t: Tables, stream: Id, s: Stream)
    requires SegmentsOk(t.streams, t.segments) && StreamsOk(t.workloads, t.streams, t.segments) && stream in t.streams
    requires |C.SegmentRows(t.segments, stream)| > 0 && C.Adjacent(C.SegmentRows(t.segments, stream))
    requires s == t.streams[stream].(status := Sealed, digest := s.digest, updated := s.updated, version := s.version)
    ensures StreamsOk(t.workloads, t.streams[stream := s], t.segments)
  {
    hide C.Adjacent, C.Tiled, C.ListSegments;
    P.AdjacentIffTiled(t.segments, stream);
    assert StreamOk(t.segments, stream, t.streams[stream]);
    assert StreamOk(t.segments, stream, s);
    hide StreamOk;
  }

  lemma AlignedOk(t: Tables, ids: set<Id>, now: Instant)
    requires StreamsOk(t.workloads, t.streams, t.segments)
    requires forall s :: s in ids ==> s in t.streams && t.streams[s].status.Sealed?
    ensures StreamsOk(t.workloads, C.AlignAll(t.streams, ids, now), t.segments)
  {
    forall s | s in t.streams
      ensures StreamOk(t.segments, s, C.AlignAll(t.streams, ids, now)[s])
    {
      assert StreamOk(t.segments, s, t.streams[s]);
    }
    hide StreamOk;
  }

  lemma AlignKeeps(t: Tables, p: Principal, workload: Id, tolerance: int, now: Instant)
    requires Inv(t)
    ensures Inv(Committed(t, C.AlignStep(t, p, workload, tolerance, now)))
  {
    hide Inv, C.MaxStart, C.MinEnd, SegmentsOk, StreamsOk;
    var r := C.AlignStep(t, p, workload, tolerance, now);
    if r.Ok? {
      InvParts(t);
      AlignedOk(t, W.StreamsOf(t.streams, workload), now);
      SameStreams(t.streams, r.value.streams, t.segments);
      StreamsChange(t, r.value.streams, t.segments, workload);
    }
  }
}
