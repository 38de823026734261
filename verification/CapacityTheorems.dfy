/** What sealing and aligning accept in reachable states. */
module CapacityTheorems {
  import opened Basics
  import opened Domain
  import opened System
  import W = Workloads
  import C = Capacity
  import P = CapacityProofs
  import CI = CapacityInvariants
  import Reachability
  import Text

  lemma PositiveLengths(t: Tables)
    requires SegmentsOk(t.streams, t.segments)
    ensures forall s :: s in t.segments ==> t.segments[s].start < t.segments[s].end
  {
  }

  /** Sealing accepts exactly the open streams whose segments are numbered 0..n-1 and disjoint in that order. */
  lemma SealAcceptsIff(cfg: Config, t: Tables, p: Principal, stream: Id, now: Instant)
    requires Reachable(cfg, t)
    ensures C.SealStep(t, p, stream, now).Ok? <==>
      && stream in t.streams && t.streams[stream].status.Open?
      && t.streams[stream].workload in t.workloads && t.workloads[t.streams[stream].workload].status.Executing?
      && t.workloads[t.streams[stream].workload].operator == p.user
      && C.SegmentsOf(t.segments, stream) != {} && C.Tiled(t.segments, C.SegmentsOf(t.segments, stream))
  {
    hide Reachable, Inv, C.Adjacent, C.ListSegments, C.Tiled, C.SegmentBytes, SegmentsOk;
    Reachability.ReachableInv(cfg, t);
    CI.InvSegments(t);
    PositiveLengths(t);
    if stream in t.streams {
      StreamFacts(t, stream);
      P.AdjacentIffTiled(t.segments, stream);
    }
  }

  lemma StreamFacts(t: Tables, s: Id)
    requires Inv(t) && s in t.streams
    ensures t.streams[s].workload in t.workloads && StreamOk(t.segments, s, t.streams[s])
  {
    hide Inv, StreamOk;
    assert StreamsOk(t.workloads, t.streams, t.segments) by { InvParts(t); }
  }

  /**
   * The cached count, first and last of a sealed or aligned stream are the number of its segments, the first
   * start and the last end in listing order, and their span is total usage plus total gaps.
   */
  lemma SealedAggregates(cfg: Config, t: Tables, s: Id)
    requires Reachable(cfg, t) && s in t.streams && !t.streams[s].status.Open?
    ensures var rows, row := C.SegmentRows(t.segments, s), t.streams[s];
      && row.count == |rows| > 0 && (forall k :: 0 <= k < |rows| ==> rows[k].sequence == k)
      && row.first == rows[0].start && row.last == rows[|rows| - 1].end
      && row.last - row.first == P.Usage(rows) + P.Gaps(rows)
  {
    hide Reachable, Inv, C.ListSegments, P.Usage, P.Gaps, C.FirstNanos, C.LastNanos, SegmentsOk;
    Reachability.ReachableInv(cfg, t);
    CI.InvSegments(t);
    PositiveLengths(t);
    StreamFacts(t, s);
    P.AdjacentIffTiled(t.segments, s);
    P.SealedSpan(t.segments, s);
  }

  /** Cached bounds are int64 values that are not negative. */
  lemma BoundsAreStored(t: Tables, s: Id)
    requires SegmentsOk(t.streams, t.segments) && s in t.streams && StreamOk(t.segments, s, t.streams[s])
    ensures 0 <= t.streams[s].first <= MAX_INT64 && 0 <= t.streams[s].last <= MAX_INT64
  {
  }

  /** Any two of the ranges overlap within the tolerance. */
  predicate PairwiseNear(streams: map<Id, Stream>, ids: set<Id>, tolerance: int)
    requires ids <= streams.Keys
  {
    forall a, b :: a in ids && b in ids ==> streams[a].first <= streams[b].last + tolerance
  }

  /**
   * Aligning accepts exactly when at least two streams are all sealed and their ranges, extended by the
   * tolerance, share an instant; that is when every two of them overlap within the tolerance.
   */
  lemma AlignAcceptsIff(cfg: Config, t: Tables, p: Principal, workload: Id, tolerance: int, now: Instant)
    requires Reachable(cfg, t)
    ensures var ids := W.StreamsOf(t.streams, workload);
      && (C.AlignStep(t, p, workload, tolerance, now).Ok? <==>
            && 0 <= tolerance <= 5_000_000_000
            && workload in t.workloads && t.workloads[workload].status.Executing?
            && (p.operator ==> t.workloads[workload].operator == p.user)
            && |ids| >= 2 && (forall s :: s in ids ==> t.streams[s].status.Sealed?)
            && PairwiseNear(t.streams, ids, tolerance))
      && (ids != {} && tolerance >= 0 ==>
            (PairwiseNear(t.streams, ids, tolerance) <==> exists x :: P.Shared(t.streams, ids, tolerance, x))
            && -MAX_INT64 <= C.MaxStart(t.streams, ids) - C.MinEnd(t.streams, ids) <= MAX_INT64)
  {
    hide Reachable, Inv, StreamOk, SegmentsOk, C.MaxStart, C.MinEnd, P.Shared;
    Reachability.ReachableInv(cfg, t);
    CI.InvSegments(t);
    var ids := W.StreamsOf(t.streams, workload);
    forall s | s in ids
      ensures 0 <= t.streams[s].first <= MAX_INT64 && 0 <= t.streams[s].last <= MAX_INT64
      ensures t.streams[s].status.Sealed? ==> t.streams[s].count != 0
    {
      StreamFacts(t, s);
      BoundsAreStored(t, s);
      SealedNotEmpty(t.segments, s, t.streams[s]);
    }
    if ids != {} && tolerance >= 0 { P.ScanIsHelly(t.streams, ids, tolerance); }
  }

  lemma SealedNotEmpty(segments: map<Id, Segment>, id: Id, s: Stream)
    requires StreamOk(segments, id, s)
    ensures s.status.Sealed? ==> s.count != 0
  {
  }

  // ---- The order of streams ----

  /** The kinds as the table stores them. */
  function KindText(k: Kind): string {
    match k
    case Gpu => "gpu"
    case Cpu => "cpu"
    case Memory => "memory"
    case Storing => "storage"
    case Network => "network"
  }

  lemma RankIsText(a: Kind, b: Kind)
    ensures C.KindRank(a) < C.KindRank(b) <==> Text.Less(KindText(a), KindText(b))
  {
    assert KindText(a)[0] == KindText(b)[0] ==> a == b;
    if a == b { Text.LessIrreflexive(KindText(a)); }
  }

  /** The streams of a workload are listed by the text of their kind. */
  lemma ListedByKind(streams: map<Id, Stream>, workload: Id)
    ensures var r := C.ListStreams(streams, workload);
      forall i, j :: 0 <= i < j < |r| ==>
        r[i] in streams && r[j] in streams
        && (Text.Less(KindText(streams[r[i]].kind), KindText(streams[r[j]].kind)) || streams[r[i]].kind == streams[r[j]].kind)
  {
    hide KindText, C.KindRank, Text.Less;
    var r := C.ListStreams(streams, workload);
    C.StreamBeforeOrders(streams, W.StreamsOf(streams, workload));
    forall i, j | 0 <= i < j < |r|
      ensures r[i] in streams && r[j] in streams
      ensures Text.Less(KindText(streams[r[i]].kind), KindText(streams[r[j]].kind)) || streams[r[i]].kind == streams[r[j]].kind
    {
      assert C.StreamBefore(streams)(r[i], r[j]);
      RankIsText(streams[r[i]].kind, streams[r[j]].kind);
    }
  }
}
