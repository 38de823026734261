/** The digest that sealing stores stays that of the stream's segments, and identifies them. */
module SealDigests {
  import opened Basics
  import opened Domain
  import opened System
  import opened History
  import opened Sorting
  import C = Capacity
  import W = Workloads
  import F = Frames
  import A = AppendProofs
  import CI = CapacityInvariants
  import Fingerprints
  import Listing

  // ---- The digest depends only on the stream's own segments ----

  /** Both tables hold the same segments of the stream. */
  predicate SameSegments(a: map<Id, Segment>, b: map<Id, Segment>, s: Id) {
    && C.SegmentsOf(a, s) == C.SegmentsOf(b, s)
    && forall x :: x in C.SegmentsOf(a, s) ==> a[x] == b[x]
  }

  lemma RowListed(segments: map<Id, Segment>, s: Id, row: Segment)
    ensures row in C.SegmentRows(segments, s) <==> exists x :: x in C.SegmentsOf(segments, s) && segments[x] == row
  {
    hide C.ListSegments;
    var ids := C.ListSegments(segments, s);
    var rows := C.SegmentRows(segments, s);
    if x :| x in C.SegmentsOf(segments, s) && segments[x] == row {
      assert x in ids;
      var k :| 0 <= k < |ids| && ids[k] == x;
      assert rows[k] == row;
    }
    if row in rows {
      var k :| 0 <= k < |rows| && rows[k] == row;
      assert ids[k] in ids;
    }
  }

  /** Different sequence numbers make the listing strictly ascending. */
  lemma RowsAscend(segments: map<Id, Segment>, s: Id)
    requires A.Distinct(segments, s)
    ensures StrictlyAscends(C.SequenceBefore, C.SegmentRows(segments, s))
  {
    hide C.ListSegments, C.SegmentsOf;
    var ids := C.ListSegments(segments, s);
    assert forall k :: 0 <= k < |ids| ==> ids[k] in ids;
  }

  lemma RowsStable(a: map<Id, Segment>, b: map<Id, Segment>, s: Id)
    requires SameSegments(a, b, s) && A.Distinct(a, s) && A.Distinct(b, s)
    ensures C.SegmentRows(a, s) == C.SegmentRows(b, s)
  {
    hide C.SegmentRows, C.SegmentsOf, A.Distinct, C.SequenceBefore, StrictlyAscends, WeakOrder;
    RowsAscend(a, s);
    RowsAscend(b, s);
    forall row
      ensures row in C.SegmentRows(a, s) <==> row in C.SegmentRows(b, s)
    {
      RowListed(a, s, row);
      RowListed(b, s, row);
    }
    C.SequenceBeforeWeak();
    SameElementsSameOrder(C.SequenceBefore, C.SegmentRows(a, s), C.SegmentRows(b, s));
  }

  // ---- Over any run ----

  /** A stream that is no longer open stores the digest of its segments. */
  predicate DigestOk(segments: map<Id, Segment>, id: Id, s: Stream) {
    !s.status.Open? ==> s.digest == C.SegmentBytes(C.SegmentRows(segments, id))
  }

  predicate DigestsOk(streams: map<Id, Stream>, segments: map<Id, Segment>) {
    forall s :: s in streams ==> DigestOk(segments, s, streams[s])
  }

  lemma GrownElsewhere(before: map<Id, Segment>, after: map<Id, Segment>, stream: Id, s: Id)
    requires CI.Grown(before, after, stream) && s != stream
    ensures SameSegments(before, after, s)
  {
  }

  lemma AppendKeepsDigests(t: Tables, c: CapacityCall)
    requires Inv(t) && c.Append? && CapacityStep(t, c).Ok? && DigestsOk(t.streams, t.segments)
    ensures var u := CapacityStep(t, c).value; DigestsOk(u.streams, u.segments)
  {
    hide Inv, CapacityStep, CI.Appended, C.SegmentRows, C.SegmentBytes, SegmentsOk, CI.Grown, A.Distinct, A.Loop, SameSegments;
    var u := CapacityStep(t, c).value;
    CI.InvSegments(t);
    A.AppendCommitsIff(t, c);
    AppendGrows(t, c, u);
    OneRowRefreshed(t, c, u);
    A.StreamsDistinct(t);
    forall s | s in u.streams && s != c.stream
      ensures DigestOk(u.segments, s, u.streams[s])
    {
      assert DigestOk(t.segments, s, t.streams[s]);
      GrownElsewhere(t.segments, u.segments, c.stream, s);
      AppendDistinct(t, c, u, s);
      RowsStable(t.segments, u.segments, s);
    }
  }

  lemma OneRowRefreshed(t: Tables, c: CapacityCall, u: Tables)
    requires c.Append? && CI.Appended(t, c.stream, c.inputs, c.ids, c.now, u)
    ensures c.stream in u.streams && u.streams[c.stream].status.Open?
    ensures forall s :: s in u.streams && s != c.stream ==> s in t.streams && u.streams[s] == t.streams[s]
  {
    hide C.AppendFrom, C.ValidInputs, C.SegmentsOf, C.FirstNanos, C.LastNanos;
  }

  lemma AppendGrows(t: Tables, c: CapacityCall, u: Tables)
    requires SegmentsOk(t.streams, t.segments) && c.Append? && CI.Appended(t, c.stream, c.inputs, c.ids, c.now, u)
    ensures CI.Grown(t.segments, u.segments, c.stream) && SegmentsOk(t.streams, u.segments)
  {
    hide C.AppendFrom, SegmentsOk, CI.Grown, C.ValidInput, C.Refreshed;
    CI.AppendFromOk(t.streams, t.segments, c.stream, c.inputs, c.ids, 0, c.now);
  }

  lemma AppendDistinct(t: Tables, c: CapacityCall, u: Tables, s: Id)
    requires SegmentsOk(t.streams, t.segments) && c.Append? && CI.Appended(t, c.stream, c.inputs, c.ids, c.now, u)
    ensures A.Distinct(u.segments, s)
  {
    hide CI.Appended, SegmentsOk, A.Distinct;
    AppendGrows(t, c, u);
    A.StreamsDistinct(t.(segments := u.segments));
  }

  lemma StatusCallKeepsDigests(t: Tables, c: CapacityCall)
    requires !c.Append? && CapacityStep(t, c).Ok? && DigestsOk(t.streams, t.segments)
    ensures var u := CapacityStep(t, c).value; DigestsOk(u.streams, u.segments)
  {
    hide C.SegmentRows, C.Adjacent, C.SegmentBytes, W.StreamsOf, C.MaxStart, C.MinEnd;
    match c
    case OpenStream(_, _, _, _, _) =>
    case Seal(_, _, _) =>
    case Align(_, _, _, _) => AlignKeepsDigests(t, c);
  }

  lemma AlignKeepsDigests(t: Tables, c: CapacityCall)
    requires c.Align? && CapacityStep(t, c).Ok? && DigestsOk(t.streams, t.segments)
    ensures var u := CapacityStep(t, c).value; DigestsOk(u.streams, u.segments)
  {
    hide C.SegmentRows, C.SegmentBytes, C.MaxStart, C.MinEnd;
    var u := CapacityStep(t, c).value;
    forall s | s in u.streams
      ensures DigestOk(u.segments, s, u.streams[s])
    {
      assert DigestOk(t.segments, s, t.streams[s]);
    }
  }

  lemma CallKeepsDigests(cfg: Config, t: Tables, c: Command)
    requires Inv(t) && DigestsOk(t.streams, t.segments)
    ensures var u := After(cfg, t, c); DigestsOk(u.streams, u.segments)
  {
    hide Inv, Exec, CapacityStep, DigestsOk;
    F.ExecGroups(cfg, t, c);
    if !c.OnCapacity? {
      F.Unchanged(cfg, t, c);
    } else if Commits(cfg, t, c) {
      if c.capacity.Append? { AppendKeepsDigests(t, c.capacity); } else { StatusCallKeepsDigests(t, c.capacity); }
    }
  }

  /** In every reachable state the digest of a sealed or aligned stream is that of its present segments. */
  lemma {:induction false} DigestsStay(cfg: Config, cs: seq<Command>)
    ensures var t := Run(cfg, EMPTY, cs); DigestsOk(t.streams, t.segments)
  {
    hide Inv, After, DigestsOk;
    if cs == [] {
      NoDigests();
    } else {
      var n := |cs| - 1;
      DigestsStay(cfg, cs[..n]);
      InvAlong(cfg, cs[..n]);
      CallKeepsDigests(cfg, Run(cfg, EMPTY, cs[..n]), cs[n]);
    }
  }

  lemma NoDigests()
    ensures DigestsOk(EMPTY.streams, EMPTY.segments)
  {
  }

  // ---- The digest identifies the segments ----

  /** What the digest says of a segment; its key and its row are not part of it. */
  datatype Line = Line(sequence: int, start: int, end: int, uri: string, checksum: string)

  function LineOf(s: Segment): Line { Line(s.sequence, s.start, s.end, s.uri, s.checksum) }

  function LinesOf(rows: seq<Segment>): (r: seq<Line>)
    ensures |r| == |rows| && forall k :: 0 <= k < |r| ==> r[k] == LineOf(rows[k])
  {
    seq(|rows|, k requires 0 <= k < |rows| => LineOf(rows[k]))
  }

  predicate Plain(s: Segment) {
    s.sequence >= 0 && s.start >= 0 && s.end >= 0 && Fingerprints.NulFree(s.uri) && Fingerprints.LineFree(s.checksum)
  }

  /** Two listings have one digest exactly when they say the same, segment by segment. */
  lemma {:induction false} SealIdentifies(a: seq<Segment>, b: seq<Segment>)
    requires forall k :: 0 <= k < |a| ==> Plain(a[k])
    requires forall k :: 0 <= k < |b| ==> Plain(b[k])
    ensures C.SegmentBytes(a) == C.SegmentBytes(b) <==> LinesOf(a) == LinesOf(b)
    decreases |a|
  {
    if a == [] || b == [] {
      BytesEmptyIff(a);
      BytesEmptyIff(b);
    } else {
      var x, y := C.SegmentBytes(a[1..]), C.SegmentBytes(b[1..]);
      SealIdentifies(a[1..], b[1..]);
      assert LinesOf(a) == [LineOf(a[0])] + LinesOf(a[1..]) && LinesOf(b) == [LineOf(b[0])] + LinesOf(b[1..]);
      hide Fingerprints.SegmentLine, LinesOf;
      if C.SegmentBytes(a) == C.SegmentBytes(b) {
        Fingerprints.SegmentLineInjective(
          a[0].sequence, a[0].start, a[0].end, a[0].uri, a[0].checksum,
          b[0].sequence, b[0].start, b[0].end, b[0].uri, b[0].checksum, x, y);
      }
      if LinesOf(a) == LinesOf(b) { SameTail(LineOf(a[0]), LinesOf(a[1..]), LineOf(b[0]), LinesOf(b[1..])); }
    }
  }

  lemma SameTail(a: Line, x: seq<Line>, b: Line, y: seq<Line>)
    requires [a] + x == [b] + y
    ensures a == b && x == y
  {
    assert ([a] + x)[0] == ([b] + y)[0] && ([a] + x)[1..] == ([b] + y)[1..];
  }

  lemma BytesEmptyIff(a: seq<Segment>)
    ensures C.SegmentBytes(a) == "" <==> a == []
    ensures LinesOf(a) == [] <==> a == []
  {
  }
}
