/** What sealing, the cached aggregates, alignment and appending mean. */
module CapacityProofs {
  import opened Basics
  import opened Domain
  import opened Capacity
  import W = Workloads

  // ---- Continuity ----

  /** An ascending list of n values that contains 0..n-1 is exactly 0..n-1. */
  lemma {:induction false} AtLeastPosition(v: seq<int>, k: nat, at: nat)
    requires forall i, j :: 0 <= i < j < |v| ==> v[i] <= v[j]
    requires forall m :: 0 <= m < |v| ==> m in v
    requires k < |v| && at < |v| && v[at] == k
    ensures k <= at
    decreases k
  {
    if k > 0 {
      assert (k - 1) in v;
      var p :| 0 <= p < |v| && v[p] == k - 1;
      AtLeastPosition(v, k - 1, p);
      assert p < at;
    }
  }

  lemma {:induction false} AtMostPosition(v: seq<int>, k: nat, at: nat)
    requires forall i, j :: 0 <= i < j < |v| ==> v[i] <= v[j]
    requires forall m :: 0 <= m < |v| ==> m in v
    requires k < |v| && at < |v| && v[at] == k
    ensures at <= k
    decreases |v| - k
  {
    if k < |v| - 1 {
      assert (k + 1) in v;
      var p :| 0 <= p < |v| && v[p] == k + 1;
      AtMostPosition(v, k + 1, p);
      assert at < p;
    }
  }

  lemma ValueIsPosition(v: seq<int>, at: nat)
    requires forall i, j :: 0 <= i < j < |v| ==> v[i] <= v[j]
    requires forall m :: 0 <= m < |v| ==> m in v
    requires at < |v|
    ensures v[at] == at
  {
    assert at in v;
    var p :| 0 <= p < |v| && v[p] == at;
    AtLeastPosition(v, at, p);
    AtMostPosition(v, at, p);
  }

  /** Neighbours in order are pairwise in order, because every segment has positive length. */
  lemma {:induction false} AdjacentPairwise(rows: seq<Segment>, i: nat, j: nat)
    requires Adjacent(rows) && i < j < |rows|
    requires forall k :: 0 <= k < |rows| ==> rows[k].start < rows[k].end
    ensures rows[i].end <= rows[j].start
    decreases j
  {
    if i < j - 1 { AdjacentPairwise(rows, i, j - 1); }
  }

  /** The check on neighbours accepts exactly the segments numbered 0..n-1 and pairwise disjoint in that order. */
  lemma AdjacentIffTiled(segments: map<Id, Segment>, stream: Id)
    requires forall s :: s in SegmentsOf(segments, stream) ==> segments[s].start < segments[s].end
    ensures Adjacent(SegmentRows(segments, stream)) <==> Tiled(segments, SegmentsOf(segments, stream))
  {
    hide ListSegments;
    var set_, list, rows := SegmentsOf(segments, stream), ListSegments(segments, stream), SegmentRows(segments, stream);
    assert forall k :: 0 <= k < |list| ==> list[k] in list && rows[k] == segments[list[k]];
    if Adjacent(rows) {
      forall k | 0 <= k < |set_|
        ensures Numbered(segments, set_, k)
      {
        assert segments[list[k]].sequence == k;
      }
      forall a, b | a in set_ && b in set_ && segments[a].sequence < segments[b].sequence
        ensures segments[a].end <= segments[b].start
      {
        assert a in list && b in list;
        var i :| 0 <= i < |list| && list[i] == a;
        var j :| 0 <= j < |list| && list[j] == b;
        AdjacentPairwise(rows, i, j);
      }
    }
    if Tiled(segments, set_) {
      TiledListed(segments, stream);
    }
  }

  /** A list in ascending order of numbers that take every value below its length is numbered by position. */
  lemma NumberedByPosition(segments: map<Id, Segment>, ids: set<Id>, list: seq<Id>)
    requires ids <= segments.Keys && |list| == |ids| && forall x :: x in list <==> x in ids
    requires forall i, j :: 0 <= i < j < |list| ==> segments[list[i]].sequence <= segments[list[j]].sequence
    requires forall k :: 0 <= k < |ids| ==> Numbered(segments, ids, k)
    ensures forall k :: 0 <= k < |list| ==> segments[list[k]].sequence == k
  {
    var v := seq(|list|, k requires 0 <= k < |list| => segments[list[k]].sequence);
    forall m | 0 <= m < |v|
      ensures m in v
    {
      assert Numbered(segments, ids, m);
      var s :| s in ids && segments[s].sequence == m;
      var i :| 0 <= i < |list| && list[i] == s;
      assert v[i] == m;
    }
    forall k | 0 <= k < |list|
      ensures segments[list[k]].sequence == k
    {
      ValueIsPosition(v, k);
    }
  }

  lemma TiledListed(segments: map<Id, Segment>, stream: Id)
    requires Tiled(segments, SegmentsOf(segments, stream))
    ensures Adjacent(SegmentRows(segments, stream))
  {
    hide ListSegments;
    var list := ListSegments(segments, stream);
    NumberedByPosition(segments, SegmentsOf(segments, stream), list);
    assert forall k :: 0 <= k < |list| ==> list[k] in list;
  }

  function Usage(rows: seq<Segment>): int {
    if rows == [] then 0 else Usage(rows[..|rows| - 1]) + rows[|rows| - 1].end - rows[|rows| - 1].start
  }

  function Gaps(rows: seq<Segment>): int {
    if |rows| <= 1 then 0 else Gaps(rows[..|rows| - 1]) + rows[|rows| - 1].start - rows[|rows| - 2].end
  }

  lemma {:induction false} SpanSplits(rows: seq<Segment>)
    requires rows != []
    ensures rows[|rows| - 1].end - rows[0].start == Usage(rows) + Gaps(rows)
  {
    var n := |rows| - 1;
    if n > 0 {
      SpanSplits(rows[..n]);
    } else {
      assert Usage(rows[..0]) == 0;
    }
  }

  lemma FirstAndLastRow(rows: seq<Segment>, i: nat)
    requires Adjacent(rows) && i < |rows|
    requires forall k :: 0 <= k < |rows| ==> rows[k].start < rows[k].end
    ensures rows[0].start <= rows[i].start && rows[i].end <= rows[|rows| - 1].end
  {
    var n := |rows| - 1;
    if i > 0 { AdjacentPairwise(rows, 0, i); }
    if i < n { AdjacentPairwise(rows, i, n); }
  }

  lemma WithinRows(segments: map<Id, Segment>, stream: Id, s: Id)
    requires forall x :: x in SegmentsOf(segments, stream) ==> segments[x].start < segments[x].end
    requires s in SegmentsOf(segments, stream) && Adjacent(SegmentRows(segments, stream))
    ensures var rows := SegmentRows(segments, stream);
      rows != [] && rows[0].start <= segments[s].start && segments[s].end <= rows[|rows| - 1].end
  {
    hide ListSegments, SegmentRows, SegmentsOf, Adjacent;
    var i := ListedAt(segments, stream, s);
    RowsAreListed(segments, stream);
    FirstAndLastRow(SegmentRows(segments, stream), i);
  }

  lemma ListedAt(segments: map<Id, Segment>, stream: Id, s: Id) returns (i: nat)
    requires s in SegmentsOf(segments, stream)
    ensures i < |SegmentRows(segments, stream)| && SegmentRows(segments, stream)[i] == segments[s]
  {
    hide ListSegments, SegmentsOf;
    var list := ListSegments(segments, stream);
    assert s in list;
    i :| 0 <= i < |list| && list[i] == s;
  }

  lemma RowsAreListed(segments: map<Id, Segment>, stream: Id)
    requires forall x :: x in SegmentsOf(segments, stream) ==> segments[x].start < segments[x].end
    ensures var rows := SegmentRows(segments, stream); forall k :: 0 <= k < |rows| ==> rows[k].start < rows[k].end
  {
    hide ListSegments, SegmentsOf;
    var list := ListSegments(segments, stream);
    assert forall k :: 0 <= k < |list| ==> list[k] in list;
  }

  lemma LeastIs(s: set<int>, m: int)
    requires m in s && forall x :: x in s ==> m <= x
    ensures Least(s) == m
  {
  }

  lemma GreatestIs(s: set<int>, m: int)
    requires m in s && forall x :: x in s ==> x <= m
    ensures Greatest(s) == m
  {
  }

  lemma AggregateBounds(segments: map<Id, Segment>, stream: Id)
    requires forall s :: s in SegmentsOf(segments, stream) ==> segments[s].start < segments[s].end
    requires SegmentsOf(segments, stream) != {} && Adjacent(SegmentRows(segments, stream))
    ensures var rows := SegmentRows(segments, stream);
      rows != [] && FirstNanos(segments, stream) == rows[0].start && LastNanos(segments, stream) == rows[|rows| - 1].end
  {
    hide ListSegments, Adjacent, Least, Greatest;
    var list, rows := ListSegments(segments, stream), SegmentRows(segments, stream);
    var n := |rows| - 1;
    assert list[0] in list && list[n] in list;
    forall s | s in SegmentsOf(segments, stream)
      ensures rows[0].start <= segments[s].start && segments[s].end <= rows[n].end
    {
      WithinRows(segments, stream, s);
    }
    LeastIs(Starts(segments, stream), rows[0].start);
    GreatestIs(Ends(segments, stream), rows[n].end);
  }

  /** The cached bounds of a sealed stream are its first start and last end, and their span is usage plus gaps. */
  lemma SealedSpan(segments: map<Id, Segment>, stream: Id)
    requires forall s :: s in SegmentsOf(segments, stream) ==> segments[s].start < segments[s].end
    requires SegmentsOf(segments, stream) != {} && Adjacent(SegmentRows(segments, stream))
    ensures var rows := SegmentRows(segments, stream);
      && |rows| == |SegmentsOf(segments, stream)| > 0
      && FirstNanos(segments, stream) == rows[0].start && LastNanos(segments, stream) == rows[|rows| - 1].end
      && LastNanos(segments, stream) - FirstNanos(segments, stream) == Usage(rows) + Gaps(rows)
  {
    AggregateBounds(segments, stream);
    SpanSplits(SegmentRows(segments, stream));
  }

  // ---- Alignment ----

  /** Stored bounds are int64 values and not negative. */
  predicate BoundsFit(streams: map<Id, Stream>, ids: set<Id>)
    requires ids <= streams.Keys
  {
    forall s :: s in ids ==> 0 <= streams[s].first <= MAX_INT64 && 0 <= streams[s].last <= MAX_INT64
  }

  /** The instant lies in every range once each is extended by the tolerance. */
  predicate Shared(streams: map<Id, Stream>, ids: set<Id>, tolerance: int, x: int)
    requires ids <= streams.Keys
  {
    forall s :: s in ids ==> streams[s].first <= x <= streams[s].last + tolerance
  }

  /**
   * The scan accepts exactly when every two ranges overlap within the tolerance, and exactly when all
   * extended ranges share an instant; its difference never leaves int64.
   */
  lemma ScanIsHelly(streams: map<Id, Stream>, ids: set<Id>, tolerance: int)
    requires ids <= streams.Keys && ids != {} && BoundsFit(streams, ids) && tolerance >= 0
    ensures var accepted := MaxStart(streams, ids) - MinEnd(streams, ids) <= tolerance;
      && (accepted <==> forall a, b :: a in ids && b in ids ==> streams[a].first <= streams[b].last + tolerance)
      && (accepted <==> exists x :: Shared(streams, ids, tolerance, x))
    ensures -MAX_INT64 <= MaxStart(streams, ids) - MinEnd(streams, ids) <= MAX_INT64
  {
    var firsts := {0} + set s | s in ids :: streams[s].first;
    var lasts := {MAX_INT64} + set s | s in ids :: streams[s].last;
    var lo, hi := MaxStart(streams, ids), MinEnd(streams, ids);
    assert forall s :: s in ids ==> streams[s].first in firsts && streams[s].last in lasts;
    var any :| any in ids;
    assert lo in firsts && hi in lasts;
    var a :| a in ids && (streams[a].first == lo || (lo == 0 && a == any));
    var b :| b in ids && (streams[b].last == hi || (hi == MAX_INT64 && b == any));
    assert streams[a].first == lo;
    assert streams[b].last == hi;
    if lo - hi <= tolerance {
      assert Shared(streams, ids, tolerance, lo);
    }
  }
}
