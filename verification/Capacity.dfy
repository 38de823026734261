/** Capacity streams: opening, appending usage segments, sealing, and aligning a workload's streams. */
module Capacity {
  import opened Basics
  import opened Domain
  import opened Listing
  import opened Sorting
  import opened Workloads
  import Text
  import Fingerprints

  const MAX_TOLERANCE: int := 5_000_000_000

  datatype SegmentInput = SegmentInput(sequence: int, start: int, end: int, uri: string, checksum: string, key: string)

  // ---- Aggregates ----

  /** The least element (SQL `MIN`). */
  function Least(s: set<int>): (m: int)
    requires s != {}
    ensures m in s && forall x :: x in s ==> m <= x
  {
    assert exists m :: m in s && forall x :: x in s ==> m <= x by {
      var m := FirstExists((a: int, b: int) => a < b, s);
    }
    var m :| m in s && forall x :: x in s ==> m <= x;
    m
  }

  /** The greatest element (SQL `MAX`). */
  function Greatest(s: set<int>): (m: int)
    requires s != {}
    ensures m in s && forall x :: x in s ==> x <= m
  {
    assert exists m :: m in s && forall x :: x in s ==> x <= m by {
      var m := FirstExists((a: int, b: int) => a > b, s);
    }
    var m :| m in s && forall x :: x in s ==> x <= m;
    m
  }

  function SegmentsOf(segments: map<Id, Segment>, stream: Id): set<Id> {
    set s | s in segments && segments[s].stream == stream
  }

  function Starts(segments: map<Id, Segment>, stream: Id): set<int> {
    set s | s in SegmentsOf(segments, stream) :: segments[s].start
  }

  function Ends(segments: map<Id, Segment>, stream: Id): set<int> {
    set s | s in SegmentsOf(segments, stream) :: segments[s].end
  }

  /** `COUNT`, `COALESCE(MIN(start), 0)` and `COALESCE(MAX(end), 0)` over a stream's segments. */
  function FirstNanos(segments: map<Id, Segment>, stream: Id): int {
    if Starts(segments, stream) == {} then 0 else Least(Starts(segments, stream))
  }

  function LastNanos(segments: map<Id, Segment>, stream: Id): int {
    if Ends(segments, stream) == {} then 0 else Greatest(Ends(segments, stream))
  }

  function Refreshed(s: Stream, segments: map<Id, Segment>, id: Id, now: Instant): Stream {
    s.(count := |SegmentsOf(segments, id)|, first := FirstNanos(segments, id), last := LastNanos(segments, id),
       updated := now, version := s.version + 1)
  }

  // ---- Input validation ----

  predicate HexDigit(c: char) { '0' <= c <= '9' || 'a' <= c <= 'f' || 'A' <= c <= 'F' }

  predicate ValidInput(i: SegmentInput) {
    && 0 <= i.sequence && 0 <= i.start < i.end <= MAX_INT64
    && !Blank(i.uri) && !Blank(i.key)
    && |i.checksum| == 64 && forall k :: 0 <= k < 64 ==> HexDigit(i.checksum[k])
  }

  predicate ValidInputs(inputs: seq<SegmentInput>) {
    && (forall k :: 0 <= k < |inputs| ==> ValidInput(inputs[k]))
    && (forall k, l :: 0 <= k < l < |inputs| ==> inputs[k].sequence != inputs[l].sequence && inputs[k].key != inputs[l].key)
  }

  /** The scan with one map of sequences and one of keys. */
  method ValidateInputs(inputs: seq<SegmentInput>) returns (ok: bool)
    ensures ok == ValidInputs(inputs)
  {
    var sequences: set<int>, keys: set<string> := {}, {};
    for i := 0 to |inputs|
      invariant ValidInputs(inputs[..i])
      invariant forall x :: x in sequences <==> exists k :: 0 <= k < i && inputs[k].sequence == x
      invariant forall x :: x in keys <==> exists k :: 0 <= k < i && inputs[k].key == x
    {
      var input := inputs[i];
      if !ValidInput(input) || input.sequence in sequences || input.key in keys { return false; }
      sequences, keys := sequences + {input.sequence}, keys + {input.key};
      assert inputs[..i + 1] == inputs[..i] + [input];
    }
    assert inputs[..|inputs|] == inputs;
    ok := true;
  }

  // ---- Appending ----

  function LowerChar(c: char): char { if 'A' <= c <= 'Z' then c - 'A' + 'a' else c }

  /** `strings.ToLower`, for ASCII text. */
  function Lower(s: string): (r: string)
    ensures |r| == |s|
  {
    if s == "" then "" else [LowerChar(s[0])] + Lower(s[1..])
  }

  function KeyOwners(segments: map<Id, Segment>, stream: Id, key: string): set<Id> {
    set s | s in segments && segments[s].stream == stream && segments[s].key == key
  }

  predicate SameSegment(s: Segment, i: SegmentInput) {
    s.sequence == i.sequence && s.start == i.start && s.end == i.end && s.uri == i.uri && s.checksum == Lower(i.checksum)
  }

  function SegmentFor(stream: Id, i: SegmentInput, now: Instant): Segment {
    Segment(stream, i.sequence, i.start, i.end, i.uri, Lower(i.checksum), i.key, now)
  }

  predicate SequenceTaken(segments: map<Id, Segment>, stream: Id, sequence: int) {
    exists s :: s in segments && segments[s].stream == stream && segments[s].sequence == sequence
  }

  /** One input: replay an equal segment, or insert a new one under the UNIQUE keys. */
  function AppendOne(segments: map<Id, Segment>, stream: Id, i: SegmentInput, id: Id, now: Instant): Result<map<Id, Segment>> {
    var owners := KeyOwners(segments, stream, i.key);
    if owners != {} then
      if SameSegment(segments[ById(owners)[0]], i) then Ok(segments) else Err(IdempotencyConflict)
    else if id in segments || SequenceTaken(segments, stream, i.sequence) then Err(Storage)
    else Ok(segments[id := SegmentFor(stream, i, now)])
  }

  /** The inputs from position `k` on; `ids(k)` is the id generated for input `k`. */
  function AppendFrom(segments: map<Id, Segment>, stream: Id, inputs: seq<SegmentInput>, ids: nat -> Id, k: nat, now: Instant)
    : Result<map<Id, Segment>>
    requires k <= |inputs|
    decreases |inputs| - k
  {
    if k == |inputs| then Ok(segments)
    else
      var next :- AppendOne(segments, stream, inputs[k], ids(k), now);
      AppendFrom(next, stream, inputs, ids, k + 1, now)
  }

  lemma AppendFromNext(segments: map<Id, Segment>, stream: Id, inputs: seq<SegmentInput>, ids: nat -> Id, k: nat, now: Instant)
    requires k <= |inputs|
    ensures AppendFrom(segments, stream, inputs, ids, k, now) ==
      if k == |inputs| then Ok(segments)
      else match AppendOne(segments, stream, inputs[k], ids(k), now)
        case Ok(next) => AppendFrom(next, stream, inputs, ids, k + 1, now)
        case Err(e) => Err(e)
  {
  }

  function AppendStep(t: Tables, p: Principal, stream: Id, inputs: seq<SegmentInput>, ids: nat -> Id, now: Instant): Result<Tables> {
    if stream == "" || |inputs| == 0 || |inputs| > 250 || !ValidInputs(inputs) then Err(Validation)
    else if stream !in t.streams || t.streams[stream].workload !in t.workloads then Err(NotFound)
    else
      var s := t.streams[stream];
      var w := t.workloads[s.workload];
      if w.operator != p.user then Err(Forbidden)
      else if !w.status.Executing? || !s.status.Open? then Err(Precondition)
      else
        var segments :- AppendFrom(t.segments, stream, inputs, ids, 0, now);
        if segments == t.segments then Ok(t)
        else Ok(t.(segments := segments, streams := t.streams[stream := Refreshed(s, segments, stream, now)]))
  }

  // ---- Opening, sealing, aligning ----

  /** The alphabetical position of a kind. */
  function KindRank(k: Kind): nat {
    match k
    case Cpu => 0
    case Gpu => 1
    case Memory => 2
    case Network => 3
    case Storing => 4
  }

  function StreamBefore(streams: map<Id, Stream>): (Id, Id) -> bool {
    (a: Id, b: Id) =>
      a in streams && b in streams
      && (KindRank(streams[a].kind) < KindRank(streams[b].kind) || (streams[a].kind == streams[b].kind && Text.Less(a, b)))
  }

  lemma StreamBeforeOrders(streams: map<Id, Stream>, s: set<Id>)
    requires s <= streams.Keys
    ensures Orders(StreamBefore(streams), s)
  {
    TextOrders(s);
  }

  /** `ListStreams`: by kind. */
  function ListStreams(streams: map<Id, Stream>, workload: Id): (r: seq<Id>)
    ensures |r| == |StreamsOf(streams, workload)|
    ensures forall x :: x in r <==> x in StreamsOf(streams, workload)
    ensures forall i, j :: 0 <= i < j < |r| ==> r[i] != r[j]
  {
    StreamBeforeOrders(streams, StreamsOf(streams, workload));
    Ascending(StreamBefore(streams), StreamsOf(streams, workload))
  }

  function OpenStep(t: Tables, p: Principal, workload: Id, kind: Kind, id: Id, now: Instant): Result<Tables> {
    if workload == "" then Err(Validation)
    else if workload !in t.workloads then Err(NotFound)
    else if t.workloads[workload].operator != p.user then Err(Forbidden)
    else if !t.workloads[workload].status.Ready? && !t.workloads[workload].status.Executing? then Err(Precondition)
    else if exists s :: s in StreamsOf(t.streams, workload) && t.streams[s].kind == kind then Err(Conflict)
    else if id in t.streams then Err(Storage)
    else Ok(t.(streams := t.streams[id := Stream(workload, kind, Open, 0, 0, 0, "", now, now, 1)]))
  }

  predicate SequenceBefore(a: Segment, b: Segment) { a.sequence < b.sequence }

  /** The check on neighbours: numbered by position, each starting no earlier than its predecessor ends. */
  predicate Adjacent(segments: seq<Segment>) {
    forall k :: 0 <= k < |segments| ==> segments[k].sequence == k && (k > 0 ==> segments[k - 1].end <= segments[k].start)
  }

  /** Numbered 0..n-1, and disjoint in the order of the numbers. */
  predicate Tiled(segments: map<Id, Segment>, ids: set<Id>)
    requires ids <= segments.Keys
  {
    && (forall k :: 0 <= k < |ids| ==> Numbered(segments, ids, k))
    && (forall a, b :: a in ids && b in ids && segments[a].sequence < segments[b].sequence ==> segments[a].end <= segments[b].start)
  }

  predicate Numbered(segments: map<Id, Segment>, ids: set<Id>, k: int)
    requires ids <= segments.Keys
  {
    exists s :: s in ids && segments[s].sequence == k
  }

  function RowBefore(segments: map<Id, Segment>): (Id, Id) -> bool {
    (a: Id, b: Id) =>
      a in segments && b in segments
      && (segments[a].sequence < segments[b].sequence || (segments[a].sequence == segments[b].sequence && Text.Less(a, b)))
  }

  lemma RowBeforeOrders(segments: map<Id, Segment>, s: set<Id>)
    requires s <= segments.Keys
    ensures Orders(RowBefore(segments), s)
  {
    TextOrders(s);
  }

  /** `ListSegments`: by sequence, then id. */
  function ListSegments(segments: map<Id, Segment>, stream: Id): (r: seq<Id>)
    ensures forall x :: x in r <==> x in SegmentsOf(segments, stream)
    ensures |r| == |SegmentsOf(segments, stream)|
    ensures forall i, j :: 0 <= i < j < |r| ==>
      r[i] in segments && r[j] in segments && r[i] != r[j] && segments[r[i]].sequence <= segments[r[j]].sequence
  {
    RowBeforeOrders(segments, SegmentsOf(segments, stream));
    Ascending(RowBefore(segments), SegmentsOf(segments, stream))
  }

  lemma ListedRowsAscend(segments: map<Id, Segment>, stream: Id)
    ensures Ascends(SequenceBefore, SegmentRows(segments, stream))
  {
  }

  function Rows(segments: map<Id, Segment>, ids: seq<Id>): (r: seq<Segment>)
    requires forall x :: x in ids ==> x in segments
    ensures |r| == |ids| && forall k :: 0 <= k < |r| ==> r[k] == segments[ids[k]]
  {
    seq(|ids|, k requires 0 <= k < |ids| => segments[ids[k]])
  }

  function SegmentRows(segments: map<Id, Segment>, stream: Id): seq<Segment> {
    Rows(segments, ListSegments(segments, stream))
  }

  /** The bytes of `segmentDigest`, in listing order. */
  function SegmentBytes(segments: seq<Segment>): string {
    if segments == [] then ""
    else
      var s := segments[0];
      Fingerprints.SegmentLine(s.sequence, s.start, s.end, s.uri, s.checksum) + SegmentBytes(segments[1..])
  }

  function SealStep(t: Tables, p: Principal, stream: Id, now: Instant): Result<Tables> {
    if stream !in t.streams || t.streams[stream].workload !in t.workloads then Err(NotFound) else
    var s := t.streams[stream];
    var w := t.workloads[s.workload];
    var rows := SegmentRows(t.segments, stream);
    if !w.status.Executing? || w.operator != p.user || !s.status.May(Sealed) || |rows| == 0 || !Adjacent(rows)
    then Err(Precondition)
    else Ok(t.(streams := t.streams[stream :=
      s.(status := Sealed, digest := SegmentBytes(rows), updated := now, version := s.version + 1)]))
  }

  /** `validateAlignment`: the scans start from zero and from the largest int64. */
  function MaxStart(streams: map<Id, Stream>, ids: set<Id>): int
    requires ids <= streams.Keys
  {
    Greatest({0} + set s | s in ids :: streams[s].first)
  }

  function MinEnd(streams: map<Id, Stream>, ids: set<Id>): int
    requires ids <= streams.Keys
  {
    Least({MAX_INT64} + set s | s in ids :: streams[s].last)
  }

  predicate Alignable(streams: map<Id, Stream>, ids: set<Id>, tolerance: int)
    requires ids <= streams.Keys
  {
    && (forall s :: s in ids ==> streams[s].status.Sealed? && streams[s].count != 0)
    && MaxStart(streams, ids) - MinEnd(streams, ids) <= tolerance
  }

  function AlignedStream(s: Stream, now: Instant): Stream {
    s.(status := Aligned, updated := now, version := s.version + 1)
  }

  function AlignAll(streams: map<Id, Stream>, ids: set<Id>, now: Instant): map<Id, Stream> {
    map s | s in streams :: if s in ids then AlignedStream(streams[s], now) else streams[s]
  }

  /** The rows under the listed ids. */
  function StreamRows(streams: map<Id, Stream>, ids: seq<Id>): (r: seq<(Id, Stream)>)
    requires forall s :: s in ids ==> s in streams
    ensures |r| == |ids| && forall k :: 0 <= k < |r| ==> r[k] == (ids[k], streams[ids[k]])
  {
    seq(|ids|, k requires 0 <= k < |ids| => (ids[k], streams[ids[k]]))
  }

  function AlignStep(t: Tables, p: Principal, workload: Id, tolerance: int, now: Instant): Result<Tables> {
    if tolerance < 0 || tolerance > MAX_TOLERANCE then Err(Validation)
    else if workload !in t.workloads then Err(NotFound)
    else
      var w, ids := t.workloads[workload], StreamsOf(t.streams, workload);
      if !w.status.Executing? then Err(Precondition)
      else if p.operator && w.operator != p.user then Err(Forbidden)
      else if |ids| < 2 || !Alignable(t.streams, ids, tolerance) then Err(Precondition)
      else Ok(t.(streams := AlignAll(t.streams, ids, now)))
  }

  // ---- The service ----

  /** The segment that stands for each input, in the order of the inputs. */
  datatype AppendResult = AppendResult(stored: seq<Id>, inserted: nat, replayed: nat)

  /** The row is the segment of the stream that carries the input's key and data. */
  predicate StandsFor(segments: map<Id, Segment>, stream: Id, i: SegmentInput, id: Id) {
    id in segments && segments[id].stream == stream && segments[id].key == i.key && SameSegment(segments[id], i)
  }

  predicate StandFor(segments: map<Id, Segment>, stream: Id, inputs: seq<SegmentInput>, r: AppendResult) {
    && |r.stored| == |inputs| == r.inserted + r.replayed
    && forall k :: 0 <= k < |inputs| ==> StandsFor(segments, stream, inputs[k], r.stored[k])
  }

  /** What the loop over the inputs has done after `done` of them. */
  predicate Progress(segments: map<Id, Segment>, current: map<Id, Segment>, stream: Id, done: seq<SegmentInput>, r: AppendResult) {
    && StandFor(current, stream, done, r)
    && |current| == |segments| + r.inserted && (r.inserted == 0 ==> current == segments)
  }

  lemma ProgressStarts(segments: map<Id, Segment>, stream: Id)
    ensures Progress(segments, segments, stream, [], AppendResult([], 0, 0))
  {
  }

  lemma OneMore(inputs: seq<SegmentInput>, k: nat)
    requires k < |inputs|
    ensures inputs[..k + 1] == inputs[..k] + [inputs[k]]
  {
  }

  /** A replayed input: the stored segment stands for it, and nothing changes. */
  lemma Replayed(
    segments: map<Id, Segment>, current: map<Id, Segment>, stream: Id, done: seq<SegmentInput>, r: AppendResult, i: SegmentInput, id: Id)
    requires Progress(segments, current, stream, done, r) && StandsFor(current, stream, i, id)
    ensures Progress(segments, current, stream, done + [i], AppendResult(r.stored + [id], r.inserted, r.replayed + 1))
  {
    hide StandsFor;
  }

  lemma StillStandsFor(current: map<Id, Segment>, stream: Id, i: SegmentInput, id: Id, new_: Id, s: Segment)
    requires StandsFor(current, stream, i, id) && new_ !in current
    ensures StandsFor(current[new_ := s], stream, i, id)
  {
    hide Lower;
  }

  /** An inserted input: the new segment stands for it, and the others stand as before. */
  lemma Appended(
    segments: map<Id, Segment>, current: map<Id, Segment>, stream: Id, done: seq<SegmentInput>, r: AppendResult, i: SegmentInput, id: Id,
    now: Instant)
    requires Progress(segments, current, stream, done, r) && id !in current
    ensures Progress(segments, current[id := SegmentFor(stream, i, now)], stream, done + [i],
                     AppendResult(r.stored + [id], r.inserted + 1, r.replayed))
  {
    var next := current[id := SegmentFor(stream, i, now)];
    assert StandsFor(next, stream, i, id);
    hide StandsFor, SegmentFor;
    forall k | 0 <= k < |done|
      ensures StandsFor(next, stream, done[k], r.stored[k])
    {
      StillStandsFor(current, stream, done[k], r.stored[k], id, next[id]);
    }
  }

  lemma OwnerStands(segments: map<Id, Segment>, stream: Id, i: SegmentInput)
    requires KeyOwners(segments, stream, i.key) != {}
    ensures var ids := ById(KeyOwners(segments, stream, i.key));
      |ids| > 0 && ids[0] in segments && (SameSegment(segments[ids[0]], i) ==> StandsFor(segments, stream, i, ids[0]))
  {
    hide Lower;
    var ids := ById(KeyOwners(segments, stream, i.key));
    assert ids[0] in ids;
  }

  lemma SequenceBeforeWeak()
    ensures WeakOrder(SequenceBefore)
  {
  }

  lemma AdjacentAscends(segments: seq<Segment>)
    requires Adjacent(segments)
    ensures StrictlyAscends(SequenceBefore, segments)
  {
  }

  /** Of two ascending arrangements of the same segments both are continuous or neither is. */
  lemma SortedAdjacent(a: seq<Segment>, b: seq<Segment>)
    requires multiset(a) == multiset(b) && Ascends(SequenceBefore, a) && Ascends(SequenceBefore, b)
    ensures Adjacent(a) <==> Adjacent(b)
  {
    hide Adjacent, Ascends, StrictlyAscends;
    if Adjacent(a) {
      AdjacentAscends(a);
      SortedUnique(SequenceBefore, b, a);
    }
    if Adjacent(b) {
      AdjacentAscends(b);
      SortedUnique(SequenceBefore, a, b);
    }
  }

  class Service {
    const db: Database

    constructor (db: Database)
      ensures this.db == db
    {
      this.db := db;
    }

    method OpenStream(p: Principal, workload: Id, kind: Kind, id: Id, now: Instant) returns (r: Result<Stream>)
      modifies db
      ensures var spec := OpenStep(old(db.tables), p, workload, kind, id, now);
        && db.tables == Committed(old(db.tables), spec)
        && match r
           case Ok(s) => spec.Ok? && id in spec.value.streams && s == spec.value.streams[id]
           case Err(e) => spec == Err(e)
    {
      if workload == "" { return Err(Validation); }
      var tx := db.tables;
      if workload !in tx.workloads { return Err(NotFound); }
      var w := tx.workloads[workload];
      if w.operator != p.user { return Err(Forbidden); }
      if w.status != Ready && w.status != Executing { return Err(Precondition); }
      if exists s :: s in StreamsOf(tx.streams, workload) && tx.streams[s].kind == kind { return Err(Conflict); }
      if id in tx.streams { return Err(Storage); }
      var stream := Stream(workload, kind, Open, 0, 0, 0, "", now, now, 1);
      db.tables := tx.(streams := tx.streams[id := stream]);
      r := Ok(stream);
    }

    /** The loop over the inputs, with the segment that stands for each input and the number of inserted ones. */
    static method InsertSegments(segments: map<Id, Segment>, stream: Id, inputs: seq<SegmentInput>, ids: nat -> Id, now: Instant)
      returns (r: Result<(map<Id, Segment>, AppendResult)>)
      ensures match AppendFrom(segments, stream, inputs, ids, 0, now)
        case Ok(result) =>
          r.Ok? && r.value.0 == result && Progress(segments, result, stream, inputs, r.value.1)
        case Err(e) => r == Err(e)
    {
      hide AppendFrom, Progress, KeyOwners, SameSegment, SequenceTaken, SegmentFor, Lower;
      ProgressStarts(segments, stream);
      var current, result := segments, AppendResult([], 0, 0);
      for k := 0 to |inputs|
        invariant AppendFrom(segments, stream, inputs, ids, 0, now) == AppendFrom(current, stream, inputs, ids, k, now)
        invariant Progress(segments, current, stream, inputs[..k], result)
      {
        AppendFromNext(current, stream, inputs, ids, k, now);
        OneMore(inputs, k);
        var input := inputs[k];
        var owners := KeyOwners(current, stream, input.key);
        if owners != {} {
          OwnerStands(current, stream, input);
          var id := ById(owners)[0];
          if !SameSegment(current[id], input) { return Err(IdempotencyConflict); }
          Replayed(segments, current, stream, inputs[..k], result, input, id);
          result := AppendResult(result.stored + [id], result.inserted, result.replayed + 1);
        } else {
          if ids(k) in current || SequenceTaken(current, stream, input.sequence) { return Err(Storage); }
          Appended(segments, current, stream, inputs[..k], result, input, ids(k), now);
          current := current[ids(k) := SegmentFor(stream, input, now)];
          result := AppendResult(result.stored + [ids(k)], result.inserted + 1, result.replayed);
        }
      }
      AppendFromNext(current, stream, inputs, ids, |inputs|, now);
      assert inputs[..|inputs|] == inputs;
      r := Ok((current, result));
    }

    /** Returns the stored segment of each input, and how many were inserted and replayed. */
    method Append(p: Principal, stream: Id, inputs: seq<SegmentInput>, ids: nat -> Id, now: Instant) returns (r: Result<AppendResult>)
      modifies db
      ensures var spec := AppendStep(old(db.tables), p, stream, inputs, ids, now);
        && db.tables == Committed(old(db.tables), spec)
        && match r
           case Ok(result) =>
             spec.Ok? && StandFor(db.tables.segments, stream, inputs, result)
             && |db.tables.segments| == |old(db.tables).segments| + result.inserted
           case Err(e) => spec == Err(e)
    {
      hide AppendFrom, SameSegment, Refreshed;
      if stream == "" || |inputs| == 0 || |inputs| > 250 { return Err(Validation); }
      var valid := ValidateInputs(inputs);
      if !valid { return Err(Validation); }
      var tx := db.tables;
      if stream !in tx.streams { return Err(NotFound); }
      var s := tx.streams[stream];
      if s.workload !in tx.workloads { return Err(NotFound); }
      var w := tx.workloads[s.workload];
      if w.operator != p.user { return Err(Forbidden); }
      if w.status != Executing || s.status != Open { return Err(Precondition); }
      var appended := InsertSegments(tx.segments, stream, inputs, ids, now);
      if appended.Err? { return Err(appended.error); }
      var (segments, result) := appended.value;
      tx := tx.(segments := segments);
      if result.inserted > 0 {
        var (streams, changed) := UpdateRow(tx.streams, stream, s.status == Open, Refreshed(s, tx.segments, stream, now));
        if changed != 1 { return Err(Conflict); }
        tx := tx.(streams := streams);
      }
      db.tables := tx;
      r := Ok(result);
    }

    /** Sorts a copy by sequence and compares neighbours. */
    static method ValidateContinuity(segments: seq<Segment>) returns (ok: bool)
      requires Ascends(SequenceBefore, segments)
      ensures ok == Adjacent(segments)
    {
      SequenceBeforeWeak();
      hide WeakOrder, Ascends;
      var sorted := SortSlice(SequenceBefore, segments);
      SortedAdjacent(sorted, segments);
      ok := true;
      for k := 0 to |sorted|
        invariant forall l :: 0 <= l < k ==> sorted[l].sequence == l && (l > 0 ==> sorted[l - 1].end <= sorted[l].start)
      {
        if sorted[k].sequence != k || (k > 0 && sorted[k].start < sorted[k - 1].end) { return false; }
      }
    }

    method Seal(p: Principal, stream: Id, now: Instant) returns (r: Result<Stream>)
      modifies db
      ensures var spec := SealStep(old(db.tables), p, stream, now);
        && db.tables == Committed(old(db.tables), spec)
        && match r
           case Ok(s) => spec.Ok? && stream in spec.value.streams && s == spec.value.streams[stream]
           case Err(e) => spec == Err(e)
    {
      hide Adjacent, SegmentRows, SegmentBytes;
      var tx := db.tables;
      if stream !in tx.streams { return Err(NotFound); }
      var s := tx.streams[stream];
      if s.workload !in tx.workloads { return Err(NotFound); }
      var w := tx.workloads[s.workload];
      if w.status != Executing || w.operator != p.user { return Err(Precondition); }
      if !s.status.May(Sealed) { return Err(Precondition); }
      var rows := SegmentRows(tx.segments, stream);
      if |rows| == 0 { return Err(Precondition); }
      ListedRowsAscend(tx.segments, stream);
      var ok := ValidateContinuity(rows);
      if !ok { return Err(Precondition); }
      s := s.(status := Sealed, digest := SegmentBytes(rows), updated := now, version := s.version + 1);
      db.tables := tx.(streams := tx.streams[stream := s]);
      r := Ok(s);
    }

    /** The scan for the latest start and the earliest end. */
    static method ValidateAlignment(streams: map<Id, Stream>, ids: seq<Id>, tolerance: int) returns (ok: bool)
      requires forall s :: s in ids ==> s in streams
      ensures ok == Alignable(streams, (set s | s in ids), tolerance)
    {
      var maxStart, minEnd := 0, MAX_INT64;
      for k := 0 to |ids|
        invariant forall l :: 0 <= l < k ==> streams[ids[l]].status.Sealed? && streams[ids[l]].count != 0
        invariant maxStart == 0 || exists l :: 0 <= l < k && streams[ids[l]].first == maxStart
        invariant 0 <= maxStart && forall l :: 0 <= l < k ==> streams[ids[l]].first <= maxStart
        invariant minEnd == MAX_INT64 || exists l :: 0 <= l < k && streams[ids[l]].last == minEnd
        invariant minEnd <= MAX_INT64 && forall l :: 0 <= l < k ==> minEnd <= streams[ids[l]].last
      {
        var s := streams[ids[k]];
        if s.status != Sealed || s.count == 0 {
          assert ids[k] in ids;
          return false;
        }
        if s.first > maxStart { maxStart := s.first; }
        if s.last < minEnd { minEnd := s.last; }
      }
      var all := set s | s in ids;
      var firsts := {0} + set s | s in all :: streams[s].first;
      var lasts := {MAX_INT64} + set s | s in all :: streams[s].last;
      assert maxStart in firsts && minEnd in lasts;
      assert MaxStart(streams, all) == maxStart && MinEnd(streams, all) == minEnd;
      ok := maxStart - minEnd <= tolerance;
    }

    /** The loop that moves each listed stream from sealed to aligned, with the rows it wrote. */
    static method TransitionAll(streams: map<Id, Stream>, ids: seq<Id>, now: Instant)
      returns (r: Result<(map<Id, Stream>, seq<(Id, Stream)>)>)
      requires forall s :: s in ids ==> s in streams && streams[s].status.Sealed?
      requires forall i, j :: 0 <= i < j < |ids| ==> ids[i] != ids[j]
      ensures var all := AlignAll(streams, (set s | s in ids), now);
        r == Ok((all, StreamRows(all, ids)))
    {
      var current, rows: seq<(Id, Stream)> := streams, [];
      for k := 0 to |ids|
        invariant current.Keys == streams.Keys
        invariant |rows| == k && forall l :: 0 <= l < k ==> rows[l] == (ids[l], AlignedStream(streams[ids[l]], now))
        invariant forall s :: s in streams ==>
          current[s] == if s in ids[..k] then AlignedStream(streams[s], now) else streams[s]
      {
        var s := current[ids[k]];
        assert ids[k] !in ids[..k] && ids[k] in ids;
        if !s.status.May(Aligned) { return Err(Precondition); }
        var (next, changed) := UpdateRow(current, ids[k], s.status == Sealed, AlignedStream(s, now));
        if changed != 1 { return Err(Conflict); }
        current, rows := next, rows + [(ids[k], AlignedStream(s, now))];
      }
      assert ids[..|ids|] == ids;
      assert current == AlignAll(streams, (set s | s in ids), now);
      assert forall l :: 0 <= l < |ids| ==> ids[l] in ids;
      assert rows == StreamRows(current, ids);
      r := Ok((current, rows));
    }

    /** Returns the aligned streams in listing order. */
    method Align(p: Principal, workload: Id, tolerance: int, now: Instant) returns (r: Result<seq<(Id, Stream)>>)
      modifies db
      ensures var spec := AlignStep(old(db.tables), p, workload, tolerance, now);
        && db.tables == Committed(old(db.tables), spec)
        && match r
           case Ok(aligned) =>
             var listed := ListStreams(old(db.tables).streams, workload);
             spec.Ok? && listed != [] && (forall s :: s in listed ==> s in db.tables.streams)
             && aligned == StreamRows(db.tables.streams, listed)
           case Err(e) => spec == Err(e)
    {
      if tolerance < 0 || tolerance > MAX_TOLERANCE { return Err(Validation); }
      var tx := db.tables;
      if workload !in tx.workloads { return Err(NotFound); }
      var w := tx.workloads[workload];
      if w.status != Executing { return Err(Precondition); }
      if p.operator && w.operator != p.user { return Err(Forbidden); }
      var ids := ListStreams(tx.streams, workload);
      assert (set s | s in ids) == StreamsOf(tx.streams, workload);
      if |ids| < 2 { return Err(Precondition); }
      var ok := ValidateAlignment(tx.streams, ids, tolerance);
      if !ok { return Err(Precondition); }
      var transitioned := TransitionAll(tx.streams, ids, now);
      tx := tx.(streams := transitioned.value.0);
      db.tables := tx;
      r := Ok(transitioned.value.1);
    }
  }
}
