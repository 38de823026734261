/** Streams and usage segments are the history of the calls on them, and a sealed digest identifies the segments. */
module UsageHistory {
  import opened Basics
  import opened Domain
  import opened System
  import opened History
  import C = Capacity
  import W = Workloads
  import F = Frames
  import A = AppendProofs
  import CI = CapacityInvariants
  import Fingerprints
  import Reachability

  // ---- Streams ----

  datatype Facts = Facts(workload: Id, kind: Kind, status: StreamStatus)

  function FactsOf(streams: map<Id, Stream>, s: Id): Option<Facts> {
    if s in streams then Some(Facts(streams[s].workload, streams[s].kind, streams[s].status)) else None
  }

  /** What a committed call tells of stream `s`. */
  function Told(c: CapacityCall, s: Id, f: Option<Facts>): Option<Facts> {
    match c
    case OpenStream(_, workload, kind, id, _) => if id == s then Some(Facts(workload, kind, Open)) else f
    case Append(_, _, _, _, _) => f
    case Seal(_, stream, _) => if stream == s && f.Some? then Some(f.value.(status := Sealed)) else f
    case Align(_, workload, _, _) => if f.Some? && f.value.workload == workload then Some(f.value.(status := Aligned)) else f
  }

  ghost function Story(cfg: Config, cs: seq<Command>, s: Id): Option<Facts> {
    if cs == [] then None
    else
      var n := |cs| - 1;
      var before := Story(cfg, cs[..n], s);
      if CommitsAt(cfg, cs, n) && cs[n].OnCapacity? then Told(cs[n].capacity, s, before) else before
  }

  lemma AppendTells(t: Tables, c: CapacityCall, s: Id)
    requires c.Append? && CapacityStep(t, c).Ok?
    ensures FactsOf(CapacityStep(t, c).value.streams, s) == FactsOf(t.streams, s)
  {
    hide CapacityStep;
    A.AppendKeepsRows(t, c);
  }

  lemma SealTells(t: Tables, c: CapacityCall, s: Id)
    requires c.Seal? && CapacityStep(t, c).Ok?
    ensures FactsOf(CapacityStep(t, c).value.streams, s) == Told(c, s, FactsOf(t.streams, s))
  {
    hide C.SegmentRows, C.Adjacent, C.SegmentBytes;
  }

  lemma AlignTells(t: Tables, c: CapacityCall, s: Id)
    requires c.Align? && CapacityStep(t, c).Ok?
    ensures FactsOf(CapacityStep(t, c).value.streams, s) == Told(c, s, FactsOf(t.streams, s))
  {
    hide C.MaxStart, C.MinEnd;
    assert CapacityStep(t, c).value.streams == C.AlignAll(t.streams, W.StreamsOf(t.streams, c.workload), c.now);
  }

  lemma CallTells(t: Tables, c: CapacityCall, s: Id)
    requires CapacityStep(t, c).Ok?
    ensures FactsOf(CapacityStep(t, c).value.streams, s) == Told(c, s, FactsOf(t.streams, s))
  {
    hide W.StreamsOf, FactsOf, CapacityStep;
    match c
    case OpenStream(_, _, _, _, _) => OpenTells(t, c, s);
    case Append(_, _, _, _, _) => AppendTells(t, c, s);
    case Seal(_, _, _) => SealTells(t, c, s);
    case Align(_, _, _, _) => AlignTells(t, c, s);
  }

  lemma OpenTells(t: Tables, c: CapacityCall, s: Id)
    requires c.OpenStream? && CapacityStep(t, c).Ok?
    ensures FactsOf(CapacityStep(t, c).value.streams, s) == Told(c, s, FactsOf(t.streams, s))
  {
    hide W.StreamsOf;
  }

  lemma StepTells(cfg: Config, t: Tables, c: Command, s: Id)
    ensures FactsOf(After(cfg, t, c).streams, s) ==
      if Commits(cfg, t, c) && c.OnCapacity? then Told(c.capacity, s, FactsOf(t.streams, s)) else FactsOf(t.streams, s)
  {
    hide Exec, CapacityStep, FactsOf, Told;
    F.ExecGroups(cfg, t, c);
    if !c.OnCapacity? {
      F.Unchanged(cfg, t, c);
    } else if Commits(cfg, t, c) {
      CallTells(t, c.capacity, s);
    }
  }

  /** After any run from the empty database a stream has the workload and kind it was opened with, and the status of the last call on it. */
  lemma {:induction false} StreamsAreHistory(cfg: Config, cs: seq<Command>, s: Id)
    ensures FactsOf(Run(cfg, EMPTY, cs).streams, s) == Story(cfg, cs, s)
  {
    hide After, Commits, FactsOf, Told;
    if cs == [] {
      NothingTold(s);
    } else {
      var n := |cs| - 1;
      StreamsAreHistory(cfg, cs[..n], s);
      StepTells(cfg, Run(cfg, EMPTY, cs[..n]), cs[n], s);
    }
  }

  lemma NothingTold(s: Id)
    ensures FactsOf(EMPTY.streams, s) == None && A.Stored(EMPTY.segments, s) == {}
  {
  }

  lemma OpenCommitsIff(t: Tables, p: Principal, workload: Id, kind: Kind, id: Id, now: Instant)
    ensures C.OpenStep(t, p, workload, kind, id, now).Ok? <==>
      && workload != "" && workload in t.workloads && t.workloads[workload].operator == p.user
      && (t.workloads[workload].status.Ready? || t.workloads[workload].status.Executing?) && id !in t.streams
      && (forall s :: s in t.streams && t.streams[s].workload == workload ==> t.streams[s].kind != kind)
  {
    assert forall s :: s in W.StreamsOf(t.streams, workload) <==> s in t.streams && t.streams[s].workload == workload;
    hide W.StreamsOf;
  }

  // ---- Usage ----

  /** The call brings the record to the stream. */
  function Bringing(s: Id, u: A.Usage): Command -> bool {
    (c: Command) => c.OnCapacity? && c.capacity.Append? && c.capacity.stream == s && u in A.Usages(c.capacity.inputs)
  }

  lemma AppendBrings(t: Tables, c: CapacityCall, s: Id, u: A.Usage)
    requires SegmentsOk(t.streams, t.segments) && c.Append? && CapacityStep(t, c).Ok?
    ensures u in A.Stored(CapacityStep(t, c).value.segments, s) <==> u in A.Stored(t.segments, s) || Bringing(s, u)(OnCapacity(c))
  {
    hide CapacityStep, SegmentsOk, A.Stored, A.Usages, A.Loop, A.Admitted;
    A.AppendCommitsIff(t, c);
    A.AppendAdds(t, c);
    AppendedSegments(t, c);
  }

  lemma AppendedSegments(t: Tables, c: CapacityCall)
    requires c.Append? && CapacityStep(t, c).Ok?
    ensures A.Loop(t.segments, c) == Ok(CapacityStep(t, c).value.segments)
  {
    hide CapacityStep, C.AppendFrom, C.Refreshed, C.ValidInputs;
    A.AppendCommitsIff(t, c);
  }

  lemma OthersKeepSegments(t: Tables, c: CapacityCall)
    requires !c.Append?
    ensures Committed(t, CapacityStep(t, c)).segments == t.segments
  {
    hide C.SegmentRows, C.Adjacent, C.SegmentBytes, C.Alignable, W.StreamsOf;
    match c
    case OpenStream(_, _, _, _, _) =>
    case Seal(_, _, _) =>
    case Align(_, _, _, _) =>
  }

  lemma UsageStep(cfg: Config, t: Tables, c: Command, s: Id, u: A.Usage)
    requires SegmentsOk(t.streams, t.segments)
    ensures u in A.Stored(After(cfg, t, c).segments, s) <==> u in A.Stored(t.segments, s) || (Commits(cfg, t, c) && Bringing(s, u)(c))
  {
    hide Exec, CapacityStep, SegmentsOk, A.Stored, A.Usages;
    F.ExecGroups(cfg, t, c);
    if !c.OnCapacity? {
      F.Unchanged(cfg, t, c);
    } else if !c.capacity.Append? {
      OthersKeepSegments(t, c.capacity);
    } else if Commits(cfg, t, c) {
      AppendBrings(t, c.capacity, s, u);
    }
  }

  /**
   * Conservation of usage: after any run from the empty database the records stored for a stream are exactly
   * those that the committed appends to it brought.
   */
  lemma {:induction false} UsageIsHistory(cfg: Config, cs: seq<Command>, s: Id, u: A.Usage)
    ensures u in A.Stored(Run(cfg, EMPTY, cs).segments, s) <==> Happened(cfg, cs, Bringing(s, u))
  {
    hide Inv, After, Commits, Happened, Bringing, A.Stored, SegmentsOk;
    if cs == [] {
      NothingTold(s);
      NothingHappened(cfg, Bringing(s, u));
    } else {
      var n := |cs| - 1;
      UsageIsHistory(cfg, cs[..n], s, u);
      HappenedNext(cfg, cs, Bringing(s, u));
      InvAlong(cfg, cs[..n]);
      CI.InvSegments(Run(cfg, EMPTY, cs[..n]));
      UsageStep(cfg, Run(cfg, EMPTY, cs[..n]), cs[n], s, u);
    }
  }

  // ---- What is stored is valid ----

  predicate LowerHex(c: char) { '0' <= c <= '9' || 'a' <= c <= 'f' }

  /** A record as the service admits it, with its checksum in lower case. */
  predicate ValidUsage(u: A.Usage) {
    && 0 <= u.sequence && 0 <= u.start < u.end <= 0x7fff_ffff_ffff_ffff && Trim(u.uri) != "" && Trim(u.key) != ""
    && |u.checksum| == 64 && forall k :: 0 <= k < 64 ==> LowerHex(u.checksum[k])
  }

  lemma {:induction false} LoweredHex(s: string, k: nat)
    requires k < |s|
    ensures LowerHex(C.Lower(s)[k]) <==> C.HexDigit(s[k])
  {
    if k > 0 { LoweredHex(s[1..], k - 1); }
  }

  /** An input is valid exactly when the record that it brings is. */
  lemma ValidInputIff(i: C.SegmentInput)
    ensures C.ValidInput(i) <==> ValidUsage(A.UsageIn(i))
  {
    hide C.Lower, C.HexDigit, LowerHex, Trim;
    forall k | 0 <= k < |i.checksum| ensures LowerHex(C.Lower(i.checksum)[k]) <==> C.HexDigit(i.checksum[k]) {
      LoweredHex(i.checksum, k);
    }
  }

  /** A batch of valid records, no two with one key or one sequence number. */
  predicate ValidBatch(inputs: seq<C.SegmentInput>) {
    && 1 <= |inputs| <= 250 && (forall k :: 0 <= k < |inputs| ==> ValidUsage(A.UsageIn(inputs[k])))
    && (forall k, l :: 0 <= k < l < |inputs| ==> inputs[k].sequence != inputs[l].sequence && inputs[k].key != inputs[l].key)
  }

  lemma BatchIsValid(inputs: seq<C.SegmentInput>)
    ensures ValidBatch(inputs) <==> 1 <= |inputs| <= 250 && C.ValidInputs(inputs)
  {
    hide C.ValidInput, ValidUsage;
    forall k | 0 <= k < |inputs| ensures C.ValidInput(inputs[k]) <==> ValidUsage(A.UsageIn(inputs[k])) {
      ValidInputIff(inputs[k]);
    }
  }

  lemma AdmittedIff(t: Tables, c: CapacityCall)
    requires c.Append?
    ensures A.Admitted(t, c) <==>
      && c.stream != "" && ValidBatch(c.inputs)
      && c.stream in t.streams && t.streams[c.stream].workload in t.workloads && t.streams[c.stream].status.Open?
      && t.workloads[t.streams[c.stream].workload].operator == c.p.user
      && t.workloads[t.streams[c.stream].workload].status.Executing?
  {
    hide C.ValidInputs, ValidBatch;
    BatchIsValid(c.inputs);
  }

  lemma AdmittedIsValid(t: Tables, c: CapacityCall, u: A.Usage)
    requires c.Append? && CapacityStep(t, c).Ok? && u in A.Usages(c.inputs)
    ensures ValidUsage(u)
  {
    hide CapacityStep, A.Loop, A.Admitted, ValidUsage;
    A.AppendCommitsIff(t, c);
    AdmittedIff(t, c);
    var k :| 0 <= k < |c.inputs| && A.UsageIn(c.inputs[k]) == u;
  }

  /** In every reachable state each stored record is one that the service admits. */
  lemma StoredIsValid(cfg: Config, cs: seq<Command>, s: Id, u: A.Usage)
    requires u in A.Stored(Run(cfg, EMPTY, cs).segments, s)
    ensures ValidUsage(u)
  {
    hide Run, Exec, CapacityStep, A.Stored, A.Usages, ValidUsage;
    UsageIsHistory(cfg, cs, s, u);
    var n: nat :| n < |cs| && CommitsAt(cfg, cs, n) && Bringing(s, u)(cs[n]);
    F.ExecGroups(cfg, Before(cfg, cs, n), cs[n]);
    AdmittedIsValid(Before(cfg, cs, n), cs[n].capacity, u);
  }

  /**
   * In a reachable state and with new ids, an append commits exactly when it is admitted and the records stored
   * and brought have no two with one key or one sequence number.
   */
  lemma AppendAcceptsIff(cfg: Config, t: Tables, c: CapacityCall)
    requires Reachable(cfg, t) && c.Append? && A.Fresh(t.segments, c.ids, 0, |c.inputs|)
    ensures CapacityStep(t, c).Ok? <==>
      && c.stream != "" && ValidBatch(c.inputs)
      && c.stream in t.streams && t.streams[c.stream].workload in t.workloads && t.streams[c.stream].status.Open?
      && t.workloads[t.streams[c.stream].workload].operator == c.p.user
      && t.workloads[t.streams[c.stream].workload].status.Executing?
      && A.Consistent(A.Stored(t.segments, c.stream) + A.Usages(c.inputs))
  {
    hide Reachable, Inv, CapacityStep, A.Admitted, A.Consistent, A.Stored, A.Usages, A.Loop, A.Fresh, SegmentsOk, ValidBatch;
    AdmittedIff(t, c);
    Reachability.ReachableInv(cfg, t);
    CI.InvSegments(t);
    A.AppendCommitsIff(t, c);
    A.AppendAdds(t, c);
  }
}
