/** Outbox events: the service calls, the rows they write, and their refinement of the leased-retry machine. */
module Outbox {
  import opened Basics
  import opened Domain
  import Text
  import opened Timestamps
  import Sorting
  import L = Leases
  import S = LeaseSafety

  /** The attempt budget every producer gives its events. */
  const MAX_ATTEMPTS := 5

  datatype EventOp =
    | Enqueue(id: Id, topic: string, now: Instant)
    | Claim(worker: Id, token: string, now: Instant)
    | Renew(id: Id, worker: Id, token: string, version: int, now: Instant)
    | Acknowledge(id: Id, worker: Id, token: string, version: int, now: Instant)
    | Fail(id: Id, worker: Id, token: string, message: string, version: int, permanent: bool, now: Instant)
    | Recover(now: Instant)

  // ---- Abstraction ----

  function Phase(s: EventStatus): L.Phase {
    match s
    case Pending => L.Waiting
    case Delivering => L.Held
    case Delivered => L.Done
    case EventDead => L.Dead
  }

  function ItemOf(e: Event): L.Item {
    L.Item(Phase(e.status), e.owner, e.token, e.expires, e.attempts, e.max, e.nextAt, e.created, e.version)
  }

  function Items(events: map<Id, Event>): L.Table { map id | id in events :: ItemOf(events[id]) }

  // ---- Specification of the calls ----

  predicate Leased(e: Event, worker: Id, token: string, version: int) {
    e.owner == worker && e.token == token && e.version == version
  }

  predicate Live(before: Comparison, e: Event, now: Instant) {
    e.status.Delivering? && e.expires.Some? && before(now, e.expires.value)
  }

  predicate Expired(before: Comparison, e: Event, now: Instant) {
    e.status.Delivering? && e.expires.Some? && !before(now, e.expires.value)
  }

  function Freed(e: Event, status: EventStatus, error: string, next: Instant, now: Instant): Event {
    e.(status := status, owner := "", token := "", expires := None, lastError := error, nextAt := next,
       updated := now, version := e.version + 1)
  }

  function RecoveredEvent(before: Comparison, e: Event, now: Instant): Event {
    if !Expired(before, e, now) then e
    else if e.attempts >= e.max then Freed(e, EventDead, "delivery lease expired after final attempt", now, now)
    else Freed(e, Pending, "delivery lease expired", now, now)
  }

  function RecoveredEvents(before: Comparison, events: map<Id, Event>, now: Instant): map<Id, Event> {
    map id | id in events :: RecoveredEvent(before, events[id], now)
  }

  /** The event rows after a call. */
  ghost function EventRows(cfg: L.Config, events: map<Id, Event>, op: EventOp): Result<map<Id, Event>> {
    match op
    case Enqueue(id, topic, now) =>
      if id == "" || topic == "" then Err(Validation)
      else if id in events then Err(Storage)
      else Ok(events[id := Event(topic, Pending, "", "", None, 0, MAX_ATTEMPTS, "", now, now, now, 1)])
    case Claim(worker, token, now) =>
      if worker == "" then Err(Validation) else
      var next := L.Next(cfg.before, Items(events), now);
      if next.None? then Err(NotFound) else
      var id, e := next.value, events[next.value];
      if e.attempts >= e.max then Err(Precondition)
      else Ok(events[id := e.(status := Delivering, owner := worker, token := token, expires := Some(now + cfg.ttl),
                              attempts := e.attempts + 1, updated := now, version := e.version + 1)])
    case Renew(id, worker, token, version, now) =>
      if id !in events then Err(NotFound)
      else if !Leased(events[id], worker, token, version) || !Live(cfg.before, events[id], now) then Err(LeaseLost)
      else Ok(events[id := events[id].(expires := Some(now + cfg.ttl), updated := now, version := version + 1)])
    case Acknowledge(id, worker, token, version, now) =>
      if id !in events then Err(NotFound)
      else if !Leased(events[id], worker, token, version) || !Live(cfg.before, events[id], now) then Err(LeaseLost)
      else Ok(events[id := Freed(events[id], Delivered, "", events[id].nextAt, now)])
    case Fail(id, worker, token, message, version, permanent, now) =>
      if Blank(message) then Err(Validation)
      else if id !in events then Err(NotFound)
      else if !Leased(events[id], worker, token, version) || !events[id].status.Delivering? then Err(LeaseLost)
      else
        var e := events[id];
        var retry := !permanent && e.attempts < e.max;
        var next := if retry then now + L.Backoff(cfg.base, e.attempts) else now;
        Ok(events[id := Freed(e, if retry then Pending else EventDead, Trim(message), next, now)])
    case Recover(now) =>
      Ok(RecoveredEvents(cfg.before, events, now))
  }

  /** Only the event rows change. */
  ghost function EventStep(cfg: L.Config, t: Tables, op: EventOp): Result<Tables> {
    var events :- EventRows(cfg, t.events, op);
    Ok(t.(events := events))
  }

  // ---- The service ----

  predicate DueRow(before: Comparison, e: Event, now: Instant) {
    !before(now, e.nextAt) && (e.status.Pending? || Expired(before, e, now))
  }

  predicate Precedes(before: Comparison, events: map<Id, Event>, a: Id, b: Id)
    requires a in events && b in events
  {
    before(events[a].nextAt, events[b].nextAt)
    || (!before(events[b].nextAt, events[a].nextAt)
        && (before(events[a].created, events[b].created)
            || (!before(events[b].created, events[a].created) && Text.Less(a, b))))
  }

  predicate FirstDue(before: Comparison, events: map<Id, Event>, now: Instant, id: Id) {
    && id in events && DueRow(before, events[id], now)
    && forall o :: o in events && o != id && DueRow(before, events[o], now) ==> Precedes(before, events, id, o)
  }

  /** `ListDue` with limit one selects the row the machine selects. */
  lemma ListDueSelectsNext(before: Comparison, events: map<Id, Event>, now: Instant)
    requires Sorting.WeakOrder(before)
    ensures forall id :: FirstDue(before, events, now, id) <==> L.Next(before, Items(events), now) == Some(id)
    ensures L.Next(before, Items(events), now).None? <==> forall id :: id in events ==> !FirstDue(before, events, now, id)
  {
    var t := Items(events);
    L.NextIsLeastDue(before, t, now);
    assert forall id :: id in events ==> (t[id].Due(before, now) <==> DueRow(before, events[id], now));
    assert forall a, b :: a in events && b in events ==> (L.Before(before, t, a, b) <==> Precedes(before, events, a, b));
    assert forall id :: FirstDue(before, events, now, id) <==> L.IsNext(before, t, now, id);
    hide FirstDue, L.IsNext, Sorting.WeakOrder;
  }

  function ClaimedEvent(e: Event, worker: Id, token: string, until: Instant, now: Instant): Event {
    e.(status := Delivering, owner := worker, token := token, expires := Some(until),
       attempts := e.attempts + 1, updated := now, version := e.version + 1)
  }

  /** What a claim does to the event that the due query selects. */
  lemma ClaimOfNext(cfg: L.Config, t: Tables, worker: Id, token: string, now: Instant)
    ensures var next, r := L.Next(cfg.before, Items(t.events), now), EventStep(cfg, t, EventOp.Claim(worker, token, now));
      && (worker == "" ==> r == Err(Validation))
      && (worker != "" && next.None? ==> r == Err(NotFound))
      && (worker != "" && next.Some? ==>
            && next.value in t.events
            && var id, e := next.value, t.events[next.value];
               r == if e.attempts >= e.max then Err(Precondition)
                    else Ok(t.(events := t.events[id := ClaimedEvent(e, worker, token, now + cfg.ttl, now)])))
  {
    hide L.Before, L.Backoff, Trim;
  }

  class Service {
    const db: Database
    const timing: L.Timing

    constructor (db: Database, timing: L.Timing)
      ensures this.db == db && this.timing == timing
    {
      this.db, this.timing := db, timing;
    }

    method Enqueue(id: Id, topic: string, now: Instant) returns (r: Result<Event>)
      modifies db
      ensures var spec := EventStep(timing.OnText(), old(db.tables), EventOp.Enqueue(id, topic, now));
        db.tables == Committed(old(db.tables), spec) && Answers(r, spec, (t: Tables) => t.events, id)
    {
      if id == "" || topic == "" { return Err(Validation); }
      var tx := db.tables;
      if id in tx.events { return Err(Storage); }
      var event := Event(topic, Pending, "", "", None, 0, MAX_ATTEMPTS, "", now, now, now, 1);
      db.tables := tx.(events := tx.events[id := event]);
      r := Ok(event);
    }

    method Claim(worker: Id, token: string, now: Instant) returns (r: Result<(Id, Event)>)
      modifies db
      ensures var spec := EventStep(timing.OnText(), old(db.tables), EventOp.Claim(worker, token, now));
        && db.tables == Committed(old(db.tables), spec)
        && match r
           case Ok((id, event)) => spec.Ok? && id in db.tables.events && event == db.tables.events[id]
           case Err(e) => spec == Err(e)
    {
      hide TextBefore, Sorting.WeakOrder, Precedes, L.IsNext, EventStep;
      ClaimOfNext(timing.OnText(), db.tables, worker, token, now);
      if worker == "" { return Err(Validation); }
      var tx := db.tables;
      TextBeforeWeak();
      ListDueSelectsNext(TextBefore, tx.events, now);
      if id :| id in tx.events && FirstDue(TextBefore, tx.events, now, id) {
        var event := tx.events[id];
        if event.attempts >= event.max { return Err(Precondition); }
        var row := event.(status := Delivering, owner := worker, token := token, expires := Some(now + timing.ttl),
                          attempts := event.attempts + 1, updated := now, version := event.version + 1);
        var (events, changed) := UpdateRow(tx.events, id, DueRow(TextBefore, event, now), row);
        if changed != 1 { return Err(Conflict); }
        db.tables := tx.(events := events);
        return Ok((id, row));
      }
      r := Err(NotFound);
    }

    method Renew(id: Id, worker: Id, token: string, version: int, now: Instant) returns (r: Result<Event>)
      modifies db
      ensures var spec := EventStep(timing.OnText(), old(db.tables), EventOp.Renew(id, worker, token, version, now));
        db.tables == Committed(old(db.tables), spec) && Answers(r, spec, (t: Tables) => t.events, id)
    {
      hide TextBefore;
      var tx := db.tables;
      if id !in tx.events { return Err(NotFound); }
      var event := tx.events[id];
      if event.owner != worker || event.token != token || event.version != version { return Err(LeaseLost); }
      var row := event.(expires := Some(now + timing.ttl), updated := now, version := event.version + 1);
      var (events, changed) := UpdateRow(tx.events, id, Live(TextBefore, event, now), row);
      if changed != 1 { return Err(LeaseLost); }
      db.tables := tx.(events := events);
      r := Ok(row);
    }

    method Acknowledge(id: Id, worker: Id, token: string, version: int, now: Instant) returns (r: Result<Event>)
      modifies db
      ensures var spec := EventStep(timing.OnText(), old(db.tables), EventOp.Acknowledge(id, worker, token, version, now));
        db.tables == Committed(old(db.tables), spec) && Answers(r, spec, (t: Tables) => t.events, id)
    {
      hide TextBefore;
      var tx := db.tables;
      if id !in tx.events { return Err(NotFound); }
      var event := tx.events[id];
      if event.owner != worker || event.token != token || event.version != version { return Err(LeaseLost); }
      var row := event.(status := Delivered, owner := "", token := "", expires := None, lastError := "",
                        updated := now, version := event.version + 1);
      var (events, changed) := UpdateRow(tx.events, id, Live(TextBefore, event, now), row);
      if changed != 1 { return Err(LeaseLost); }
      db.tables := tx.(events := events);
      r := Ok(row);
    }

    method Fail(id: Id, worker: Id, token: string, message: string, version: int, permanent: bool, now: Instant)
      returns (r: Result<Event>)
      modifies db
      ensures var spec := EventStep(timing.OnText(), old(db.tables), EventOp.Fail(id, worker, token, message, version, permanent, now));
        db.tables == Committed(old(db.tables), spec) && Answers(r, spec, (t: Tables) => t.events, id)
    {
      hide TextBefore;
      var trimmed := Trim(message);
      if trimmed == "" { return Err(Validation); }
      var tx := db.tables;
      if id !in tx.events { return Err(NotFound); }
      var event := tx.events[id];
      if event.owner != worker || event.token != token || event.version != version { return Err(LeaseLost); }
      var status, next := EventDead, now;
      if !permanent && event.attempts < event.max {
        status, next := Pending, now + L.Backoff(timing.base, event.attempts);
      }
      var row := event.(status := status, owner := "", token := "", expires := None, lastError := trimmed, nextAt := next,
                        updated := now, version := event.version + 1);
      var (events, changed) := UpdateRow(tx.events, id, event.status == Delivering, row);
      if changed != 1 { return Err(LeaseLost); }
      db.tables := tx.(events := events);
      r := Ok(row);
    }
  }

  // ---- Refinement ----

  function MachineOp(op: EventOp): L.Op {
    match op
    case Enqueue(id, _, now) => L.Enqueue(id, MAX_ATTEMPTS, now)
    case Claim(worker, token, now) => L.Claim(now, worker, token)
    case Renew(id, worker, token, version, now) => L.Renew(now, id, worker, token, version)
    case Acknowledge(id, worker, token, version, now) => L.Finish(now, id, worker, token, version)
    case Fail(id, worker, token, _, version, permanent, now) => L.Fail(now, id, worker, token, version, permanent)
    case Recover(now) => L.Recover(now)
  }

  /** Reasons to refuse a call that lie outside the lease protocol. */
  predicate Refused(op: EventOp) {
    match op
    case Enqueue(id, topic, _) => id == "" || topic == ""
    case Claim(worker, _, _) => worker == ""
    case Fail(_, _, _, message, _, _, _) => Blank(message)
    case _ => false
  }

  lemma ItemsUpdate(events: map<Id, Event>, id: Id, e: Event)
    ensures Items(events[id := e]) == Items(events)[id := ItemOf(e)]
  {
  }

  /** The call commits exactly when the machine accepts it and nothing outside the protocol refuses it. */
  ghost predicate Simulated(cfg: L.Config, events: map<Id, Event>, op: EventOp) {
    var r, m := EventRows(cfg, events, op), L.Step(cfg, Items(events), MachineOp(op));
    && (r.Ok? <==> m.Some? && !Refused(op))
    && (r.Ok? ==> m == Some(Items(r.value)))
  }

  lemma EventRefines(cfg: L.Config, events: map<Id, Event>, op: EventOp)
    ensures Simulated(cfg, events, op)
  {
    match op
    case Claim(_, _, now) => ClaimRefines(cfg, events, op);
    case Recover(now) => RecoverRefines(cfg.before, events, now);
    case Enqueue(_, _, _) => EnqueueRefines(cfg, events, op);
    case Fail(_, _, _, _, _, _, _) => FailRefines(cfg, events, op);
    case _ => HolderRefines(cfg, events, op);
  }

  lemma EnqueueRefines(cfg: L.Config, events: map<Id, Event>, op: EventOp)
    requires op.Enqueue?
    ensures Simulated(cfg, events, op)
  {
    var e := Event(op.topic, Pending, "", "", None, 0, MAX_ATTEMPTS, "", op.now, op.now, op.now, 1);
    ItemsUpdate(events, op.id, e);
    assert ItemOf(e) == L.Item(L.Waiting, "", "", None, 0, MAX_ATTEMPTS, op.now, op.now, 1);
  }

  lemma ClaimRefines(cfg: L.Config, events: map<Id, Event>, op: EventOp)
    requires op.Claim?
    ensures Simulated(cfg, events, op)
  {
    var next := L.Next(cfg.before, Items(events), op.now);
    if next.Some? {
      assert L.IsNext(cfg.before, Items(events), op.now, next.value);
      assert Items(events)[next.value] == ItemOf(events[next.value]);
      if EventRows(cfg, events, op).Ok? { ItemsUpdate(events, next.value, EventRows(cfg, events, op).value[next.value]); }
    }
  }

  lemma RecoverRefines(before: Comparison, events: map<Id, Event>, now: Instant)
    ensures Items(RecoveredEvents(before, events, now)) == map id | id in Items(events) :: Items(events)[id].Recovered(before, now)
  {
  }

  lemma HolderRefines(cfg: L.Config, events: map<Id, Event>, op: EventOp)
    requires op.Renew? || op.Acknowledge?
    ensures Simulated(cfg, events, op)
  {
    if op.id in events {
      var e := events[op.id];
      assert Items(events)[op.id] == ItemOf(e);
      ItemsUpdate(events, op.id, if op.Renew? then e.(expires := Some(op.now + cfg.ttl), updated := op.now, version := op.version + 1)
                                   else Freed(e, Delivered, "", e.nextAt, op.now));
    }
  }

  lemma FailRefines(cfg: L.Config, events: map<Id, Event>, op: EventOp)
    requires op.Fail?
    ensures Simulated(cfg, events, op)
  {
    hide L.Backoff, Blank, Trim;
    if op.id in events {
      var e := events[op.id];
      assert Items(events)[op.id] == ItemOf(e);
      var retry := !op.permanent && e.attempts < e.max;
      var next := if retry then op.now + L.Backoff(cfg.base, e.attempts) else op.now;
      ItemsUpdate(events, op.id, Freed(e, if retry then Pending else EventDead, Trim(op.message), next, op.now));
    }
  }

  /** Every write to an event bumps its version by one, so one version belongs to one row content. */
  predicate Versioned(before: map<Id, Event>, after: map<Id, Event>) {
    forall id :: id in before ==>
      id in after && before[id].version <= after[id].version && (after[id].version == before[id].version ==> after[id] == before[id])
  }

  lemma EventStepVersions(cfg: L.Config, events: map<Id, Event>, op: EventOp)
    ensures match EventRows(cfg, events, op)
      case Ok(u) => Versioned(events, u)
      case Err(_) => true
  {
    hide L.Backoff, Trim, L.Before;
  }
}
