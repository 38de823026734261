/** Balances and holds are the sums of what the committed calls asked for. */
module CreditHistory {
  import opened Basics
  import opened Domain
  import opened System
  import opened History
  import K = Credit
  import F = Frames
  import SystemCredit

  /** The call deposits to or reserves from the account under the key. */
  function Using(account: Id, key: string): Command -> bool {
    (c: Command) => c.OnCredit? && !c.credit.OpenOp? && c.credit.account == account && c.credit.key == key
  }

  predicate HasEntry(entries: seq<Entry>, account: Id, key: string) {
    exists k :: 0 <= k < |entries| && entries[k].account == account && entries[k].key == key
  }

  lemma FoundIff(entries: seq<Entry>, account: Id, key: string)
    ensures K.FindEntry(entries, account, key).Some? <==> HasEntry(entries, account, key)
  {
    var found := K.FindEntry(entries, account, key);
    if found.Some? { var k :| 0 <= k < |entries| && entries[k] == found.value; }
    if HasEntry(entries, account, key) {
      var k :| 0 <= k < |entries| && entries[k].account == account && entries[k].key == key;
      assert entries[k] in entries;
    }
  }

  lemma EntryAdded(entries: seq<Entry>, e: Entry, account: Id, key: string)
    ensures HasEntry(entries + [e], account, key) <==> HasEntry(entries, account, key) || (e.account == account && e.key == key)
  {
    var log := entries + [e];
    if HasEntry(entries, account, key) {
      var k :| 0 <= k < |entries| && entries[k].account == account && entries[k].key == key;
      assert log[k] == entries[k];
    }
    assert log[|entries|] == e;
  }

  // ---- One call ----

  /** What a committed call adds to the deposits (or the holds) of the account when its key is new on it. */
  function Asks(c: Command, account: Id, kind: EntryKind): int {
    if !c.OnCredit? then 0
    else match c.credit
      case OpenOp(_, _, _) => 0
      case DepositOp(a, amount, _, _, _) => if a == account && kind.Deposit? then amount else 0
      case ReserveOp(a, _, amount, _, _, _) => if a == account && kind.Hold? then amount else 0
  }

  /** The key of the call has no entry on its account. */
  predicate NewKey(entries: seq<Entry>, c: Command) {
    c.OnCredit? && !c.credit.OpenOp? && !HasEntry(entries, c.credit.account, c.credit.key)
  }

  /** The entry that a call under a new key asks for. */
  function EntryFor(op: K.CreditOp): Entry
    requires !op.OpenOp?
  {
    match op
    case DepositOp(account, amount, key, id, now) => Entry(id, account, None, Deposit, amount, key, now)
    case ReserveOp(account, workload, amount, key, id, now) => Entry(id, account, Some(workload), Hold, amount, key, now)
  }

  lemma EntryOf(t: Tables, op: K.CreditOp)
    requires !op.OpenOp? && K.CreditStep(t, op).Ok? && !HasEntry(t.entries, op.account, op.key)
    ensures K.CreditStep(t, op).value.entries == t.entries + [EntryFor(op)]
  {
    hide Blank, HasEntry;
    FoundIff(t.entries, op.account, op.key);
  }

  lemma NothingNew(t: Tables, op: K.CreditOp)
    requires K.CreditStep(t, op).Ok? && (op.OpenOp? || HasEntry(t.entries, op.account, op.key))
    ensures K.CreditStep(t, op).value.entries == t.entries
  {
    hide Blank, Trim, HasEntry, K.Upper;
    if !op.OpenOp? { FoundIff(t.entries, op.account, op.key); }
  }

  lemma SumStep(cfg: Config, t: Tables, c: Command, account: Id, kind: EntryKind)
    ensures K.Sum(After(cfg, t, c).entries, account, kind) ==
      K.Sum(t.entries, account, kind) + (if Commits(cfg, t, c) && NewKey(t.entries, c) then Asks(c, account, kind) else 0)
  {
    hide Exec, K.CreditStep, K.Sum, HasEntry;
    F.ExecGroups(cfg, t, c);
    if !c.OnCredit? {
      F.Unchanged(cfg, t, c);
    } else if Commits(cfg, t, c) {
      if NewKey(t.entries, c) {
        EntryOf(t, c.credit);
        K.SumAppend(t.entries, EntryFor(c.credit), account, kind);
      } else {
        NothingNew(t, c.credit);
      }
    }
  }

  lemma LogStep(cfg: Config, t: Tables, c: Command)
    ensures After(cfg, t, c).entries ==
      t.entries + (if Commits(cfg, t, c) && NewKey(t.entries, c) then [EntryFor(c.credit)] else [])
  {
    hide Exec, K.CreditStep, HasEntry;
    F.ExecGroups(cfg, t, c);
    if !c.OnCredit? {
      F.Unchanged(cfg, t, c);
    } else if Commits(cfg, t, c) {
      if NewKey(t.entries, c) { EntryOf(t, c.credit); } else { NothingNew(t, c.credit); }
    }
  }

  lemma KeyStep(cfg: Config, t: Tables, c: Command, account: Id, key: string)
    ensures HasEntry(After(cfg, t, c).entries, account, key) <==>
      HasEntry(t.entries, account, key) || (Commits(cfg, t, c) && Using(account, key)(c))
  {
    hide Exec, K.CreditStep, HasEntry;
    F.ExecGroups(cfg, t, c);
    if !c.OnCredit? {
      F.Unchanged(cfg, t, c);
    } else if Commits(cfg, t, c) {
      if NewKey(t.entries, c) {
        EntryOf(t, c.credit);
        EntryAdded(t.entries, EntryFor(c.credit), account, key);
      } else {
        NothingNew(t, c.credit);
      }
    }
  }

  // ---- Over any run ----

  /** A key has an entry on an account exactly when a committed call used it. */
  lemma {:induction false} KeysAreHistory(cfg: Config, cs: seq<Command>, account: Id, key: string)
    ensures HasEntry(Run(cfg, EMPTY, cs).entries, account, key) <==> Happened(cfg, cs, Using(account, key))
  {
    hide After, Commits, Happened, Using, HasEntry;
    if cs == [] {
      NothingBooked(account, key, Deposit);
      NothingHappened(cfg, Using(account, key));
    } else {
      var n := |cs| - 1;
      KeysAreHistory(cfg, cs[..n], account, key);
      HappenedNext(cfg, cs, Using(account, key));
      KeyStep(cfg, Run(cfg, EMPTY, cs[..n]), cs[n], account, key);
    }
  }

  lemma NothingBooked(account: Id, key: string, kind: EntryKind)
    ensures !HasEntry(EMPTY.entries, account, key) && K.Sum(EMPTY.entries, account, kind) == 0
  {
  }

  /** No committed call of the run used the key of the call on its account. */
  ghost predicate FirstUse(cfg: Config, cs: seq<Command>, c: Command) {
    c.OnCredit? && !c.credit.OpenOp? && !Happened(cfg, cs, Using(c.credit.account, c.credit.key))
  }

  /** What the committed calls under new keys asked for, in order. */
  ghost function Log(cfg: Config, cs: seq<Command>): seq<Entry> {
    if cs == [] then []
    else
      var n := |cs| - 1;
      Log(cfg, cs[..n]) + (if CommitsAt(cfg, cs, n) && FirstUse(cfg, cs[..n], cs[n]) then [EntryFor(cs[n].credit)] else [])
  }

  /** The entries are those that the committed calls asked for, each key once on its account, and in their order. */
  lemma {:induction false} EntriesAreHistory(cfg: Config, cs: seq<Command>)
    ensures Run(cfg, EMPTY, cs).entries == Log(cfg, cs)
  {
    hide After, Commits, Happened, Using, HasEntry, EntryFor;
    if cs != [] {
      var n := |cs| - 1;
      EntriesAreHistory(cfg, cs[..n]);
      LogStep(cfg, Run(cfg, EMPTY, cs[..n]), cs[n]);
      if cs[n].OnCredit? && !cs[n].credit.OpenOp? { KeysAreHistory(cfg, cs[..n], cs[n].credit.account, cs[n].credit.key); }
    }
  }

  /** The sum of the amounts that the committed calls under new keys asked for. */
  ghost function Booked(cfg: Config, cs: seq<Command>, account: Id, kind: EntryKind): int {
    if cs == [] then 0
    else
      var n := |cs| - 1;
      Booked(cfg, cs[..n], account, kind)
      + (if CommitsAt(cfg, cs, n) && FirstUse(cfg, cs[..n], cs[n]) then Asks(cs[n], account, kind) else 0)
  }

  lemma {:induction false} SumsAreHistory(cfg: Config, cs: seq<Command>, account: Id, kind: EntryKind)
    ensures K.Sum(Run(cfg, EMPTY, cs).entries, account, kind) == Booked(cfg, cs, account, kind)
  {
    hide After, Commits, Happened, Using, HasEntry, K.Sum, Asks;
    if cs == [] {
      NothingBooked(account, "", kind);
    } else {
      var n := |cs| - 1;
      SumsAreHistory(cfg, cs[..n], account, kind);
      SumStep(cfg, Run(cfg, EMPTY, cs[..n]), cs[n], account, kind);
      if cs[n].OnCredit? && !cs[n].credit.OpenOp? { KeysAreHistory(cfg, cs[..n], cs[n].credit.account, cs[n].credit.key); }
    }
  }

  /**
   * Conservation against the calls: after any run from the empty database the balance of an account is the sum of
   * the amounts of the committed deposits to it, and its held amount that of the committed reservations, each
   * counted once per key.
   */
  lemma BalancesAreHistory(cfg: Config, cs: seq<Command>, account: Id)
    requires account in Run(cfg, EMPTY, cs).accounts
    ensures var a := Run(cfg, EMPTY, cs).accounts[account];
      a.balance == Booked(cfg, cs, account, Deposit) && a.held == Booked(cfg, cs, account, Hold) && 0 <= a.held <= a.balance
  {
    hide Run, Reachable, Inv, K.Sum, K.KeysDistinct, Booked;
    InvAlong(cfg, cs);
    SystemCredit.CreditsConserved(cfg, Run(cfg, EMPTY, cs), account);
    SumsAreHistory(cfg, cs, account, Deposit);
    SumsAreHistory(cfg, cs, account, Hold);
  }

  // ---- Which calls commit ----

  /** Under a new key and entry id, a reservation commits exactly when the deposits so far less the holds so far cover it. */
  lemma ReserveCommitsIff(
    cfg: Config, cs: seq<Command>, account: Id, workload: Id, amount: int, key: string, id: Id, now: Instant)
    requires var t := Run(cfg, EMPTY, cs); account in t.accounts && workload in t.workloads && !K.EntryIdTaken(t.entries, id)
    requires account != "" && workload != "" && !Blank(key) && !Happened(cfg, cs, Using(account, key))
    ensures K.ReserveStep(Run(cfg, EMPTY, cs), account, workload, amount, key, id, now).Ok? <==>
      0 < amount <= Booked(cfg, cs, account, Deposit) - Booked(cfg, cs, account, Hold)
  {
    hide Run, Booked, Happened, Using, HasEntry, Blank, K.EntryIdTaken, K.FindEntry;
    BalancesAreHistory(cfg, cs, account);
    KeysAreHistory(cfg, cs, account, key);
    FoundIff(Run(cfg, EMPTY, cs).entries, account, key);
  }

  /** Under a new key and entry id, a deposit to a known account commits exactly when it is positive. */
  lemma DepositCommitsIff(cfg: Config, cs: seq<Command>, account: Id, amount: int, key: string, id: Id, now: Instant)
    requires var t := Run(cfg, EMPTY, cs); account in t.accounts && !K.EntryIdTaken(t.entries, id)
    requires account != "" && !Blank(key) && !Happened(cfg, cs, Using(account, key))
    ensures K.DepositStep(Run(cfg, EMPTY, cs), account, amount, key, id, now).Ok? <==> 0 < amount
  {
    hide Run, Booked, Happened, Using, HasEntry, Blank, K.EntryIdTaken, K.FindEntry;
    KeysAreHistory(cfg, cs, account, key);
    FoundIff(Run(cfg, EMPTY, cs).entries, account, key);
  }

  /** The code is the text with its letters from a to z raised to upper case. */
  predicate Capitals(code: string, s: string) {
    |code| == |s| && forall k :: 0 <= k < |s| ==> code[k] as int == s[k] as int - (if 'a' <= s[k] <= 'z' then 32 else 0)
  }

  lemma {:induction false} UpperIs(s: string, code: string)
    ensures Capitals(code, s) <==> code == K.Upper(s)
  {
    if s == "" || code == "" { return; }
    UpperIs(s[1..], code[1..]);
    assert code == [code[0]] + code[1..];
    if Capitals(code, s) {
      assert forall k :: 0 <= k < |s| - 1 ==> s[1..][k] == s[k + 1] && code[1..][k] == code[k + 1];
    }
  }

  /** An account has the currency it was opened with, in upper case, and no other account has it. */
  lemma OpenCommitsIff(t: Tables, currency: string, id: Id, now: Instant)
    ensures var r, code := K.OpenStep(t, currency, id, now), Trim(currency);
      && (r.Ok? <==>
            |code| == 3 && id !in t.accounts && forall a :: a in t.accounts ==> !Capitals(t.accounts[a].currency, code))
      && (r.Ok? ==> r.value.accounts.Keys == t.accounts.Keys + {id} && Capitals(r.value.accounts[id].currency, code)
                    && r.value.accounts[id].balance == r.value.accounts[id].held == 0
                    && forall a :: a in t.accounts ==> r.value.accounts[a] == t.accounts[a])
  {
    hide Trim, Capitals, K.Upper;
    UpperIs(Trim(currency), K.Upper(Trim(currency)));
    forall a | a in t.accounts
      ensures Capitals(t.accounts[a].currency, Trim(currency)) <==> t.accounts[a].currency == K.Upper(Trim(currency))
    {
      UpperIs(Trim(currency), t.accounts[a].currency);
    }
  }
}
