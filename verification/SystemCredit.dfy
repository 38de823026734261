/** Credits are conserved in every reachable state of the system. */
module SystemCredit {
  import opened Basics
  import opened Domain
  import opened System
  import K = Credit
  import F = Frames

  lemma CallConserves(cfg: Config, t: Tables, c: Command)
    requires K.Conserved(t.accounts, t.entries)
    ensures var u := After(cfg, t, c);
      K.Conserved(u.accounts, u.entries) && t.entries <= u.entries
  {
    hide K.Conserved, Exec, K.CreditStep;
    F.ExecGroups(cfg, t, c);
    if c.OnCredit? {
      K.CreditStepConserves(t, c.credit);
    } else {
      F.Unchanged(cfg, t, c);
    }
  }

  lemma {:induction false} RunConserves(cfg: Config, t: Tables, cs: seq<Command>)
    requires K.Conserved(t.accounts, t.entries)
    ensures var u := Run(cfg, t, cs);
      K.Conserved(u.accounts, u.entries) && t.entries <= u.entries
  {
    hide K.Conserved, After;
    if cs != [] {
      var n := |cs| - 1;
      RunConserves(cfg, t, cs[..n]);
      CallConserves(cfg, Run(cfg, t, cs[..n]), cs[n]);
    }
  }

  lemma NothingOwed()
    ensures K.Conserved(EMPTY.accounts, EMPTY.entries)
  {
  }

  /**
   * In every reachable state each balance is the sum of the account's deposits, each held amount the sum of its
   * holds, 0 <= held <= balance, and no key has two entries on one account; while the tenant's deposits stay
   * below 2^63, all of these and the available credit are int64 values.
   */
  lemma CreditsConserved(cfg: Config, t: Tables, account: Id)
    requires Reachable(cfg, t) && account in t.accounts
    ensures K.Balanced(t.accounts[account], t.entries, account) && K.KeysDistinct(t.entries)
    ensures K.Deposits(t.entries) <= MAX_INT64 ==> t.accounts[account].balance <= MAX_INT64
  {
    var cs :| Run(cfg, EMPTY, cs) == t;
    hide Run, Reachable, K.Sum, K.Deposits;
    NothingOwed();
    RunConserves(cfg, EMPTY, cs);
    if K.Deposits(t.entries) <= MAX_INT64 { K.AmountsFit(t, account); }
  }

  predicate Spends(op: K.CreditOp, account: Id, key: string) {
    !op.OpenOp? && op.account == account && op.key == key
  }

  /** A key takes effect at most once on an account: after a commit under it, every call under it writes nothing. */
  lemma KeyTakesEffectOnce(cfg: Config, t: Tables, first: K.CreditOp, cs: seq<Command>, again: K.CreditOp)
    requires Reachable(cfg, t) && !first.OpenOp? && K.CreditStep(t, first).Ok?
    requires Spends(again, first.account, first.key)
    ensures var u := Run(cfg, K.CreditStep(t, first).value, cs);
      Committed(u, K.CreditStep(u, again)) == u
  {
    var before :| Run(cfg, EMPTY, before) == t;
    hide Run, Reachable, K.Conserved;
    NothingOwed();
    RunConserves(cfg, EMPTY, before);
    var u := K.CreditStep(t, first).value;
    CommitHasEntry(t, first);
    K.CreditStepConserves(t, first);
    RunConserves(cfg, u, cs);
    EntryStays(u.entries, Run(cfg, u, cs).entries, first.account, first.key);
    hide K.CreditStep;
    K.KeyActsOnce(Run(cfg, u, cs), again);
  }

  lemma CommitHasEntry(t: Tables, op: K.CreditOp)
    requires !op.OpenOp? && K.CreditStep(t, op).Ok?
    ensures K.FindEntry(K.CreditStep(t, op).value.entries, op.account, op.key).Some?
  {
    hide Trim, Blank;
    var found := K.FindEntry(t.entries, op.account, op.key);
    if found.None? {
      var log := K.CreditStep(t, op).value.entries;
      var e := log[|t.entries|];
      assert e in log && e.account == op.account && e.key == op.key;
    }
  }

  lemma EntryStays(before: seq<Entry>, after: seq<Entry>, account: Id, key: string)
    requires before <= after && K.FindEntry(before, account, key).Some?
    ensures K.FindEntry(after, account, key).Some?
  {
    var e := K.FindEntry(before, account, key).value;
    var k :| 0 <= k < |before| && before[k] == e;
    assert after[k] == e && after[k] in after;
  }
}
