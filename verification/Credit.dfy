/** Credit accounts: deposits and reservations, each an account update and an immutable entry in one transaction. */
module Credit {
  import opened Basics
  import opened Domain

  function UpperChar(c: char): char { if 'a' <= c <= 'z' then c - 'a' + 'A' else c }

  /** `strings.ToUpper`, for ASCII text. */
  function Upper(s: string): (r: string)
    ensures |r| == |s|
  {
    if s == "" then "" else [UpperChar(s[0])] + Upper(s[1..])
  }

  // ---- Specification of the calls ----

  /** The entry an idempotency key already has on an account. */
  function FindEntry(entries: seq<Entry>, account: Id, key: string): (r: Option<Entry>)
    ensures r.Some? ==> r.value in entries && r.value.account == account && r.value.key == key
    ensures r.None? ==> forall e :: e in entries ==> e.account != account || e.key != key
  {
    if entries == [] then None
    else if entries[0].account == account && entries[0].key == key then Some(entries[0])
    else FindEntry(entries[1..], account, key)
  }

  predicate EntryIdTaken(entries: seq<Entry>, id: Id) { exists e :: e in entries && e.id == id }

  function OpenStep(t: Tables, currency: string, id: Id, now: Instant): Result<Tables> {
    var code := Upper(Trim(currency));
    if |code| != 3 then Err(Validation)
    else if id in t.accounts || exists a :: a in t.accounts && t.accounts[a].currency == code then Err(Storage)
    else Ok(t.(accounts := t.accounts[id := Account(code, 0, 0, now, now, 1)]))
  }

  function DepositStep(t: Tables, account: Id, amount: int, key: string, id: Id, now: Instant): Result<Tables> {
    if account == "" || amount <= 0 || Blank(key) then Err(Validation)
    else if account !in t.accounts then Err(NotFound)
    else if FindEntry(t.entries, account, key).Some? then Ok(t)
    else if EntryIdTaken(t.entries, id) then Err(Storage)
    else
      var a := t.accounts[account];
      Ok(t.(accounts := t.accounts[account := a.(balance := a.balance + amount, updated := now, version := a.version + 1)],
            entries := t.entries + [Entry(id, account, None, Deposit, amount, key, now)]))
  }

  function ReserveStep(t: Tables, account: Id, workload: Id, amount: int, key: string, id: Id, now: Instant): Result<Tables> {
    if account == "" || workload == "" || amount <= 0 || Blank(key) then Err(Validation)
    else if account !in t.accounts then Err(NotFound)
    else
      var a, existing := t.accounts[account], FindEntry(t.entries, account, key);
      if existing.Some? then (if existing.value.kind.Hold? then Ok(t) else Err(Conflict))
      else if a.balance - a.held < amount then Err(Conflict)
      else if EntryIdTaken(t.entries, id) || workload !in t.workloads then Err(Storage)
      else Ok(t.(accounts := t.accounts[account := a.(held := a.held + amount, updated := now, version := a.version + 1)],
                 entries := t.entries + [Entry(id, account, Some(workload), Hold, amount, key, now)]))
  }

  // ---- The service ----

  class Service {
    const db: Database

    constructor (db: Database)
      ensures this.db == db
    {
      this.db := db;
    }

    method Open(currency: string, id: Id, now: Instant) returns (r: Result<Account>)
      modifies db
      ensures var spec := OpenStep(old(db.tables), currency, id, now);
        db.tables == Committed(old(db.tables), spec) && Answers(r, spec, (t: Tables) => t.accounts, id)
    {
      var code := Upper(Trim(currency));
      if |code| != 3 { return Err(Validation); }
      var tx := db.tables;
      if id in tx.accounts || exists a :: a in tx.accounts && tx.accounts[a].currency == code { return Err(Storage); }
      var account := Account(code, 0, 0, now, now, 1);
      db.tables := tx.(accounts := tx.accounts[id := account]);
      r := Ok(account);
    }

    /** The number of rows the UPDATE changed is not checked by the source; it is always one. */
    method Deposit(account: Id, amount: int, key: string, id: Id, now: Instant) returns (r: Result<Account>)
      modifies db
      ensures var spec := DepositStep(old(db.tables), account, amount, key, id, now);
        db.tables == Committed(old(db.tables), spec) && Answers(r, spec, (t: Tables) => t.accounts, account)
    {
      if account == "" || amount <= 0 || Trim(key) == "" { return Err(Validation); }
      var tx := db.tables;
      if account !in tx.accounts { return Err(NotFound); }
      var locked := tx.accounts[account];
      if FindEntry(tx.entries, account, key).Some? { return Ok(locked); }
      var row := locked.(balance := locked.balance + amount, updated := now, version := locked.version + 1);
      var (accounts, changed) := UpdateRow(tx.accounts, account, tx.accounts[account].version == locked.version, row);
      assert changed == 1;
      tx := tx.(accounts := accounts);
      if EntryIdTaken(tx.entries, id) { return Err(Storage); }
      tx := tx.(entries := tx.entries + [Entry(id, account, None, EntryKind.Deposit, amount, key, now)]);
      db.tables := tx;
      r := Ok(row);
    }

    method Reserve(account: Id, workload: Id, amount: int, key: string, id: Id, now: Instant) returns (r: Result<Account>)
      modifies db
      ensures var spec := ReserveStep(old(db.tables), account, workload, amount, key, id, now);
        db.tables == Committed(old(db.tables), spec) && Answers(r, spec, (t: Tables) => t.accounts, account)
    {
      if account == "" || workload == "" || amount <= 0 || Trim(key) == "" { return Err(Validation); }
      var tx := db.tables;
      if account !in tx.accounts { return Err(NotFound); }
      var locked := tx.accounts[account];
      var existing := FindEntry(tx.entries, account, key);
      if existing.Some? {
        if existing.value.kind != Hold { return Err(Conflict); }
        return Ok(locked);
      }
      if locked.balance - locked.held < amount { return Err(Conflict); }
      var row := locked.(held := locked.held + amount, updated := now, version := locked.version + 1);
      var current := tx.accounts[account];
      var (accounts, changed) := UpdateRow(tx.accounts, account,
                                           current.version == locked.version && current.balance - current.held >= amount, row);
      assert changed == 1;
      tx := tx.(accounts := accounts);
      if EntryIdTaken(tx.entries, id) || workload !in tx.workloads { return Err(Storage); }
      tx := tx.(entries := tx.entries + [Entry(id, account, Some(workload), Hold, amount, key, now)]);
      db.tables := tx;
      r := Ok(row);
    }
  }

  // ---- Conservation ----

  function Sum(entries: seq<Entry>, account: Id, kind: EntryKind): int {
    if entries == [] then 0
    else
      var e := entries[|entries| - 1];
      Sum(entries[..|entries| - 1], account, kind) + (if e.account == account && e.kind == kind then e.amount else 0)
  }

  /** All deposits of the tenant. */
  function Deposits(entries: seq<Entry>): int {
    if entries == [] then 0
    else
      var e := entries[|entries| - 1];
      Deposits(entries[..|entries| - 1]) + (if e.kind.Deposit? then e.amount else 0)
  }

  /** The account holds the sums of its entries. */
  predicate Balanced(a: Account, entries: seq<Entry>, id: Id) {
    a.balance == Sum(entries, id, Deposit) && a.held == Sum(entries, id, Hold) && 0 <= a.held <= a.balance
  }

  predicate KeysDistinct(entries: seq<Entry>) {
    forall k, l :: 0 <= k < l < |entries| ==> entries[k].account != entries[l].account || entries[k].key != entries[l].key
  }

  /** Balances and holds are the sums of the entries, and a key has one entry per account. */
  ghost predicate Conserved(accounts: map<Id, Account>, entries: seq<Entry>) {
    && (forall a :: a in accounts ==> Balanced(accounts[a], entries, a))
    && (forall k :: 0 <= k < |entries| ==> entries[k].account in accounts && entries[k].amount > 0)
    && KeysDistinct(entries)
  }

  datatype CreditOp =
    | OpenOp(currency: string, id: Id, now: Instant)
    | DepositOp(account: Id, amount: int, key: string, id: Id, now: Instant)
    | ReserveOp(account: Id, workload: Id, amount: int, key: string, id: Id, now: Instant)

  function CreditStep(t: Tables, op: CreditOp): Result<Tables> {
    match op
    case OpenOp(currency, id, now) => OpenStep(t, currency, id, now)
    case DepositOp(account, amount, key, id, now) => DepositStep(t, account, amount, key, id, now)
    case ReserveOp(account, workload, amount, key, id, now) => ReserveStep(t, account, workload, amount, key, id, now)
  }

  lemma {:induction false} NoEntryNoSum(entries: seq<Entry>, account: Id, kind: EntryKind)
    requires forall k :: 0 <= k < |entries| ==> entries[k].account != account
    ensures Sum(entries, account, kind) == 0
  {
    if entries != [] { NoEntryNoSum(entries[..|entries| - 1], account, kind); }
  }

  lemma SumAppend(entries: seq<Entry>, e: Entry, a: Id, kind: EntryKind)
    ensures Sum(entries + [e], a, kind) == Sum(entries, a, kind) + (if e.account == a && e.kind == kind then e.amount else 0)
  {
    assert (entries + [e])[..|entries|] == entries;
  }

  lemma NewKeyDistinct(entries: seq<Entry>, e: Entry)
    requires KeysDistinct(entries) && FindEntry(entries, e.account, e.key).None?
    ensures KeysDistinct(entries + [e])
  {
    forall k | 0 <= k < |entries|
      ensures entries[k].account != e.account || entries[k].key != e.key
    {
      assert entries[k] in entries;
    }
  }

  /** Recording an entry under a new key together with its effect on the account. */
  lemma RecordConserves(accounts: map<Id, Account>, entries: seq<Entry>, e: Entry, row: Account)
    requires Conserved(accounts, entries) && e.account in accounts && e.amount > 0
    requires FindEntry(entries, e.account, e.key).None?
    requires row.balance == accounts[e.account].balance + (if e.kind.Deposit? then e.amount else 0)
    requires row.held == accounts[e.account].held + (if e.kind.Hold? then e.amount else 0) <= row.balance
    ensures Conserved(accounts[e.account := row], entries + [e])
  {
    var log, rows := entries + [e], accounts[e.account := row];
    NewKeyDistinct(entries, e);
    forall a | a in rows
      ensures Balanced(rows[a], log, a)
    {
      assert Balanced(accounts[a], entries, a);
      SumAppend(entries, e, a, Deposit);
      SumAppend(entries, e, a, Hold);
    }
  }

  lemma OpenConserves(accounts: map<Id, Account>, entries: seq<Entry>, id: Id, row: Account)
    requires Conserved(accounts, entries) && id !in accounts && row.balance == row.held == 0
    ensures Conserved(accounts[id := row], entries)
  {
    NoEntryNoSum(entries, id, Deposit);
    NoEntryNoSum(entries, id, Hold);
  }

  /** Every interleaving of deposits and reservations conserves credits, and entries are only added. */
  lemma CreditStepConserves(t: Tables, op: CreditOp)
    requires Conserved(t.accounts, t.entries)
    ensures var u := Committed(t, CreditStep(t, op));
      Conserved(u.accounts, u.entries) && t.entries <= u.entries
  {
    var r := CreditStep(t, op);
    if r.Ok? && r.value != t {
      if op.OpenOp? {
        OpenConserves(t.accounts, t.entries, op.id, r.value.accounts[op.id]);
      } else {
        assert Balanced(t.accounts[op.account], t.entries, op.account);
        RecordConserves(t.accounts, t.entries, r.value.entries[|t.entries|], r.value.accounts[op.account]);
      }
    }
  }

  /** A key that has an entry has no further effect on its account. */
  lemma KeyActsOnce(t: Tables, op: CreditOp)
    requires !op.OpenOp? && FindEntry(t.entries, op.account, op.key).Some?
    ensures Committed(t, CreditStep(t, op)) == t
    ensures op.ReserveOp? && op.account in t.accounts && FindEntry(t.entries, op.account, op.key).value.kind.Deposit? ==>
      CreditStep(t, op).Err?
  {
  }

  lemma {:induction false} SumWithinDeposits(entries: seq<Entry>, account: Id)
    requires forall k :: 0 <= k < |entries| ==> entries[k].amount > 0
    ensures 0 <= Sum(entries, account, Deposit) <= Deposits(entries)
  {
    if entries != [] { SumWithinDeposits(entries[..|entries| - 1], account); }
  }

  /** While all deposits stay below 2^63, every stored and every computed amount is an int64. */
  lemma AmountsFit(t: Tables, account: Id)
    requires Conserved(t.accounts, t.entries) && Deposits(t.entries) <= MAX_INT64 && account in t.accounts
    ensures var a := t.accounts[account];
      0 <= a.held <= a.balance <= MAX_INT64 && 0 <= a.balance - a.held <= MAX_INT64
  {
    SumWithinDeposits(t.entries, account);
  }
}
