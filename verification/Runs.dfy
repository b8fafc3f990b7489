/**
  Runs of the store: any sequence of transactions, accepted or refused, of any
  accounts.  The invariants every run keeps, and what follows from them about
  the version chain, the version counter and the ledger.
 */
module Runs {
  import opened Outcomes
  import opened Tables
  import opened Transactions

  datatype Op =
    | OpenAccount(a: AccountId)
    | Upload(a: AccountId, now: int, nb: NewBackup, x: Outside)
    | Remove(a: AccountId, id: BackupId, now: int)
    | Prune(a: AccountId, before: int, now: int)
    | Settle(a: AccountId, now: int)
    | Infer(a: AccountId, cost: int)
    | TopUp(a: AccountId, amount: int)
    | CloseAccount(a: AccountId)

  function Apply(c: Config, db: Db, op: Op): Db {
    match op
    case OpenAccount(a) => CreateAccount(db, a).0
    case Upload(a, now, nb, x) => CreateBackup(db, c.quota, c.pricer, a, now, nb, x).0
    case Remove(a, id, now) => DeleteBackup(db, c.pricer, a, id, now).0
    case Prune(a, before, now) => PruneBackups(db, c.pricer, a, before, now).0
    case Settle(a, now) => SettleStorage(db, c.pricer, a, now).0
    case Infer(a, cost) => Charge(db, a, cost).0
    case TopUp(a, amount) => AddCredits(db, a, amount).0
    case CloseAccount(a) => DeleteAccount(db, a, []).0
  }

  function Run(c: Config, db: Db, ops: seq<Op>): Db
    decreases |ops|
  {
    if ops == [] then db else Run(c, Apply(c, db, ops[0]), ops[1..])
  }

  lemma {:induction false} RunSplit(c: Config, db: Db, first: seq<Op>, second: seq<Op>)
    ensures Run(c, db, first + second) == Run(c, Run(c, db, first), second)
    decreases |first|
  {
    if first == [] {
      assert first + second == second;
    } else {
      assert (first + second)[1..] == first[1..] + second;
      RunSplit(c, Apply(c, db, first[0]), first[1..], second);
    }
  }

  /** Two transactions in a row. */
  lemma Steps(c: Config, db: Db, ops: seq<Op>)
    requires |ops| == 2
    ensures Run(c, db, ops) == Apply(c, Apply(c, db, ops[0]), ops[1])
  {
    var next, rest := Apply(c, db, ops[0]), ops[1..];
    assert rest[1..] == [];
    assert Run(c, next, rest) == Run(c, Apply(c, next, rest[0]), rest[1..]);
  }

  // ---- the invariant ----

  /** `p` is the row right before `b` among the rows of their account. */
  ghost predicate Predecessor(rows: seq<Backup>, p: Backup, b: Backup) {
    && p.account == b.account && p.version < b.version
    && forall d :: d in rows && d.account == b.account ==> d.version <= p.version || b.version <= d.version
  }

  /** A full backup has no parent; the parent of a delta is present and is its immediate predecessor. */
  ghost predicate Linked(rows: seq<Backup>, b: Backup) {
    && (b.kind == Full <==> b.parent.None?)
    && (b.parent.Some? ==>
          var p := Lookup(rows, b.account, b.parent.value);
          p.Some? && Predecessor(rows, p.value, b))
  }

  ghost predicate Chained(rows: seq<Backup>) {
    forall b :: b in rows ==> Linked(rows, b)
  }

  ghost predicate RowsFit(db: Db) {
    forall b :: b in db.rows ==>
      b.id in db.backupIds && b.account in db.accounts && 1 <= b.version <= db.accounts[b.account].lastVersion
  }

  ghost predicate AccountsFit(c: Config, db: Db) {
    && (forall a :: a in db.accounts ==>
          a in db.accountIds && 0 <= db.accounts[a].lastVersion && Count(db.rows, a) <= c.quota.maxVersions)
    && forall e :: e in db.usage ==> e.account in db.accounts
  }

  ghost predicate Inv(c: Config, db: Db) {
    Ordered(db.rows) && RowsFit(db) && Chained(db.rows) && AccountsFit(c, db)
  }

  // ---- one transaction keeps it ----

  lemma UploadKeepsRows(c: Config, db: Db, a: AccountId, nb: NewBackup, x: Outside)
    requires Inv(c, db) && Refusal(db, c.quota, a, nb, x.total).None? && x.id !in db.backupIds
    ensures var b := NewRow(db, a, nb, x.id);
            Ordered(db.rows + [b]) && Chained(db.rows + [b])
  {
    var b := NewRow(db, a, nb, x.id);
    OrderedAppend(db.rows, b);
    OrderedUnique(db.rows + [b]);
    forall d | d in db.rows + [b]
      ensures Linked(db.rows + [b], d)
    {
      if d.parent.Some? {
        var p := Lookup(db.rows, d.account, d.parent.value).value;
        assert p in db.rows + [b];
        assert Lookup(db.rows + [b], d.account, d.parent.value) == Some(p);
      }
    }
  }

  /** A kept delta whose parent row survives under some id keeps its own parent. */
  lemma LinkSurvives(rows: seq<Backup>, c: Clause, b: Backup, q: Backup)
    requires Ordered(rows) && Linked(rows, b) && b in Kept(rows, c)
    requires b.parent.Some? && q in Kept(rows, c) && q.id == b.parent.value
    ensures Linked(Kept(rows, c), b)
  {
    OrderedUnique(rows);
    var p := Lookup(rows, b.account, b.parent.value).value;
    assert p == q;
    var kept := Lookup(Kept(rows, c), b.account, b.parent.value);
    assert kept == Some(p);
  }

  lemma DeletionKeepsRows(rows: seq<Backup>, c: Clause)
    requires Ordered(rows) && Chained(rows) && Deletion(rows, c).Ok?
    ensures Ordered(Kept(rows, c)) && Chained(Kept(rows, c))
  {
    KeptOrdered(rows, c);
    var kept := Kept(rows, c);
    forall b | b in kept
      ensures Linked(kept, b)
    {
      assert Linked(rows, b);
      if b.parent.Some? {
        var q :| q in kept && q.id == b.parent.value;
        LinkSurvives(rows, c, b, q);
      }
    }
  }

  /** Settling or booking on `a` leaves everything the invariant speaks about alone. */
  lemma BookkeepingKeepsInv(c: Config, db: Db, after: Db)
    requires Inv(c, db) && after.rows == db.rows && after.accounts.Keys == db.accounts.Keys
    requires after.accountIds == db.accountIds && after.backupIds == db.backupIds
    requires forall a :: a in db.accounts ==> after.accounts[a].lastVersion == db.accounts[a].lastVersion
    requires forall e :: e in after.usage ==> e.account in db.accounts
    ensures Inv(c, after)
  {
  }

  lemma SettledKeepsInv(c: Config, db: Db, a: AccountId, now: int)
    requires Inv(c, db) && a in db.accounts
    ensures Inv(c, Settled(db, c.pricer, a, now))
  {
    BookkeepingKeepsInv(c, db, Settled(db, c.pricer, a, now));
  }

  lemma InsertionFits(c: Config, db: Db, b: Backup)
    requires RowsFit(db) && AccountsFit(c, db)
    requires b.account in db.accounts && b.version == db.accounts[b.account].lastVersion + 1
    requires Count(db.rows, b.account) < c.quota.maxVersions
    ensures RowsFit(Inserted(db, b)) && AccountsFit(c, Inserted(db, b))
  {
    hide Count;
    forall a
      ensures Count(db.rows + [b], a) == Count(db.rows, a) + if b.account == a then 1 else 0
    {
      AppendSums(db.rows, b, a);
    }
  }

  lemma UploadKeepsInv(c: Config, db: Db, a: AccountId, now: int, nb: NewBackup, x: Outside)
    requires Inv(c, db)
    ensures Inv(c, CreateBackup(db, c.quota, c.pricer, a, now, nb, x).0)
  {
    if CreateBackup(db, c.quota, c.pricer, a, now, nb, x).1.Ok? {
      UploadKeepsRows(c, db, a, nb, x);
      SettledKeepsInv(c, db, a, now);
      InsertionFits(c, Settled(db, c.pricer, a, now), NewRow(db, a, nb, x.id));
    }
  }

  lemma DeletionKeepsInv(c: Config, db: Db, clause: Clause)
    requires Inv(c, db) && Deletion(db.rows, clause).Ok?
    ensures Inv(c, db.(rows := Kept(db.rows, clause)))
  {
    DeletionKeepsRows(db.rows, clause);
    forall a ensures Count(Kept(db.rows, clause), a) <= Count(db.rows, a) {
      KeptAggregates(db.rows, clause, a);
    }
  }

  lemma DeletionAfterSettling(c: Config, db: Db, a: AccountId, now: int, clause: Clause)
    requires Inv(c, db) && a in db.accounts && Deletion(db.rows, clause).Ok?
    ensures Inv(c, Settled(db, c.pricer, a, now).(rows := Kept(db.rows, clause)))
  {
    SettledKeepsInv(c, db, a, now);
    DeletionKeepsInv(c, Settled(db, c.pricer, a, now), clause);
  }

  lemma RemoveKeepsInv(c: Config, db: Db, a: AccountId, id: BackupId, now: int)
    requires Inv(c, db)
    ensures Inv(c, DeleteBackup(db, c.pricer, a, id, now).0)
  {
    if a in db.accounts && Deletion(db.rows, HasId(a, id)).Ok? {
      DeletionAfterSettling(c, db, a, now, HasId(a, id));
    }
  }

  lemma PruneKeepsInv(c: Config, db: Db, a: AccountId, before: int, now: int)
    requires Inv(c, db)
    ensures Inv(c, PruneBackups(db, c.pricer, a, before, now).0)
  {
    if a in db.accounts && Deletion(db.rows, Below(a, before)).Ok? {
      DeletionAfterSettling(c, db, a, now, Below(a, before));
    }
  }

  lemma OpenKeepsInv(c: Config, db: Db, a: AccountId)
    requires Inv(c, db)
    ensures Inv(c, CreateAccount(db, a).0)
  {
    if a !in db.accountIds {
      ForeignRows(db.rows, a);
    }
  }

  lemma ForgetAccountKeepsInv(c: Config, db: Db, a: AccountId, usage: seq<UsageEvent>)
    requires Inv(c, db) && forall b :: b in db.rows ==> b.account != a
    requires forall e :: e in usage ==> e in db.usage && e.account != a
    ensures Inv(c, db.(accounts := db.accounts - {a}, usage := usage))
  {
  }

  lemma CloseKeepsInv(c: Config, db: Db, a: AccountId)
    requires Inv(c, db)
    ensures Inv(c, DeleteAccount(db, a, []).0)
  {
    if a in db.accounts && Deletion(db.rows, OfAccount(a)).Ok? {
      DeletionKeepsInv(c, db, OfAccount(a));
      ForgetAccountKeepsInv(c, db.(rows := Kept(db.rows, OfAccount(a))), a, WithoutAccount(db.usage, a));
    }
  }

  /** Whatever a transaction does, it keeps the invariant. */
  lemma ApplyKeepsInv(c: Config, db: Db, op: Op)
    requires Inv(c, db)
    ensures Inv(c, Apply(c, db, op))
  {
    match op
    case OpenAccount(a) => OpenKeepsInv(c, db, a);
    case Upload(a, now, nb, x) => UploadKeepsInv(c, db, a, now, nb, x);
    case Remove(a, id, now) => RemoveKeepsInv(c, db, a, id, now);
    case Prune(a, before, now) => PruneKeepsInv(c, db, a, before, now);
    case Settle(a, now) =>
      if a in db.accounts {
        SettledKeepsInv(c, db, a, now);
      }
    case Infer(_, _) => BookkeepingKeepsInv(c, db, Apply(c, db, op));
    case TopUp(_, _) => BookkeepingKeepsInv(c, db, Apply(c, db, op));
    case CloseAccount(a) => CloseKeepsInv(c, db, a);
  }

  /** Every run keeps the invariant. */
  lemma {:induction false} RunKeepsInv(c: Config, db: Db, ops: seq<Op>)
    requires Inv(c, db)
    ensures Inv(c, Run(c, db, ops))
    decreases |ops|
  {
    if ops != [] {
      ApplyKeepsInv(c, db, ops[0]);
      RunKeepsInv(c, Apply(c, db, ops[0]), ops[1..]);
    }
  }

  lemma ReachableInv(c: Config, ops: seq<Op>)
    ensures Inv(c, Run(c, EMPTY, ops))
  {
    RunKeepsInv(c, EMPTY, ops);
  }
}
