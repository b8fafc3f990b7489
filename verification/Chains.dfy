/**
  What the invariant of the runs means for clients: which deletes and prunes
  are accepted, that a version number names one backup forever, and that a
  backup restores to the same content as long as it exists.
 */
module Chains {
  import opened Outcomes
  import opened Tables
  import opened Transactions
  import opened Runs

  // ---- deletes and prunes ----

  /** In a reachable table no two deltas share a parent. */
  lemma OneDeltaPerBackup(c: Config, db: Db, b: Backup, d: Backup)
    requires Inv(c, db) && b in db.rows && d in db.rows
    requires b.parent.Some? && b.parent == d.parent
    ensures b == d
  {
    OrderedUnique(db.rows);
    var p := Lookup(db.rows, b.account, b.parent.value).value;
    var q := Lookup(db.rows, d.account, d.parent.value).value;
    assert p == q;
  }

  /** Pruning leaves a self contained chain exactly when the boundary is a full backup. */
  lemma PruneBoundary(c: Config, db: Db, boundary: Backup)
    requires Inv(c, db) && boundary in db.rows
    ensures ParentClosed(Kept(db.rows, Below(boundary.account, boundary.version))) <==> boundary.kind == Full
  {
    var kept := Kept(db.rows, Below(boundary.account, boundary.version));
    OrderedUnique(db.rows);
    assert boundary in kept;
    if boundary.kind == Full {
      forall d | d in kept && d.parent.Some?
        ensures exists p :: p in kept && p.id == d.parent.value
      {
        var p := Lookup(db.rows, d.account, d.parent.value).value;
        assert Predecessor(db.rows, p, d);
        assert p in kept;
      }
    } else {
      var p := Lookup(db.rows, boundary.account, boundary.parent.value).value;
      assert Predecessor(db.rows, p, boundary);
      assert forall q :: q in kept ==> q.id != p.id;
    }
  }

  /**
    A prune is accepted exactly when its boundary is a full backup of the account,
    and it then keeps exactly the newer part.  A delta is refused as a boundary, and
    so is a version the account does not have.
   */
  lemma PruneAccepted(c: Config, db: Db, a: AccountId, before: int, now: int)
    requires Inv(c, db)
    ensures var (after, r) := PruneBackups(db, c.pricer, a, before, now);
            && (r.Ok? <==> exists b :: b in db.rows && b.account == a && b.version == before && b.kind == Full)
            && (r.Ok? ==> forall b :: b in r.value <==> b in db.rows && b.account == a && b.version < before)
            && (r.Ok? ==> forall b :: b in after.rows <==> b in db.rows && b !in r.value)
            && (r == Err(BackupBoundary) <==>
                exists b :: b in db.rows && b.account == a && b.version == before && b.kind == Delta)
            && (r == Err(NotFound) <==> forall b :: b in db.rows && b.account == a ==> b.version != before)
            && (r.Err? ==> after == db) && r != Err(ForeignKeyViolation)
  {
    OrderedUnique(db.rows);
    var boundary := LookupVersion(db.rows, a, before);
    if boundary.Some? {
      PruneBoundary(c, db, boundary.value);
    }
  }

  /** A kept delta keeps its parent row when the clause does not take it. */
  lemma ParentSurvives(rows: seq<Backup>, clause: Clause, d: Backup)
    requires Ordered(rows) && Chained(rows) && d in Kept(rows, clause) && d.parent.Some?
    requires forall p :: p in rows && p.id == d.parent.value && p.account == d.account ==> !Matches(p, clause)
    ensures exists p :: p in Kept(rows, clause) && p.id == d.parent.value
  {
    assert Linked(rows, d);
    var p := Lookup(rows, d.account, d.parent.value).value;
    assert p in Kept(rows, clause);
  }

  lemma NobodysParent(rows: seq<Backup>, b: Backup)
    requires Ordered(rows) && Chained(rows) && b in rows
    ensures ParentClosed(Kept(rows, HasId(b.account, b.id))) <==> !IsParent(rows, b.id)
  {
    var clause := HasId(b.account, b.id);
    var kept := Kept(rows, clause);
    OrderedUnique(rows);
    if IsParent(rows, b.id) {
      var d :| d in rows && d.parent == Some(b.id);
      assert Linked(rows, d);
      assert d in kept && forall p :: p in kept ==> p.id != b.id;
    } else {
      forall d | d in kept && d.parent.Some?
        ensures exists p :: p in kept && p.id == d.parent.value
      {
        assert d in rows && d.parent != Some(b.id);
        ParentSurvives(rows, clause, d);
      }
    }
  }

  /**
    A backup can be deleted exactly when it is one of the account's and no delta
    builds on it; it alone goes.
   */
  lemma DeleteAccepted(c: Config, db: Db, a: AccountId, id: BackupId, now: int)
    requires Inv(c, db)
    ensures var (after, r) := DeleteBackup(db, c.pricer, a, id, now);
            && (r == Err(NotFound) <==> forall b :: b in db.rows && b.account == a ==> b.id != id)
            && (r == Err(BackupInUse) <==>
                (exists b :: b in db.rows && b.account == a && b.id == id)
                && exists d :: d in db.rows && d.parent == Some(id))
            && (r.Err? ==> after == db && (r == Err(NotFound) || r == Err(BackupInUse)))
            && (r.Ok? ==>
                && r.value in db.rows && r.value.account == a && r.value.id == id
                && forall d :: d in after.rows <==> d in db.rows && d != r.value)
  {
    OrderedUnique(db.rows);
    var found := Lookup(db.rows, a, id);
    if found.Some? {
      NobodysParent(db.rows, found.value);
    }
  }

  lemma CloseAccepted(c: Config, db: Db, a: AccountId)
    requires Inv(c, db)
    ensures ParentClosed(Kept(db.rows, OfAccount(a)))
  {
    var kept := Kept(db.rows, OfAccount(a));
    forall d | d in kept && d.parent.Some?
      ensures exists p :: p in kept && p.id == d.parent.value
    {
      ParentSurvives(db.rows, OfAccount(a), d);
    }
  }

  lemma UploadUnique(c: Config, db: Db, a: AccountId, nb: NewBackup, id: BackupId)
    requires Inv(c, db) && a in db.accounts && id !in db.backupIds
    ensures Insertion(db, NewRow(db, a, nb, id)).Ok?
  {
  }

  /**
    The integrity errors of the database never reach a client: uploads with an id
    from the sequence, prunes and account deletes cannot trip them.
   */
  lemma NoIntegrityErrors(c: Config, db: Db, a: AccountId, now: int, nb: NewBackup, x: Outside, before: int)
    requires Inv(c, db) && x.id !in db.backupIds
    ensures CreateBackup(db, c.quota, c.pricer, a, now, nb, x).1 != Err(UniqueViolation)
    ensures PruneBackups(db, c.pricer, a, before, now).1 != Err(ForeignKeyViolation)
    ensures DeleteAccount(db, a, []).1 != Err(ForeignKeyViolation)
  {
    if a in db.accounts {
      UploadUnique(c, db, a, nb, x.id);
    }
    PruneAccepted(c, db, a, before, now);
    CloseAccepted(c, db, a);
    hide Inv, PruneBackups, Check, Lookup, LookupVersion, Kept, Picked;
  }

  // ---- identity over time ----

  /** `d` was inserted after the state `db`. */
  predicate InsertedAfter(db: Db, d: Backup) {
    && d.id !in db.backupIds
    && (d.account !in db.accountIds || (d.account in db.accounts && db.accounts[d.account].lastVersion < d.version))
  }

  /** Ids are never forgotten, and the version counters only move forward. */
  ghost predicate Later(db: Db, after: Db) {
    && db.backupIds <= after.backupIds && db.accountIds <= after.accountIds
    && forall a :: a in after.accounts ==>
         a !in db.accountIds || (a in db.accounts && db.accounts[a].lastVersion <= after.accounts[a].lastVersion)
  }

  lemma UploadIsLater(c: Config, db: Db, a: AccountId, now: int, nb: NewBackup, x: Outside)
    requires Inv(c, db)
    ensures var next := CreateBackup(db, c.quota, c.pricer, a, now, nb, x).0;
            && Later(db, next)
            && forall d :: d in next.rows ==> d in db.rows || InsertedAfter(db, d)
  {
  }

  /** Every other transaction inserts no backup and moves no counter. */
  lemma NothingNew(c: Config, db: Db, op: Op)
    requires !op.Upload? && !op.OpenAccount?
    ensures Less(Apply(c, db, op), db)
  {
    match op
    case Remove(a, id, now) => RemoveIsLess(c, db, a, id, now);
    case Prune(a, before, now) => PruneIsLess(c, db, a, before, now);
    case _ =>
  }

  /** No row and no id is new, and no counter moved. */
  ghost predicate Less(next: Db, db: Db) {
    && next.backupIds == db.backupIds && next.accountIds == db.accountIds
    && (forall a :: a in next.accounts ==>
          a in db.accounts && next.accounts[a].lastVersion == db.accounts[a].lastVersion)
    && forall d :: d in next.rows ==> d in db.rows
  }

  lemma RemoveIsLess(c: Config, db: Db, a: AccountId, id: BackupId, now: int)
    ensures Less(DeleteBackup(db, c.pricer, a, id, now).0, db)
  {
  }

  lemma PruneIsLess(c: Config, db: Db, a: AccountId, before: int, now: int)
    ensures Less(PruneBackups(db, c.pricer, a, before, now).0, db)
  {
  }

  lemma ApplyIsLater(c: Config, db: Db, op: Op)
    requires Inv(c, db)
    ensures Later(db, Apply(c, db, op))
    ensures forall d :: d in Apply(c, db, op).rows ==> d in db.rows || InsertedAfter(db, d)
  {
    match op
    case Upload(a, now, nb, x) => UploadIsLater(c, db, a, now, nb, x);
    case OpenAccount(_) =>
    case _ => NothingNew(c, db, op);
  }

  lemma {:induction false} RowsAreOldOrNew(c: Config, db: Db, ops: seq<Op>)
    requires Inv(c, db)
    ensures Later(db, Run(c, db, ops))
    ensures forall d :: d in Run(c, db, ops).rows ==> d in db.rows || InsertedAfter(db, d)
    decreases |ops|
  {
    if ops != [] {
      ApplyKeepsInv(c, db, ops[0]);
      ApplyIsLater(c, db, ops[0]);
      RowsAreOldOrNew(c, Apply(c, db, ops[0]), ops[1..]);
    }
  }

  /**
    Ids and version numbers are never reused: whatever happens between two
    moments of a run, rows seen at them under one id, or under one version of
    one account, are the same row.
   */
  lemma VersionNamesOneBackup(c: Config, db: Db, ops: seq<Op>, b: Backup, d: Backup)
    requires Inv(c, db) && b in db.rows && d in Run(c, db, ops).rows
    ensures b.id == d.id ==> b == d
    ensures b.account == d.account && b.version == d.version ==> b == d
  {
    RowsAreOldOrNew(c, db, ops);
    OrderedUnique(db.rows);
  }

  /** An upload accepted at any time gets a version above every version its account ever had. */
  lemma NewVersionIsHighest(
      c: Config, db: Db, ops: seq<Op>, b: Backup, a: AccountId, now: int, nb: NewBackup, x: Outside)
    requires Inv(c, db) && b in db.rows && b.account == a
    requires CreateBackup(Run(c, db, ops), c.quota, c.pricer, a, now, nb, x).1.Ok?
    ensures b.version < CreateBackup(Run(c, db, ops), c.quota, c.pricer, a, now, nb, x).1.value.version
  {
    RowsAreOldOrNew(c, db, ops);
  }

  /** How many uploads of account `a` were accepted during a run. */
  function Accepted(c: Config, db: Db, ops: seq<Op>, a: AccountId): nat
    decreases |ops|
  {
    if ops == [] then 0 else
    AcceptedNow(c, db, ops[0], a) + Accepted(c, Apply(c, db, ops[0]), ops[1..], a)
  }

  function AcceptedNow(c: Config, db: Db, op: Op, a: AccountId): nat {
    if op.Upload? && op.a == a && CreateBackup(db, c.quota, c.pricer, a, op.now, op.nb, op.x).1.Ok? then 1 else 0
  }

  /** The version counter of an account, which starts at 0. */
  function Counter(db: Db, a: AccountId): int {
    if a in db.accounts then db.accounts[a].lastVersion else 0
  }

  lemma UploadCounts(c: Config, db: Db, op: Op, a: AccountId)
    requires Inv(c, db) && op.Upload? && a in Apply(c, db, op).accounts
    ensures Counter(Apply(c, db, op), a) == Counter(db, a) + AcceptedNow(c, db, op, a)
  {
  }

  lemma ApplyCounts(c: Config, db: Db, op: Op, a: AccountId)
    requires Inv(c, db) && a in Apply(c, db, op).accounts
    ensures Counter(Apply(c, db, op), a) == Counter(db, a) + AcceptedNow(c, db, op, a)
  {
    if op.Upload? {
      UploadCounts(c, db, op, a);
    } else if !op.OpenAccount? {
      NothingNew(c, db, op);
    }
  }

  /**
    The versions of an account are consecutive: its counter has moved on by one for
    every upload accepted, deletes and refusals leave no gap, and a deleted account
    does not come back.
   */
  lemma {:induction false} VersionsConsecutive(c: Config, db: Db, ops: seq<Op>, a: AccountId)
    requires Inv(c, db) && a in Run(c, db, ops).accounts
    ensures Counter(Run(c, db, ops), a) == Counter(db, a) + Accepted(c, db, ops, a)
    decreases |ops|
  {
    if ops != [] {
      var next := Apply(c, db, ops[0]);
      ApplyKeepsInv(c, db, ops[0]);
      VersionsConsecutive(c, next, ops[1..], a);
      if a in next.accounts {
        ApplyCounts(c, db, ops[0], a);
      } else {
        NobodyReturns(c, db, ops[0], ops[1..], a);
      }
    }
  }

  /** An account that is missing after a transaction but there at the end was not there before. */
  lemma NobodyReturns(c: Config, db: Db, op: Op, ops: seq<Op>, a: AccountId)
    requires Inv(c, db) && a !in Apply(c, db, op).accounts && a in Run(c, Apply(c, db, op), ops).accounts
    ensures a !in db.accounts && AcceptedNow(c, db, op, a) == 0
  {
    ApplyKeepsInv(c, db, op);
    ApplyIsLater(c, db, op);
    RowsAreOldOrNew(c, Apply(c, db, op), ops);
  }

  // ---- account deletes ----

  /** Deleting an account takes everything of the account and nothing else. */
  lemma AccountDeleted(c: Config, db: Db, a: AccountId, listed: seq<Backup>)
    requires Inv(c, db)
    ensures var (after, r) := DeleteAccount(db, a, listed);
            && (r.Ok? <==> a in db.accounts) && (r.Err? ==> r == Err(NotFound) && after == db)
            && (r.Ok? ==>
                && |r.value| == |listed| && (forall i :: 0 <= i < |listed| ==> r.value[i] == listed[i].path)
                && after.accounts == db.accounts - {a}
                && (forall b :: b in after.rows <==> b in db.rows && b.account != a)
                && (forall e :: e in after.usage <==> e in db.usage && e.account != a))
  {
    CloseAccepted(c, db, a);
    PathsInOrder(listed);
  }

  lemma {:induction false} PathsInOrder(listed: seq<Backup>)
    ensures |Paths(listed)| == |listed| && forall i :: 0 <= i < |listed| ==> Paths(listed)[i] == listed[i].path
  {
    if listed != [] {
      PathsInOrder(Init(listed));
    }
  }

  /**
    The files it hands out for removal are those of the rows listed in an earlier
    state; anything may commit in between.  What the cascade takes without
    handing out its file was uploaded after the listing; AccountDeletes follows
    these files through the interleavings.
   */
  lemma DeletedFiles(c: Config, db: Db, ops: seq<Op>, a: AccountId, b: Backup)
    requires Inv(c, db) && b in Run(c, db, ops).rows && b.account == a
    ensures var (_, r) := DeleteAccount(Run(c, db, ops), a, Picked(db.rows, OfAccount(a)));
            && r.Ok?
            && (b.path !in r.value ==> InsertedAfter(db, b))
            && forall p :: p in r.value ==> exists d :: d in db.rows && d.account == a && d.path == p
  {
    RunKeepsInv(c, db, ops);
    RowsAreOldOrNew(c, db, ops);
    AccountDeleted(c, Run(c, db, ops), a, Picked(db.rows, OfAccount(a)));
    var mine := Picked(db.rows, OfAccount(a));
    forall p | p in Paths(mine)
      ensures exists d :: d in db.rows && d.account == a && d.path == p
    {
      var d :| d in mine && d.path == p;
    }
  }

  // ---- restores ----

  ghost predicate Restorable(rows: seq<Backup>) {
    Chained(rows) && forall b :: b in rows ==> 1 <= b.version
  }

  /** The content of a backup: its own payload, applied to the restored parent when it is a delta. */
  ghost function Restore<C>(rows: seq<Backup>, b: Backup, payload: string -> C, patch: (C, C) -> C): C
    requires Restorable(rows) && b in rows
    decreases b.version
  {
    match b.parent
    case None => payload(b.path)
    case Some(id) =>
      assert Linked(rows, b);
      patch(payload(b.path), Restore(rows, Lookup(rows, b.account, id).value, payload, patch))
  }

  /** Two tables that agree on ids, and payloads that agree on the rows they share, restore the same content. */
  lemma {:induction false} RestoreAgrees<C>(
      rows: seq<Backup>, later: seq<Backup>, b: Backup, payload: string -> C, payload': string -> C, patch: (C, C) -> C)
    requires Restorable(rows) && Restorable(later) && b in rows && b in later
    requires forall d, e :: d in rows && e in later && d.id == e.id ==> d == e
    requires forall d :: d in rows && d in later ==> payload(d.path) == payload'(d.path)
    ensures Restore(rows, b, payload, patch) == Restore(later, b, payload', patch)
    decreases b.version
  {
    if b.parent.Some? {
      assert Linked(rows, b) && Linked(later, b);
      var p := Lookup(rows, b.account, b.parent.value).value;
      assert Lookup(later, b.account, b.parent.value) == Some(p);
      RestoreAgrees(rows, later, p, payload, payload', patch);
    }
  }

  /** Every row can be restored in every reachable state, and what it restores to never changes while it exists. */
  lemma RestoreNeverChanges<C>(c: Config, db: Db, ops: seq<Op>, b: Backup, payload: string -> C, patch: (C, C) -> C)
    requires Inv(c, db) && b in db.rows && b in Run(c, db, ops).rows
    ensures Restorable(db.rows) && Restorable(Run(c, db, ops).rows)
    ensures Restore(db.rows, b, payload, patch) == Restore(Run(c, db, ops).rows, b, payload, patch)
  {
    var after := Run(c, db, ops);
    RunKeepsInv(c, db, ops);
    forall d, e | d in db.rows && e in after.rows && d.id == e.id
      ensures d == e
    {
      VersionNamesOneBackup(c, db, ops, d, e);
    }
    RestoreAgrees(db.rows, after.rows, b, payload, payload, patch);
  }
}
