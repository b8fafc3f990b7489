/**
  Which uploads the store admits under the free quota and the server-wide cap,
  and that no transaction of one account reaches into another.
 */
module Admission {
  import opened Outcomes
  import opened Pricing
  import opened Tables
  import opened Transactions
  import opened Chains
  import opened Runs

  // ---- one upload ----

  /** `id` is the newest backup of the account. */
  ghost predicate IsHead(rows: seq<Backup>, a: AccountId, id: BackupId) {
    exists p :: p in rows && Newest(rows, a, p) && p.id == id
  }

  ghost predicate Newest(rows: seq<Backup>, a: AccountId, p: Backup) {
    p.account == a && forall d :: d in rows && d.account == a ==> d.version <= p.version
  }

  /** The account may store `bytes`: it has credit, or they fit in the free quota, or nobody enforces it. */
  predicate Affordable(q: Quota, balance: int, bytes: int) {
    !q.enforce || 0 < balance || bytes <= q.freeBytes
  }

  predicate FitsCap(q: Quota, bytes: int) {
    q.totalCapBytes <= 0 || bytes <= q.totalCapBytes
  }

  lemma HeadIsNewest(c: Config, db: Db, a: AccountId, id: BackupId)
    requires Inv(c, db)
    ensures IsHead(db.rows, a, id)
            <==> Lookup(db.rows, a, id).Some? && Lookup(db.rows, a, id).value.version == HeadVersion(db.rows, a)
  {
    OrderedUnique(db.rows);
    var found := Lookup(db.rows, a, id);
    if IsHead(db.rows, a, id) {
      var p :| p in db.rows && Newest(db.rows, a, p) && p.id == id;
      assert found == Some(p) && 1 <= p.version;
    } else if found.Some? {
      assert !Newest(db.rows, a, found.value);
    }
  }

  /**
    With the new backup in, the account stays within its versions, the free quota
    and the cap, whose check read `total`, and a delta is next to the head.
   */
  ghost predicate Admissible(q: Quota, db: Db, a: AccountId, nb: NewBackup, total: int) {
    && a in db.accounts
    && Count(db.rows, a) + 1 <= q.maxVersions
    && Affordable(q, db.accounts[a].balance, Used(db.rows, a) + nb.size)
    && FitsCap(q, total + nb.size)
    && (nb.parent.Some? ==> IsHead(db.rows, a, nb.parent.value))
  }

  lemma NotRefused(c: Config, db: Db, a: AccountId, nb: NewBackup, total: int)
    requires Inv(c, db)
    ensures Refusal(db, c.quota, a, nb, total).None? <==> Admissible(c.quota, db, a, nb, total)
  {
    hide Inv, IsHead, Used, Count, HeadVersion, Lookup;
    if nb.parent.Some? {
      HeadIsNewest(c, db, a, nb.parent.value);
    }
  }

  lemma NewHead(c: Config, db: Db, a: AccountId, nb: NewBackup, id: BackupId)
    requires Inv(c, db) && a in db.accounts
    ensures IsHead(db.rows + [NewRow(db, a, nb, id)], a, id)
  {
    var b := NewRow(db, a, nb, id);
    assert b in db.rows + [b] && Newest(db.rows + [b], a, b);
  }

  /**
    An upload is accepted exactly when the account exists and, with the new
    backup in, stays within its versions, the free quota and the cap, and a
    delta builds on the newest backup.  It then adds one row, the new head, with
    the next version of the account and what the upload says about its file.
   */
  lemma UploadAccepted(c: Config, db: Db, a: AccountId, now: int, nb: NewBackup, x: Outside)
    requires Inv(c, db) && x.id !in db.backupIds
    ensures var (after, r) := CreateBackup(db, c.quota, c.pricer, a, now, nb, x);
            && (r.Ok? <==> Admissible(c.quota, db, a, nb, x.total))
            && (r.Ok? ==>
                && after.rows == db.rows + [r.value] && IsHead(after.rows, a, r.value.id)
                && Used(after.rows, a) == Used(db.rows, a) + nb.size && Total(after.rows) == Total(db.rows) + nb.size
                && r.value.id == x.id && r.value.account == a && r.value.version == db.accounts[a].lastVersion + 1
                && a in after.accounts && after.accounts[a].lastVersion == r.value.version
                && (r.value.kind == Full <==> nb.parent.None?) && r.value.parent == nb.parent
                && r.value.path == nb.path && r.value.size == nb.size
                && r.value.checksum == nb.checksum && r.value.meta == nb.meta)
            && (r.Err? ==> after == db)
  {
    NotRefused(c, db, a, nb, x.total);
    if a in db.accounts {
      UploadUnique(c, db, a, nb, x.id);
      NewHead(c, db, a, nb, x.id);
      AppendSums(db.rows, NewRow(db, a, nb, x.id), a);
    }
  }

  /**
    Every refusal says why, and names the first check that fails: there is no such
    account, no version is left, the bytes are not paid for, the server is full, the parent is not a
    backup of the account, or it is not the newest one.
   */
  lemma UploadRefused(c: Config, db: Db, a: AccountId, now: int, nb: NewBackup, x: Outside)
    requires Inv(c, db)
    ensures var r, q := CreateBackup(db, c.quota, c.pricer, a, now, nb, x).1, c.quota;
            if a !in db.accounts then r == Err(NotFound) else
            var left := Count(db.rows, a) + 1 <= q.maxVersions;
            var paid := Affordable(q, db.accounts[a].balance, Used(db.rows, a) + nb.size);
            var fits := FitsCap(q, x.total + nb.size);
            var known := nb.parent.Some? ==>
                           exists b :: b in db.rows && b.account == a && b.id == nb.parent.value;
            && (r == Err(BackupLimit) <==> !left)
            && (r == Err(StorageQuota) <==> left && !paid)
            && (r == Err(StorageFull) <==> left && paid && !fits)
            && (r == Err(NotFound) <==> left && paid && fits && !known)
            && (r == Err(BackupStale) <==>
                left && paid && fits && known && nb.parent.Some? && !IsHead(db.rows, a, nb.parent.value))
            && (r == Err(UniqueViolation) <==> Admissible(q, db, a, nb, x.total) && x.id in db.backupIds)
            && (r.Ok? <==> Admissible(q, db, a, nb, x.total) && x.id !in db.backupIds)
  {
    hide IsHead, Used, Count, HeadVersion;
    if nb.parent.Some? {
      HeadIsNewest(c, db, a, nb.parent.value);
      assert Lookup(db.rows, a, nb.parent.value).Some?
        <==> exists b :: b in db.rows && b.account == a && b.id == nb.parent.value;
    }
    NotRefused(c, db, a, nb, x.total);
    if a in db.accounts && x.id !in db.backupIds {
      UploadUnique(c, db, a, nb, x.id);
    }
    hide Inv, Lookup;
  }

  // ---- the quota looks at the balance before the bill ----

  /** More is stored than is free, on a balance that is used up. */
  predicate Overdrawn(q: Quota, db: Db, a: AccountId)
    requires a in db.accounts
  {
    q.enforce && db.accounts[a].balance <= 0 && q.freeBytes < Used(db.rows, a)
  }

  lemma AcceptedEffect(c: Config, db: Db, a: AccountId, now: int, nb: NewBackup, x: Outside)
    requires a in db.accounts && CreateBackup(db, c.quota, c.pricer, a, now, nb, x).1.Ok?
    ensures CreateBackup(db, c.quota, c.pricer, a, now, nb, x).0
         == Inserted(Settled(db, c.pricer, a, now), NewRow(db, a, nb, x.id))
  {
    hide Check, LookupVersion, Settled;
  }

  lemma SettledBalance(db: Db, p: Pricer, a: AccountId, now: int, b: Backup)
    requires a in db.accounts && b.account == a
    ensures var after := Inserted(Settled(db, p, a, now), b);
            && a in after.accounts && after.rows == db.rows + [b]
            && after.accounts[a].balance == db.accounts[a].balance - SettlementCost(db, p, a, now)
  {
  }

  /**
    The balance the quota looks at is the one before the upload settles the
    storage.  An accepted upload leaves the account overdrawn if and only if
    settling uses up what credit there was and the new backup does not fit in
    the free quota.
   */
  lemma OverdrawnIff(c: Config, db: Db, a: AccountId, now: int, nb: NewBackup, x: Outside)
    requires a in db.accounts && CreateBackup(db, c.quota, c.pricer, a, now, nb, x).1.Ok?
    ensures a in CreateBackup(db, c.quota, c.pricer, a, now, nb, x).0.accounts
    ensures Overdrawn(c.quota, CreateBackup(db, c.quota, c.pricer, a, now, nb, x).0, a)
            <==> (&& c.quota.enforce && c.quota.freeBytes < Used(db.rows, a) + nb.size
                  && 0 < db.accounts[a].balance <= SettlementCost(db, c.pricer, a, now))
  {
    var b := NewRow(db, a, nb, x.id);
    assert Check(db.rows, c.quota, a, db.accounts[a].balance, nb, x.total).None?;
    AcceptedEffect(c, db, a, now, nb, x);
    SettledBalance(db, c.pricer, a, now, b);
    AppendSums(db.rows, b, a);
    hide CreateBackup, Settled, Inserted, SettlementCost, Used, LookupVersion;
  }

  /** An hour of one megabyte over the free quota costs one microcredit. */
  lemma HourOfMegabyte()
    ensures StorageCost(DEFAULT_PRICES, 501 * MB, HOUR) == 1
  {
    assert FreeBytes(DEFAULT_PRICES) == 500 * MB;
    assert Exact(DEFAULT_PRICES, 501 * MB, HOUR) == MB * HOUR * 500_000;
  }

  // Account 1 with one microcredit, before and after it uploaded 501 MB at 0.
  const FUNDED := Db(map[1 := Account(1, 0, None)], [], [], {1}, {})
  const FIRST := Backup(1, 1, 1, Full, None, "a", 501 * MB, "", "")
  const STORED := Db(map[1 := Account(1, 1, Some(0))], [FIRST], [], {1}, {1})
  const FUNDING := [OpenAccount(1), TopUp(1, 1)]
  const UPLOADS := [Upload(1, 0, NewBackup(None, "a", 501 * MB, "", ""), Outside(0, 1)),
                    Upload(1, HOUR, NewBackup(None, "b", 1, "", ""), Outside(501 * MB, 2))]

  lemma FundedReached(c: Config)
    ensures Run(c, EMPTY, FUNDING) == FUNDED
  {
    Steps(c, EMPTY, FUNDING);
    assert Apply(c, Apply(c, EMPTY, OpenAccount(1)), TopUp(1, 1)).accounts == FUNDED.accounts;
  }

  lemma StoredReached()
    ensures Apply(SERVER, FUNDED, UPLOADS[0]) == STORED
  {
    assert Refusal(FUNDED, SERVER.quota, 1, UPLOADS[0].nb, 0).None?;
    assert [] + [FIRST] == [FIRST];
  }

  /**
    It happens on the server as it comes: with one microcredit left, 501 MB
    uploaded at 0 and one byte an hour later are both accepted.
   */
  lemma OverdrawnExample()
    ensures var db := Run(SERVER, EMPTY, FUNDING + UPLOADS);
            |db.rows| == 2 && 1 in db.accounts && Overdrawn(SERVER.quota, db, 1)
  {
    RunSplit(SERVER, EMPTY, FUNDING, UPLOADS);
    FundedReached(SERVER);
    Steps(SERVER, FUNDED, UPLOADS);
    StoredReached();
    AppendSums([], FIRST, 1);
    assert [] + [FIRST] == [FIRST];
    HourOfMegabyte();
    OverdrawnIff(SERVER, STORED, 1, HOUR, UPLOADS[1].nb, UPLOADS[1].x);
  }

  // ---- the cap over runs ----

  /** No backup has a negative size. */
  predicate Sized(ops: seq<Op>) {
    forall op: Op :: op in ops && op.Upload? ==> 0 <= op.nb.size
  }

  /** Every cap check reads what is stored when its upload commits: no two uploads overlap. */
  predicate CurrentTotals(c: Config, db: Db, ops: seq<Op>)
    decreases |ops|
  {
    ops == [] ||
    ((ops[0].Upload? ==> ops[0].x.total == Total(db.rows)) && CurrentTotals(c, Apply(c, db, ops[0]), ops[1..]))
  }

  ghost predicate WithinCap(c: Config, db: Db) {
    FitsCap(c.quota, Total(db.rows)) && forall b :: b in db.rows ==> 0 <= b.size
  }

  lemma {:induction false} TotalNonNegative(rows: seq<Backup>)
    requires forall b :: b in rows ==> 0 <= b.size
    ensures 0 <= Total(rows)
  {
    if rows != [] {
      TotalNonNegative(Init(rows));
    }
  }

  /** A delete only frees bytes. */
  lemma KeptTotal(rows: seq<Backup>, clause: Clause)
    requires forall b :: b in rows ==> 0 <= b.size
    ensures 0 <= Total(Kept(rows, clause)) <= Total(rows)
  {
    KeptAggregates(rows, clause, 0);
    TotalNonNegative(Picked(rows, clause));
    TotalNonNegative(Kept(rows, clause));
  }

  /** The rows after a transaction that is no upload. */
  lemma RowsAfter(c: Config, db: Db, op: Op)
    requires !op.Upload?
    ensures var rows := Apply(c, db, op).rows;
            rows == db.rows || match op
                               case Remove(a, id, _) => rows == Kept(db.rows, HasId(a, id))
                               case Prune(a, before, _) => rows == Kept(db.rows, Below(a, before))
                               case CloseAccount(a) => rows == Kept(db.rows, OfAccount(a))
                               case _ => false
  {
  }

  /** Nothing but an upload stores more bytes. */
  lemma OthersFree(c: Config, db: Db, op: Op)
    requires !op.Upload? && forall b :: b in db.rows ==> 0 <= b.size
    ensures 0 <= Total(Apply(c, db, op).rows) <= Total(db.rows)
    ensures forall b :: b in Apply(c, db, op).rows ==> b in db.rows
  {
    RowsAfter(c, db, op);
    TotalNonNegative(db.rows);
    var rows := Apply(c, db, op).rows;
    if rows != db.rows {
      match op
      case Remove(a, id, _) => KeptTotal(db.rows, HasId(a, id));
      case Prune(a, before, _) => KeptTotal(db.rows, Below(a, before));
      case CloseAccount(a) => KeptTotal(db.rows, OfAccount(a));
    }
  }

  /** An upload stores its own bytes more, or nothing. */
  lemma UploadTotal(c: Config, db: Db, a: AccountId, now: int, nb: NewBackup, x: Outside)
    ensures var (after, r) := CreateBackup(db, c.quota, c.pricer, a, now, nb, x);
            && Total(after.rows) == Total(db.rows) + (if r.Ok? then nb.size else 0)
            && (r.Ok? ==> FitsCap(c.quota, x.total + nb.size))
            && forall b :: b in after.rows ==> b in db.rows || b.size == nb.size
  {
    if CreateBackup(db, c.quota, c.pricer, a, now, nb, x).1.Ok? {
      AppendSums(db.rows, NewRow(db, a, nb, x.id), a);
    }
  }

  /** When uploads do not overlap, what is stored on the whole server never exceeds the cap. */
  lemma {:induction false} RunWithinCap(c: Config, db: Db, ops: seq<Op>)
    requires WithinCap(c, db) && Sized(ops) && CurrentTotals(c, db, ops)
    ensures WithinCap(c, Run(c, db, ops))
    decreases |ops|
  {
    if ops != [] {
      var op := ops[0];
      assert op in ops;
      if op.Upload? {
        UploadTotal(c, db, op.a, op.now, op.nb, op.x);
      } else {
        OthersFree(c, db, op);
      }
      RunWithinCap(c, Apply(c, db, op), ops[1..]);
    }
  }

  // ---- accounts do not touch each other ----

  /** Everything the database holds about account `x` is the same. */
  ghost predicate SameFor(db: Db, after: Db, x: AccountId) {
    && (x in after.accounts <==> x in db.accounts)
    && (x in db.accounts ==> after.accounts[x] == db.accounts[x])
    && (forall b: Backup :: b.account == x ==> (b in after.rows <==> b in db.rows))
    && Used(after.rows, x) == Used(db.rows, x) && Count(after.rows, x) == Count(db.rows, x)
    && EventsOf(after.usage, x) == EventsOf(db.usage, x)
  }

  lemma EventsOfAppend(usage: seq<UsageEvent>, e: UsageEvent, x: AccountId)
    requires e.account != x
    ensures EventsOf(usage + [e], x) == EventsOf(usage, x)
  {
    Append(usage, e);
  }

  lemma {:induction false} EventsOfOthers(usage: seq<UsageEvent>, gone: AccountId, x: AccountId)
    requires gone != x
    ensures EventsOf(WithoutAccount(usage, gone), x) == EventsOf(usage, x)
  {
    if usage != [] {
      EventsOfOthers(Init(usage), gone, x);
      if Last(usage).account != gone {
        Append(WithoutAccount(Init(usage), gone), Last(usage));
        assert WithoutAccount(usage, gone) == WithoutAccount(Init(usage), gone) + [Last(usage)];
      } else {
        assert WithoutAccount(usage, gone) == WithoutAccount(Init(usage), gone);
      }
    }
  }

  lemma SettledElsewhere(db: Db, p: Pricer, a: AccountId, now: int, x: AccountId)
    requires a in db.accounts && a != x
    ensures SameFor(db, Settled(db, p, a, now), x)
  {
    EventsOfAppend(db.usage, UsageEvent(a, StorageUse, SettlementCost(db, p, a, now)), x);
  }

  lemma KeptElsewhere(rows: seq<Backup>, clause: Clause, x: AccountId)
    requires clause.account != x
    ensures Used(Kept(rows, clause), x) == Used(rows, x) && Count(Kept(rows, clause), x) == Count(rows, x)
  {
    hide Used, Count, EventsOf, Lookup, LookupVersion;
    KeptAggregates(rows, clause, x);
    ForeignRows(Picked(rows, clause), x);
  }

  lemma InsertedElsewhere(db: Db, b: Backup, x: AccountId)
    requires b.account in db.accounts && b.account != x
    ensures SameFor(db, Inserted(db, b), x)
  {
    hide Used, Count, EventsOf;
    AppendSums(db.rows, b, x);
    var next := Inserted(db, b);
    assert x in next.accounts <==> x in db.accounts;
    assert x in db.accounts ==> next.accounts[x] == db.accounts[x];
    assert next.usage == db.usage;
    assert Used(next.rows, x) == Used(db.rows, x);
    assert Count(next.rows, x) == Count(db.rows, x);
    forall d: Backup | d.account == x
      ensures d in next.rows <==> d in db.rows
    {
    }
  }

  lemma UploadElsewhere(c: Config, db: Db, a: AccountId, now: int, nb: NewBackup, o: Outside, x: AccountId)
    requires a != x
    ensures SameFor(db, CreateBackup(db, c.quota, c.pricer, a, now, nb, o).0, x)
  {
    hide Used, Count, EventsOf, Check, LookupVersion;
    if CreateBackup(db, c.quota, c.pricer, a, now, nb, o).1.Ok? {
      SettledElsewhere(db, c.pricer, a, now, x);
      InsertedElsewhere(Settled(db, c.pricer, a, now), NewRow(db, a, nb, o.id), x);
    }
  }

  lemma DeletedElsewhere(db: Db, p: Pricer, now: int, clause: Clause, x: AccountId)
    requires clause.account in db.accounts && clause.account != x
    ensures SameFor(db, Settled(db, p, clause.account, now).(rows := Kept(db.rows, clause)), x)
  {
    hide Used, Count, EventsOf, Lookup, LookupVersion;
    SettledElsewhere(db, p, clause.account, now, x);
    KeptElsewhere(db.rows, clause, x);
  }

  lemma RemoveElsewhere(c: Config, db: Db, a: AccountId, id: BackupId, now: int, x: AccountId)
    requires a != x
    ensures SameFor(db, DeleteBackup(db, c.pricer, a, id, now).0, x)
  {
    hide Used, Count, EventsOf, Lookup, LookupVersion;
    if DeleteBackup(db, c.pricer, a, id, now).1.Ok? {
      DeletedElsewhere(db, c.pricer, now, HasId(a, id), x);
    }
  }

  lemma PruneElsewhere(c: Config, db: Db, a: AccountId, before: int, now: int, x: AccountId)
    requires a != x
    ensures SameFor(db, PruneBackups(db, c.pricer, a, before, now).0, x)
  {
    hide Used, Count, EventsOf, Lookup, LookupVersion;
    if PruneBackups(db, c.pricer, a, before, now).1.Ok? {
      DeletedElsewhere(db, c.pricer, now, Below(a, before), x);
    }
  }

  lemma CloseElsewhere(db: Db, a: AccountId, x: AccountId)
    requires a != x
    ensures SameFor(db, DeleteAccount(db, a, []).0, x)
  {
    hide Used, Count, EventsOf;
    KeptElsewhere(db.rows, OfAccount(a), x);
    EventsOfOthers(db.usage, a, x);
  }

  lemma ChargeElsewhere(db: Db, a: AccountId, cost: int, x: AccountId)
    requires a != x
    ensures SameFor(db, Charge(db, a, cost).0, x)
  {
    EventsOfAppend(db.usage, UsageEvent(a, InferenceUse, cost), x);
  }

  /**
    Whatever is done in the name of one account, every other account keeps its
    balance, counter, mark, backups and bill.
   */
  lemma OthersUntouched(c: Config, db: Db, op: Op, x: AccountId)
    requires op.a != x
    ensures SameFor(db, Apply(c, db, op), x)
  {
    match op
    case OpenAccount(_) =>
    case Upload(a, now, nb, o) => UploadElsewhere(c, db, a, now, nb, o, x);
    case Remove(a, id, now) => RemoveElsewhere(c, db, a, id, now, x);
    case Prune(a, before, now) => PruneElsewhere(c, db, a, before, now, x);
    case Settle(a, now) =>
      if a in db.accounts {
        SettledElsewhere(db, c.pricer, a, now, x);
      }
    case Infer(a, cost) => ChargeElsewhere(db, a, cost, x);
    case TopUp(_, _) =>
    case CloseAccount(a) => CloseElsewhere(db, a, x);
  }

  /** The versions of the rows of an account, as the head rule sees them, depend on these rows alone. */
  lemma HeadElsewhere(db: Db, after: Db, a: AccountId)
    requires SameFor(db, after, a) && RowsFit(db) && RowsFit(after)
    ensures HeadVersion(after.rows, a) == HeadVersion(db.rows, a)
  {
  }

  lemma LookupElsewhere(db: Db, after: Db, a: AccountId, id: BackupId)
    requires SameFor(db, after, a) && Ordered(db.rows) && Ordered(after.rows)
    ensures Lookup(after.rows, a, id) == Lookup(db.rows, a, id)
  {
    OrderedUnique(db.rows);
    var p, q := Lookup(db.rows, a, id), Lookup(after.rows, a, id);
    if p.Some? {
      assert p.value in after.rows;
    }
    if q.Some? {
      assert q.value in db.rows;
    }
  }

  lemma SameCheck(
      rows: seq<Backup>, after: seq<Backup>, q: Quota, a: AccountId, balance: int, nb: NewBackup, total: int)
    requires Count(after, a) == Count(rows, a) && Used(after, a) == Used(rows, a)
    requires HeadVersion(after, a) == HeadVersion(rows, a)
    requires nb.parent.Some? ==> Lookup(after, a, nb.parent.value) == Lookup(rows, a, nb.parent.value)
    ensures Check(after, q, a, balance, nb, total) == Check(rows, q, a, balance, nb, total)
  {
  }

  /** Nothing that other accounts commit changes the answer of an upload's checks, but for the total. */
  lemma SameRefusal(c: Config, db: Db, after: Db, a: AccountId, nb: NewBackup, total: int)
    requires Inv(c, db) && Inv(c, after) && SameFor(db, after, a)
    ensures Refusal(after, c.quota, a, nb, total) == Refusal(db, c.quota, a, nb, total)
  {
    if a in db.accounts {
      HeadElsewhere(db, after, a);
      if nb.parent.Some? {
        LookupElsewhere(db, after, a, nb.parent.value);
      }
      SameCheck(db.rows, after.rows, c.quota, a, db.accounts[a].balance, nb, total);
    }
  }
}
