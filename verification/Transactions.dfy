/**
  The committed effect of every store transaction, as a function from database
  to database.  A transaction that ends in an error commits nothing.  The class
  Store runs the same transactions statement by statement and is proved against
  these functions; what the store promises is proved about them elsewhere.
 */
module Transactions {
  import opened Outcomes
  import opened Pricing
  import opened Tables

  datatype Error =
    | NotFound | BackupLimit | StorageQuota | StorageFull | BackupStale | BackupInUse | BackupBoundary
    | ForeignKeyViolation | UniqueViolation

  // mark is storage_billed_at, lastVersion is backup_version_seq
  datatype Account = Account(balance: int, lastVersion: int, mark: Option<int>)

  const FRESH_ACCOUNT := Account(0, 0, None)

  // accountIds and backupIds are the ids of all rows there ever were; the sequences do not repeat them
  datatype Db = Db(accounts: map<AccountId, Account>, rows: seq<Backup>, usage: seq<UsageEvent>,
                   accountIds: set<AccountId>, backupIds: set<BackupId>)

  const EMPTY := Db(map[], [], [], {}, {})

  // totalCapBytes == 0 means unlimited
  datatype Quota = Quota(maxVersions: nat, freeBytes: int, enforce: bool, totalCapBytes: int)

  datatype NewBackup = NewBackup(parent: Option<BackupId>, path: string, size: int, checksum: string, meta: string)

  /**
    What an upload gets from outside its account: the sum of all stored bytes its
    cap check read, and the id its row gets.  Its transaction holds the lock of its
    own account only, so uploads of other accounts may commit after that sum was
    read, and ids need not be committed in the order they were handed out.
   */
  datatype Outside = Outside(total: int, id: BackupId)

  datatype Config = Config(quota: Quota, pricer: Pricer)

  // The server as it is configured by default, with billing enforced.
  const SERVER := Config(Quota(10, FreeBytes(DEFAULT_PRICES), true, 0), PricerOf(DEFAULT_PRICES))

  // ---- statements shared by the transactions ----

  /** What settling `a` at `now` costs: the bytes stored until now, for the time since the mark. */
  function SettlementCost(db: Db, p: Pricer, a: AccountId, now: int): nat
    requires a in db.accounts
  {
    match db.accounts[a].mark
    case None => 0
    case Some(mark) => p(Used(db.rows, a), now - mark)
  }

  /** Book `cost` on `a`; a zero cost books nothing. */
  function Booked(db: Db, a: AccountId, kind: EventKind, cost: int): Db
    requires a in db.accounts
  {
    var acct := db.accounts[a];
    db.(accounts := db.accounts[a := acct.(balance := acct.balance - cost)],
        usage := db.usage + [UsageEvent(a, kind, cost)])
  }

  function Settled(db: Db, p: Pricer, a: AccountId, now: int): (r: Db)
    requires a in db.accounts
    ensures r.accounts.Keys == db.accounts.Keys && r.rows == db.rows && r.backupIds == db.backupIds
  {
    var cost := SettlementCost(db, p, a, now);
    var paid := if 0 < cost then Booked(db, a, StorageUse, cost) else db;
    paid.(accounts := paid.accounts[a := paid.accounts[a].(mark := Some(now))])
  }

  /** DELETE FROM backups with the NO ACTION check of the parent key at the end of the statement. */
  function Deletion(rows: seq<Backup>, c: Clause): Result<seq<Backup>, Error> {
    if ParentClosed(Kept(rows, c)) then Ok(Kept(rows, c)) else Err(ForeignKeyViolation)
  }

  /** INSERT INTO backups under the primary key and the unique index on (account_id, version). */
  function Insertion(db: Db, b: Backup): Result<seq<Backup>, Error> {
    if b.id in db.backupIds || LookupVersion(db.rows, b.account, b.version).Some? then Err(UniqueViolation)
    else Ok(db.rows + [b])
  }

  // ---- transactions ----

  /** The row an accepted upload inserts. */
  function NewRow(db: Db, a: AccountId, nb: NewBackup, id: BackupId): Backup
    requires a in db.accounts
  {
    Backup(id, a, db.accounts[a].lastVersion + 1, if nb.parent.Some? then Delta else Full,
           nb.parent, nb.path, nb.size, nb.checksum, nb.meta)
  }

  /** Which check an upload of an account with this balance fails, in the order they are made. */
  function Check(rows: seq<Backup>, q: Quota, a: AccountId, balance: int, nb: NewBackup, total: int): Option<Error> {
    if q.maxVersions <= Count(rows, a) then Some(BackupLimit)
    else if q.enforce && balance <= 0 && q.freeBytes < Used(rows, a) + nb.size then Some(StorageQuota)
    else if 0 < q.totalCapBytes && q.totalCapBytes < total + nb.size then Some(StorageFull)
    else if nb.parent.None? then None
    else match Lookup(rows, a, nb.parent.value)
      case None => Some(NotFound)
      case Some(p) => if p.version != HeadVersion(rows, a) then Some(BackupStale) else None
  }

  /** Why an upload does not get to the insert; the balance is the one before it settles the storage. */
  function Refusal(db: Db, q: Quota, a: AccountId, nb: NewBackup, total: int): Option<Error> {
    if a !in db.accounts then Some(NotFound) else Check(db.rows, q, a, db.accounts[a].balance, nb, total)
  }

  function CreateBackup(db: Db, q: Quota, p: Pricer, a: AccountId, now: int, nb: NewBackup, x: Outside):
      (Db, Result<Backup, Error>)
  {
    match Refusal(db, q, a, nb, x.total)
    case Some(e) => (db, Err(e))
    case None =>
      var b := NewRow(db, a, nb, x.id);
      match Insertion(db, b)
      case Err(e) => (db, Err(e))
      case Ok(rows) => (Inserted(Settled(db, p, a, now), b), Ok(b))
  }

  /** The database with the row `b` inserted and the counter of its account moved to its version. */
  function Inserted(db: Db, b: Backup): Db
    requires b.account in db.accounts
  {
    db.(accounts := db.accounts[b.account := db.accounts[b.account].(lastVersion := b.version)],
        rows := db.rows + [b], backupIds := db.backupIds + {b.id})
  }

  function DeleteBackup(db: Db, p: Pricer, a: AccountId, id: BackupId, now: int): (Db, Result<Backup, Error>) {
    if a !in db.accounts then (db, Err(NotFound)) else
    match Lookup(db.rows, a, id)
    case None => (db, Err(NotFound))
    case Some(b) =>
      match Deletion(db.rows, HasId(a, id))
      case Err(_) => (db, Err(BackupInUse))
      case Ok(rows) => (Settled(db, p, a, now).(rows := rows), Ok(b))
  }

  function PruneBackups(db: Db, p: Pricer, a: AccountId, before: int, now: int): (Db, Result<seq<Backup>, Error>) {
    if a !in db.accounts then (db, Err(NotFound)) else
    match LookupVersion(db.rows, a, before)
    case None => (db, Err(NotFound))
    case Some(boundary) =>
      if boundary.kind != Full then (db, Err(BackupBoundary)) else
      match Deletion(db.rows, Below(a, before))
      case Err(e) => (db, Err(e))
      case Ok(rows) => (Settled(db, p, a, now).(rows := rows), Ok(Picked(db.rows, Below(a, before))))
  }

  function SettleStorage(db: Db, p: Pricer, a: AccountId, now: int): (Db, Result<int, Error>) {
    if a !in db.accounts then (db, Err(NotFound))
    else (Settled(db, p, a, now), Ok(SettlementCost(db, p, a, now)))
  }

  /** The mark is older than minAge, or the account was never marked and stores something. */
  predicate Due(db: Db, a: AccountId, dbNow: int, minAge: int) {
    a in db.accounts &&
    match db.accounts[a].mark
    case None => 0 < Count(db.rows, a)
    case Some(mark) => mark < dbNow - minAge
  }

  /** Deduct and book in one transaction; the balance may go negative. */
  function Charge(db: Db, a: AccountId, cost: int): (Db, Result<int, Error>) {
    if a !in db.accounts then (db, Err(NotFound))
    else (Booked(db, a, InferenceUse, cost), Ok(db.accounts[a].balance - cost))
  }

  function AddCredits(db: Db, a: AccountId, amount: int): (Db, Result<int, Error>) {
    if a !in db.accounts then (db, Err(NotFound)) else
    var acct := db.accounts[a];
    (db.(accounts := db.accounts[a := acct.(balance := acct.balance + amount)]), Ok(acct.balance + amount))
  }

  function CreateAccount(db: Db, id: AccountId): (Db, Result<AccountId, Error>) {
    if id in db.accountIds then (db, Err(UniqueViolation)) else
    (db.(accounts := db.accounts[id := FRESH_ACCOUNT], accountIds := db.accountIds + {id}), Ok(id))
  }

  function Paths(rows: seq<Backup>): (r: seq<string>)
    ensures forall p :: p in r <==> exists b :: b in rows && b.path == p
  {
    if rows == [] then [] else
    var r := Paths(Init(rows)) + [Last(rows).path];
    assert forall p :: p in r ==> exists b :: b in rows && b.path == p by {
      forall p | p in r ensures exists b :: b in rows && b.path == p {
        if p == Last(rows).path {
          assert Last(rows) in rows;
        } else {
          var b :| b in Init(rows) && b.path == p;
          assert b in rows;
        }
      }
    }
    r
  }

  /**
    Cascades backup rows and usage events.  The paths of the files to remove are
    those of the rows `listed` by an earlier statement, which takes no lock.
   */
  function DeleteAccount(db: Db, a: AccountId, listed: seq<Backup>): (Db, Result<seq<string>, Error>) {
    if a !in db.accounts then (db, Err(NotFound)) else
    match Deletion(db.rows, OfAccount(a))
    case Err(e) => (db, Err(e))
    case Ok(rows) =>
      (db.(accounts := db.accounts - {a}, rows := rows, usage := WithoutAccount(db.usage, a)), Ok(Paths(listed)))
  }
}
