/**
  The `backups` and `usage_events` tables as sequences of rows in insertion
  order, with the SQL clauses and aggregates the store uses on them.
 */
module Tables {
  import opened Outcomes

  type AccountId = int
  type BackupId = int

  datatype Kind = Full | Delta

  datatype Backup = Backup(id: BackupId, account: AccountId, version: int, kind: Kind,
                           parent: Option<BackupId>, path: string, size: int, checksum: string, meta: string)

  datatype EventKind = InferenceUse | StorageUse

  datatype UsageEvent = UsageEvent(account: AccountId, kind: EventKind, cost: int)

  // ---- WHERE clauses ----

  datatype Clause =
    | HasId(account: AccountId, id: BackupId)
    | Below(account: AccountId, version: int)
    | OfAccount(account: AccountId)

  predicate Matches(b: Backup, c: Clause) {
    b.account == c.account &&
    match c
    case HasId(_, id) => b.id == id
    case Below(_, v) => b.version < v
    case OfAccount(_) => true
  }

  /** The rows a DELETE with clause `c` returns. */
  function Picked(rows: seq<Backup>, c: Clause): (r: seq<Backup>)
    ensures forall b :: b in r <==> b in rows && Matches(b, c)
  {
    if rows == [] then [] else
    Picked(Init(rows), c) + if Matches(Last(rows), c) then [Last(rows)] else []
  }

  /** The rows a DELETE with clause `c` leaves behind. */
  function Kept(rows: seq<Backup>, c: Clause): (r: seq<Backup>)
    ensures forall b :: b in r <==> b in rows && !Matches(b, c)
  {
    if rows == [] then [] else
    Kept(Init(rows), c) + if Matches(Last(rows), c) then [] else [Last(rows)]
  }

  function Last<T>(s: seq<T>): T
    requires s != []
  {
    s[|s| - 1]
  }

  function Init<T>(s: seq<T>): seq<T>
    requires s != []
  {
    s[..|s| - 1]
  }

  lemma Append<T>(s: seq<T>, x: T)
    ensures Init(s + [x]) == s && Last(s + [x]) == x
  {
  }

  // ---- aggregates ----

  /** coalesce(sum(size_bytes), 0) over the rows of one account. */
  function Used(rows: seq<Backup>, a: AccountId): int {
    if rows == [] then 0 else
    Used(Init(rows), a) + if Last(rows).account == a then Last(rows).size else 0
  }

  /** coalesce(sum(size_bytes), 0) over all rows. */
  function Total(rows: seq<Backup>): int {
    if rows == [] then 0 else Total(Init(rows)) + Last(rows).size
  }

  /** count(*) over the rows of one account. */
  function Count(rows: seq<Backup>, a: AccountId): nat {
    if rows == [] then 0 else
    Count(Init(rows), a) + if Last(rows).account == a then 1 else 0
  }

  /** coalesce(max(version), 0) over the rows of one account. */
  function HeadVersion(rows: seq<Backup>, a: AccountId): (h: int)
    ensures forall b :: b in rows && b.account == a ==> b.version <= h
    ensures h == 0 || exists b :: b in rows && b.account == a && b.version == h
  {
    if rows == [] then 0 else
    var h := HeadVersion(Init(rows), a);
    if Last(rows).account == a && (h < Last(rows).version || Count(Init(rows), a) == 0) then
      NoRows(Init(rows), a);
      Last(rows).version
    else
      NoRows(Init(rows), a);
      assert h != 0 ==> exists b :: b in Init(rows) && b.account == a && b.version == h;
      h
  }

  lemma {:induction false} NoRows(rows: seq<Backup>, a: AccountId)
    ensures Count(rows, a) == 0 <==> forall b :: b in rows ==> b.account != a
  {
    if rows != [] {
      NoRows(Init(rows), a);
    }
  }

  /** SELECT … WHERE id = … AND account_id = … */
  function Lookup(rows: seq<Backup>, a: AccountId, id: BackupId): (r: Option<Backup>)
    ensures r.Some? ==> r.value in rows && Matches(r.value, HasId(a, id))
    ensures r.None? ==> forall b :: b in rows ==> !Matches(b, HasId(a, id))
  {
    if rows == [] then None
    else if Matches(Last(rows), HasId(a, id)) then Some(Last(rows))
    else Lookup(Init(rows), a, id)
  }

  /** SELECT … WHERE account_id = … AND version = … */
  function LookupVersion(rows: seq<Backup>, a: AccountId, v: int): (r: Option<Backup>)
    ensures r.Some? ==> r.value in rows && r.value.account == a && r.value.version == v
    ensures r.None? ==> forall b :: b in rows && b.account == a ==> b.version != v
  {
    if rows == [] then None
    else if Last(rows).account == a && Last(rows).version == v then Some(Last(rows))
    else LookupVersion(Init(rows), a, v)
  }

  /** Some row names `id` as its parent, whatever its account. */
  predicate IsParent(rows: seq<Backup>, id: BackupId) {
    exists b :: b in rows && b.parent == Some(id)
  }

  /** Every parent reference points at a row: the foreign key on parent_id. */
  predicate ParentClosed(rows: seq<Backup>) {
    forall b :: b in rows && b.parent.Some? ==> exists p :: p in rows && p.id == b.parent.value
  }

  // ---- the ledger table ----

  function EventsOf(usage: seq<UsageEvent>, a: AccountId): seq<UsageEvent> {
    if usage == [] then [] else
    EventsOf(Init(usage), a) + if Last(usage).account == a then [Last(usage)] else []
  }

  /** Sum of the event costs booked on one account. */
  function Spent(usage: seq<UsageEvent>, a: AccountId): int {
    if usage == [] then 0 else
    Spent(Init(usage), a) + if Last(usage).account == a then Last(usage).cost else 0
  }

  /** Sum of the storage event costs booked on one account. */
  function StorageBill(usage: seq<UsageEvent>, a: AccountId): int {
    if usage == [] then 0 else
    StorageBill(Init(usage), a)
    + if Last(usage).account == a && Last(usage).kind == StorageUse then Last(usage).cost else 0
  }

  /** Usage events survive unless their account is deleted. */
  function WithoutAccount(usage: seq<UsageEvent>, a: AccountId): (r: seq<UsageEvent>)
    ensures forall e :: e in r <==> e in usage && e.account != a
  {
    if usage == [] then [] else
    WithoutAccount(Init(usage), a) + if Last(usage).account == a then [] else [Last(usage)]
  }

  // ---- how the clauses and the aggregates meet ----

  /** One step of Kept and Picked, without the case split at every use. */
  lemma SplitLast(rows: seq<Backup>, c: Clause)
    requires rows != []
    ensures Matches(Last(rows), c) ==>
              Kept(rows, c) == Kept(Init(rows), c) && Picked(rows, c) == Picked(Init(rows), c) + [Last(rows)]
    ensures !Matches(Last(rows), c) ==>
              Kept(rows, c) == Kept(Init(rows), c) + [Last(rows)] && Picked(rows, c) == Picked(Init(rows), c)
  {
  }

  lemma AppendSums(rows: seq<Backup>, x: Backup, a: AccountId)
    ensures Used(rows + [x], a) == Used(rows, a) + if x.account == a then x.size else 0
    ensures Total(rows + [x]) == Total(rows) + x.size
    ensures Count(rows + [x], a) == Count(rows, a) + if x.account == a then 1 else 0
  {
    Append(rows, x);
  }

  /** Deleting with a clause splits every aggregate between the rows kept and the rows returned. */
  lemma {:induction false} KeptAggregates(rows: seq<Backup>, c: Clause, a: AccountId)
    ensures Used(rows, a) == Used(Kept(rows, c), a) + Used(Picked(rows, c), a)
    ensures Total(rows) == Total(Kept(rows, c)) + Total(Picked(rows, c))
    ensures Count(rows, a) == Count(Kept(rows, c), a) + Count(Picked(rows, c), a)
  {
    if rows != [] {
      var init, last := Init(rows), Last(rows);
      KeptAggregates(init, c, a);
      SplitLast(rows, c);
      AppendSums(Kept(init, c), last, a);
      AppendSums(Picked(init, c), last, a);
    }
  }

  lemma {:induction false} ForeignRows(rows: seq<Backup>, a: AccountId)
    requires forall b :: b in rows ==> b.account != a
    ensures Used(rows, a) == 0 && Count(rows, a) == 0
  {
    if rows != [] {
      ForeignRows(Init(rows), a);
    }
  }

  lemma {:induction false} WithoutAccountSums(usage: seq<UsageEvent>, gone: AccountId, a: AccountId)
    requires a != gone
    ensures Spent(WithoutAccount(usage, gone), a) == Spent(usage, a)
    ensures StorageBill(WithoutAccount(usage, gone), a) == StorageBill(usage, a)
  {
    if usage != [] {
      WithoutAccountSums(Init(usage), gone, a);
      if Last(usage).account != gone {
        Append(WithoutAccount(Init(usage), gone), Last(usage));
      } else {
        assert WithoutAccount(usage, gone) == WithoutAccount(Init(usage), gone);
      }
    }
  }

  lemma {:induction false} ForeignSums(usage: seq<UsageEvent>, a: AccountId)
    requires forall e :: e in usage ==> e.account != a
    ensures Spent(usage, a) == 0 && StorageBill(usage, a) == 0
  {
    if usage != [] {
      ForeignSums(Init(usage), a);
    }
  }

  /** Ids are unique, and the versions of one account grow with insertion order. */
  ghost predicate Ordered(rows: seq<Backup>) {
    forall i, j :: 0 <= i < j < |rows| ==> Precedes(rows[i], rows[j])
  }

  predicate Precedes(b: Backup, x: Backup) {
    b.id != x.id && (b.account == x.account ==> b.version < x.version)
  }

  lemma OrderedAppend(rows: seq<Backup>, x: Backup)
    requires Ordered(rows) && forall b :: b in rows ==> Precedes(b, x)
    ensures Ordered(rows + [x])
  {
    forall i, j | 0 <= i < j < |rows + [x]|
      ensures Precedes((rows + [x])[i], (rows + [x])[j])
    {
      assert rows[i] in rows;
    }
  }

  lemma OrderedInit(rows: seq<Backup>)
    requires Ordered(rows) && rows != []
    ensures Ordered(Init(rows)) && forall b :: b in Init(rows) ==> Precedes(b, Last(rows))
  {
  }

  lemma {:induction false} KeptOrdered(rows: seq<Backup>, c: Clause)
    requires Ordered(rows)
    ensures Ordered(Kept(rows, c))
  {
    if rows != [] {
      OrderedInit(rows);
      KeptOrdered(Init(rows), c);
      SplitLast(rows, c);
      if !Matches(Last(rows), c) {
        OrderedAppend(Kept(Init(rows), c), Last(rows));
      }
    }
  }

  /** In an ordered table a row is determined by its id, and by its account and version. */
  lemma OrderedUnique(rows: seq<Backup>)
    requires Ordered(rows)
    ensures forall b, d :: b in rows && d in rows && b.id == d.id ==> b == d
    ensures forall b, d :: b in rows && d in rows && b.account == d.account && b.version == d.version ==> b == d
  {
    forall b, d | b in rows && d in rows && b != d
      ensures b.id != d.id && (b.account == d.account ==> b.version != d.version)
    {
      var i, j :| 0 <= i < |rows| && 0 <= j < |rows| && rows[i] == b && rows[j] == d;
      assert i < j || j < i;
    }
  }
}
