/**
  The store.  Each transaction changes the tables statement by statement under
  the account lock and restores them when it ends in an error; each is proved to
  have exactly the committed effect that Transactions gives it.
 */
module Stores {
  import opened Outcomes
  import opened Pricing
  import opened Tables
  import T = Transactions
  import opened Transactions

  class Store {
    var accounts: map<AccountId, Account>
    var rows: seq<Backup>
    var usage: seq<UsageEvent>
    var accountIds: set<AccountId>
    var backupIds: set<BackupId>

    function View(): Db
      reads this
    {
      Db(accounts, rows, usage, accountIds, backupIds)
    }

    constructor ()
      ensures View() == EMPTY
    {
      accounts, rows, usage, accountIds, backupIds := map[], [], [], {}, {};
    }

    /** Set all tables: a rollback puts back what was there before the transaction. */
    method Restore(db: Db)
      modifies this
      ensures View() == db
    {
      accounts, rows, usage, accountIds, backupIds := db.accounts, db.rows, db.usage, db.accountIds, db.backupIds;
    }

    method ChargeTx(a: AccountId, kind: EventKind, cost: int) returns (balance: int)
      requires a in accounts
      modifies this
      ensures View() == Booked(old(View()), a, kind, cost)
      ensures balance == old(accounts[a].balance) - cost
    {
      balance := accounts[a].balance - cost;
      accounts := accounts[a := accounts[a].(balance := balance)];
      usage := usage + [UsageEvent(a, kind, cost)];
    }

    /** Charge the bytes stored so far and set the mark; whoever adds or removes backups calls this first. */
    method SettleStorageTx(a: AccountId, p: Pricer, now: int) returns (used: int, cost: int)
      requires a in accounts
      modifies this
      ensures View() == Settled(old(View()), p, a, now)
      ensures used == Used(old(rows), a) && cost == SettlementCost(old(View()), p, a, now)
    {
      cost := 0;
      var billedAt := accounts[a].mark;
      used := Used(rows, a);
      if billedAt.Some? {
        var elapsed := now - billedAt.value;
        cost := p(used, elapsed);
        if 0 < cost {
          var _ := ChargeTx(a, StorageUse, cost);
        }
      }
      accounts := accounts[a := accounts[a].(mark := Some(now))];
    }

    /** The checks of an upload between the settlement and the insert. */
    method CheckUpload(a: AccountId, q: Quota, balance: int, used: int, nb: NewBackup, x: Outside)
        returns (refusal: Option<Error>)
      requires used == Used(rows, a)
      ensures refusal == Check(rows, q, a, balance, nb, x.total)
    {
      var count, headVersion := Count(rows, a), HeadVersion(rows, a);
      if q.maxVersions <= count {
        return Some(BackupLimit);
      }
      if q.enforce && balance <= 0 && q.freeBytes < used + nb.size {
        return Some(StorageQuota);
      }
      if 0 < q.totalCapBytes {
        var total := x.total;
        if q.totalCapBytes < total + nb.size {
          return Some(StorageFull);
        }
      }
      if nb.parent.Some? {
        var parent := Lookup(rows, a, nb.parent.value);
        if parent.None? {
          return Some(NotFound);
        }
        if parent.value.version != headVersion {
          return Some(BackupStale);
        }
      }
      refusal := None;
    }

    /** `x` is what the transaction gets from outside its account: the sum the cap check reads and the id of the row. */
    method CreateBackup(a: AccountId, q: Quota, p: Pricer, now: int, nb: NewBackup, x: Outside)
        returns (r: Result<Backup, Error>)
      modifies this
      ensures (View(), r) == T.CreateBackup(old(View()), q, p, a, now, nb, x)
      ensures r.Err? ==> View() == old(View())
    {
      hide Settled, Check, LookupVersion;
      var before := View();
      if a !in accounts {
        return Err(NotFound);
      }
      // from here on the account is locked, and the new version taken
      accounts := accounts[a := accounts[a].(lastVersion := accounts[a].lastVersion + 1)];
      var version, balance := accounts[a].lastVersion, accounts[a].balance;
      assert View() == Bumped(before, a, version);
      var used, _ := SettleStorageTx(a, p, now);

      var refusal := CheckUpload(a, q, balance, used, nb, x);
      if refusal.Some? {
        Restore(before);
        return Err(refusal.value);
      }
      var kind := if nb.parent.Some? then Delta else Full;
      var b := Backup(x.id, a, version, kind, nb.parent, nb.path, nb.size, nb.checksum, nb.meta);
      var inserted := Insertion(View(), b);
      if inserted.Err? {
        Restore(before);
        return Err(inserted.error);
      }
      InsertedAfterBump(before, p, a, now, b);
      rows, backupIds := inserted.value, backupIds + {b.id};
      r := Ok(b);
    }

    method DeleteBackup(a: AccountId, id: BackupId, p: Pricer, now: int) returns (r: Result<Backup, Error>)
      modifies this
      ensures (View(), r) == T.DeleteBackup(old(View()), p, a, id, now)
      ensures r.Err? ==> View() == old(View())
    {
      var before := View();
      if a !in accounts {
        return Err(NotFound);
      }
      var _, _ := SettleStorageTx(a, p, now);
      var b := Lookup(rows, a, id);
      if b.None? {
        Restore(before);
        return Err(NotFound);
      }
      var deleted := Deletion(rows, HasId(a, id));
      if deleted.Err? {
        Restore(before);
        return Err(BackupInUse);
      }
      rows := deleted.value;
      r := Ok(b.value);
    }

    /** collectBackups: append the returned rows one by one. */
    method CollectBackups(returned: seq<Backup>) returns (out: seq<Backup>)
      ensures out == returned
    {
      out := [];
      for i := 0 to |returned|
        invariant out == returned[..i]
      {
        out := out + [returned[i]];
      }
    }

    method PruneBackups(a: AccountId, before: int, p: Pricer, now: int) returns (r: Result<seq<Backup>, Error>)
      modifies this
      ensures (View(), r) == T.PruneBackups(old(View()), p, a, before, now)
      ensures r.Err? ==> View() == old(View())
    {
      hide Settled, Picked, Deletion, LookupVersion;
      var start := View();
      if a !in accounts {
        return Err(NotFound);
      }
      var _, _ := SettleStorageTx(a, p, now);
      var boundary := LookupVersion(rows, a, before);
      if boundary.None? {
        Restore(start);
        return Err(NotFound);
      }
      if boundary.value.kind != Full {
        Restore(start);
        return Err(BackupBoundary);
      }
      var returned := Picked(rows, Below(a, before));
      var deleted := Deletion(rows, Below(a, before));
      if deleted.Err? {
        Restore(start);
        return Err(deleted.error);
      }
      rows := deleted.value;
      var out := CollectBackups(returned);
      r := Ok(out);
    }

    method SettleStorage(a: AccountId, p: Pricer, now: int) returns (r: Result<int, Error>)
      modifies this
      ensures (View(), r) == T.SettleStorage(old(View()), p, a, now)
      ensures a !in old(accounts) ==> r == Err(NotFound) && View() == old(View())
      ensures a in old(accounts) ==>
                && r == Ok(old(accounts)[a].balance - accounts[a].balance)
                && accounts[a].mark == Some(now) && rows == old(rows)
    {
      if a !in accounts {
        return Err(NotFound);
      }
      var _, cost := SettleStorageTx(a, p, now);
      r := Ok(cost);
    }

    /** The balance falls by the cost, below zero if need be, and one event is booked. */
    method Charge(a: AccountId, cost: int) returns (r: Result<int, Error>)
      modifies this
      ensures (View(), r) == T.Charge(old(View()), a, cost)
      ensures r == if a in old(accounts) then Ok(old(accounts)[a].balance - cost) else Err(NotFound)
      ensures a in old(accounts) ==>
                && accounts == old(accounts)[a := old(accounts)[a].(balance := old(accounts)[a].balance - cost)]
                && usage == old(usage) + [UsageEvent(a, InferenceUse, cost)] && rows == old(rows)
    {
      if a !in accounts {
        return Err(NotFound);
      }
      var balance := ChargeTx(a, InferenceUse, cost);
      r := Ok(balance);
    }

    /** Nothing but the balance of the one account changes, and by the amount. */
    method AddCredits(a: AccountId, amount: int) returns (r: Result<int, Error>)
      modifies this
      ensures (View(), r) == T.AddCredits(old(View()), a, amount)
      ensures r == if a in old(accounts) then Ok(old(accounts)[a].balance + amount) else Err(NotFound)
      ensures View() == old(View()).(accounts := accounts) && accounts.Keys == old(accounts).Keys
      ensures forall x :: x in accounts ==>
                && accounts[x].lastVersion == old(accounts)[x].lastVersion
                && accounts[x].mark == old(accounts)[x].mark
                && accounts[x].balance == old(accounts)[x].balance + if x == a then amount else 0
    {
      if a !in accounts {
        return Err(NotFound);
      }
      var balance := accounts[a].balance + amount;
      accounts := accounts[a := accounts[a].(balance := balance)];
      r := Ok(balance);
    }

    /** `id` comes from the sequence. */
    method CreateAccount(id: AccountId) returns (r: Result<AccountId, Error>)
      modifies this
      ensures (View(), r) == T.CreateAccount(old(View()), id)
      ensures r.Ok? ==> id !in old(accountIds) && id in accounts && accounts[id] == Account(0, 0, None)
    {
      if id in accountIds {
        return Err(UniqueViolation);
      }
      accounts, accountIds := accounts[id := FRESH_ACCOUNT], accountIds + {id};
      r := Ok(id);
    }

    method CollectPaths(listed: seq<Backup>) returns (paths: seq<string>)
      ensures paths == Paths(listed)
    {
      paths := [];
      for i := 0 to |listed|
        invariant paths == Paths(listed[..i])
      {
        assert listed[..i + 1] == listed[..i] + [listed[i]];
        Append(listed[..i], listed[i]);
        paths := paths + [listed[i].path];
      }
      assert listed[..|listed|] == listed;
    }

    /** The cascade; `listed` are the rows the listing statement before it returned. */
    method DeleteAccount(a: AccountId, listed: seq<Backup>) returns (r: Result<seq<string>, Error>)
      modifies this
      ensures (View(), r) == T.DeleteAccount(old(View()), a, listed)
    {
      var paths := CollectPaths(listed);
      if a !in accounts {
        return Err(NotFound);
      }
      var deleted := Deletion(rows, OfAccount(a));
      if deleted.Err? {
        return Err(deleted.error);
      }
      accounts, rows, usage := accounts - {a}, deleted.value, WithoutAccount(usage, a);
      r := Ok(paths);
    }

    /** allStoragePaths: the set of paths some row refers to. */
    method AllStoragePaths() returns (known: set<string>)
      ensures forall p :: p in known <==> exists b :: b in rows && b.path == p
    {
      known := {};
      for i := 0 to |rows|
        invariant forall p :: p in known <==> exists j :: 0 <= j < i && rows[j].path == p
      {
        known := known + {rows[i].path};
      }
    }

    /**
      storageBillingDue: every account whose mark is more than `minAge` old, or that
      stores something and has no mark, once and in no particular order.
     */
    method StorageBillingDue(dbNow: int, minAge: int) returns (ids: seq<AccountId>)
      ensures forall a :: a in ids <==> Due(View(), a, dbNow, minAge)
      ensures forall a :: a in ids <==>
                a in accounts && match accounts[a].mark
                                 case None => exists b :: b in rows && b.account == a
                                 case Some(mark) => mark + minAge < dbNow
      ensures forall i, j :: 0 <= i < j < |ids| ==> ids[i] != ids[j]
    {
      var db := View();
      var due := set a | a in db.accounts && Due(db, a, dbNow, minAge);
      forall a | a in accounts
        ensures 0 < Count(rows, a) <==> exists b :: b in rows && b.account == a
      {
        NoRows(rows, a);
      }
      ids := [];
      var left := due;
      while left != {}
        invariant left <= due
        invariant forall a :: a in ids <==> a in due && a !in left
        invariant forall i, j :: 0 <= i < j < |ids| ==> ids[i] != ids[j]
        decreases |left|
      {
        var a :| a in left;
        left, ids := left - {a}, ids + [a];
      }
    }
  }

  /** The tables after the first statement of an upload. */
  function Bumped(db: Db, a: AccountId, version: int): Db
    requires a in db.accounts
  {
    db.(accounts := db.accounts[a := db.accounts[a].(lastVersion := version)])
  }

  /** Taking the version before settling and inserting leaves the same database as settling before taking it. */
  lemma InsertedAfterBump(db: Db, p: Pricer, a: AccountId, now: int, b: Backup)
    requires a in db.accounts && b.account == a
    ensures var s := Settled(Bumped(db, a, b.version), p, a, now);
            s.(rows := s.rows + [b], backupIds := s.backupIds + {b.id}) == Inserted(Settled(db, p, a, now), b)
  {
    var s := Settled(Bumped(db, a, b.version), p, a, now);
    assert s.accounts == Inserted(Settled(db, p, a, now), b).accounts;
  }
}
