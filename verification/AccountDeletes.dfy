/**
  Which files an account delete leaves behind.  It lists the paths before it
  takes any lock, so an upload may still commit between the listing and the
  cascade; the file of its row is then nobody's but the sweep's.
 */
module AccountDeletes {
  import opened Outcomes
  import opened Tables
  import opened Transactions
  import opened Blobs
  import opened BackupSystem
  import opened DurableBackups
  import A = Admission
  import C = Chains
  import R = Runs

  // ---- a listing only ever names rows that were there ----

  /** Of the paths `listed`, rows have only those of `earlier`, and no upload has any. */
  ghost predicate ListedBefore(
      listed: set<string>, earlier: seq<Backup>, rows: seq<Backup>, uploads: map<int, Upload>, used: set<string>)
  {
    && (forall b :: b in rows && b.path in listed ==> b in earlier)
    && (forall i :: i in uploads ==> uploads[i].path !in listed)
    && listed <= used
  }

  lemma NoNewRow(w: World, s: State, e: Event)
    requires Enabled(w, s, e) && Commits(e) && !e.Commit?
    ensures forall b :: b in Next(w, s, e).db.rows ==> b in s.db.rows
  {
    var op := OpsOf(s, w, e)[0];
    NextIsTransaction(w, s, e);
    A.RowsAfter(w.config, s.db, op);
  }

  /** The row of a commit has the path of its upload. */
  lemma CommittedPath(w: World, s: State, pid: int, id: BackupId)
    requires Enabled(w, s, Commit(pid, id))
    ensures forall b :: b in Next(w, s, Commit(pid, id)).db.rows ==> b in s.db.rows || b.path == s.uploads[pid].path
  {
  }

  lemma NextKeepsListed(w: World, s: State, e: Event, listed: set<string>, earlier: seq<Backup>)
    requires ListedBefore(listed, earlier, s.db.rows, s.uploads, s.used) && Enabled(w, s, e)
    ensures var n := Next(w, s, e); ListedBefore(listed, earlier, n.db.rows, n.uploads, n.used)
  {
    NextContinues(w, s, e);
    if e.Commit? {
      CommittedPath(w, s, e.pid, e.id);
    } else if Commits(e) {
      NoNewRow(w, s, e);
    }
    hide Next;
  }

  lemma {:induction false} ExecKeepsListed(
      w: World, s: State, es: seq<Event>, listed: set<string>, earlier: seq<Backup>)
    requires ListedBefore(listed, earlier, s.db.rows, s.uploads, s.used) && Valid(w, s, es)
    ensures var n := Exec(w, s, es); ListedBefore(listed, earlier, n.db.rows, n.uploads, n.used)
    decreases |es|
  {
    hide Next, Enabled, ListedBefore;
    if es != [] {
      NextKeepsListed(w, s, es[0], listed, earlier);
      ExecKeepsListed(w, Next(w, s, es[0]), es[1..], listed, earlier);
    }
  }

  function ListedPaths(s: State, a: AccountId): set<string> {
    PathSet(Picked(s.db.rows, OfAccount(a)))
  }

  /** Whatever happens after a listing, a row of the account is listed if and only if it was there. */
  lemma ListedIff(w: World, s: State, es: seq<Event>, a: AccountId, b: Backup)
    requires SystemInv(w, s) && Valid(w, s, es) && b in Exec(w, s, es).db.rows && b.account == a
    ensures b.path in ListedPaths(s, a) <==> b in s.db.rows
  {
    ExecKeepsListed(w, s, es, ListedPaths(s, a), s.db.rows);
    if b in s.db.rows {
      assert b in Picked(s.db.rows, OfAccount(a));
    }
  }

  // ---- what the delete leaves ----

  /** The event leaves the account delete `pid` waiting between its listing and its cascade. */
  predicate Waits(e: Event, pid: int) {
    !e.Crash? && e != Close(pid) && e != AbortClose(pid)
  }

  lemma NextKeepsClosing(w: World, s: State, e: Event, pid: int)
    requires Enabled(w, s, e) && Waits(e, pid) && pid in s.closing
    ensures pid in Next(w, s, e).closing && Next(w, s, e).closing[pid] == s.closing[pid]
  {
    hide CreateBackup, DeleteBackup, PruneBackups, DeleteAccount, R.Apply, Refusal;
  }

  lemma {:induction false} ExecKeepsClosing(w: World, s: State, es: seq<Event>, pid: int)
    requires Valid(w, s, es) && pid in s.closing && forall e :: e in es ==> Waits(e, pid)
    ensures pid in Exec(w, s, es).closing && Exec(w, s, es).closing[pid] == s.closing[pid]
    decreases |es|
  {
    hide Next, Enabled;
    if es != [] {
      NextKeepsClosing(w, s, es[0], pid);
      ExecKeepsClosing(w, Next(w, s, es[0]), es[1..], pid);
    }
  }

  /** The cascade takes every row of the account, removes no file, and dooms what was listed. */
  lemma CloseEffect(w: World, s: State, pid: int, b: Backup)
    requires R.Inv(w.config, s.db) && Enabled(w, s, Close(pid))
    requires b in s.db.rows && b.account == s.closing[pid].account
    ensures var n := Next(w, s, Close(pid));
            && b !in n.db.rows && b.account !in n.db.accounts && n.files == s.files
            && n.doomed == s.doomed + s.closing[pid].paths
  {
    C.AccountDeleted(w.config, s.db, b.account, []);
  }

  /** The path `p` is a file that only the sweep may still remove. */
  ghost predicate LeftToSweep(s: State, p: string) {
    && p in s.used && p !in s.doomed
    && (forall b :: b in s.db.rows ==> b.path != p)
    && (forall i :: i in s.uploads ==> s.uploads[i].path != p)
    && (forall i :: i in s.closing && p in s.closing[i].paths ==>
          s.closing[i].account in s.db.accountIds && s.closing[i].account !in s.db.accounts)
  }

  /**
    An account delete lists, other things happen, and it deletes the account.  The
    file of a row that goes is still there then, and it is left to the sweep if and
    only if the row was committed after the listing; otherwise the delete itself
    is about to remove it.
   */
  lemma LeftBehindIff(w: World, before: seq<Event>, between: seq<Event>, pid: int, a: AccountId, b: Backup)
    requires GraceSuffices(w.timing) && Valid(w, START, before)
    requires var s := Exec(w, START, before);
             && Enabled(w, s, ListPaths(pid, a)) && Valid(w, Next(w, s, ListPaths(pid, a)), between)
             && (forall e :: e in between ==> Waits(e, pid))
             && var ready := Exec(w, Next(w, s, ListPaths(pid, a)), between);
                Enabled(w, ready, Close(pid)) && b in ready.db.rows && b.account == a
    ensures var s := Exec(w, START, before);
            var ready := Exec(w, Next(w, s, ListPaths(pid, a)), between);
            var end := Next(w, ready, Close(pid));
            && b !in end.db.rows && FileIntact(w, end.files, b)
            && (b.path in end.doomed <==> b in s.db.rows)
            && (LeftToSweep(end, b.path) <==> b !in s.db.rows)
  {
    var s := Exec(w, START, before);
    var listed := Next(w, s, ListPaths(pid, a));
    var ready := Exec(w, listed, between);
    StartFits(w);
    ExecKeeps(w, START, before);
    NextKeeps(w, s, ListPaths(pid, a));
    ExecKeeps(w, listed, between);
    ExecKeepsClosing(w, listed, between, pid);
    Single(w, s, ListPaths(pid, a));
    ExecSplit(w, s, [ListPaths(pid, a)], between);
    ListedIff(w, s, [ListPaths(pid, a)] + between, a, b);
    ExecSplit(w, START, before, [ListPaths(pid, a)] + between);
    ReachedByRun(w, before + ([ListPaths(pid, a)] + between));
    CloseEffect(w, ready, pid, b);
    GoneIsLeft(w, ready, pid, b);
  }

  /** Right after the cascade, a path of a row that went is doomed or left to the sweep. */
  lemma GoneIsLeft(w: World, s: State, pid: int, b: Backup)
    requires SystemInv(w, s) && R.Inv(w.config, s.db) && Enabled(w, s, Close(pid))
    requires b in s.db.rows && b.account == s.closing[pid].account
    ensures var n := Next(w, s, Close(pid));
            && (b.path in n.doomed <==> b.path in s.closing[pid].paths)
            && (LeftToSweep(n, b.path) <==> b.path !in s.closing[pid].paths)
  {
    CloseEffect(w, s, pid, b);
    C.AccountDeleted(w.config, s.db, b.account, []);
  }

  // ---- nobody else will ever remove it ----

  lemma AccountsGone(c: Config, db: Db, op: R.Op, a: AccountId)
    requires a in db.accountIds && a !in db.accounts
    ensures var n := R.Apply(c, db, op); a in n.accountIds && a !in n.accounts
  {
  }

  lemma StoreKeepsLeft(w: World, s: State, e: Event, p: string)
    requires LeftToSweep(s, p) && Enabled(w, s, e) && Commits(e) && !e.Commit?
    ensures LeftToSweep(Next(w, s, e), p) && Next(w, s, e).files == s.files
  {
    var op := OpsOf(s, w, e)[0];
    NoNewRow(w, s, e);
    NextIsTransaction(w, s, e);
    forall i | i in s.closing && p in s.closing[i].paths
      ensures s.closing[i].account in Next(w, s, e).db.accountIds && s.closing[i].account !in Next(w, s, e).db.accounts
    {
      AccountsGone(w.config, s.db, op, s.closing[i].account);
    }
    StoreDoomsOthers(w, s, e, p);
    hide Next;
  }

  /** What a transaction of the store may change besides the rows: it dooms other paths, and account deletes end. */
  ghost predicate DoomsOthers(n: State, s: State, p: string) {
    && p !in n.doomed && n.files == s.files && n.used == s.used && n.uploads == s.uploads
    && forall i :: i in n.closing ==> i in s.closing && n.closing[i] == s.closing[i]
  }

  lemma DeleteDoomsOthers(w: World, s: State, a: AccountId, id: BackupId, p: string)
    requires LeftToSweep(s, p) && Enabled(w, s, Delete(a, id))
    ensures DoomsOthers(Next(w, s, Delete(a, id)), s, p)
  {
    var (db, r) := DeleteBackup(s.db, w.config.pricer, a, id, s.now);
    assert r.Ok? ==> r.value in s.db.rows;
    hide DeleteBackup;
  }

  lemma PruneDoomsOthers(w: World, s: State, a: AccountId, before: int, p: string)
    requires LeftToSweep(s, p) && Enabled(w, s, Prune(a, before))
    ensures DoomsOthers(Next(w, s, Prune(a, before)), s, p)
  {
    var (db, r) := PruneBackups(s.db, w.config.pricer, a, before, s.now);
    assert r.Ok? ==> forall b :: b in r.value ==> b in s.db.rows;
    hide PruneBackups;
  }

  lemma CloseDoomsOthers(w: World, s: State, pid: int, p: string)
    requires LeftToSweep(s, p) && Enabled(w, s, Close(pid))
    ensures DoomsOthers(Next(w, s, Close(pid)), s, p)
  {
    assert DeleteAccount(s.db, s.closing[pid].account, []).1.Ok? ==> s.closing[pid].account in s.db.accounts;
    hide DeleteAccount;
  }

  lemma StoreDoomsOthers(w: World, s: State, e: Event, p: string)
    requires LeftToSweep(s, p) && Enabled(w, s, e) && Commits(e) && !e.Commit?
    ensures DoomsOthers(Next(w, s, e), s, p)
  {
    match e
    case Database(_) => hide R.Apply;
    case Delete(a, id) => DeleteDoomsOthers(w, s, a, id, p);
    case Prune(a, before) => PruneDoomsOthers(w, s, a, before, p);
    case Close(pid) => CloseDoomsOthers(w, s, pid, p);
  }

  lemma CommitKeepsLeft(w: World, s: State, pid: int, id: BackupId, p: string)
    requires LeftToSweep(s, p) && Enabled(w, s, Commit(pid, id))
    ensures LeftToSweep(Next(w, s, Commit(pid, id)), p) && Next(w, s, Commit(pid, id)).files == s.files
  {
    CommitIsUpload(w, s, pid, id);
    CommittedPath(w, s, pid, id);
    forall i | i in s.closing && p in s.closing[i].paths
      ensures s.closing[i].account in Next(w, s, Commit(pid, id)).db.accountIds
      ensures s.closing[i].account !in Next(w, s, Commit(pid, id)).db.accounts
    {
      AccountsGone(w.config, s.db, OpsOf(s, w, Commit(pid, id))[0], s.closing[i].account);
    }
    hide Committed;
  }

  lemma RenameTouchesOwn(w: World, s: State, pid: int, p: string)
    requires IsWriting(s, pid) && s.uploads[pid].path != p && p in s.files
    ensures var n := Next(w, s, Rename(pid));
            && p in n.files && n.files[p] == s.files[p] && n.closing == s.closing && n.doomed == s.doomed
  {
  }

  lemma DiscardTouchesOwn(w: World, s: State, pid: int, p: string)
    requires IsStored(s, pid) && s.uploads[pid].path != p && p in s.files
    ensures var n := Next(w, s, Discard(pid));
            && p in n.files && n.files[p] == s.files[p] && n.closing == s.closing && n.doomed == s.doomed
  {
  }

  lemma OthersTouchNothing(w: World, s: State, e: Event)
    requires Enabled(w, s, e) && OfUpload(e) && !e.Commit? && !e.Rename? && !e.Discard?
    ensures var n := Next(w, s, e); n.files == s.files && n.closing == s.closing && n.doomed == s.doomed
  {
    hide Refusal;
    match e
    case Begin(_, _, _) =>
    case Chunk(_, _) =>
    case Abort(_) =>
    case Check(_, _, _) =>
    case Rollback(_) =>
  }

  /** Uploads change and remove only their own files. */
  lemma UploadTouchesOwn(w: World, s: State, e: Event, p: string)
    requires LeftToSweep(s, p) && p in s.files && Enabled(w, s, e) && OfUpload(e) && !e.Commit?
    ensures var n := Next(w, s, e);
            && p in n.files && n.files[p] == s.files[p] && n.closing == s.closing && n.doomed == s.doomed
  {
    hide Next;
    match e
    case Rename(pid) => RenameTouchesOwn(w, s, pid, p);
    case Discard(pid) => DiscardTouchesOwn(w, s, pid, p);
    case _ => OthersTouchNothing(w, s, e);
  }

  lemma UploadKeepsLeft(w: World, s: State, e: Event, p: string)
    requires LeftToSweep(s, p) && p in s.files && Enabled(w, s, e) && OfUpload(e) && !e.Commit?
    ensures var n := Next(w, s, e); LeftToSweep(n, p) && p in n.files && n.files[p] == s.files[p]
  {
    NextContinues(w, s, e);
    UploadTouchesOwn(w, s, e, p);
    hide Next, Enabled;
  }

  lemma ListingKeepsLeft(w: World, s: State, e: Event, p: string)
    requires LeftToSweep(s, p) && Enabled(w, s, e) && (e.ListPaths? || e.AbortClose?)
    ensures LeftToSweep(Next(w, s, e), p) && Next(w, s, e).files == s.files
  {
    match e
    case ListPaths(_, _) =>
    case AbortClose(_) =>
  }

  lemma SweepKeepsLeft(w: World, s: State, e: Event, p: string)
    requires LeftToSweep(s, p) && p in s.files && Enabled(w, s, e) && !OfStore(e) && !OfUpload(e)
    requires !(e == SweepRemove && s.sweep.victim == Final(p))
    ensures var n := Next(w, s, e); LeftToSweep(n, p) && p in n.files && n.files[p] == s.files[p]
  {
    match e
    case RemoveFile(_) =>
    case SweepRemove =>
    case Crash =>
    case _ =>
  }

  lemma SweptKeepsLeft(w: World, s: State, p: string)
    requires LeftToSweep(s, p) && Enabled(w, s, SweepRemove)
    ensures LeftToSweep(Next(w, s, SweepRemove), p)
  {
  }

  /**
    A file that is left to the sweep stays as it is, and left to the sweep, until
    the sweep removes it.
   */
  lemma OnlySweepRemoves(w: World, s: State, e: Event, p: string)
    requires LeftToSweep(s, p) && p in s.files && Enabled(w, s, e)
    ensures LeftToSweep(Next(w, s, e), p)
    ensures (e == SweepRemove && s.sweep.victim == Final(p))
            || (p in Next(w, s, e).files && Next(w, s, e).files[p] == s.files[p])
  {
    hide Next, LeftToSweep;
    if e.Commit? {
      CommitKeepsLeft(w, s, e.pid, e.id, p);
    } else if Commits(e) {
      StoreKeepsLeft(w, s, e, p);
    } else if OfUpload(e) {
      UploadKeepsLeft(w, s, e, p);
    } else if OfStore(e) {
      ListingKeepsLeft(w, s, e, p);
    } else if e == SweepRemove && s.sweep.victim == Final(p) {
      SweptKeepsLeft(w, s, p);
    } else {
      SweepKeepsLeft(w, s, e, p);
    }
  }

  /** The next undisturbed sweep does remove it, once it is old enough. */
  lemma LeftIsSwept(w: World, s: State, p: string) returns (es: seq<Event>)
    requires LeftToSweep(s, p) && p in s.files && s.sweep.Idle?
    ensures Valid(w, s, es) && Exec(w, s, es) == Cleaned(w, s)
    ensures p in Exec(w, s, es).files <==> s.now - w.timing.minAge < s.files[p].mtime
  {
    hide Next, Enabled, Valid, Exec, Cleaned;
    es := UndisturbedRun(w, s);
    CleanedFiles(w, s);
  }

  /** A file whose removal the file system refuses stays, and is left to the sweep if no account delete lists it. */
  lemma KeptIsLeft(w: World, s: State, p: string)
    requires SystemInv(w, s) && Enabled(w, s, KeepFile(p))
    requires forall i :: i in s.closing ==> p !in s.closing[i].paths
    ensures Next(w, s, KeepFile(p)).files == s.files && LeftToSweep(Next(w, s, KeepFile(p)), p)
  {
  }

  // ---- it happens ----

  /** Account 1 has uploaded one byte, and an account delete has listed its paths. */
  function ListedEarly(): State {
    AboutToCommit().(closing := map[0 := Closing(1, {})])
  }

  lemma ListBeforeCommit(w: World)
    ensures Enabled(w, AboutToCommit(), ListPaths(0, 1))
    ensures Next(w, AboutToCommit(), ListPaths(0, 1)) == ListedEarly()
  {
    assert PathSet(Picked([], OfAccount(1))) == {};
  }

  function LateRow(w: World): Backup {
    Backup(1, 1, 1, Full, None, "p", 1, w.checksum(BYTE), "")
  }

  /** The upload has committed, and the account delete still waits. */
  function CommittedLate(w: World): State {
    ListedEarly().(db := Db(map[1 := Account(1, 1, Some(0))], [LateRow(w)], [], {1}, {1}), uploads := map[])
  }

  lemma CommitLate(w: World)
    requires Admits(w)
    ensures var s := ListedEarly();
            && Enabled(w, s, Check(0, None, "")) && Enabled(w, Next(w, s, Check(0, None, "")), Commit(0, 1))
            && Next(w, Next(w, s, Check(0, None, "")), Commit(0, 1)) == CommittedLate(w)
  {
    var s := ListedEarly();
    FirstUploadPasses(w);
    var checked := Moved(s, 0, Checked(File(0, BYTE), None, "", 0, 0));
    assert Next(w, s, Check(0, None, "")) == checked;
    assert [] + [LateRow(w)] == [LateRow(w)];
    assert Committed(w, checked.db, checked.uploads[0], 1).0.accounts == CommittedLate(w).db.accounts;
    assert CommittedLate(w).db.backupIds == checked.db.backupIds + {1};
    assert Committed(w, checked.db, checked.uploads[0], 1).1 == Ok(LateRow(w));
    assert Committed(w, checked.db, checked.uploads[0], 1).0 == CommittedLate(w).db;
    assert checked.uploads.Keys == {0};
    assert checked.uploads - {0} == map[];
    hide Committed;
  }

  lemma CloseLate(w: World)
    ensures Enabled(w, CommittedLate(w), Close(0))
    ensures var end := Next(w, CommittedLate(w), Close(0));
            end.db.rows == [] && "p" in end.files && LeftToSweep(end, "p")
  {
    assert Kept([LateRow(w)], OfAccount(1)) == [] by {
      assert Init([LateRow(w)]) == [];
    }
  }

  /** Some run of the empty server ends with a file that has no row and is left to the sweep. */
  lemma FileLeftBehind(w: World) returns (es: seq<Event>)
    requires Admits(w)
    ensures Valid(w, START, es)
    ensures var end := Exec(w, START, es); end.db.rows == [] && "p" in end.files && LeftToSweep(end, "p")
  {
    var fund := [Database(R.OpenAccount(1)), Database(R.TopUp(1, 1))];
    var upload := [Begin(0, 1, "p"), Chunk(0, BYTE)] + [Rename(0)];
    FundAccount(w);
    UploadOneByte(w);
    ListBeforeCommit(w);
    CommitLate(w);
    CloseLate(w);
    Pair(w, ListedEarly(), Check(0, None, ""), Commit(0, 1));
    Single(w, CommittedLate(w), Close(0));
    ExecSplit(w, ListedEarly(), [Check(0, None, ""), Commit(0, 1)], [Close(0)]);
    es := [Check(0, None, ""), Commit(0, 1)] + [Close(0)];
    Cons(w, AboutToCommit(), ListPaths(0, 1), es);
    es := [ListPaths(0, 1)] + es;
    ExecSplit(w, Funded(), upload, es);
    es := upload + es;
    ExecSplit(w, START, fund, es);
    es := fund + es;
  }
}
