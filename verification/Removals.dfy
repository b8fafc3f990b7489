/**
  What becomes of the files: of rows that are deleted or pruned, of uploads that
  fail, and of everything a crash left behind.
 */
module Removals {
  import opened Outcomes
  import opened Tables
  import opened Transactions
  import opened Blobs
  import opened BackupSystem
  import opened DurableBackups
  import C = Chains
  import R = Runs

  // ---- deletes and prunes ----

  /** The paths of the rows that went from `s` to `n`. */
  function Gone(s: State, n: State): set<string> {
    set b | b in s.db.rows && b !in n.db.rows :: b.path
  }

  /** Nothing but the rows and the list of files to remove changed, and that by the paths of the rows that went. */
  ghost predicate DoomsGone(s: State, n: State) {
    n == s.(db := n.db, doomed := s.doomed + Gone(s, n))
  }

  lemma DeleteDooms(w: World, s: State, a: AccountId, id: BackupId)
    requires R.Inv(w.config, s.db) && Enabled(w, s, Delete(a, id))
    ensures DoomsGone(s, Next(w, s, Delete(a, id)))
  {
    hide DeleteBackup, R.Inv;
    C.DeleteAccepted(w.config, s.db, a, id, s.now);
    var n := Next(w, s, Delete(a, id));
    var r := DeleteBackup(s.db, w.config.pricer, a, id, s.now).1;
    assert Gone(s, n) == if r.Ok? then {r.value.path} else {};
  }

  lemma PruneDooms(w: World, s: State, a: AccountId, before: int)
    requires R.Inv(w.config, s.db) && Enabled(w, s, Prune(a, before))
    ensures DoomsGone(s, Next(w, s, Prune(a, before)))
  {
    hide PruneBackups, R.Inv;
    C.PruneAccepted(w.config, s.db, a, before, s.now);
    var n := Next(w, s, Prune(a, before));
    var r := PruneBackups(s.db, w.config.pricer, a, before, s.now).1;
    assert Gone(s, n) == if r.Ok? then PathSet(r.value) else {};
  }

  lemma RemoveOne(w: World, s: State, p: string)
    requires p in s.doomed
    ensures Enabled(w, s, RemoveFile(p))
    ensures Next(w, s, RemoveFile(p)) == s.(files := s.files - {p}, doomed := s.doomed - {p})
  {
  }

  /** Files that are to be removed can be removed one after the other. */
  lemma {:induction false} RemoveAll(w: World, s: State, gone: set<string>) returns (es: seq<Event>)
    requires gone <= s.doomed
    ensures forall e :: e in es ==> e.RemoveFile? && e.path in gone
    ensures Valid(w, s, es) && Exec(w, s, es) == s.(files := s.files - gone, doomed := s.doomed - gone)
    decreases |gone|
  {
    hide Next, Enabled;
    if gone == {} {
      es := [];
      assert s.files - gone == s.files && s.doomed - gone == s.doomed;
    } else {
      var p :| p in gone;
      var n := s.(files := s.files - {p}, doomed := s.doomed - {p});
      RemoveOne(w, s, p);
      es := RemoveAll(w, n, gone - {p});
      assert n.files - (gone - {p}) == s.files - gone && n.doomed - (gone - {p}) == s.doomed - gone;
      Cons(w, s, RemoveFile(p), es);
      es := [RemoveFile(p)] + es;
    }
  }

  lemma Reached(w: World, es: seq<Event>)
    requires GraceSuffices(w.timing) && Valid(w, START, es)
    ensures SystemInv(w, Exec(w, START, es)) && R.Inv(w.config, Exec(w, START, es).db)
  {
    StartFits(w);
    ExecKeeps(w, START, es);
    ReachedByRun(w, es);
  }

  lemma RowFiles(w: World, s: State, n: State)
    requires SystemInv(w, s)
    ensures Gone(s, n) <= s.files.Keys && Gone(s, n) !! s.doomed
  {
    forall p | p in Gone(s, n)
      ensures p in s.files && p !in s.doomed
    {
      var b :| b in s.db.rows && b !in n.db.rows && b.path == p;
      assert FileIntact(w, s.files, b);
    }
  }

  lemma EventDooms(w: World, s: State, e: Event)
    requires R.Inv(w.config, s.db) && Enabled(w, s, e) && (e.Delete? || e.Prune?)
    ensures DoomsGone(s, Next(w, s, e))
  {
    match e
    case Delete(a, id) => DeleteDooms(w, s, a, id);
    case Prune(a, before) => PruneDooms(w, s, a, before);
  }

  /**
    In every reachable state a delete or a prune of an unlocked account makes exactly the files of the rows
    it takes due for removal.  They are all there, and when nothing comes between
    they are all that is missing from the directory in the end.
   */
  lemma RowsTakeFiles(w: World, before: seq<Event>, e: Event) returns (removals: seq<Event>)
    requires GraceSuffices(w.timing) && Valid(w, START, before) && (e.Delete? || e.Prune?)
    requires !Locked(Exec(w, START, before), e.a)
    ensures Enabled(w, Exec(w, START, before), e)
    ensures var s := Exec(w, START, before);
            var n := Next(w, s, e);
            && (forall p :: p in n.doomed && p !in s.doomed
                            <==> exists b :: b in s.db.rows && b !in n.db.rows && b.path == p)
            && n.files == s.files && Gone(s, n) <= s.files.Keys
            && Valid(w, s, [e] + removals) && (forall x :: x in removals ==> x.RemoveFile?)
            && Exec(w, s, [e] + removals) == s.(db := n.db, files := s.files - Gone(s, n))
  {
    var s := Exec(w, START, before);
    var n := Next(w, s, e);
    Reached(w, before);
    EventDooms(w, s, e);
    RowFiles(w, s, n);
    removals := RemoveAll(w, n, Gone(s, n));
    assert n.doomed - Gone(s, n) == s.doomed;
    hide Next, Enabled;
    Cons(w, s, e, removals);
  }

  /** The cascade leaves the rows of the other accounts, and makes what was listed due for removal. */
  lemma CloseDooms(w: World, s: State, pid: int, a: AccountId)
    requires R.Inv(w.config, s.db) && a in s.db.accounts && !Locked(s, a)
    requires pid in s.closing && s.closing[pid] == Closing(a, PathSet(Picked(s.db.rows, OfAccount(a))))
    ensures Enabled(w, s, Close(pid))
    ensures var n := Next(w, s, Close(pid));
            && n == s.(db := n.db, closing := s.closing - {pid}, doomed := s.doomed + Gone(s, n))
            && (forall b :: b in n.db.rows <==> b in s.db.rows && b.account != a) && a !in n.db.accounts
  {
    C.AccountDeleted(w.config, s.db, a, []);
    assert Gone(s, Next(w, s, Close(pid))) == s.closing[pid].paths;
    hide DeleteAccount;
  }

  lemma ListedNow(w: World, s: State, pid: int, a: AccountId)
    requires R.Inv(w.config, s.db) && a in s.db.accounts && !Locked(s, a) && pid !in s.closing
    ensures Valid(w, s, [ListPaths(pid, a), Close(pid)])
    ensures var n := Exec(w, s, [ListPaths(pid, a), Close(pid)]);
            && n == s.(db := n.db, doomed := s.doomed + Gone(s, n))
            && (forall b :: b in n.db.rows <==> b in s.db.rows && b.account != a) && a !in n.db.accounts
  {
    var listed := s.(closing := s.closing[pid := Closing(a, PathSet(Picked(s.db.rows, OfAccount(a))))]);
    assert Next(w, s, ListPaths(pid, a)) == listed;
    CloseDooms(w, listed, pid, a);
    assert listed.closing - {pid} == s.closing;
    Pair(w, s, ListPaths(pid, a), Close(pid));
  }

  /** An account delete that fails, or comes too late, changes nothing. */
  lemma ListedInVain(w: World, s: State, pid: int, a: AccountId)
    requires pid !in s.closing
    ensures Valid(w, s, [ListPaths(pid, a), AbortClose(pid)]) && Exec(w, s, [ListPaths(pid, a), AbortClose(pid)]) == s
    ensures a !in s.db.accounts && !Locked(s, a) ==>
              Valid(w, s, [ListPaths(pid, a), Close(pid)]) && Exec(w, s, [ListPaths(pid, a), Close(pid)]) == s
  {
    var listed := s.(closing := s.closing[pid := Closing(a, PathSet(Picked(s.db.rows, OfAccount(a))))]);
    assert Next(w, s, ListPaths(pid, a)) == listed && listed.closing - {pid} == s.closing;
    Pair(w, s, ListPaths(pid, a), AbortClose(pid));
    if a !in s.db.accounts && !Locked(s, a) {
      Pair(w, s, ListPaths(pid, a), Close(pid));
    }
  }

  /** An account delete that nothing comes between takes exactly the rows and the files of the account. */
  lemma AccountTakesFiles(w: World, before: seq<Event>, pid: int, a: AccountId) returns (removals: seq<Event>)
    requires GraceSuffices(w.timing) && Valid(w, START, before)
    requires var s := Exec(w, START, before); a in s.db.accounts && !Locked(s, a) && pid !in s.closing
    ensures var s := Exec(w, START, before);
            && Valid(w, s, [ListPaths(pid, a), Close(pid)] + removals) && (forall x :: x in removals ==> x.RemoveFile?)
            && var end := Exec(w, s, [ListPaths(pid, a), Close(pid)] + removals);
               && end == s.(db := end.db, files := s.files - Gone(s, end))
               && (forall b :: b in end.db.rows <==> b in s.db.rows && b.account != a) && a !in end.db.accounts
  {
    var s := Exec(w, START, before);
    Reached(w, before);
    ListedNow(w, s, pid, a);
    var n := Exec(w, s, [ListPaths(pid, a), Close(pid)]);
    RowFiles(w, s, n);
    removals := RemoveAll(w, n, Gone(s, n));
    assert n.doomed - Gone(s, n) == s.doomed;
    ExecSplit(w, s, [ListPaths(pid, a), Close(pid)], removals);
  }

  // ---- after a crash ----

  /** No file and no part file is dated in the future. */
  ghost predicate Dated(s: State) {
    && (forall p :: p in s.files ==> s.files[p].mtime <= s.now)
    && (forall p :: p in s.parts ==> s.parts[p] <= s.now)
  }

  lemma ReceivingKeepsDates(w: World, s: State, e: Event)
    requires Dated(s) && Enabled(w, s, e) && (e.Begin? || e.Chunk? || e.Rename? || e.Abort? || e.Discard?)
    ensures Dated(Next(w, s, e))
  {
    match e
    case Begin(_, _, _) =>
    case Chunk(_, _) =>
    case Rename(_) =>
    case Abort(_) =>
    case Discard(_) =>
  }

  /** Same files and part files, at the same time. */
  predicate SameDisk(s: State, n: State) {
    n.files == s.files && n.parts == s.parts && n.now == s.now
  }

  lemma CommitKeepsDisk(w: World, s: State, e: Event)
    requires Enabled(w, s, e) && (e.Commit? || e.Database?)
    ensures SameDisk(s, Next(w, s, e))
  {
    hide R.Apply, Committed;
  }

  lemma DeletesKeepDisk(w: World, s: State, e: Event)
    requires Enabled(w, s, e) && (e.Delete? || e.Prune? || e.Close?)
    ensures SameDisk(s, Next(w, s, e))
  {
    hide DeleteBackup, PruneBackups, DeleteAccount;
  }

  lemma HandlersKeepDisk(w: World, s: State, e: Event)
    requires Enabled(w, s, e) && (e.Check? || e.Rollback? || e.ListPaths? || e.AbortClose? || e.KeepFile?)
    ensures SameDisk(s, Next(w, s, e))
  {
    hide Refusal, Total;
  }

  lemma RemovesKeepDates(w: World, s: State, e: Event)
    requires Dated(s) && Enabled(w, s, e) && (e.RemoveFile? || e.SweepRemove?)
    ensures Dated(Next(w, s, e))
  {
  }

  lemma OthersKeepDates(w: World, s: State, e: Event)
    requires Dated(s) && Enabled(w, s, e)
    requires e.Tick? || e.SweepList? || e.SweepWalk? || e.SweepStat? || e.SweepEnd? || e.Crash?
    ensures Dated(Next(w, s, e))
  {
  }

  lemma NextKeepsDates(w: World, s: State, e: Event)
    requires Dated(s) && Enabled(w, s, e)
    ensures Dated(Next(w, s, e))
  {
    hide Next, Enabled;
    if e.Begin? || e.Chunk? || e.Rename? || e.Abort? || e.Discard? {
      ReceivingKeepsDates(w, s, e);
    } else if e.Commit? || e.Database? {
      CommitKeepsDisk(w, s, e);
    } else if Commits(e) {
      DeletesKeepDisk(w, s, e);
    } else if e.Check? || e.Rollback? || e.ListPaths? || e.AbortClose? || e.KeepFile? {
      HandlersKeepDisk(w, s, e);
    } else if e.RemoveFile? || e.SweepRemove? {
      RemovesKeepDates(w, s, e);
    } else {
      OthersKeepDates(w, s, e);
    }
  }

  lemma {:induction false} ExecKeepsDates(w: World, s: State, es: seq<Event>)
    requires Dated(s) && Valid(w, s, es)
    ensures Dated(Exec(w, s, es))
    decreases |es|
  {
    hide Next, Enabled, Dated;
    if es != [] {
      NextKeepsDates(w, s, es[0]);
      ExecKeepsDates(w, Next(w, s, es[0]), es[1..]);
    }
  }

  /** The server after a crash, when the grace period of everything on its disk has run out. */
  function Restarted(w: World, s: State): State {
    s.(now := s.now + w.timing.minAge, uploads := map[], closing := map[], doomed := {}, sweep := Idle)
  }

  lemma Restarts(w: World, s: State)
    ensures Valid(w, s, [Crash, Tick(w.timing.minAge)])
    ensures Exec(w, s, [Crash, Tick(w.timing.minAge)]) == Restarted(w, s)
  {
    Pair(w, s, Crash, Tick(w.timing.minAge));
  }

  /**
    Wherever it crashes, the server comes back to order by itself: the first sweep
    after the grace period leaves exactly the files of the rows, each as it was, no
    part file, no handler and no lock.
   */
  lemma CrashRecovers(w: World, before: seq<Event>) returns (sweep: seq<Event>)
    requires GraceSuffices(w.timing) && Valid(w, START, before)
    ensures var s := Exec(w, START, before);
            && Valid(w, s, [Crash, Tick(w.timing.minAge)] + sweep)
            && var end := Exec(w, s, [Crash, Tick(w.timing.minAge)] + sweep);
               && end.db == s.db && end.parts == map[] && end.uploads == map[] && end.doomed == {}
               && (forall p :: p in end.files <==> exists b :: b in s.db.rows && b.path == p)
               && (forall p :: p in end.files ==> p in s.files && end.files[p] == s.files[p])
  {
    hide Next, Enabled, Valid, Exec;
    var s := Exec(w, START, before);
    Reached(w, before);
    ExecKeepsDates(w, START, before);
    Restarts(w, s);
    sweep := UndisturbedRun(w, Restarted(w, s));
    OnlyRowsLeft(w, s);
    ExecSplit(w, s, [Crash, Tick(w.timing.minAge)], sweep);
  }

  lemma OnlyRowsLeft(w: World, s: State)
    requires SystemInv(w, s) && Dated(s)
    ensures var end := Cleaned(w, Restarted(w, s));
            && end.parts == map[]
            && (forall p :: p in end.files <==> exists b :: b in s.db.rows && b.path == p)
            && (forall p :: p in end.files ==> p in s.files && end.files[p] == s.files[p])
  {
    var n := Restarted(w, s);
    CleanedFiles(w, n);
    assert forall b :: b in s.db.rows ==> FileIntact(w, s.files, b);
    hide NamesApart, NamesUsed, ClosingFits, FilesFit, SweepFits;
  }
}
