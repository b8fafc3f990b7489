/**
  Rows and files together.  Upload, delete, prune and account-delete handlers,
  the orphan sweep and crashes interleave, one database statement that others can
  see or one file system call at a time, under a clock that never goes back but
  may stand still.

  An upload writes its file before its row; a delete removes the row before the
  file; the sweep lists the rows first and walks the files later.  Random file
  names are fresh, and a commit error means that nothing was committed.
 */
module BackupSystem {
  import opened Outcomes
  import opened Tables
  import opened Transactions
  import opened Blobs
  import R = Runs

  /**
    An upload commits its row at most `commitDelay` after the last write to its
    file; the sweep takes its cutoff at most `walkDelay` after listing the rows
    and spares files younger than `minAge`.
   */
  datatype Timing = Timing(commitDelay: nat, walkDelay: nat, minAge: nat)

  // `slots` uploads at a time, one per account, of at most `maxBackup` bytes
  datatype World = World(config: Config, timing: Timing, slots: nat, maxBackup: nat, checksum: Bytes -> string)

  /**
    An upload being received; received; and with a transaction open that holds the
    lock of its account, settled its storage at `at`, and passed all checks, the
    cap check with the sum `total`.
   */
  datatype Phase =
    | Writing(content: Bytes)
    | Stored(file: File)
    | Checked(file: File, parent: Option<BackupId>, meta: string, total: int, at: int)

  datatype Upload = Upload(account: AccountId, path: string, phase: Phase)

  // An account delete that has listed the paths but not yet deleted the account.
  datatype Closing = Closing(account: AccountId, paths: set<string>)

  datatype Entry = Final(path: string) | Part(path: string)

  datatype Sweep =
    | Idle
    | Listed(at: int, known: set<string>)
    | Walking(cutoff: int, known: set<string>)
    | Removing(cutoff: int, known: set<string>, victim: Entry)

  // `doomed` are the paths delete handlers still have to remove; `used` and
  // `written` only record which names were ever taken and what was stored.
  datatype State = State(now: int, db: Db, files: map<string, File>, parts: map<string, int>,
                         uploads: map<int, Upload>, closing: map<int, Closing>, doomed: set<string>,
                         sweep: Sweep, used: set<string>, written: map<string, Bytes>)

  const START := State(0, EMPTY, map[], map[], map[], map[], {}, Idle, {}, map[])

  datatype Event =
    | Tick(d: nat)
    | Database(op: R.Op)
    | Begin(pid: int, a: AccountId, path: string)
    | Chunk(pid: int, data: Bytes)
    | Rename(pid: int)
    | Abort(pid: int)
    | Discard(pid: int)
    | Check(pid: int, parent: Option<BackupId>, meta: string)
    | Commit(pid: int, id: BackupId)
    | Rollback(pid: int)
    | Delete(a: AccountId, id: BackupId)
    | Prune(a: AccountId, before: int)
    | ListPaths(pid: int, a: AccountId)
    | Close(pid: int)
    | AbortClose(pid: int)
    | RemoveFile(path: string)
    | KeepFile(path: string)
    | SweepList
    | SweepWalk
    | SweepStat(entry: Entry)
    | SweepRemove
    | SweepEnd
    | Crash

  function PathSet(rows: seq<Backup>): set<string> {
    set b | b in rows :: b.path
  }

  /** The transactions that neither add nor remove rows. */
  predicate KeepsRows(op: R.Op) {
    op.OpenAccount? || op.Settle? || op.Infer? || op.TopUp?
  }

  predicate IsWriting(s: State, pid: int) {
    pid in s.uploads && s.uploads[pid].phase.Writing?
  }

  predicate IsStored(s: State, pid: int) {
    pid in s.uploads && s.uploads[pid].phase.Stored?
  }

  predicate IsChecked(s: State, pid: int) {
    pid in s.uploads && s.uploads[pid].phase.Checked?
  }

  /** An open upload transaction holds the row lock of the account. */
  predicate Locked(s: State, a: AccountId) {
    exists i :: i in s.uploads && s.uploads[i].phase.Checked? && s.uploads[i].account == a
  }

  predicate Uploads(s: State, a: AccountId) {
    exists i :: i in s.uploads && s.uploads[i].account == a
  }

  /** Old enough for the sweep, and not listed; part files are never listed. */
  predicate Sweepable(s: State, e: Entry, cutoff: int, known: set<string>) {
    match e
    case Final(p) => p in s.files && Swept(s.files[p], p, known, cutoff, {})
    case Part(p) => p in s.parts && s.parts[p] <= cutoff
  }

  predicate Enabled(w: World, s: State, e: Event) {
    match e
    case Tick(_) => true
    case Database(op) => KeepsRows(op) && !Locked(s, op.a)
    case Begin(pid, a, path) => pid !in s.uploads && path !in s.used && |s.uploads| < w.slots && !Uploads(s, a)
    case Chunk(pid, data) => IsWriting(s, pid) && |s.uploads[pid].phase.content + data| <= w.maxBackup
    case Rename(pid) => IsWriting(s, pid)
    case Abort(pid) => IsWriting(s, pid)
    case Discard(pid) => IsStored(s, pid)
    case Check(pid, _, _) =>
      IsStored(s, pid) && s.uploads[pid].phase.file.content != [] && !Locked(s, s.uploads[pid].account)
    case Commit(pid, id) =>
      && IsChecked(s, pid) && id !in s.db.backupIds
      && s.now <= s.uploads[pid].phase.file.mtime + w.timing.commitDelay
    case Rollback(pid) => IsChecked(s, pid)
    case Delete(a, _) => !Locked(s, a)
    case Prune(a, _) => !Locked(s, a)
    case ListPaths(pid, _) => pid !in s.closing
    case Close(pid) => pid in s.closing && !Locked(s, s.closing[pid].account)
    case AbortClose(pid) => pid in s.closing
    case RemoveFile(path) => path in s.doomed
    case KeepFile(path) => path in s.doomed
    case SweepList => s.sweep.Idle?
    case SweepWalk => s.sweep.Listed? && s.now <= s.sweep.at + w.timing.walkDelay
    case SweepStat(entry) => s.sweep.Walking? && Sweepable(s, entry, s.sweep.cutoff, s.sweep.known)
    case SweepRemove => s.sweep.Removing?
    case SweepEnd => true
    case Crash => true
  }

  /** What an upload asks the store to record about its file. */
  function RowOf(w: World, u: Upload, parent: Option<BackupId>, meta: string): NewBackup
    requires !u.phase.Writing?
  {
    NewBackup(parent, u.path, |u.phase.file.content|, w.checksum(u.phase.file.content), meta)
  }

  /** The transaction of a checked upload, at its commit. */
  function Committed(w: World, db: Db, u: Upload, id: BackupId): (Db, Result<Backup, Error>)
    requires u.phase.Checked?
  {
    var p := u.phase;
    var nb := RowOf(w, u, p.parent, p.meta);
    CreateBackup(db, w.config.quota, w.config.pricer, u.account, p.at, nb, Outside(p.total, id))
  }

  /** The upload `pid` goes on in another phase. */
  function Moved(s: State, pid: int, phase: Phase): State
    requires pid in s.uploads
  {
    s.(uploads := s.uploads[pid := s.uploads[pid].(phase := phase)])
  }

  /** The events that may commit a transaction. */
  predicate Commits(e: Event) {
    e.Database? || e.Commit? || e.Delete? || e.Prune? || e.Close?
  }

  function Next(w: World, s: State, e: Event): (r: State)
    requires Enabled(w, s, e)
    ensures !e.Rename? ==> r.written == s.written
    ensures !Commits(e) ==> r.db == s.db
    ensures Commits(e) && !e.Commit? ==> r.uploads == s.uploads
  {
    match e
    case Tick(d) => s.(now := s.now + d)
    case Begin(pid, a, path) =>
      s.(parts := s.parts[path := s.now], used := s.used + {path},
         uploads := s.uploads[pid := Upload(a, path, Writing([]))])
    case Chunk(pid, data) =>
      // an unlinked part file still takes writes, but nobody can see it
      var u := s.uploads[pid];
      var parts := if u.path in s.parts then s.parts[u.path := s.now] else s.parts;
      Moved(s, pid, Writing(u.phase.content + data)).(parts := parts)
    case Rename(pid) =>
      var u := s.uploads[pid];
      if u.path !in s.parts then s.(uploads := s.uploads - {pid}) else
      var file := File(s.parts[u.path], u.phase.content);
      Moved(s, pid, Stored(file)).(
        parts := s.parts - {u.path}, files := Published(s.files, u.path, file.mtime, file.content),
        written := s.written[u.path := file.content])
    case Abort(pid) =>
      s.(parts := s.parts - {s.uploads[pid].path}, uploads := s.uploads - {pid})
    case Discard(pid) =>
      s.(files := s.files - {s.uploads[pid].path}, uploads := s.uploads - {pid})
    case Check(pid, parent, meta) =>
      var u, total := s.uploads[pid], Total(s.db.rows);
      if Refusal(s.db, w.config.quota, u.account, RowOf(w, u, parent, meta), total).Some? then s
      else Moved(s, pid, Checked(u.phase.file, parent, meta, total, s.now))
    case Commit(pid, id) =>
      var u := s.uploads[pid];
      var (db, r) := Committed(w, s.db, u, id);
      if r.Ok? then s.(db := db, uploads := s.uploads - {pid}) else Moved(s, pid, Stored(u.phase.file))
    case Rollback(pid) => Moved(s, pid, Stored(s.uploads[pid].phase.file))
    case Database(op) => s.(db := R.Apply(w.config, s.db, op))
    case Delete(a, id) =>
      var (db, r) := DeleteBackup(s.db, w.config.pricer, a, id, s.now);
      if r.Ok? then s.(db := db, doomed := s.doomed + {r.value.path}) else s
    case Prune(a, before) =>
      var (db, r) := PruneBackups(s.db, w.config.pricer, a, before, s.now);
      if r.Ok? then s.(db := db, doomed := s.doomed + PathSet(r.value)) else s
    case ListPaths(pid, a) =>
      s.(closing := s.closing[pid := Closing(a, PathSet(Picked(s.db.rows, OfAccount(a))))])
    case Close(pid) =>
      // the paths removed afterwards are those listed before the cascade
      var (db, r) := DeleteAccount(s.db, s.closing[pid].account, []);
      var rest := s.(closing := s.closing - {pid});
      if r.Ok? then rest.(db := db, doomed := s.doomed + s.closing[pid].paths) else rest
    case AbortClose(pid) => s.(closing := s.closing - {pid})
    case RemoveFile(path) => s.(files := s.files - {path}, doomed := s.doomed - {path})
    case KeepFile(path) => s.(doomed := s.doomed - {path})
    case SweepList => s.(sweep := Listed(s.now, PathSet(s.db.rows)))
    case SweepWalk => s.(sweep := Walking(s.now - w.timing.minAge, s.sweep.known))
    case SweepStat(entry) => s.(sweep := Removing(s.sweep.cutoff, s.sweep.known, entry))
    case SweepRemove =>
      var back := s.(sweep := Walking(s.sweep.cutoff, s.sweep.known));
      (match s.sweep.victim
       case Final(p) => back.(files := s.files - {p})
       case Part(p) => back.(parts := s.parts - {p}))
    case SweepEnd => s.(sweep := Idle)
    case Crash => s.(uploads := map[], closing := map[], doomed := {}, sweep := Idle)
  }

  predicate Valid(w: World, s: State, es: seq<Event>)
    decreases |es|
  {
    es == [] || (Enabled(w, s, es[0]) && Valid(w, Next(w, s, es[0]), es[1..]))
  }

  function Exec(w: World, s: State, es: seq<Event>): State
    requires Valid(w, s, es)
    decreases |es|
  {
    if es == [] then s else Exec(w, Next(w, s, es[0]), es[1..])
  }

  lemma Cons(w: World, s: State, e: Event, es: seq<Event>)
    requires Enabled(w, s, e) && Valid(w, Next(w, s, e), es)
    ensures Valid(w, s, [e] + es) && Exec(w, s, [e] + es) == Exec(w, Next(w, s, e), es)
  {
    assert ([e] + es)[0] == e && ([e] + es)[1..] == es;
  }

  lemma Single(w: World, s: State, e: Event)
    requires Enabled(w, s, e)
    ensures Valid(w, s, [e]) && Exec(w, s, [e]) == Next(w, s, e)
  {
    assert [e][1..] == [];
  }

  lemma Pair(w: World, s: State, e: Event, f: Event)
    requires Enabled(w, s, e) && Enabled(w, Next(w, s, e), f)
    ensures Valid(w, s, [e, f]) && Exec(w, s, [e, f]) == Next(w, Next(w, s, e), f)
  {
    Single(w, Next(w, s, e), f);
    Cons(w, s, e, [f]);
    assert [e] + [f] == [e, f];
  }

  lemma {:induction false} ExecSplit(w: World, s: State, first: seq<Event>, second: seq<Event>)
    requires Valid(w, s, first) && Valid(w, Exec(w, s, first), second)
    ensures Valid(w, s, first + second) && Exec(w, s, first + second) == Exec(w, Exec(w, s, first), second)
    decreases |first|
  {
    hide Next, Enabled;
    if first == [] {
      assert first + second == second;
    } else {
      var e, rest := first[0], first[1..];
      ExecSplit(w, Next(w, s, e), rest, second);
      Cons(w, s, e, rest + second);
      assert [e] + (rest + second) == first + second;
    }
  }

  /** An upload keeps its account and its path; names stay taken. */
  ghost predicate UploadsContinue(s: State, n: State, e: Event) {
    && s.used <= n.used
    && forall i :: i in n.uploads && !(e.Begin? && e.pid == i) ==>
         i in s.uploads && n.uploads[i].account == s.uploads[i].account && n.uploads[i].path == s.uploads[i].path
  }

  lemma CommitContinues(w: World, s: State, pid: int, id: BackupId)
    requires Enabled(w, s, Commit(pid, id))
    ensures UploadsContinue(s, Next(w, s, Commit(pid, id)), Commit(pid, id))
  {
    hide CreateBackup;
  }

  lemma ReceiverContinues(w: World, s: State, e: Event)
    requires Enabled(w, s, e) && (e.Begin? || e.Chunk? || e.Rename?)
    ensures UploadsContinue(s, Next(w, s, e), e)
  {
    match e
    case Begin(_, _, _) =>
    case Chunk(_, _) =>
    case Rename(_) =>
  }

  lemma UploadContinues(w: World, s: State, e: Event)
    requires Enabled(w, s, e) && (e.Abort? || e.Discard? || e.Check? || e.Rollback?)
    ensures UploadsContinue(s, Next(w, s, e), e)
  {
    hide Refusal;
    match e
    case Abort(_) =>
    case Discard(_) =>
    case Check(_, _, _) =>
    case Rollback(_) =>
  }

  lemma NextContinues(w: World, s: State, e: Event)
    requires Enabled(w, s, e)
    ensures UploadsContinue(s, Next(w, s, e), e)
  {
    hide DeleteBackup, PruneBackups, DeleteAccount, R.Apply, Committed, Refusal;
    if e.Commit? {
      CommitContinues(w, s, e.pid, e.id);
    } else if e.Begin? || e.Chunk? || e.Rename? {
      ReceiverContinues(w, s, e);
    } else if OfUpload(e) {
      UploadContinues(w, s, e);
    }
  }

  // ---- safety ----

  /** The file of a row is there, with the size and checksum the row records. */
  predicate FileIntact(w: World, files: map<string, File>, b: Backup) {
    b.path in files && |files[b.path].content| == b.size && w.checksum(files[b.path].content) == b.checksum
  }

  ghost predicate Safe(w: World, rows: seq<Backup>, files: map<string, File>) {
    forall b :: b in rows ==> FileIntact(w, files, b)
  }

  /** Rows, and uploads, have paths of their own, none of which is about to be removed. */
  ghost predicate NamesApart(rows: seq<Backup>, uploads: map<int, Upload>, doomed: set<string>) {
    && (forall b, d :: b in rows && d in rows && b.path == d.path ==> b == d)
    && (forall i, j :: i in uploads && j in uploads && uploads[i].path == uploads[j].path ==> i == j)
    && (forall b, i :: b in rows && i in uploads ==> b.path != uploads[i].path)
    && (forall b :: b in rows ==> b.path !in doomed)
    && (forall i :: i in uploads ==> uploads[i].path !in doomed)
  }

  /** Every path there is has been taken. */
  ghost predicate NamesUsed(rows: seq<Backup>, uploads: map<int, Upload>, closing: map<int, Closing>,
                            doomed: set<string>, written: map<string, Bytes>, used: set<string>)
  {
    && (forall b :: b in rows ==> b.path in used)
    && (forall i :: i in uploads ==> uploads[i].path in used)
    && (forall i, p :: i in closing && p in closing[i].paths ==> p in used)
    && doomed <= used && written.Keys <= used
  }

  ghost predicate ClosingFits(rows: seq<Backup>, uploads: map<int, Upload>, closing: map<int, Closing>) {
    && (forall i, u :: i in closing && u in uploads ==> uploads[u].path !in closing[i].paths)
    && (forall i, b :: i in closing && b in rows && b.path in closing[i].paths ==> b.account == closing[i].account)
  }

  /** An upload keeps its file at least until it can no longer commit; nothing else is ever written there. */
  ghost predicate UploadFits(
      w: World, now: int, files: map<string, File>, written: map<string, Bytes>, u: Upload)
  {
    match u.phase
    case Writing(_) => u.path !in written
    case _ =>
      && (u.path in files ==> files[u.path] == u.phase.file)
      && (now <= u.phase.file.mtime + w.timing.commitDelay ==> u.path in files)
  }

  /** Files keep what was written. */
  ghost predicate FilesFit(
      w: World, now: int, files: map<string, File>, written: map<string, Bytes>, uploads: map<int, Upload>)
  {
    && (forall p :: p in files ==> p in written && files[p].content == written[p])
    && (forall i :: i in uploads ==> UploadFits(w, now, files, written, uploads[i]))
  }

  /** Everything the sweep could still remove is something no row has or will get. */
  ghost predicate SweepFits(w: World, now: int, sweep: Sweep, rows: seq<Backup>, files: map<string, File>,
                            written: map<string, Bytes>, uploads: map<int, Upload>)
  {
    match sweep
    case Idle => true
    case Listed(at, known) =>
      at <= now
      && forall b :: b in rows && b.path !in known ==>
           b.path in files && at <= files[b.path].mtime + w.timing.commitDelay
    case Walking(cutoff, known) => WalkFits(w, now, cutoff, known, rows, files)
    case Removing(cutoff, known, victim) =>
      && WalkFits(w, now, cutoff, known, rows, files)
      && (victim.Final? ==> Unreachable(w, now, rows, written, uploads, victim.path))
  }

  ghost predicate WalkFits(
      w: World, now: int, cutoff: int, known: set<string>, rows: seq<Backup>, files: map<string, File>)
  {
    && cutoff + w.timing.commitDelay < now
    && forall b :: b in rows && b.path !in known ==> b.path in files && cutoff < files[b.path].mtime
  }

  ghost predicate Unreachable(
      w: World, now: int, rows: seq<Backup>, written: map<string, Bytes>, uploads: map<int, Upload>, p: string)
  {
    && p in written
    && (forall b :: b in rows ==> b.path != p)
    && (forall i :: i in uploads && uploads[i].path == p ==> TooLate(w, now, uploads[i]))
  }

  /** The upload can no longer commit. */
  predicate TooLate(w: World, now: int, u: Upload) {
    !u.phase.Writing? && u.phase.file.mtime + w.timing.commitDelay < now
  }

  ghost predicate SystemInv(w: World, s: State) {
    && Safe(w, s.db.rows, s.files)
    && NamesApart(s.db.rows, s.uploads, s.doomed)
    && NamesUsed(s.db.rows, s.uploads, s.closing, s.doomed, s.written, s.used)
    && ClosingFits(s.db.rows, s.uploads, s.closing)
    && FilesFit(w, s.now, s.files, s.written, s.uploads)
    && SweepFits(w, s.now, s.sweep, s.db.rows, s.files, s.written, s.uploads)
  }

  // ---- each event keeps it ----

  lemma AppliedRows(c: Config, db: Db, op: R.Op)
    requires KeepsRows(op)
    ensures R.Apply(c, db, op).rows == db.rows
  {
  }

  /** Transactions that leave the rows alone are invisible to the files. */
  lemma SameRows(w: World, s: State, db: Db)
    requires SystemInv(w, s) && db.rows == s.db.rows
    ensures SystemInv(w, s.(db := db))
  {
  }

  /** Rows may disappear at any time, and their paths, or listed ones, become doomed. */
  lemma FewerRows(w: World, s: State, db: Db, gone: set<string>)
    requires SystemInv(w, s)
    requires forall b :: b in db.rows ==> b in s.db.rows && b.path !in gone
    requires gone <= s.used && forall i :: i in s.uploads ==> s.uploads[i].path !in gone
    ensures SystemInv(w, s.(db := db, doomed := s.doomed + gone))
  {
  }

  lemma DeleteKeeps(w: World, s: State, a: AccountId, id: BackupId)
    requires SystemInv(w, s) && Enabled(w, s, Delete(a, id))
    ensures SystemInv(w, Next(w, s, Delete(a, id)))
  {
    var (db, r) := DeleteBackup(s.db, w.config.pricer, a, id, s.now);
    if r.Ok? {
      assert r.value in s.db.rows && r.value !in db.rows;
      FewerRows(w, s, db, {r.value.path});
    }
  }

  lemma PruneKeeps(w: World, s: State, a: AccountId, before: int)
    requires SystemInv(w, s) && Enabled(w, s, Prune(a, before))
    ensures SystemInv(w, Next(w, s, Prune(a, before)))
  {
    var (db, r) := PruneBackups(s.db, w.config.pricer, a, before, s.now);
    if r.Ok? {
      FewerRows(w, s, db, PathSet(r.value));
    }
  }

  lemma ForgetClosing(w: World, s: State, pid: int)
    requires SystemInv(w, s)
    ensures SystemInv(w, s.(closing := s.closing - {pid}))
  {
  }

  lemma ClosedRows(db: Db, a: AccountId)
    ensures var (after, r) := DeleteAccount(db, a, []);
            r.Ok? ==> forall b :: b in after.rows ==> b in db.rows && b.account != a
  {
  }

  lemma CascadeKeeps(w: World, s: State, pid: int, db: Db)
    requires SystemInv(w, s) && pid in s.closing
    requires forall b :: b in db.rows ==> b in s.db.rows && b.account != s.closing[pid].account
    ensures SystemInv(w, s.(closing := s.closing - {pid}, db := db, doomed := s.doomed + s.closing[pid].paths))
  {
    ForgetClosing(w, s, pid);
    FewerRows(w, s.(closing := s.closing - {pid}), db, s.closing[pid].paths);
  }

  lemma CloseKeeps(w: World, s: State, pid: int)
    requires SystemInv(w, s) && Enabled(w, s, Close(pid))
    ensures SystemInv(w, Next(w, s, Close(pid)))
  {
    var (db, r) := DeleteAccount(s.db, s.closing[pid].account, []);
    if r.Ok? {
      ClosedRows(s.db, s.closing[pid].account);
      CascadeKeeps(w, s, pid, db);
    } else {
      ForgetClosing(w, s, pid);
    }
  }

  /** An upload that is received may open and leave its transaction. */
  lemma MovedKeeps(w: World, s: State, pid: int, phase: Phase)
    requires SystemInv(w, s) && pid in s.uploads && !s.uploads[pid].phase.Writing?
    requires !phase.Writing? && phase.file == s.uploads[pid].phase.file
    ensures SystemInv(w, Moved(s, pid, phase))
  {
  }

  lemma ForgetUpload(w: World, s: State, pid: int)
    requires SystemInv(w, s)
    ensures SystemInv(w, s.(uploads := s.uploads - {pid}))
  {
  }

  /** A new row of no one else's path, whose file is there, complete, and out of reach of the sweep. */
  lemma RowAppears(w: World, s: State, db: Db, b: Backup)
    requires SystemInv(w, s) && db.rows == s.db.rows + [b] && FileIntact(w, s.files, b)
    requires b.path in s.used && b.path !in s.doomed
    requires forall d :: d in s.db.rows ==> d.path != b.path
    requires forall i :: i in s.uploads ==> s.uploads[i].path != b.path
    requires forall i :: i in s.closing ==> b.path !in s.closing[i].paths
    requires s.now <= s.files[b.path].mtime + w.timing.commitDelay
    requires s.sweep.Removing? && s.sweep.victim.Final? ==> s.sweep.victim.path != b.path
    ensures SystemInv(w, s.(db := db))
  {
    assert forall d :: d in db.rows <==> d in s.db.rows || d == b;
  }

  /** A committed upload: its file is there, complete, and the sweep can no longer reach it. */
  lemma OneMoreRow(w: World, s: State, pid: int, db: Db, b: Backup)
    requires SystemInv(w, s) && IsChecked(s, pid)
    requires s.now <= s.uploads[pid].phase.file.mtime + w.timing.commitDelay
    requires db.rows == s.db.rows + [b] && b.path == s.uploads[pid].path
    requires var content := s.uploads[pid].phase.file.content; b.size == |content| && b.checksum == w.checksum(content)
    ensures SystemInv(w, s.(db := db, uploads := s.uploads - {pid}))
  {
    assert UploadFits(w, s.now, s.files, s.written, s.uploads[pid]);
    assert FileIntact(w, s.files, b);
    ForgetUpload(w, s, pid);
    RowAppears(w, s.(uploads := s.uploads - {pid}), db, b);
  }

  lemma CheckKeeps(w: World, s: State, pid: int, parent: Option<BackupId>, meta: string)
    requires SystemInv(w, s) && Enabled(w, s, Check(pid, parent, meta))
    ensures SystemInv(w, Next(w, s, Check(pid, parent, meta)))
  {
    hide Safe, NamesApart, NamesUsed, ClosingFits, FilesFit, SweepFits;
    MovedKeeps(w, s, pid, Checked(s.uploads[pid].phase.file, parent, meta, Total(s.db.rows), s.now));
  }

  lemma CommitKeeps(w: World, s: State, pid: int, id: BackupId)
    requires SystemInv(w, s) && Enabled(w, s, Commit(pid, id))
    ensures SystemInv(w, Next(w, s, Commit(pid, id)))
  {
    hide Safe, NamesApart, NamesUsed, ClosingFits, FilesFit, SweepFits;
    var (db, r) := Committed(w, s.db, s.uploads[pid], id);
    if r.Ok? {
      OneMoreRow(w, s, pid, db, r.value);
    } else {
      MovedKeeps(w, s, pid, Stored(s.uploads[pid].phase.file));
    }
  }

  /** Part files are nobody's business but their upload's. */
  lemma OtherParts(w: World, s: State, parts: map<string, int>)
    requires SystemInv(w, s)
    ensures SystemInv(w, s.(parts := parts))
  {
  }

  lemma UploadAppears(w: World, s: State, pid: int, a: AccountId, path: string)
    requires SystemInv(w, s) && pid !in s.uploads && path !in s.used
    ensures SystemInv(w, s.(used := s.used + {path}, uploads := s.uploads[pid := Upload(a, path, Writing([]))]))
  {
  }

  lemma BeginKeeps(w: World, s: State, pid: int, a: AccountId, path: string)
    requires SystemInv(w, s) && Enabled(w, s, Begin(pid, a, path))
    ensures SystemInv(w, Next(w, s, Begin(pid, a, path)))
  {
    hide Safe, NamesApart, NamesUsed, ClosingFits, FilesFit, SweepFits;
    UploadAppears(w, s, pid, a, path);
    OtherParts(w, s.(used := s.used + {path}, uploads := s.uploads[pid := Upload(a, path, Writing([]))]),
               s.parts[path := s.now]);
  }

  lemma WritingMoves(w: World, s: State, pid: int, content: Bytes)
    requires SystemInv(w, s) && IsWriting(s, pid)
    ensures SystemInv(w, Moved(s, pid, Writing(content)))
  {
  }

  lemma ChunkKeeps(w: World, s: State, pid: int, data: Bytes)
    requires SystemInv(w, s) && Enabled(w, s, Chunk(pid, data))
    ensures SystemInv(w, Next(w, s, Chunk(pid, data)))
  {
    hide Safe, NamesApart, NamesUsed, ClosingFits, FilesFit, SweepFits;
    var content := s.uploads[pid].phase.content + data;
    WritingMoves(w, s, pid, content);
    OtherParts(w, Moved(s, pid, Writing(content)), Next(w, s, Chunk(pid, data)).parts);
  }

  /** The state after a complete part file took its final name. */
  function Appeared(s: State, pid: int, file: File): State
    requires IsWriting(s, pid)
  {
    var path := s.uploads[pid].path;
    Moved(s, pid, Stored(file)).(files := s.files[path := file], written := s.written[path := file.content])
  }

  lemma AppearedNames(w: World, s: State, pid: int, file: File)
    requires SystemInv(w, s) && IsWriting(s, pid)
    ensures var n := Appeared(s, pid, file);
            && Safe(w, n.db.rows, n.files) && NamesApart(n.db.rows, n.uploads, n.doomed)
            && NamesUsed(n.db.rows, n.uploads, n.closing, n.doomed, n.written, n.used)
            && ClosingFits(n.db.rows, n.uploads, n.closing)
  {
  }

  lemma AppearedFiles(w: World, s: State, pid: int, file: File)
    requires SystemInv(w, s) && IsWriting(s, pid)
    ensures var n := Appeared(s, pid, file); FilesFit(w, n.now, n.files, n.written, n.uploads)
  {
  }

  lemma AppearedSweep(w: World, s: State, pid: int, file: File)
    requires SystemInv(w, s) && IsWriting(s, pid)
    ensures var n := Appeared(s, pid, file); SweepFits(w, n.now, n.sweep, n.db.rows, n.files, n.written, n.uploads)
  {
  }

  lemma RenameKeeps(w: World, s: State, pid: int)
    requires SystemInv(w, s) && IsWriting(s, pid)
    ensures SystemInv(w, Next(w, s, Rename(pid)))
  {
    hide Safe, NamesApart, NamesUsed, ClosingFits, FilesFit, SweepFits;
    var u := s.uploads[pid];
    if u.path in s.parts {
      var file := File(s.parts[u.path], u.phase.content);
      AppearedNames(w, s, pid, file);
      AppearedFiles(w, s, pid, file);
      AppearedSweep(w, s, pid, file);
      OtherParts(w, Appeared(s, pid, file), s.parts - {u.path});
    } else {
      ForgetUpload(w, s, pid);
    }
  }

  /** A file no row has, and no upload that can still commit, may go. */
  lemma LessFiles(w: World, s: State, p: string)
    requires SystemInv(w, s)
    requires forall b :: b in s.db.rows ==> b.path != p
    requires forall i :: i in s.uploads && s.uploads[i].path == p ==>
               s.uploads[i].phase.Writing? || TooLate(w, s.now, s.uploads[i])
    ensures SystemInv(w, s.(files := s.files - {p}))
  {
  }

  lemma DiscardKeeps(w: World, s: State, pid: int)
    requires SystemInv(w, s) && IsStored(s, pid)
    ensures SystemInv(w, Next(w, s, Discard(pid)))
  {
    ForgetUpload(w, s, pid);
    LessFiles(w, s.(uploads := s.uploads - {pid}), s.uploads[pid].path);
  }

  lemma AbortKeeps(w: World, s: State, pid: int)
    requires SystemInv(w, s) && IsWriting(s, pid)
    ensures SystemInv(w, Next(w, s, Abort(pid)))
  {
    hide Safe, NamesApart, NamesUsed, ClosingFits, FilesFit, SweepFits;
    ForgetUpload(w, s, pid);
    OtherParts(w, s.(uploads := s.uploads - {pid}), s.parts - {s.uploads[pid].path});
  }

  lemma KeepFileKeeps(w: World, s: State, path: string)
    requires SystemInv(w, s)
    ensures SystemInv(w, s.(doomed := s.doomed - {path}))
  {
  }

  lemma RemoveFileKeeps(w: World, s: State, path: string)
    requires SystemInv(w, s) && path in s.doomed
    ensures SystemInv(w, Next(w, s, RemoveFile(path)))
  {
    LessFiles(w, s, path);
    KeepFileKeeps(w, s.(files := s.files - {path}), path);
  }

  /** The walk starts late enough after the listing that every unlisted row's file is younger than the cutoff. */
  lemma WalkKeeps(w: World, s: State)
    requires w.timing.commitDelay + w.timing.walkDelay < w.timing.minAge
    requires SystemInv(w, s) && Enabled(w, s, SweepWalk)
    ensures SystemInv(w, Next(w, s, SweepWalk))
  {
  }

  lemma StatKeeps(w: World, s: State, entry: Entry)
    requires SystemInv(w, s) && Enabled(w, s, SweepStat(entry))
    ensures SystemInv(w, Next(w, s, SweepStat(entry)))
  {
    if entry.Final? {
      var p, cutoff := entry.path, s.sweep.cutoff;
      assert s.files[p].mtime <= cutoff && cutoff + w.timing.commitDelay < s.now;
      forall i | i in s.uploads && s.uploads[i].path == p
        ensures TooLate(w, s.now, s.uploads[i])
      {
        assert UploadFits(w, s.now, s.files, s.written, s.uploads[i]);
      }
    }
  }

  lemma SweepRemoveKeeps(w: World, s: State)
    requires SystemInv(w, s) && Enabled(w, s, SweepRemove)
    ensures SystemInv(w, Next(w, s, SweepRemove))
  {
    var back := s.(sweep := Walking(s.sweep.cutoff, s.sweep.known));
    assert SystemInv(w, back);
    match s.sweep.victim
    case Final(p) => LessFiles(w, back, p);
    case Part(p) => OtherParts(w, back, s.parts - {p});
  }

  lemma EndKeeps(w: World, s: State)
    requires SystemInv(w, s)
    ensures SystemInv(w, s.(sweep := Idle))
  {
  }

  lemma CrashKeeps(w: World, s: State)
    requires SystemInv(w, s)
    ensures SystemInv(w, Next(w, s, Crash))
  {
  }

  lemma RememberClosing(w: World, s: State, pid: int, a: AccountId, paths: set<string>)
    requires SystemInv(w, s) && paths <= s.used
    requires forall u :: u in s.uploads ==> s.uploads[u].path !in paths
    requires forall b :: b in s.db.rows && b.path in paths ==> b.account == a
    ensures SystemInv(w, s.(closing := s.closing[pid := Closing(a, paths)]))
  {
  }

  lemma ListPathsKeeps(w: World, s: State, pid: int, a: AccountId)
    requires SystemInv(w, s) && pid !in s.closing
    ensures SystemInv(w, Next(w, s, ListPaths(pid, a)))
  {
    RememberClosing(w, s, pid, a, PathSet(Picked(s.db.rows, OfAccount(a))));
  }

  lemma SweepListKeeps(w: World, s: State)
    requires SystemInv(w, s)
    ensures SystemInv(w, s.(sweep := Listed(s.now, PathSet(s.db.rows))))
  {
  }

  lemma TickKeeps(w: World, s: State, d: nat)
    requires SystemInv(w, s)
    ensures SystemInv(w, s.(now := s.now + d))
  {
    forall i | i in s.uploads
      ensures UploadFits(w, s.now + d, s.files, s.written, s.uploads[i])
    {
      assert UploadFits(w, s.now, s.files, s.written, s.uploads[i]);
    }
  }

  predicate OfStore(e: Event) {
    e.Database? || e.Delete? || e.Prune? || e.ListPaths? || e.Close? || e.AbortClose?
  }

  predicate OfUpload(e: Event) {
    || e.Begin? || e.Chunk? || e.Rename? || e.Abort? || e.Discard?
    || e.Check? || e.Commit? || e.Rollback?
  }

  lemma StoreKeeps(w: World, s: State, e: Event)
    requires SystemInv(w, s) && Enabled(w, s, e) && OfStore(e)
    ensures SystemInv(w, Next(w, s, e))
  {
    hide Safe, NamesApart, NamesUsed, ClosingFits, FilesFit, SweepFits;
    match e
    case Database(op) =>
      AppliedRows(w.config, s.db, op);
      SameRows(w, s, R.Apply(w.config, s.db, op));
    case Delete(a, id) => DeleteKeeps(w, s, a, id);
    case Prune(a, before) => PruneKeeps(w, s, a, before);
    case ListPaths(pid, a) => ListPathsKeeps(w, s, pid, a);
    case Close(pid) => CloseKeeps(w, s, pid);
    case AbortClose(pid) => ForgetClosing(w, s, pid);
  }

  lemma UploadKeeps(w: World, s: State, e: Event)
    requires SystemInv(w, s) && Enabled(w, s, e) && OfUpload(e)
    ensures SystemInv(w, Next(w, s, e))
  {
    hide Safe, NamesApart, NamesUsed, ClosingFits, FilesFit, SweepFits;
    match e
    case Begin(pid, a, path) => BeginKeeps(w, s, pid, a, path);
    case Chunk(pid, data) => ChunkKeeps(w, s, pid, data);
    case Rename(pid) => RenameKeeps(w, s, pid);
    case Abort(pid) => AbortKeeps(w, s, pid);
    case Discard(pid) => DiscardKeeps(w, s, pid);
    case Check(pid, parent, meta) => CheckKeeps(w, s, pid, parent, meta);
    case Commit(pid, id) => CommitKeeps(w, s, pid, id);
    case Rollback(pid) => MovedKeeps(w, s, pid, Stored(s.uploads[pid].phase.file));
  }

  lemma SweepKeeps(w: World, s: State, e: Event)
    requires w.timing.commitDelay + w.timing.walkDelay < w.timing.minAge
    requires SystemInv(w, s) && Enabled(w, s, e) && !OfStore(e) && !OfUpload(e)
    ensures SystemInv(w, Next(w, s, e))
  {
    hide Safe, NamesApart, NamesUsed, ClosingFits, FilesFit, SweepFits;
    match e
    case Tick(d) => TickKeeps(w, s, d);
    case RemoveFile(path) => RemoveFileKeeps(w, s, path);
    case KeepFile(path) => KeepFileKeeps(w, s, path);
    case SweepList => SweepListKeeps(w, s);
    case SweepWalk => WalkKeeps(w, s);
    case SweepStat(entry) => StatKeeps(w, s, entry);
    case SweepRemove => SweepRemoveKeeps(w, s);
    case SweepEnd => EndKeeps(w, s);
    case Crash => CrashKeeps(w, s);
  }

  /** Every event of every handler, of the sweep, and every crash keeps the invariant. */
  lemma NextKeeps(w: World, s: State, e: Event)
    requires w.timing.commitDelay + w.timing.walkDelay < w.timing.minAge
    requires SystemInv(w, s) && Enabled(w, s, e)
    ensures SystemInv(w, Next(w, s, e))
  {
    hide Next, Enabled, SystemInv;
    if OfStore(e) {
      StoreKeeps(w, s, e);
    } else if OfUpload(e) {
      UploadKeeps(w, s, e);
    } else {
      SweepKeeps(w, s, e);
    }
  }

  lemma {:induction false} ExecKeeps(w: World, s: State, es: seq<Event>)
    requires w.timing.commitDelay + w.timing.walkDelay < w.timing.minAge
    requires SystemInv(w, s) && Valid(w, s, es)
    ensures SystemInv(w, Exec(w, s, es))
    decreases |es|
  {
    hide Next, Enabled, SystemInv;
    if es != [] {
      NextKeeps(w, s, es[0]);
      ExecKeeps(w, Next(w, s, es[0]), es[1..]);
    }
  }
}
