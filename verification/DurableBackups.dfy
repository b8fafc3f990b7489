/**
  What the interleaved system promises: the sweep is safe exactly when its
  grace period is long enough, the database history of every execution is a run
  of the store, and a backup restores from disk to the same content for as long
  as its row exists.
 */
module DurableBackups {
  import opened Arithmetic
  import opened Outcomes
  import opened Tables
  import opened Transactions
  import opened Blobs
  import opened BackupSystem
  import R = Runs
  import C = Chains

  // ---- when the sweep is safe ----

  predicate GraceSuffices(t: Timing) {
    t.commitDelay + t.walkDelay < t.minAge
  }

  /** Some upload is accepted at all: there is a slot, a version, and room for a byte. */
  predicate Admits(w: World) {
    1 <= w.slots && 1 <= w.config.quota.maxVersions && 1 <= w.maxBackup
  }

  lemma StartFits(w: World)
    ensures SystemInv(w, START)
  {
  }

  lemma SafeAlways(w: World, es: seq<Event>)
    requires GraceSuffices(w.timing) && Valid(w, START, es)
    ensures Safe(w, Exec(w, START, es).db.rows, Exec(w, START, es).files)
  {
    StartFits(w);
    ExecKeeps(w, START, es);
  }

  /** An upload of `content`, completely received. */
  function Received(s: State, pid: int, a: AccountId, path: string, content: Bytes): State {
    s.(parts := s.parts[path := s.now], used := s.used + {path},
       uploads := s.uploads[pid := Upload(a, path, Writing(content))])
  }

  lemma Receive(w: World, s: State, pid: int, a: AccountId, path: string, content: Bytes)
    requires Enabled(w, s, Begin(pid, a, path)) && |content| <= w.maxBackup
    ensures Valid(w, s, [Begin(pid, a, path), Chunk(pid, content)])
    ensures Exec(w, s, [Begin(pid, a, path), Chunk(pid, content)]) == Received(s, pid, a, path, content)
  {
    assert [] + content == content;
    var begun := Received(s, pid, a, path, []);
    assert Next(w, s, Begin(pid, a, path)) == begun;
    UpdatedTwice(s.uploads, pid, begun.uploads[pid], Upload(a, path, Writing(content)));
    UpdatedTwice(s.parts, path, s.now, s.now);
    Pair(w, s, Begin(pid, a, path), Chunk(pid, content));
  }

  /** The upload once its file has its final name. */
  function Finished(s: State, pid: int, a: AccountId, path: string, content: Bytes): State {
    s.(files := Published(s.files, path, s.now, content), written := s.written[path := content],
       used := s.used + {path}, uploads := s.uploads[pid := Upload(a, path, Stored(File(s.now, content)))])
  }

  lemma Finish(w: World, s: State, pid: int, a: AccountId, path: string, content: Bytes)
    requires path !in s.parts
    ensures var received := Received(s, pid, a, path, content);
            Next(w, received, Rename(pid)) == Finished(s, pid, a, path, content)
  {
    var received, u := Received(s, pid, a, path, content), Upload(a, path, Stored(File(s.now, content)));
    UpdatedTwice(s.uploads, pid, received.uploads[pid], u);
    assert received.parts - {path} == s.parts;
  }

  /** An upload nothing comes between leaves the directory as Dir.Write does. */
  lemma WholeWrite(w: World, s: State, pid: int, a: AccountId, path: string, content: Bytes)
    requires Enabled(w, s, Begin(pid, a, path)) && |content| <= w.maxBackup && path !in s.parts
    ensures var es := [Begin(pid, a, path), Chunk(pid, content)] + [Rename(pid)];
            Valid(w, s, es) && Exec(w, s, es) == Finished(s, pid, a, path, content)
  {
    Receive(w, s, pid, a, path, content);
    Finish(w, s, pid, a, path, content);
    Single(w, Received(s, pid, a, path, content), Rename(pid));
    ExecSplit(w, s, [Begin(pid, a, path), Chunk(pid, content)], [Rename(pid)]);
  }

  const BYTE: Bytes := [0]

  /** One account with credit has stored one byte, last written at time 0; the row is not there yet. */
  function AboutToCommit(): State {
    var account := Account(1, 0, None);
    START.(db := EMPTY.(accounts := map[1 := account], accountIds := {1}),
           files := map["p" := File(0, BYTE)], written := map["p" := BYTE], used := {"p"},
           uploads := map[0 := Upload(1, "p", Stored(File(0, BYTE)))])
  }

  /** One account with credit, and nothing else. */
  function Funded(): State {
    START.(db := EMPTY.(accounts := map[1 := Account(1, 0, None)], accountIds := {1}))
  }

  const REGISTERED := EMPTY.(accounts := map[1 := FRESH_ACCOUNT], accountIds := {1})

  lemma Register(w: World)
    ensures Next(w, START, Database(R.OpenAccount(1))) == START.(db := REGISTERED)
  {
    assert CreateAccount(EMPTY, 1).0.accounts == REGISTERED.accounts;
  }

  lemma FundAccount(w: World)
    ensures var es := [Database(R.OpenAccount(1)), Database(R.TopUp(1, 1))];
            Valid(w, START, es) && Exec(w, START, es) == Funded()
  {
    Register(w);
    assert AddCredits(REGISTERED, 1, 1).0.accounts == Funded().db.accounts;
    Pair(w, START, Database(R.OpenAccount(1)), Database(R.TopUp(1, 1)));
  }

  lemma UploadOneByte(w: World)
    requires Admits(w)
    ensures var es := [Begin(0, 1, "p"), Chunk(0, BYTE)] + [Rename(0)];
            Valid(w, Funded(), es) && Exec(w, Funded(), es) == AboutToCommit()
  {
    WholeWrite(w, Funded(), 0, 1, "p", BYTE);
    assert AboutToCommit().parts == map[] && AboutToCommit().written == map["p" := BYTE];
  }

  lemma FirstUploadPasses(w: World)
    requires Admits(w)
    ensures var s := AboutToCommit();
            Refusal(s.db, w.config.quota, 1, RowOf(w, s.uploads[0], None, ""), 0) == None
  {
  }

  /** The latest allowed walk removes the file of a row committed right after the listing. */
  lemma SweepTakesFile(w: World, s: State, b: Backup) returns (es: seq<Event>)
    requires s.sweep.Listed? && s.now == s.sweep.at && b.path !in s.sweep.known
    requires b in s.db.rows && b.path in s.files
    requires s.files[b.path].mtime <= s.now + w.timing.walkDelay - w.timing.minAge
    ensures Valid(w, s, es) && !Safe(w, Exec(w, s, es).db.rows, Exec(w, s, es).files)
  {
    var walk := [Tick(w.timing.walkDelay), SweepWalk];
    Pair(w, s, walk[0], walk[1]);
    var walking := Exec(w, s, walk);
    var take := [SweepStat(Final(b.path)), SweepRemove];
    Pair(w, walking, take[0], take[1]);
    var end := Exec(w, walking, take);
    assert b in end.db.rows && !FileIntact(w, end.files, b);
    ExecSplit(w, s, walk, take);
    es := walk + take;
  }

  /** The latest allowed commit, right after a listing. */
  lemma CommitAfterListing(w: World) returns (s: State, b: Backup)
    requires Admits(w)
    ensures var d := w.timing.commitDelay;
            var listed := AboutToCommit().(now := d, sweep := Listed(d, {}));
            && Enabled(w, listed, Check(0, None, ""))
            && Enabled(w, Next(w, listed, Check(0, None, "")), Commit(0, 1))
            && s == Next(w, Next(w, listed, Check(0, None, "")), Commit(0, 1))
            && s.now == d && s.sweep == Listed(d, {}) && s.files == map["p" := File(0, BYTE)]
            && b in s.db.rows && b.path == "p"
  {
    var d := w.timing.commitDelay;
    var listed := AboutToCommit().(now := d, sweep := Listed(d, {}));
    FirstUploadPasses(w);
    var checked := Next(w, listed, Check(0, None, ""));
    assert checked == Moved(listed, 0, Checked(File(0, BYTE), None, "", 0, d));
    s := Next(w, checked, Commit(0, 1));
    b := NewRow(listed.db, 1, RowOf(w, listed.uploads[0], None, ""), 1);
    assert Insertion(checked.db, b).Ok?;
  }

  /** When the grace period is too short, some execution leaves a row without its file. */
  lemma LateCommitLosesFile(w: World) returns (es: seq<Event>)
    requires !GraceSuffices(w.timing) && Admits(w)
    ensures Valid(w, START, es) && !Safe(w, Exec(w, START, es).db.rows, Exec(w, START, es).files)
  {
    var d := w.timing.commitDelay;
    var s, b := CommitAfterListing(w);
    es := SweepTakesFile(w, s, b);
    var listed := AboutToCommit().(now := d, sweep := Listed(d, {}));
    assert PathSet([]) == {};
    Pair(w, AboutToCommit(), Tick(d), SweepList);
    Pair(w, listed, Check(0, None, ""), Commit(0, 1));
    ExecSplit(w, listed, [Check(0, None, ""), Commit(0, 1)], es);
    es := [Check(0, None, ""), Commit(0, 1)] + es;
    ExecSplit(w, AboutToCommit(), [Tick(d), SweepList], es);
    es := [Tick(d), SweepList] + es;
    UploadOneByte(w);
    var upload := [Begin(0, 1, "p"), Chunk(0, BYTE)] + [Rename(0)];
    ExecSplit(w, Funded(), upload, es);
    es := upload + es;
    FundAccount(w);
    ExecSplit(w, START, [Database(R.OpenAccount(1)), Database(R.TopUp(1, 1))], es);
    es := [Database(R.OpenAccount(1)), Database(R.TopUp(1, 1))] + es;
  }

  ghost predicate NeverLosesFile(w: World) {
    forall es: seq<Event> :: Valid(w, START, es) ==> Safe(w, Exec(w, START, es).db.rows, Exec(w, START, es).files)
  }

  /**
    No execution ever leaves a row without its file, if and only if the grace
    period of the sweep exceeds the commit delay and the walk delay together.
   */
  lemma SweepSafeIff(w: World)
    requires Admits(w)
    ensures NeverLosesFile(w) <==> GraceSuffices(w.timing)
  {
    if GraceSuffices(w.timing) {
      forall es: seq<Event> | Valid(w, START, es)
        ensures Safe(w, Exec(w, START, es).db.rows, Exec(w, START, es).files)
      {
        SafeAlways(w, es);
      }
    } else {
      var es := LateCommitLosesFile(w);
    }
  }

  // ---- the database sees a run of the store ----

  /** The transaction an event commits, if it commits one. */
  function OpsOf(s: State, w: World, e: Event): (ops: seq<R.Op>)
    requires Enabled(w, s, e)
    ensures ops == [] <==> !Commits(e)
  {
    match e
    case Database(op) => [op]
    case Commit(pid, id) =>
      var u := s.uploads[pid];
      [R.Upload(u.account, u.phase.at, RowOf(w, u, u.phase.parent, u.phase.meta), Outside(u.phase.total, id))]
    case Delete(a, id) => [R.Remove(a, id, s.now)]
    case Prune(a, before) => [R.Prune(a, before, s.now)]
    case Close(pid) => [R.CloseAccount(s.closing[pid].account)]
    case _ => []
  }

  function History(w: World, s: State, es: seq<Event>): seq<R.Op>
    requires Valid(w, s, es)
    decreases |es|
  {
    if es == [] then [] else OpsOf(s, w, es[0]) + History(w, Next(w, s, es[0]), es[1..])
  }

  lemma CommitIsUpload(w: World, s: State, pid: int, id: BackupId)
    requires Enabled(w, s, Commit(pid, id))
    ensures Next(w, s, Commit(pid, id)).db == R.Apply(w.config, s.db, OpsOf(s, w, Commit(pid, id))[0])
  {
  }

  lemma DeleteIsRemove(w: World, s: State, e: Event)
    requires Enabled(w, s, e) && (e.Database? || e.Delete?)
    ensures Next(w, s, e).db == R.Apply(w.config, s.db, OpsOf(s, w, e)[0])
  {
  }

  lemma PruneIsPrune(w: World, s: State, e: Event)
    requires Enabled(w, s, e) && (e.Prune? || e.Close?)
    ensures Next(w, s, e).db == R.Apply(w.config, s.db, OpsOf(s, w, e)[0])
  {
  }

  lemma NextIsTransaction(w: World, s: State, e: Event)
    requires Enabled(w, s, e) && Commits(e)
    ensures Next(w, s, e).db == R.Apply(w.config, s.db, OpsOf(s, w, e)[0])
  {
    if e.Commit? {
      CommitIsUpload(w, s, e.pid, e.id);
    } else if e.Database? || e.Delete? {
      DeleteIsRemove(w, s, e);
    } else {
      PruneIsPrune(w, s, e);
    }
  }

  /** Interleaved or not, the database goes through a run of the store. */
  lemma {:induction false} ExecIsRun(w: World, s: State, es: seq<Event>)
    requires Valid(w, s, es)
    ensures Exec(w, s, es).db == R.Run(w.config, s.db, History(w, s, es))
    decreases |es|
  {
    if es != [] {
      var next, ops := Next(w, s, es[0]), OpsOf(s, w, es[0]);
      if Commits(es[0]) {
        NextIsTransaction(w, s, es[0]);
      }
      ExecIsRun(w, next, es[1..]);
      if ops == [] {
        assert History(w, s, es) == History(w, next, es[1..]);
      } else {
        assert History(w, s, es)[0] == ops[0] && History(w, s, es)[1..] == History(w, next, es[1..]);
      }
    }
  }

  lemma NextKeepsWritten(w: World, s: State, e: Event)
    requires FilesFit(w, s.now, s.files, s.written, s.uploads) && Enabled(w, s, e)
    ensures forall p :: p in s.written ==> p in Next(w, s, e).written && Next(w, s, e).written[p] == s.written[p]
  {
    if e.Rename? {
      assert UploadFits(w, s.now, s.files, s.written, s.uploads[e.pid]);
    }
  }

  lemma {:induction false} ExecKeepsWritten(w: World, s: State, es: seq<Event>)
    requires GraceSuffices(w.timing) && SystemInv(w, s) && Valid(w, s, es)
    ensures forall p :: p in s.written ==> p in Exec(w, s, es).written && Exec(w, s, es).written[p] == s.written[p]
    decreases |es|
  {
    if es != [] {
      NextKeepsWritten(w, s, es[0]);
      NextKeeps(w, s, es[0]);
      ExecKeepsWritten(w, Next(w, s, es[0]), es[1..]);
    }
  }

  // ---- the directory seen from one handler ----

  lemma SweepFile(w: World, s: State, p: string)
    requires s.sweep.Walking? && Sweepable(s, Final(p), s.sweep.cutoff, s.sweep.known)
    ensures Valid(w, s, [SweepStat(Final(p)), SweepRemove])
    ensures Exec(w, s, [SweepStat(Final(p)), SweepRemove]) == s.(files := s.files - {p})
  {
    Pair(w, s, SweepStat(Final(p)), SweepRemove);
  }

  lemma SweepPart(w: World, s: State, p: string)
    requires s.sweep.Walking? && Sweepable(s, Part(p), s.sweep.cutoff, s.sweep.known)
    ensures Valid(w, s, [SweepStat(Part(p)), SweepRemove])
    ensures Exec(w, s, [SweepStat(Part(p)), SweepRemove]) == s.(parts := s.parts - {p})
  {
    Pair(w, s, SweepStat(Part(p)), SweepRemove);
  }

  lemma {:induction false} SweepFiles(w: World, s: State) returns (es: seq<Event>)
    requires s.sweep.Walking?
    ensures Valid(w, s, es)
    ensures Exec(w, s, es) == s.(files := Remaining(s.files, s.sweep.known, s.sweep.cutoff, {}))
    decreases |s.files|
  {
    var left := Remaining(s.files, s.sweep.known, s.sweep.cutoff, {});
    if left == s.files {
      es := [];
    } else {
      var p :| p in s.files && p !in left;
      SweepFile(w, s, p);
      RemainingWithout(s.files, s.sweep.known, s.sweep.cutoff, {}, p);
      es := SweepFiles(w, s.(files := s.files - {p}));
      ExecSplit(w, s, [SweepStat(Final(p)), SweepRemove], es);
      es := [SweepStat(Final(p)), SweepRemove] + es;
    }
  }

  lemma {:induction false} SweepParts(w: World, s: State) returns (es: seq<Event>)
    requires s.sweep.Walking?
    ensures Valid(w, s, es)
    ensures Exec(w, s, es) == s.(parts := RemainingParts(s.parts, s.sweep.cutoff))
    decreases |s.parts|
  {
    var left := RemainingParts(s.parts, s.sweep.cutoff);
    if left == s.parts {
      es := [];
    } else {
      var p :| p in s.parts && p !in left;
      SweepPart(w, s, p);
      RemainingPartsWithout(s.parts, s.sweep.cutoff, p);
      es := SweepParts(w, s.(parts := s.parts - {p}));
      ExecSplit(w, s, [SweepStat(Part(p)), SweepRemove], es);
      es := [SweepStat(Part(p)), SweepRemove] + es;
    }
  }

  /** A walk nothing comes between, over all files and part files, leaves the directory as Dir.Sweep does. */
  lemma WholeSweep(w: World, s: State) returns (es: seq<Event>)
    requires s.sweep.Walking?
    ensures Valid(w, s, es)
    ensures Exec(w, s, es) == s.(files := Remaining(s.files, s.sweep.known, s.sweep.cutoff, {}),
                                 parts := RemainingParts(s.parts, s.sweep.cutoff))
  {
    es := SweepFiles(w, s);
    var more := SweepParts(w, Exec(w, s, es));
    ExecSplit(w, s, es, more);
    es := es + more;
  }

  /** The server after a sweep that took a moment and met nothing in its way. */
  function Cleaned(w: World, s: State): State {
    var cutoff := s.now - w.timing.minAge;
    s.(files := Remaining(s.files, PathSet(s.db.rows), cutoff, {}), parts := RemainingParts(s.parts, cutoff))
  }

  lemma SweepStarts(w: World, s: State)
    requires s.sweep.Idle?
    ensures Valid(w, s, [SweepList, SweepWalk])
    ensures Exec(w, s, [SweepList, SweepWalk])
            == s.(sweep := Walking(s.now - w.timing.minAge, PathSet(s.db.rows)))
  {
    Pair(w, s, SweepList, SweepWalk);
  }

  lemma SweepEnds(w: World, s: State)
    requires s.sweep.Walking?
    ensures Valid(w, s, [SweepEnd]) && Exec(w, s, [SweepEnd]) == s.(sweep := Idle)
  {
    Single(w, s, SweepEnd);
  }

  lemma CleanedFiles(w: World, s: State)
    ensures forall p :: p in Cleaned(w, s).files
                        <==> p in s.files && ((exists b :: b in s.db.rows && b.path == p)
                                              || s.now - w.timing.minAge < s.files[p].mtime)
    ensures forall p :: p in Cleaned(w, s).parts <==> p in s.parts && s.now - w.timing.minAge < s.parts[p]
  {
  }

  lemma UndisturbedRun(w: World, s: State) returns (es: seq<Event>)
    requires s.sweep.Idle?
    ensures Valid(w, s, es) && Exec(w, s, es) == Cleaned(w, s)
  {
    hide Next, Enabled, Valid, Exec;
    var walking := s.(sweep := Walking(s.now - w.timing.minAge, PathSet(s.db.rows)));
    SweepStarts(w, s);
    var walk := WholeSweep(w, walking);
    var walked := Cleaned(w, s).(sweep := walking.sweep);
    assert Exec(w, walking, walk) == walked;
    SweepEnds(w, walked);
    ExecSplit(w, walking, walk, [SweepEnd]);
    ExecSplit(w, s, [SweepList, SweepWalk], walk + [SweepEnd]);
    es := [SweepList, SweepWalk] + (walk + [SweepEnd]);
  }

  /** A complete undisturbed sweep keeps exactly the files that have a row or are younger than minAge. */
  lemma UndisturbedSweep(w: World, s: State) returns (es: seq<Event>)
    requires s.sweep.Idle?
    ensures Valid(w, s, es)
    ensures var later := Exec(w, s, es);
            && later.db == s.db
            && (forall p :: p in later.files
                            <==> p in s.files && ((exists b :: b in s.db.rows && b.path == p)
                                                  || s.now - w.timing.minAge < s.files[p].mtime))
            && (forall p :: p in later.parts <==> p in s.parts && s.now - w.timing.minAge < s.parts[p])
  {
    hide Next, Enabled, Valid, Exec;
    es := UndisturbedRun(w, s);
    CleanedFiles(w, s);
  }

  // ---- restoring from disk ----

  /** What a download of the file at a path returns. */
  ghost function Disk(s: State): string -> Bytes {
    p => if p in s.files then s.files[p].content else []
  }

  /** The accepted upload of a backup stores exactly the bytes it received. */
  lemma CommitStoresUpload(w: World, s: State, pid: int, id: BackupId)
    requires SystemInv(w, s) && Enabled(w, s, Commit(pid, id))
    requires Next(w, s, Commit(pid, id)).db != s.db
    ensures var next := Next(w, s, Commit(pid, id));
            && next.db.rows != []
            && var u, row := s.uploads[pid], Last(next.db.rows);
               && row.id == id && row.account == u.account && row.path == u.path
               && row.parent == u.phase.parent && row.meta == u.phase.meta
               && Disk(next)(row.path) == u.phase.file.content
  {
    var (db, r) := Committed(w, s.db, s.uploads[pid], id);
    assert r.Ok?;
    Append(s.db.rows, r.value);
    assert UploadFits(w, s.now, s.files, s.written, s.uploads[pid]);
  }

  lemma DiskUnchanged(w: World, s: State, later: State)
    requires SystemInv(w, s) && SystemInv(w, later)
    requires forall p :: p in s.written ==> p in later.written && later.written[p] == s.written[p]
    ensures forall b :: b in s.db.rows && b in later.db.rows ==> Disk(s)(b.path) == Disk(later)(b.path)
  {
    forall b | b in s.db.rows && b in later.db.rows
      ensures Disk(s)(b.path) == Disk(later)(b.path)
    {
      assert FileIntact(w, s.files, b) && FileIntact(w, later.files, b);
    }
  }

  /**
    Through uploads, deletes, prunes, account deletes, sweeps and crashes of any
    kind, a backup whose row is still there restores from disk, delta by delta,
    to the content it restored to before.
   */
  lemma RestoreSurvives(w: World, es: seq<Event>, more: seq<Event>, b: Backup, patch: (Bytes, Bytes) -> Bytes)
    requires GraceSuffices(w.timing) && Valid(w, START, es)
    requires Valid(w, Exec(w, START, es), more)
    requires b in Exec(w, START, es).db.rows && b in Exec(w, Exec(w, START, es), more).db.rows
    ensures var s := Exec(w, START, es);
            var later := Exec(w, s, more);
            && C.Restorable(s.db.rows) && C.Restorable(later.db.rows)
            && C.Restore(s.db.rows, b, Disk(s), patch) == C.Restore(later.db.rows, b, Disk(later), patch)
  {
    var s := Exec(w, START, es);
    var later := Exec(w, s, more);
    ReachedByRun(w, es);
    ExecIsRun(w, s, more);
    R.RunKeepsInv(w.config, s.db, History(w, s, more));
    StartFits(w);
    ExecKeeps(w, START, es);
    ExecKeeps(w, s, more);
    ExecKeepsWritten(w, s, more);
    DiskUnchanged(w, s, later);
    forall d, e | d in s.db.rows && e in later.db.rows && d.id == e.id
      ensures d == e
    {
      C.VersionNamesOneBackup(w.config, s.db, History(w, s, more), d, e);
    }
    C.RestoreAgrees(s.db.rows, later.db.rows, b, Disk(s), Disk(later), patch);
  }

  lemma ReachedByRun(w: World, es: seq<Event>)
    requires Valid(w, START, es)
    ensures R.Inv(w.config, Exec(w, START, es).db)
  {
    ExecIsRun(w, START, es);
    R.RunKeepsInv(w.config, EMPTY, History(w, START, es));
  }
}
