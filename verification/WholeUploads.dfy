/**
  One upload from its first byte to its end, received in any pieces at any pace:
  what it leaves behind when it succeeds, breaks off, or is turned down.
 */
module WholeUploads {
  import opened Arithmetic
  import opened Outcomes
  import opened Tables
  import opened Transactions
  import opened Blobs
  import opened BackupSystem
  import opened DurableBackups
  import D = AccountDeletes

  // A piece of the body, and how long it took to arrive.
  datatype Piece = Piece(wait: nat, data: Bytes)

  function Content(ps: seq<Piece>): Bytes {
    if ps == [] then [] else ps[0].data + Content(ps[1..])
  }

  function Waited(ps: seq<Piece>): nat {
    if ps == [] then 0 else ps[0].wait + Waited(ps[1..])
  }

  function Arrivals(pid: int, ps: seq<Piece>): seq<Event> {
    if ps == [] then [] else [Tick(ps[0].wait), Chunk(pid, ps[0].data)] + Arrivals(pid, ps[1..])
  }

  /** The upload `pid`, last written to at `now`, has received `content`. */
  function Receiving(s: State, now: int, pid: int, a: AccountId, path: string, content: Bytes): State {
    s.(now := now, parts := s.parts[path := now], used := s.used + {path},
       uploads := s.uploads[pid := Upload(a, path, Writing(content))])
  }

  lemma OneArrives(w: World, s: State, now: int, pid: int, a: AccountId, path: string, content: Bytes, p: Piece)
    requires |content + p.data| <= w.maxBackup
    ensures var r := Receiving(s, now, pid, a, path, content);
            && Valid(w, r, [Tick(p.wait), Chunk(pid, p.data)])
            && Exec(w, r, [Tick(p.wait), Chunk(pid, p.data)])
               == Receiving(s, now + p.wait, pid, a, path, content + p.data)
  {
    var r := Receiving(s, now, pid, a, path, content);
    Pair(w, r, Tick(p.wait), Chunk(pid, p.data));
    UpdatedTwice(s.uploads, pid, r.uploads[pid], Upload(a, path, Writing(content + p.data)));
    UpdatedTwice(s.parts, path, now, now + p.wait);
  }

  lemma {:induction false} AllArrive(
      w: World, s: State, now: int, pid: int, a: AccountId, path: string, content: Bytes, ps: seq<Piece>)
    requires |content + Content(ps)| <= w.maxBackup
    ensures var r := Receiving(s, now, pid, a, path, content);
            && Valid(w, r, Arrivals(pid, ps))
            && Exec(w, r, Arrivals(pid, ps))
               == Receiving(s, now + Waited(ps), pid, a, path, content + Content(ps))
    decreases |ps|
  {
    hide Next, Enabled, Receiving;
    if ps == [] {
      assert content + [] == content;
    } else {
      var p, rest := ps[0], ps[1..];
      assert content + Content(ps) == content + p.data + Content(rest);
      OneArrives(w, s, now, pid, a, path, content, p);
      AllArrive(w, s, now + p.wait, pid, a, path, content + p.data, rest);
      ExecSplit(w, Receiving(s, now, pid, a, path, content), [Tick(p.wait), Chunk(pid, p.data)], Arrivals(pid, rest));
    }
  }

  lemma Begun(w: World, s: State, pid: int, a: AccountId, path: string)
    requires Valid(w, s, [Begin(pid, a, path)])
    ensures Exec(w, s, [Begin(pid, a, path)]) == Receiving(s, s.now, pid, a, path, [])
    ensures pid !in s.uploads && path !in s.used && !Uploads(s, a)
  {
    Single(w, s, Begin(pid, a, path));
  }

  /** The upload is received from the start. */
  lemma BodyReceived(w: World, s: State, pid: int, a: AccountId, path: string, ps: seq<Piece>)
    requires Valid(w, s, [Begin(pid, a, path)]) && |Content(ps)| <= w.maxBackup
    ensures var es := [Begin(pid, a, path)] + Arrivals(pid, ps);
            Valid(w, s, es) && Exec(w, s, es) == Receiving(s, s.now + Waited(ps), pid, a, path, Content(ps))
  {
    hide *;
    Begun(w, s, pid, a, path);
    assert [] + Content(ps) == Content(ps);
    AllArrive(w, s, s.now, pid, a, path, [], ps);
    ExecSplit(w, s, [Begin(pid, a, path)], Arrivals(pid, ps));
  }

  /** Its file has its final name since `now`; it was last written to at `mtime`. */
  function Complete(
      s: State, now: int, mtime: int, pid: int, a: AccountId, path: string, content: Bytes): State
  {
    s.(now := now, files := s.files[path := File(mtime, content)], written := s.written[path := content],
       used := s.used + {path}, uploads := s.uploads[pid := Upload(a, path, Stored(File(mtime, content)))])
  }

  lemma RenameEffect(w: World, s: State, now: int, wait: nat, pid: int, a: AccountId, path: string, content: Bytes)
    requires path !in s.parts
    ensures var later := Receiving(s, now, pid, a, path, content).(now := now + wait);
            Enabled(w, later, Rename(pid))
            && Next(w, later, Rename(pid)) == Complete(s, now + wait, now, pid, a, path, content)
  {
    var r := Receiving(s, now, pid, a, path, content);
    UpdatedTwice(s.uploads, pid, r.uploads[pid], Upload(a, path, Stored(File(now, content))));
    assert r.parts - {path} == s.parts;
  }

  lemma Renamed(w: World, s: State, now: int, wait: nat, pid: int, a: AccountId, path: string, content: Bytes)
    requires path !in s.parts
    ensures var r := Receiving(s, now, pid, a, path, content);
            && Valid(w, r, [Tick(wait), Rename(pid)])
            && Exec(w, r, [Tick(wait), Rename(pid)]) == Complete(s, now + wait, now, pid, a, path, content)
  {
    hide Complete;
    RenameEffect(w, s, now, wait, pid, a, path, content);
    Pair(w, Receiving(s, now, pid, a, path, content), Tick(wait), Rename(pid));
  }

  /** The events of an upload that is received completely. */
  function WholeBody(pid: int, a: AccountId, path: string, ps: seq<Piece>, wait: nat): seq<Event> {
    [Begin(pid, a, path)] + Arrivals(pid, ps) + [Tick(wait), Rename(pid)]
  }

  /**
    In whatever pieces and however slowly a body arrives, its file holds the pieces in
    order, and its time is that of the last piece, not of the rename.
   */
  lemma AnyPieces(w: World, s: State, pid: int, a: AccountId, path: string, ps: seq<Piece>, wait: nat)
    requires Valid(w, s, [Begin(pid, a, path)]) && |Content(ps)| <= w.maxBackup && path !in s.parts
    ensures var es, last := WholeBody(pid, a, path, ps, wait), s.now + Waited(ps);
            Valid(w, s, es) && Exec(w, s, es) == Complete(s, last + wait, last, pid, a, path, Content(ps))
  {
    hide Next, Enabled, Receiving, Complete, Valid, Exec;
    BodyReceived(w, s, pid, a, path, ps);
    Renamed(w, s, s.now + Waited(ps), wait, pid, a, path, Content(ps));
    ExecSplit(w, s, [Begin(pid, a, path)] + Arrivals(pid, ps), [Tick(wait), Rename(pid)]);
  }

  /** Time has passed, and a name was taken; nothing else is different. */
  predicate NothingLeft(s: State, n: State, path: string) {
    n == s.(now := n.now, used := s.used + {path}, written := n.written) && s.now <= n.now
  }

  lemma AbortEffect(w: World, s: State, now: int, pid: int, a: AccountId, path: string, content: Bytes)
    requires path !in s.parts && pid !in s.uploads && s.now <= now
    ensures var r := Receiving(s, now, pid, a, path, content);
            Enabled(w, r, Abort(pid)) && NothingLeft(s, Next(w, r, Abort(pid)), path)
  {
    var r := Receiving(s, now, pid, a, path, content);
    assert r.parts - {path} == s.parts && r.uploads - {pid} == s.uploads;
  }

  lemma Aborted(w: World, s: State, now: int, pid: int, a: AccountId, path: string, content: Bytes)
    requires path !in s.parts && pid !in s.uploads && s.now <= now
    ensures var r := Receiving(s, now, pid, a, path, content);
            Valid(w, r, [Abort(pid)]) && NothingLeft(s, Exec(w, r, [Abort(pid)]), path)
  {
    hide Receiving, NothingLeft;
    AbortEffect(w, s, now, pid, a, path, content);
    Single(w, Receiving(s, now, pid, a, path, content), Abort(pid));
  }

  /** An upload that breaks off leaves nothing behind. */
  lemma BrokenOff(w: World, s: State, pid: int, a: AccountId, path: string, ps: seq<Piece>)
    requires Valid(w, s, [Begin(pid, a, path)]) && |Content(ps)| <= w.maxBackup && path !in s.parts
    ensures var es := [Begin(pid, a, path)] + Arrivals(pid, ps) + [Abort(pid)];
            Valid(w, s, es) && NothingLeft(s, Exec(w, s, es), path)
  {
    hide *;
    Begun(w, s, pid, a, path);
    BodyReceived(w, s, pid, a, path, ps);
    Aborted(w, s, s.now + Waited(ps), pid, a, path, Content(ps));
    ExecSplit(w, s, [Begin(pid, a, path)] + Arrivals(pid, ps), [Abort(pid)]);
  }

  lemma Discarded(w: World, s: State, now: int, mtime: int, pid: int, a: AccountId, path: string, content: Bytes)
    requires path !in s.files && pid !in s.uploads && s.now <= now
    ensures var c := Complete(s, now, mtime, pid, a, path, content);
            Valid(w, c, [Discard(pid)]) && NothingLeft(s, Exec(w, c, [Discard(pid)]), path)
  {
    var c := Complete(s, now, mtime, pid, a, path, content);
    Single(w, c, Discard(pid));
    assert c.files - {path} == s.files && c.uploads - {pid} == s.uploads;
  }

  /**
    What the handler does after a failed transaction: a refused one has not even
    left the transaction open, any other it rolls back; then it discards the file.
   */
  function TurnedDown(w: World, s: State, pid: int, parent: Option<BackupId>, meta: string): seq<Event>
    requires IsStored(s, pid)
  {
    var u := s.uploads[pid];
    var refused := Refusal(s.db, w.config.quota, u.account, RowOf(w, u, parent, meta), Total(s.db.rows)).Some?;
    [Check(pid, parent, meta)] + (if refused then [] else [Rollback(pid)]) + [Discard(pid)]
  }

  /** Checking and rolling back leads back to where it started. */
  lemma CheckedInVain(w: World, s: State, pid: int, parent: Option<BackupId>, meta: string)
    requires IsStored(s, pid) && s.uploads[pid].phase.file.content != [] && !Locked(s, s.uploads[pid].account)
    requires Valid(w, s, [Discard(pid)])
    ensures Valid(w, s, TurnedDown(w, s, pid, parent, meta))
    ensures Exec(w, s, TurnedDown(w, s, pid, parent, meta)) == Exec(w, s, [Discard(pid)])
  {
    var u, check := s.uploads[pid], Check(pid, parent, meta);
    var checked := Next(w, s, check);
    if Refusal(s.db, w.config.quota, u.account, RowOf(w, u, parent, meta), Total(s.db.rows)).Some? {
      assert checked == s;
      Cons(w, s, check, [Discard(pid)]);
      assert [check] + [] + [Discard(pid)] == [check] + [Discard(pid)];
    } else {
      UpdatedTwice(s.uploads, pid, checked.uploads[pid], u);
      assert s.uploads[pid := u] == s.uploads;
      assert Next(w, checked, Rollback(pid)) == s;
      Cons(w, checked, Rollback(pid), [Discard(pid)]);
      Cons(w, s, check, [Rollback(pid)] + [Discard(pid)]);
      assert [check] + [Rollback(pid)] + [Discard(pid)] == [check] + ([Rollback(pid)] + [Discard(pid)]);
    }
  }

  /** A new upload starts when no other is there for its account, so the account is not locked. */
  lemma CompleteInVain(w: World, s: State, c: State, now: int, mtime: int, pid: int, a: AccountId, path: string,
                       content: Bytes, parent: Option<BackupId>, meta: string)
    requires !Uploads(s, a) && content != [] && c == Complete(s, now, mtime, pid, a, path, content)
    requires Valid(w, c, [Discard(pid)])
    ensures IsStored(c, pid) && Valid(w, c, TurnedDown(w, c, pid, parent, meta))
    ensures Exec(w, c, TurnedDown(w, c, pid, parent, meta)) == Exec(w, c, [Discard(pid)])
  {
    CheckedInVain(w, c, pid, parent, meta);
  }

  /** An upload whose transaction is refused or fails leaves neither a row nor a file behind, and no lock. */
  lemma TurnedDownUpload(w: World, s: State, pid: int, a: AccountId, path: string, ps: seq<Piece>, wait: nat,
                         parent: Option<BackupId>, meta: string)
    requires Valid(w, s, [Begin(pid, a, path)]) && 0 < |Content(ps)| <= w.maxBackup
    requires path !in s.parts && path !in s.files
    ensures var es := WholeBody(pid, a, path, ps, wait);
            && Valid(w, s, es) && IsStored(Exec(w, s, es), pid)
            && var failed := TurnedDown(w, Exec(w, s, es), pid, parent, meta);
               Valid(w, s, es + failed) && NothingLeft(s, Exec(w, s, es + failed), path)
  {
    var es, last := WholeBody(pid, a, path, ps, wait), s.now + Waited(ps);
    hide *;
    Begun(w, s, pid, a, path);
    AnyPieces(w, s, pid, a, path, ps, wait);
    var c := Complete(s, last + wait, last, pid, a, path, Content(ps));
    Discarded(w, s, last + wait, last, pid, a, path, Content(ps));
    CompleteInVain(w, s, c, last + wait, last, pid, a, path, Content(ps), parent, meta);
    ExecSplit(w, s, es, TurnedDown(w, c, pid, parent, meta));
  }

  // ---- what is never recorded ----

  /** No row is empty, and no upload that passed its checks is. */
  ghost predicate NoneEmpty(rows: seq<Backup>, uploads: map<int, Upload>) {
    && (forall b :: b in rows ==> 0 < b.size)
    && (forall i :: i in uploads && uploads[i].phase.Checked? ==> uploads[i].phase.file.content != [])
  }

  lemma CommitNotEmpty(w: World, s: State, pid: int, id: BackupId)
    requires NoneEmpty(s.db.rows, s.uploads) && Enabled(w, s, Commit(pid, id))
    ensures var n := Next(w, s, Commit(pid, id)); NoneEmpty(n.db.rows, n.uploads)
  {
  }

  lemma UploadNotEmpty(w: World, s: State, e: Event)
    requires NoneEmpty(s.db.rows, s.uploads) && Enabled(w, s, e) && !Commits(e)
    ensures var n := Next(w, s, e); NoneEmpty(n.db.rows, n.uploads)
  {
    hide Refusal, Total;
  }

  lemma NextNotEmpty(w: World, s: State, e: Event)
    requires NoneEmpty(s.db.rows, s.uploads) && Enabled(w, s, e)
    ensures var n := Next(w, s, e); NoneEmpty(n.db.rows, n.uploads)
  {
    if e.Commit? {
      CommitNotEmpty(w, s, e.pid, e.id);
    } else if Commits(e) {
      D.NoNewRow(w, s, e);
    } else {
      UploadNotEmpty(w, s, e);
    }
    hide Next, Enabled;
  }

  lemma {:induction false} ExecNotEmpty(w: World, s: State, es: seq<Event>)
    requires NoneEmpty(s.db.rows, s.uploads) && Valid(w, s, es)
    ensures var n := Exec(w, s, es); NoneEmpty(n.db.rows, n.uploads)
    decreases |es|
  {
    hide Next, Enabled, NoneEmpty;
    if es != [] {
      NextNotEmpty(w, s, es[0]);
      ExecNotEmpty(w, Next(w, s, es[0]), es[1..]);
    }
  }

  /** An empty body never becomes a backup, in any interleaving. */
  lemma NoEmptyBackup(w: World, es: seq<Event>, b: Backup)
    requires Valid(w, START, es) && b in Exec(w, START, es).db.rows
    ensures 0 < b.size
  {
    ExecNotEmpty(w, START, es);
  }
}
