/**
  How far uploads of different accounts overshoot the server-wide cap.  Each
  checks the cap under the lock of its own account only, so the number of upload
  slots decides; the bound is exact.
 */
module StorageCap {
  import opened Arithmetic
  import opened Outcomes
  import opened Sums
  import opened Tables
  import opened Transactions
  import opened Blobs
  import opened BackupSystem
  import opened DurableBackups
  import opened Promises
  import A = Admission
  import R = Runs

  function Cap(w: World): int {
    w.config.quota.totalCapBytes
  }

  /** The largest backup that fits under the cap at all. */
  function Largest(w: World): nat {
    if w.maxBackup <= Cap(w) then w.maxBackup else if 0 <= Cap(w) then Cap(w) else 0
  }

  function WorstCase(w: World): int {
    Cap(w) + (w.slots - 1) * Largest(w)
  }

  function Content(u: Upload): Bytes {
    if u.phase.Writing? then u.phase.content else u.phase.file.content
  }

  /** The bytes a checked upload has been promised room for. */
  function Pending(u: Upload): int {
    if u.phase.Checked? then |u.phase.file.content| else 0
  }

  ghost predicate SizesFit(w: World, uploads: map<int, Upload>) {
    forall i :: i in uploads ==> |Content(uploads[i])| <= w.maxBackup && 0 <= Pending(uploads[i]) <= Largest(w)
  }

  ghost predicate NoDebts(rows: seq<Backup>) {
    forall b :: b in rows ==> 0 <= b.size
  }

  /** What is stored and what is promised stay below the worst case together. */
  ghost predicate CapInv(w: World, rows: seq<Backup>, uploads: map<int, Upload>) {
    && |uploads| <= w.slots && NoDebts(rows) && SizesFit(w, uploads)
    && Total(rows) + Sum(uploads, Pending) <= WorstCase(w)
  }

  // ---- every event keeps it ----

  lemma KeyAdded(uploads: map<int, Upload>, pid: int, u: Upload)
    requires pid !in uploads
    ensures |uploads[pid := u]| == |uploads| + 1
  {
    assert uploads[pid := u].Keys == uploads.Keys + {pid};
  }

  lemma KeyRemoved(uploads: map<int, Upload>, pid: int)
    requires pid in uploads
    ensures |uploads - {pid}| == |uploads| - 1
  {
    assert uploads.Keys == (uploads - {pid}).Keys + {pid};
  }

  lemma KeyReplaced(uploads: map<int, Upload>, pid: int, u: Upload)
    requires pid in uploads
    ensures |uploads[pid := u]| == |uploads|
  {
    assert uploads[pid := u].Keys == uploads.Keys;
    assert |uploads[pid := u]| == |uploads[pid := u].Keys| && |uploads| == |uploads.Keys|;
  }

  lemma PendingBound(uploads: map<int, Upload>, bound: nat)
    requires forall i :: i in uploads ==> 0 <= Pending(uploads[i]) <= bound
    ensures 0 <= Sum(uploads, Pending) <= |uploads| * bound
  {
    forall i | i in uploads
      ensures 0 <= Pending(uploads[i]) <= bound
    {
    }
    SumBound(uploads, Pending, bound);
  }

  /** An upload goes on without having been promised more. */
  lemma MovedKeepsCap(w: World, rows: seq<Backup>, uploads: map<int, Upload>, pid: int, u: Upload)
    requires CapInv(w, rows, uploads) && pid in uploads
    requires |Content(u)| <= w.maxBackup && 0 <= Pending(u) <= Pending(uploads[pid])
    ensures CapInv(w, rows, uploads[pid := u])
  {
    SumUpdate(uploads, Pending, pid, u);
    assert uploads[pid := u].Keys == uploads.Keys;
    assert |uploads[pid := u]| == |uploads[pid := u].Keys|;
  }

  lemma StoppedKeepsCap(w: World, rows: seq<Backup>, uploads: map<int, Upload>, pid: int)
    requires CapInv(w, rows, uploads) && pid in uploads
    ensures CapInv(w, rows, uploads - {pid})
    ensures Sum(uploads - {pid}, Pending) == Sum(uploads, Pending) - Pending(uploads[pid])
  {
    SumWithout(uploads, Pending, pid);
    assert uploads.Keys == (uploads - {pid}).Keys + {pid};
  }

  lemma BeginKeepsCap(w: World, rows: seq<Backup>, uploads: map<int, Upload>, pid: int, u: Upload)
    requires CapInv(w, rows, uploads) && pid !in uploads && |uploads| < w.slots && u.phase == Writing([])
    ensures CapInv(w, rows, uploads[pid := u])
  {
    SumUpdate(uploads, Pending, pid, u);
    assert uploads[pid := u].Keys == uploads.Keys + {pid};
  }

  /** `total` and `size` fit under the cap, and `others` uploads wait for at most `largest` bytes each. */
  lemma RoomForOthers(cap: int, total: int, size: int, pending: int, others: nat, slots: nat, largest: nat)
    requires total + size <= cap && pending <= others * largest && others + 1 <= slots
    ensures total + (pending + size) <= cap + (slots - 1) * largest
  {
    MulMonotone(others, slots - 1, largest);
  }

  /** The heart of the bound: whoever else was promised room holds another slot. */
  lemma CheckKeepsCap(w: World, rows: seq<Backup>, uploads: map<int, Upload>, pid: int, u: Upload)
    requires CapInv(w, rows, uploads) && pid in uploads && Pending(uploads[pid]) == 0
    requires u.phase.Checked? && |Content(u)| <= w.maxBackup && Total(rows) + |Content(u)| <= Cap(w)
    ensures CapInv(w, rows, uploads[pid := u])
  {
    var others := uploads - {pid};
    StoppedKeepsCap(w, rows, uploads, pid);
    PendingBound(others, Largest(w));
    SumUpdate(uploads, Pending, pid, u);
    KeyRemoved(uploads, pid);
    KeyReplaced(uploads, pid, u);
    A.TotalNonNegative(rows);
    RoomForOthers(Cap(w), Total(rows), Pending(u), Sum(others, Pending), |others|, w.slots, Largest(w));
    hide Sum, Total;
  }

  /** A commit stores what was promised, and no more. */
  lemma CommitKeepsCap(w: World, s: State, pid: int, id: BackupId)
    requires CapInv(w, s.db.rows, s.uploads) && Enabled(w, s, Commit(pid, id))
    ensures var n := Next(w, s, Commit(pid, id)); CapInv(w, n.db.rows, n.uploads)
  {
    var u := s.uploads[pid];
    var nb := RowOf(w, u, u.phase.parent, u.phase.meta);
    StoppedKeepsCap(w, s.db.rows, s.uploads, pid);
    MovedKeepsCap(w, s.db.rows, s.uploads, pid, u.(phase := Stored(u.phase.file)));
    A.UploadTotal(w.config, s.db, u.account, u.phase.at, nb, Outside(u.phase.total, id));
    assert nb.size == Pending(u);
  }

  lemma LessKeepsCap(w: World, rows: seq<Backup>, after: seq<Backup>, uploads: map<int, Upload>)
    requires CapInv(w, rows, uploads) && Total(after) <= Total(rows) && forall b :: b in after ==> b in rows
    ensures CapInv(w, after, uploads)
  {
  }

  lemma StoreKeepsCap(w: World, s: State, e: Event)
    requires CapInv(w, s.db.rows, s.uploads) && Enabled(w, s, e) && Commits(e) && !e.Commit?
    ensures var n := Next(w, s, e); CapInv(w, n.db.rows, n.uploads)
  {
    NextIsTransaction(w, s, e);
    var op := OpsOf(s, w, e)[0];
    A.OthersFree(w.config, s.db, op);
    LessKeepsCap(w, s.db.rows, R.Apply(w.config, s.db, op).rows, s.uploads);
  }

  lemma CrashKeepsCap(w: World, s: State)
    requires CapInv(w, s.db.rows, s.uploads)
    ensures CapInv(w, s.db.rows, map[])
  {
    PendingBound(s.uploads, Largest(w));
    var none: map<int, Upload> := map[];
    assert Sum(none, Pending) == 0;
  }

  /** The events of one upload but for its check and its commit. */
  lemma UploadKeepsCap(w: World, s: State, e: Event)
    requires CapInv(w, s.db.rows, s.uploads) && Enabled(w, s, e)
    requires e.Chunk? || e.Rename? || e.Abort? || e.Discard? || e.Rollback?
    ensures CapInv(w, s.db.rows, Next(w, s, e).uploads)
  {
    var u := s.uploads[e.pid];
    StoppedKeepsCap(w, s.db.rows, s.uploads, e.pid);
    if e.Chunk? {
      MovedKeepsCap(w, s.db.rows, s.uploads, e.pid, u.(phase := Writing(u.phase.content + e.data)));
    } else if e.Rename? && u.path in s.parts {
      var file := File(s.parts[u.path], u.phase.content);
      MovedKeepsCap(w, s.db.rows, s.uploads, e.pid, u.(phase := Stored(file)));
    } else if e.Rollback? {
      MovedKeepsCap(w, s.db.rows, s.uploads, e.pid, u.(phase := Stored(u.phase.file)));
    }
  }

  lemma PassedCheckKeepsCap(w: World, s: State, e: Event)
    requires 0 < Cap(w) && CapInv(w, s.db.rows, s.uploads) && Enabled(w, s, e) && e.Check?
    ensures CapInv(w, s.db.rows, Next(w, s, e).uploads)
  {
    var u, total := s.uploads[e.pid], Total(s.db.rows);
    var nb := RowOf(w, u, e.parent, e.meta);
    if Refusal(s.db, w.config.quota, u.account, nb, total).None? {
      var passed := u.(phase := Checked(u.phase.file, e.parent, e.meta, total, s.now));
      CheckKeepsCap(w, s.db.rows, s.uploads, e.pid, passed);
    }
  }

  lemma NextKeepsCap(w: World, s: State, e: Event)
    requires 0 < Cap(w) && CapInv(w, s.db.rows, s.uploads) && Enabled(w, s, e)
    ensures var n := Next(w, s, e); CapInv(w, n.db.rows, n.uploads)
  {
    hide CapInv;
    if e.Commit? {
      CommitKeepsCap(w, s, e.pid, e.id);
    } else if Commits(e) {
      StoreKeepsCap(w, s, e);
    } else if e.Begin? {
      BeginKeepsCap(w, s.db.rows, s.uploads, e.pid, Upload(e.a, e.path, Writing([])));
    } else if e.Check? {
      PassedCheckKeepsCap(w, s, e);
    } else if e.Chunk? || e.Rename? || e.Abort? || e.Discard? || e.Rollback? {
      UploadKeepsCap(w, s, e);
    } else if e.Crash? {
      CrashKeepsCap(w, s);
    }
  }

  lemma {:induction false} ExecKeepsCap(w: World, s: State, es: seq<Event>)
    requires 0 < Cap(w) && CapInv(w, s.db.rows, s.uploads) && Valid(w, s, es)
    ensures var n := Exec(w, s, es); CapInv(w, n.db.rows, n.uploads)
    decreases |es|
  {
    hide Next, Enabled, CapInv;
    if es != [] {
      NextKeepsCap(w, s, es[0]);
      ExecKeepsCap(w, Next(w, s, es[0]), es[1..]);
    }
  }

  lemma TotalWithinWorstCase(w: World, rows: seq<Backup>, uploads: map<int, Upload>)
    requires CapInv(w, rows, uploads)
    ensures Total(rows) <= WorstCase(w)
  {
    PendingBound(uploads, Largest(w));
  }

  lemma OneSlot(w: World)
    requires w.slots == 1
    ensures WorstCase(w) == Cap(w)
  {
  }

  lemma CapInvAtRest(w: World, s: State)
    requires 1 <= w.slots && s.uploads == map[] && NoDebts(s.db.rows) && Total(s.db.rows) <= Cap(w)
    ensures CapInv(w, s.db.rows, s.uploads)
  {
    MulNonNegative(w.slots - 1, Largest(w));
    assert Sum(s.uploads, Pending) == 0;
  }

  /**
    From any state within the cap with no upload under way, whatever interleaves,
    the server never stores more than the cap and one largest backup for every
    slot but one.  With a single slot the cap is exact.
   */
  lemma CapOvershoot(w: World, s: State, es: seq<Event>)
    requires 0 < Cap(w) && 1 <= w.slots && Valid(w, s, es)
    requires s.uploads == map[] && NoDebts(s.db.rows) && Total(s.db.rows) <= Cap(w)
    ensures Total(Exec(w, s, es).db.rows) <= WorstCase(w)
    ensures w.slots == 1 ==> Total(Exec(w, s, es).db.rows) <= Cap(w)
  {
    CapInvAtRest(w, s);
    ExecKeepsCap(w, s, es);
    TotalWithinWorstCase(w, Exec(w, s, es).db.rows, Exec(w, s, es).uploads);
    if w.slots == 1 {
      OneSlot(w);
    }
  }

  // ---- the bound is reached ----

  /** A server that takes uploads: it has slots, versions, and room for a byte. */
  predicate TakesUploads(w: World) {
    0 < Cap(w) && Admits(w)
  }

  /** Nothing stands in the way of a new upload now. */
  ghost predicate Ready(w: World, s: State) {
    PromiseInv(w, s.db, s.uploads) && NoDebts(s.db.rows)
  }

  /** The database with one more account, which has one microcredit. */
  function WithAccount(db: Db, a: AccountId): Db {
    db.(accounts := db.accounts[a := Account(1, 0, None)], accountIds := db.accountIds + {a})
  }

  lemma NewAccount(w: World, s: State, a: AccountId) returns (es: seq<Event>)
    requires a !in s.db.accountIds && !Uploads(s, a)
    ensures Valid(w, s, es) && Exec(w, s, es) == s.(db := WithAccount(s.db, a))
  {
    var open, fund := Database(R.OpenAccount(a)), Database(R.TopUp(a, 1));
    var registered := CreateAccount(s.db, a).0;
    assert Next(w, s, open) == s.(db := registered);
    assert AddCredits(registered, a, 1).0.accounts == WithAccount(s.db, a).accounts;
    Pair(w, s, open, fund);
    es := [open, fund];
  }

  /** A fresh account with one microcredit may upload what fits under the cap. */
  lemma FreshAccountPasses(w: World, db: Db, a: AccountId, nb: NewBackup)
    requires TakesUploads(w) && R.Inv(w.config, db) && a !in db.accounts && nb.parent.None?
    requires Total(db.rows) + nb.size <= Cap(w)
    ensures Refusal(WithAccount(db, a), w.config.quota, a, nb, Total(db.rows)).None?
  {
    ForeignRows(db.rows, a);
  }

  /** The checked upload of a fresh account. */
  function Waiting(w: World, s: State, a: AccountId, path: string, content: Bytes): Upload {
    Upload(a, path, Checked(File(s.now, content), None, "", Total(s.db.rows), s.now))
  }

  /** A fresh account has received an upload completely. */
  function Arrived(s: State, pid: int, a: AccountId, path: string, content: Bytes): State {
    Finished(s.(db := WithAccount(s.db, a)), pid, a, path, content)
  }

  lemma Arrive(w: World, s: State, pid: int, a: AccountId, path: string, content: Bytes) returns (es: seq<Event>)
    requires a !in s.db.accountIds && !Uploads(s, a) && pid !in s.uploads && |s.uploads| < w.slots
    requires path !in s.used && path !in s.parts && |content| <= w.maxBackup
    ensures Valid(w, s, es) && Exec(w, s, es) == Arrived(s, pid, a, path, content)
  {
    var account := NewAccount(w, s, a);
    WholeWrite(w, s.(db := WithAccount(s.db, a)), pid, a, path, content);
    es := [Begin(pid, a, path), Chunk(pid, content)] + [Rename(pid)];
    ExecSplit(w, s, account, es);
    es := account + es;
  }

  lemma PassCheck(w: World, s: State, pid: int, a: AccountId, path: string, content: Bytes)
    requires TakesUploads(w) && R.Inv(w.config, s.db) && a !in s.db.accounts && !Uploads(s, a)
    requires content != [] && Total(s.db.rows) + |content| <= Cap(w)
    ensures var n := Arrived(s, pid, a, path, content);
            && Enabled(w, n, Check(pid, None, ""))
            && Next(w, n, Check(pid, None, ""))
               == n.(uploads := s.uploads[pid := Waiting(w, s, a, path, content)])
  {
    var n := Arrived(s, pid, a, path, content);
    FreshAccountPasses(w, s.db, a, RowOf(w, n.uploads[pid], None, ""));
    UpdatedTwice(s.uploads, pid, n.uploads[pid], Waiting(w, s, a, path, content));
  }

  lemma FreshAccount(s: State) returns (a: AccountId)
    ensures a !in s.db.accountIds && !Uploads(s, a)
  {
    var uploading := set i | i in s.uploads :: s.uploads[i].account;
    a := FreshNumber(s.db.accountIds + uploading);
    forall i | i in s.uploads
      ensures s.uploads[i].account != a
    {
      assert s.uploads[i].account in uploading;
    }
  }

  /** One more upload of a fresh account is promised room for `size` bytes. */
  lemma PromiseRoom(w: World, s: State, size: nat) returns (es: seq<Event>, pid: int, u: Upload)
    requires TakesUploads(w) && Ready(w, s) && |s.uploads| < w.slots
    requires 1 <= size <= w.maxBackup && Total(s.db.rows) + size <= Cap(w)
    ensures Valid(w, s, es) && Ready(w, Exec(w, s, es)) && pid !in s.uploads
    ensures u.phase.Checked? && Pending(u) == size && u.phase.file.mtime == s.now
    ensures var n := Exec(w, s, es); n.now == s.now && n.db.rows == s.db.rows && n.uploads == s.uploads[pid := u]
  {
    pid := FreshNumber(s.uploads.Keys);
    var a := FreshAccount(s);
    var path := FreshName(s.used + s.parts.Keys);
    var content: Bytes := seq(size, _ => 0);
    u := Waiting(w, s, a, path, content);
    es := Arrive(w, s, pid, a, path, content);
    PassCheck(w, s, pid, a, path, content);
    Single(w, Arrived(s, pid, a, path, content), Check(pid, None, ""));
    ExecSplit(w, s, es, [Check(pid, None, "")]);
    es := es + [Check(pid, None, "")];
    ExecKeepsPromises(w, s, es);
  }

  /** A promised upload commits. */
  lemma TakeRoom(w: World, s: State, pid: int) returns (es: seq<Event>)
    requires Ready(w, s) && IsChecked(s, pid) && s.uploads[pid].phase.file.mtime == s.now
    ensures Valid(w, s, es) && Ready(w, Exec(w, s, es))
    ensures var n := Exec(w, s, es);
            && n.now == s.now && n.uploads == s.uploads - {pid}
            && Total(n.db.rows) == Total(s.db.rows) + Pending(s.uploads[pid])
  {
    var id := FreshNumber(s.db.backupIds);
    var u := s.uploads[pid];
    CommitAccepted(w, s, pid, id);
    var nb := RowOf(w, u, u.phase.parent, u.phase.meta);
    A.UploadTotal(w.config, s.db, u.account, u.phase.at, nb, Outside(u.phase.total, id));
    Single(w, s, Commit(pid, id));
    es := [Commit(pid, id)];
    ExecKeepsPromises(w, s, es);
  }

  /** The server stores exactly `bytes` more, one upload after the other. */
  lemma {:induction false} Fill(w: World, s: State, bytes: nat) returns (es: seq<Event>)
    requires TakesUploads(w) && Ready(w, s) && s.uploads == map[] && Total(s.db.rows) + bytes <= Cap(w)
    ensures Valid(w, s, es) && Ready(w, Exec(w, s, es))
    ensures var n := Exec(w, s, es); n.uploads == map[] && Total(n.db.rows) == Total(s.db.rows) + bytes
    decreases bytes
  {
    hide Next, Enabled, Ready;
    if bytes == 0 {
      es := [];
    } else {
      var size := if bytes <= w.maxBackup then bytes else w.maxBackup;
      var promise, pid, u := PromiseRoom(w, s, size);
      var promised := Exec(w, s, promise);
      var take := TakeRoom(w, promised, pid);
      ExecSplit(w, s, promise, take);
      var next := Exec(w, promised, take);
      assert next.uploads == map[];
      var rest := Fill(w, next, bytes - size);
      ExecSplit(w, s, promise + take, rest);
      es := promise + take + rest;
    }
  }

  /** `n` uploads of `size` bytes have been promised room. */
  ghost predicate AllWaiting(w: World, s: State, n: nat, size: nat) {
    && Ready(w, s) && |s.uploads| == n
    && forall i :: i in s.uploads ==> IsWaiting(s, s.uploads[i], size)
  }

  predicate IsWaiting(s: State, u: Upload, size: nat) {
    u.phase.Checked? && Pending(u) == size && u.phase.file.mtime == s.now
  }

  /** All slots pass the cap check before any of them commits. */
  lemma {:induction false} PromiseAll(w: World, s: State, n: nat, size: nat) returns (es: seq<Event>)
    requires TakesUploads(w) && Ready(w, s) && s.uploads == map[] && n <= w.slots
    requires 1 <= size <= w.maxBackup && Total(s.db.rows) + size <= Cap(w)
    ensures Valid(w, s, es) && AllWaiting(w, Exec(w, s, es), n, size)
    ensures Total(Exec(w, s, es).db.rows) == Total(s.db.rows)
    decreases n
  {
    hide Next, Enabled;
    if n == 0 {
      es := [];
    } else {
      es := PromiseAll(w, s, n - 1, size);
      var more := PromiseOneMore(w, Exec(w, s, es), n, size);
      ExecSplit(w, s, es, more);
      es := es + more;
    }
  }

  lemma PromiseOneMore(w: World, s: State, n: nat, size: nat) returns (es: seq<Event>)
    requires TakesUploads(w) && 1 <= n <= w.slots && AllWaiting(w, s, n - 1, size)
    requires 1 <= size <= w.maxBackup && Total(s.db.rows) + size <= Cap(w)
    ensures Valid(w, s, es) && AllWaiting(w, Exec(w, s, es), n, size)
    ensures Total(Exec(w, s, es).db.rows) == Total(s.db.rows)
  {
    var pid, u;
    es, pid, u := PromiseRoom(w, s, size);
    KeyAdded(s.uploads, pid, u);
  }

  /** Then they all commit. */
  lemma {:induction false} TakeAll(w: World, s: State, n: nat, size: nat) returns (es: seq<Event>)
    requires AllWaiting(w, s, n, size)
    ensures Valid(w, s, es) && Total(Exec(w, s, es).db.rows) == Total(s.db.rows) + Copies(n, size)
    decreases n
  {
    hide Next, Enabled, AllWaiting;
    if n == 0 {
      es := [];
    } else {
      var more;
      es := TakeOne(w, s, n, size);
      more := TakeAll(w, Exec(w, s, es), n - 1, size);
      ExecSplit(w, s, es, more);
      es := es + more;
    }
  }

  lemma TakeOne(w: World, s: State, n: nat, size: nat) returns (es: seq<Event>)
    requires 1 <= n && AllWaiting(w, s, n, size)
    ensures Valid(w, s, es) && AllWaiting(w, Exec(w, s, es), n - 1, size)
    ensures Total(Exec(w, s, es).db.rows) == Total(s.db.rows) + size
  {
    assert |s.uploads.Keys| == n;
    var pid := Member(s.uploads.Keys);
    assert IsWaiting(s, s.uploads[pid], size);
    es := TakeRoom(w, s, pid);
    KeyRemoved(s.uploads, pid);
  }

  lemma ReadyAtStart(w: World)
    ensures Ready(w, START)
  {
  }

  lemma WorstCaseIsFull(w: World)
    requires TakesUploads(w)
    ensures WorstCase(w) == Cap(w) - Largest(w) + Copies(w.slots, Largest(w))
  {
    CopiesIsProduct(w.slots, Largest(w));
    assert w.slots * Largest(w) == (w.slots - 1) * Largest(w) + Largest(w);
  }

  /** Some run of the empty server ends with the worst case stored. */
  lemma WorstCaseReached(w: World) returns (es: seq<Event>)
    requires TakesUploads(w)
    ensures Valid(w, START, es) && Total(Exec(w, START, es).db.rows) == WorstCase(w)
  {
    hide Next, Enabled, Ready, AllWaiting;
    var size := Largest(w);
    ReadyAtStart(w);
    es := Fill(w, START, Cap(w) - size);
    var promise := PromiseAll(w, Exec(w, START, es), w.slots, size);
    ExecSplit(w, START, es, promise);
    es := es + promise;
    var take := TakeAll(w, Exec(w, START, es), w.slots, size);
    ExecSplit(w, START, es, take);
    es := es + take;
    WorstCaseIsFull(w);
  }

  ghost predicate NeverAbove(w: World, bound: int) {
    forall es: seq<Event> :: Valid(w, START, es) ==> Total(Exec(w, START, es).db.rows) <= bound
  }

  /** The overshoot bound is exact: it is the least number the stored total never exceeds. */
  lemma CapBoundExact(w: World, bound: int)
    requires TakesUploads(w)
    ensures NeverAbove(w, bound) <==> WorstCase(w) <= bound
  {
    if WorstCase(w) <= bound {
      forall es: seq<Event> | Valid(w, START, es)
        ensures Total(Exec(w, START, es).db.rows) <= bound
      {
        CapOvershoot(w, START, es);
      }
    } else {
      var es := WorstCaseReached(w);
    }
  }
}
