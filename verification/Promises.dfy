/**
  Upload transactions that overlap.  An upload that passed its checks holds the
  lock of its account, so nothing other accounts commit in the meantime changes
  their answer; only the sum its cap check read may be out of date.
 */
module Promises {
  import opened Outcomes
  import opened Tables
  import opened Transactions
  import opened BackupSystem
  import opened DurableBackups
  import A = Admission
  import C = Chains
  import R = Runs

  /** Every account has one upload at most. */
  ghost predicate OnePerAccount(uploads: map<int, Upload>) {
    forall i, j :: i in uploads && j in uploads && uploads[i].account == uploads[j].account ==> i == j
  }

  /** The upload would pass its checks again, with the sum they read. */
  predicate Promised(w: World, db: Db, u: Upload)
    requires u.phase.Checked?
  {
    var p := u.phase;
    Refusal(db, w.config.quota, u.account, RowOf(w, u, p.parent, p.meta), p.total).None?
  }

  ghost predicate PromiseInv(w: World, db: Db, uploads: map<int, Upload>) {
    && R.Inv(w.config, db) && OnePerAccount(uploads)
    && forall i :: i in uploads && uploads[i].phase.Checked? ==> Promised(w, db, uploads[i])
  }

  /** Uploads that stop, or do anything but pass their checks, break no promise. */
  lemma SameDbKeeps(w: World, db: Db, uploads: map<int, Upload>, left: map<int, Upload>)
    requires PromiseInv(w, db, uploads)
    requires forall i :: i in left ==>
               && i in uploads && left[i].account == uploads[i].account
               && (left[i].phase.Checked? ==> left[i] == uploads[i] || Promised(w, db, left[i]))
    ensures PromiseInv(w, db, left)
  {
  }

  lemma BeginKeepsPromises(w: World, db: Db, uploads: map<int, Upload>, pid: int, u: Upload)
    requires PromiseInv(w, db, uploads) && pid !in uploads && u.phase.Writing?
    requires forall i :: i in uploads ==> uploads[i].account != u.account
    ensures PromiseInv(w, db, uploads[pid := u])
  {
  }

  /** A transaction of one account keeps what is promised to others. */
  lemma PromiseKept(w: World, db: Db, op: R.Op, u: Upload)
    requires R.Inv(w.config, db) && u.phase.Checked? && Promised(w, db, u) && op.a != u.account
    ensures Promised(w, R.Apply(w.config, db, op), u)
  {
    var p := u.phase;
    R.ApplyKeepsInv(w.config, db, op);
    A.OthersUntouched(w.config, db, op, u.account);
    A.SameRefusal(w.config, db, R.Apply(w.config, db, op), u.account, RowOf(w, u, p.parent, p.meta), p.total);
  }

  lemma TransactionKeeps(w: World, db: Db, op: R.Op, uploads: map<int, Upload>)
    requires PromiseInv(w, db, uploads)
    requires forall i :: i in uploads && uploads[i].phase.Checked? ==> uploads[i].account != op.a
    ensures PromiseInv(w, R.Apply(w.config, db, op), uploads)
  {
    R.ApplyKeepsInv(w.config, db, op);
    forall i | i in uploads && uploads[i].phase.Checked?
      ensures Promised(w, R.Apply(w.config, db, op), uploads[i])
    {
      PromiseKept(w, db, op, uploads[i]);
    }
  }

  /** A commit is never refused: the id is fresh, and the lock kept the promise. */
  lemma CommitAccepted(w: World, s: State, pid: int, id: BackupId)
    requires PromiseInv(w, s.db, s.uploads) && Enabled(w, s, Commit(pid, id))
    ensures Committed(w, s.db, s.uploads[pid], id).1.Ok?
  {
    var u := s.uploads[pid];
    assert Promised(w, s.db, u);
    C.UploadUnique(w.config, s.db, u.account, RowOf(w, u, u.phase.parent, u.phase.meta), id);
  }

  /** The other uploads, when one of them commits. */
  lemma CommitKeepsPromises(w: World, s: State, pid: int, id: BackupId)
    requires PromiseInv(w, s.db, s.uploads) && Enabled(w, s, Commit(pid, id))
    ensures var n := Next(w, s, Commit(pid, id)); PromiseInv(w, n.db, n.uploads)
  {
    var others := s.uploads - {pid};
    CommitAccepted(w, s, pid, id);
    CommitIsUpload(w, s, pid, id);
    SameDbKeeps(w, s.db, s.uploads, others);
    TransactionKeeps(w, s.db, OpsOf(s, w, Commit(pid, id))[0], others);
  }

  lemma StoreKeepsPromises(w: World, s: State, e: Event)
    requires PromiseInv(w, s.db, s.uploads) && Enabled(w, s, e) && Commits(e) && !e.Commit?
    ensures var n := Next(w, s, e); PromiseInv(w, n.db, n.uploads)
  {
    var op := OpsOf(s, w, e)[0];
    NextIsTransaction(w, s, e);
    TransactionKeeps(w, s.db, op, s.uploads);
  }

  lemma QuietKeepsPromises(w: World, s: State, e: Event)
    requires PromiseInv(w, s.db, s.uploads) && Enabled(w, s, e) && !Commits(e) && !e.Begin?
    ensures var n := Next(w, s, e); PromiseInv(w, n.db, n.uploads)
  {
    hide CreateBackup, DeleteBackup, PruneBackups, DeleteAccount;
    SameDbKeeps(w, s.db, s.uploads, Next(w, s, e).uploads);
  }

  lemma NextKeepsPromises(w: World, s: State, e: Event)
    requires PromiseInv(w, s.db, s.uploads) && Enabled(w, s, e)
    ensures var n := Next(w, s, e); PromiseInv(w, n.db, n.uploads)
  {
    hide PromiseInv, CreateBackup, DeleteBackup, PruneBackups, DeleteAccount;
    if e.Begin? {
      BeginKeepsPromises(w, s.db, s.uploads, e.pid, Upload(e.a, e.path, Writing([])));
    } else if e.Commit? {
      CommitKeepsPromises(w, s, e.pid, e.id);
    } else if Commits(e) {
      StoreKeepsPromises(w, s, e);
    } else {
      QuietKeepsPromises(w, s, e);
    }
  }

  lemma {:induction false} ExecKeepsPromises(w: World, s: State, es: seq<Event>)
    requires PromiseInv(w, s.db, s.uploads) && Valid(w, s, es)
    ensures var n := Exec(w, s, es); PromiseInv(w, n.db, n.uploads)
    decreases |es|
  {
    hide Next, Enabled, PromiseInv;
    if es != [] {
      NextKeepsPromises(w, s, es[0]);
      ExecKeepsPromises(w, Next(w, s, es[0]), es[1..]);
    }
  }

  /**
    Whatever interleaves between its checks and its commit, a checked upload that
    commits in time is accepted: check and insert are atomic but for the cap.
   */
  lemma CheckedUploadsCommit(w: World, es: seq<Event>, pid: int, id: BackupId)
    requires Valid(w, START, es) && Enabled(w, Exec(w, START, es), Commit(pid, id))
    ensures Committed(w, Exec(w, START, es).db, Exec(w, START, es).uploads[pid], id).1.Ok?
  {
    hide Next, Committed;
    ExecKeepsPromises(w, START, es);
    CommitAccepted(w, Exec(w, START, es), pid, id);
  }
}
