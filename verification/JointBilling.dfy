/**
  The storage bill over the interleavings of the joint model.  Every handler
  settles at the time it reads while it holds the lock of the account, so only a
  billing pass, whose time is older, can settle before the mark.
 */
module JointBilling {
  import opened Outcomes
  import opened Pricing
  import opened Tables
  import opened Transactions
  import opened BackupSystem
  import opened DurableBackups
  import opened BillingRuns
  import R = Runs

  /** No account settled on its own is settled with another time than the current one. */
  predicate Prompt(w: World, s: State, es: seq<Event>)
    requires Valid(w, s, es)
    decreases |es|
  {
    es == [] ||
    ((es[0].Database? && es[0].op.Settle? ==> es[0].op.now == s.now) && Prompt(w, Next(w, s, es[0]), es[1..]))
  }

  function MarkOf(db: Db, a: AccountId): Option<int> {
    if a in db.accounts then db.accounts[a].mark else None
  }

  predicate NotAfter(mark: Option<int>, now: int) {
    mark.Some? ==> mark.value <= now
  }

  /** Every account is paid up to now at most, and when a transaction is open for it, up to its time at most. */
  ghost predicate PaidInPast(now: int, db: Db, uploads: map<int, Upload>) {
    && (forall a :: NotAfter(MarkOf(db, a), now))
    && (forall i :: i in uploads && uploads[i].phase.Checked? ==>
          uploads[i].phase.at <= now && NotAfter(MarkOf(db, uploads[i].account), uploads[i].phase.at))
    && (forall i, j ::
          (&& i in uploads && j in uploads && uploads[i].phase.Checked? && uploads[j].phase.Checked?
           && uploads[i].account == uploads[j].account) ==> i == j)
  }

  lemma MarkAfter(c: Config, db: Db, op: R.Op, a: AccountId)
    requires R.Inv(c, db)
    ensures var next := MarkOf(R.Apply(c, db, op), a);
            next == None || next == MarkOf(db, a) || next == SettlesAt(c, db, op, a)
  {
    if a in db.accounts && a in R.Apply(c, db, op).accounts {
      ApplyBill(c, db, op, a);
    } else if a in R.Apply(c, db, op).accounts {
      NewlyOpened(c, db, op, a);
    }
  }

  lemma NewlyOpened(c: Config, db: Db, op: R.Op, a: AccountId)
    requires a !in db.accounts && a in R.Apply(c, db, op).accounts
    ensures MarkOf(R.Apply(c, db, op), a) == None
  {
    if Timed(op) {
      TimedEffect(c, db, op);
    }
  }

  /** A transaction settles its own account only, at the time it carries. */
  lemma SettlesOwn(c: Config, db: Db, op: R.Op, a: AccountId)
    requires SettlesAt(c, db, op, a).Some?
    ensures a == op.a && Timed(op) && SettlesAt(c, db, op, a).value == op.now
  {
  }

  /** The transaction of an event carries the current time, or the one its upload settled at under the lock. */
  lemma TimeOfEvent(w: World, s: State, e: Event)
    requires Enabled(w, s, e) && Commits(e) && (e.Database? && e.op.Settle? ==> e.op.now == s.now)
    ensures var op := OpsOf(s, w, e)[0];
            && (Timed(op) && e.Commit? ==> op.a == s.uploads[e.pid].account && op.now == s.uploads[e.pid].phase.at)
            && (Timed(op) && !e.Commit? ==> op.now == s.now && !Locked(s, op.a))
  {
  }

  /** No event settles an account before its mark. */
  lemma EventNotBehind(w: World, s: State, e: Event, a: AccountId)
    requires PaidInPast(s.now, s.db, s.uploads) && Enabled(w, s, e) && Commits(e)
    requires e.Database? && e.op.Settle? ==> e.op.now == s.now
    ensures var at := SettlesAt(w.config, s.db, OpsOf(s, w, e)[0], a);
            at.Some? ==> NotAfter(MarkOf(s.db, a), at.value)
  {
    var op := OpsOf(s, w, e)[0];
    TimeOfEvent(w, s, e);
    if SettlesAt(w.config, s.db, op, a).Some? {
      SettlesOwn(w.config, s.db, op, a);
    }
  }

  /** A committed transaction keeps the marks in the past, and before the times of the other open transactions. */
  lemma CommitsKeepPast(w: World, s: State, e: Event)
    requires R.Inv(w.config, s.db) && PaidInPast(s.now, s.db, s.uploads) && Enabled(w, s, e) && Commits(e)
    requires e.Database? && e.op.Settle? ==> e.op.now == s.now
    ensures PaidInPast(s.now, Next(w, s, e).db, if e.Commit? then s.uploads - {e.pid} else s.uploads)
  {
    var op := OpsOf(s, w, e)[0];
    NextIsTransaction(w, s, e);
    TimeOfEvent(w, s, e);
    var db, left := Next(w, s, e).db, if e.Commit? then s.uploads - {e.pid} else s.uploads;
    forall a
      ensures NotAfter(MarkOf(db, a), s.now)
      ensures forall i :: i in left && left[i].phase.Checked? && left[i].account == a ==>
                NotAfter(MarkOf(db, a), left[i].phase.at)
    {
      MarkAfter(w.config, s.db, op, a);
      if SettlesAt(w.config, s.db, op, a).Some? {
        SettlesOwn(w.config, s.db, op, a);
      }
    }
  }

  /** Open transactions that end, and uploads that are not checked, keep the marks where they are. */
  lemma FewerOpen(now: int, later: int, db: Db, uploads: map<int, Upload>, left: map<int, Upload>)
    requires PaidInPast(now, db, uploads) && now <= later
    requires forall i :: i in left && left[i].phase.Checked? ==> i in uploads && left[i] == uploads[i]
    ensures PaidInPast(later, db, left)
  {
  }

  /** A check settles now, and locks an account that was not locked. */
  lemma CheckKeepsPast(w: World, s: State, e: Event)
    requires PaidInPast(s.now, s.db, s.uploads) && Enabled(w, s, e) && e.Check?
    ensures PaidInPast(s.now, s.db, Next(w, s, e).uploads)
  {
    hide Refusal, Total;
  }

  lemma CommitEnds(w: World, s: State, e: Event)
    requires Enabled(w, s, e) && e.Commit?
    ensures var n := Next(w, s, e);
            n.now == s.now && forall i :: i in n.uploads && n.uploads[i].phase.Checked? ==>
                                i in s.uploads - {e.pid} && n.uploads[i] == s.uploads[i]
  {
    hide Committed;
  }

  /** Time does not go back, and no transaction is opened. */
  ghost predicate OpensNone(s: State, n: State) {
    && s.now <= n.now
    && forall i :: i in n.uploads && n.uploads[i].phase.Checked? ==> i in s.uploads && n.uploads[i] == s.uploads[i]
  }

  lemma UploadOpensNone(w: World, s: State, e: Event)
    requires Enabled(w, s, e) && OfUpload(e) && !e.Check? && !e.Commit?
    ensures OpensNone(s, Next(w, s, e))
  {
  }

  lemma StoreOpensNone(w: World, s: State, e: Event)
    requires Enabled(w, s, e) && OfStore(e)
    ensures var n := Next(w, s, e); n.now == s.now && n.uploads == s.uploads
  {
    hide R.Apply, DeleteBackup, PruneBackups, DeleteAccount;
  }

  lemma SweepOpensNone(w: World, s: State, e: Event)
    requires Enabled(w, s, e) && !OfStore(e) && !OfUpload(e)
    ensures OpensNone(s, Next(w, s, e))
  {
  }

  lemma NextKeepsPast(w: World, s: State, e: Event)
    requires R.Inv(w.config, s.db) && PaidInPast(s.now, s.db, s.uploads) && Enabled(w, s, e)
    requires e.Database? && e.op.Settle? ==> e.op.now == s.now
    ensures var n := Next(w, s, e); PaidInPast(n.now, n.db, n.uploads)
  {
    hide PaidInPast, Enabled;
    if e.Check? {
      CheckKeepsPast(w, s, e);
      CheckTakesNoTime(w, s, e);
    } else if e.Commit? {
      CommitsKeepPast(w, s, e);
      CommitEnds(w, s, e);
      FewerOpen(s.now, s.now, Next(w, s, e).db, s.uploads - {e.pid}, Next(w, s, e).uploads);
    } else {
      if OfStore(e) {
        StoreOpensNone(w, s, e);
      } else if OfUpload(e) {
        UploadOpensNone(w, s, e);
      } else {
        SweepOpensNone(w, s, e);
      }
      if Commits(e) {
        CommitsKeepPast(w, s, e);
      } else {
        FewerOpen(s.now, Next(w, s, e).now, s.db, s.uploads, Next(w, s, e).uploads);
      }
    }
    hide Next;
  }

  lemma CheckTakesNoTime(w: World, s: State, e: Event)
    requires Enabled(w, s, e) && e.Check?
    ensures Next(w, s, e).now == s.now
  {
    hide Refusal, Total;
  }

  lemma {:induction false} NeverBehindFrom(w: World, s: State, es: seq<Event>, a: AccountId)
    requires R.Inv(w.config, s.db) && PaidInPast(s.now, s.db, s.uploads)
    requires Valid(w, s, es) && Prompt(w, s, es)
    ensures NeverBehind(w.config, s.db, History(w, s, es), a)
    decreases |es|
  {
    hide Next, Enabled, PaidInPast, R.Inv;
    if es != [] {
      var e, rest := es[0], es[1..];
      NextKeepsPast(w, s, e);
      var next := Next(w, s, e);
      if Commits(e) {
        NextIsTransaction(w, s, e);
        R.ApplyKeepsInv(w.config, s.db, OpsOf(s, w, e)[0]);
        EventNotBehind(w, s, e, a);
        var ops := History(w, s, es);
        NeverBehindFrom(w, next, rest, a);
        assert ops[0] == OpsOf(s, w, e)[0] && ops[1..] == History(w, next, rest);
      } else {
        NeverBehindFrom(w, next, rest, a);
        assert History(w, s, es) == History(w, next, rest);
      }
    }
  }

  /**
    In every interleaving of the server in which settlements on their own are made
    at the current time, uploads, deletes and prunes never settle an account before
    its mark.
   */
  lemma HandlersNeverBehind(w: World, es: seq<Event>, a: AccountId)
    requires Valid(w, START, es) && Prompt(w, START, es)
    ensures NeverBehind(w.config, EMPTY, History(w, START, es), a)
  {
    NeverBehindFrom(w, START, es, a);
  }

  /**
    So the bill of the interleaved server is right: from any moment at which the
    account is paid up to some time, to any later one, it brackets the exact integral
    of the bytes the account stored, and every instant is billed exactly once.
   */
  lemma InterleavedBill(w: World, p: Prices, before: seq<Event>, after: seq<Event>, a: AccountId)
    requires w.config.pricer == PricerOf(p)
    requires Valid(w, START, before) && Valid(w, Exec(w, START, before), after)
    requires Prompt(w, START, before) && Prompt(w, Exec(w, START, before), after)
    requires var db := Exec(w, START, before).db; a in db.accounts && db.accounts[a].mark.Some?
    requires a in Exec(w, Exec(w, START, before), after).db.accounts
    ensures var s := Exec(w, START, before);
            var end, ops := Exec(w, s, after), History(w, s, after);
            var first := s.db.accounts[a].mark.value;
            && end.db == R.Run(w.config, s.db, ops) && end.db.accounts[a].mark.Some?
            && var last := end.db.accounts[a].mark.value;
               && Bracketed(p, StorageBill(end.db.usage, a) - StorageBill(s.db.usage, a),
                            Integral(w.config, p, s.db, ops, a, first, last), Charges(w.config, s.db, ops, a))
               && OnceEach(w.config, s.db, ops, a, first, last)
  {
    hide *;
    var s := Exec(w, START, before);
    ReachedPast(w, before);
    ExecIsRun(w, s, after);
    NeverBehindFrom(w, s, after, a);
    BillRight(w.config, p, s.db, History(w, s, after), a);
  }

  /** Both results about runs that never settle behind a mark. */
  lemma BillRight(c: Config, p: Prices, db: Db, ops: seq<R.Op>, a: AccountId)
    requires c.pricer == PricerOf(p) && R.Inv(c, db)
    requires a in db.accounts && db.accounts[a].mark.Some?
    requires a in R.Run(c, db, ops).accounts && NeverBehind(c, db, ops, a)
    ensures var end := R.Run(c, db, ops);
            && end.accounts[a].mark.Some?
            && var first, last := db.accounts[a].mark.value, end.accounts[a].mark.value;
               && Bracketed(p, StorageBill(end.usage, a) - StorageBill(db.usage, a),
                            Integral(c, p, db, ops, a, first, last), Charges(c, db, ops, a))
               && OnceEach(c, db, ops, a, first, last)
  {
    BillIsIntegral(c, p, db, ops, a);
    BilledOnceIff(c, db, ops, a);
  }

  lemma ReachedPast(w: World, es: seq<Event>)
    requires Valid(w, START, es) && Prompt(w, START, es)
    ensures var s := Exec(w, START, es); R.Inv(w.config, s.db) && PaidInPast(s.now, s.db, s.uploads)
  {
    ReachedByRun(w, es);
    ExecKeepsPast(w, START, es);
  }

  lemma {:induction false} ExecKeepsPast(w: World, s: State, es: seq<Event>)
    requires R.Inv(w.config, s.db) && PaidInPast(s.now, s.db, s.uploads)
    requires Valid(w, s, es) && Prompt(w, s, es)
    ensures var n := Exec(w, s, es); PaidInPast(n.now, n.db, n.uploads)
    decreases |es|
  {
    hide Next, Enabled, PaidInPast, R.Inv;
    if es != [] {
      NextKeepsPast(w, s, es[0]);
      if Commits(es[0]) {
        NextIsTransaction(w, s, es[0]);
        R.ApplyKeepsInv(w.config, s.db, OpsOf(s, w, es[0])[0]);
      }
      ExecKeepsPast(w, Next(w, s, es[0]), es[1..]);
    }
  }
}
