/**
  Upload admission.  acquireUpload takes a semaphore token and then claims the
  account in a map; release undoes both in the opposite order.  Each event is one
  such step of one handler.
 */
module UploadSlots {
  import opened Arithmetic
  import B = BackupSystem

  datatype Stage =
    | HasToken     // token taken, map not yet looked at
    | TurnedAway   // account busy, token still to be given back
    | Uploading    // admitted
    | Leaving      // account unclaimed, token still to be given back

  datatype Handler = Handler(account: int, stage: Stage)

  datatype State = State(tokens: int, uploading: set<int>, handlers: map<int, Handler>)

  datatype Event =
    | Acquire(pid: int, account: int)
    | Claim(pid: int)
    | GiveBack(pid: int)
    | Unclaim(pid: int)
    | Release(pid: int)
    | Crash

  const IDLE := State(0, {}, map[])

  predicate At(s: State, pid: int, stage: Stage) {
    pid in s.handlers && s.handlers[pid].stage == stage
  }

  predicate Enabled(slots: nat, s: State, e: Event) {
    match e
    case Acquire(pid, _) => pid !in s.handlers && s.tokens < slots
    case Claim(pid) => At(s, pid, HasToken)
    case GiveBack(pid) => At(s, pid, TurnedAway)
    case Unclaim(pid) => At(s, pid, Uploading)
    case Release(pid) => At(s, pid, Leaving)
    case Crash => true
  }

  function Moved(s: State, pid: int, stage: Stage): State
    requires pid in s.handlers
  {
    s.(handlers := s.handlers[pid := s.handlers[pid].(stage := stage)])
  }

  function Next(slots: nat, s: State, e: Event): State
    requires Enabled(slots, s, e)
  {
    match e
    case Acquire(pid, a) => s.(tokens := s.tokens + 1, handlers := s.handlers[pid := Handler(a, HasToken)])
    case Claim(pid) =>
      var a := s.handlers[pid].account;
      if a in s.uploading then Moved(s, pid, TurnedAway)
      else Moved(s, pid, Uploading).(uploading := s.uploading + {a})
    case GiveBack(pid) => s.(tokens := s.tokens - 1, handlers := s.handlers - {pid})
    case Unclaim(pid) => Moved(s, pid, Leaving).(uploading := s.uploading - {s.handlers[pid].account})
    case Release(pid) => s.(tokens := s.tokens - 1, handlers := s.handlers - {pid})
    case Crash => IDLE
  }

  predicate Valid(slots: nat, s: State, es: seq<Event>)
    decreases |es|
  {
    es == [] || (Enabled(slots, s, es[0]) && Valid(slots, Next(slots, s, es[0]), es[1..]))
  }

  function Exec(slots: nat, s: State, es: seq<Event>): State
    requires Valid(slots, s, es)
    decreases |es|
  {
    if es == [] then s else Exec(slots, Next(slots, s, es[0]), es[1..])
  }

  /**
    Every handler holds exactly one token and no token is lost; the claimed
    accounts are exactly those of the admitted handlers, one handler each.
   */
  ghost predicate SlotsInv(slots: nat, s: State) {
    && s.tokens == |s.handlers| <= slots
    && (forall i :: i in s.handlers && Admitted(s.handlers[i]) ==> s.handlers[i].account in s.uploading)
    && (forall a :: a in s.uploading ==> Admits(s, a))
    && (forall i, j ::
          (i in s.handlers && j in s.handlers && Admitted(s.handlers[i]) && Admitted(s.handlers[j])
           && s.handlers[i].account == s.handlers[j].account) ==> i == j)
  }

  predicate Admitted(h: Handler) {
    h.stage.Uploading?
  }

  predicate Admits(s: State, a: int) {
    exists i :: i in s.handlers && Admitted(s.handlers[i]) && s.handlers[i].account == a
  }

  /** Whoever was admitted still is, unless it is `pid`. */
  lemma StillAdmits(s: State, n: State, pid: int, a: int)
    requires Admits(s, a)
    requires forall i :: i in s.handlers && i != pid ==> i in n.handlers && n.handlers[i] == s.handlers[i]
    requires pid in s.handlers && Admitted(s.handlers[pid]) && s.handlers[pid].account == a ==> Admits(n, a)
    ensures Admits(n, a)
  {
    var i :| i in s.handlers && Admitted(s.handlers[i]) && s.handlers[i].account == a;
    if i != pid {
      assert i in n.handlers && Admitted(n.handlers[i]) && n.handlers[i].account == a;
    }
  }

  /** Moves that do not change who is admitted. */
  lemma MoveKeepsSlots(slots: nat, s: State, pid: int, stage: Stage)
    requires SlotsInv(slots, s) && pid in s.handlers
    requires !Admitted(s.handlers[pid]) && !Admitted(Handler(0, stage))
    ensures SlotsInv(slots, Moved(s, pid, stage))
  {
    var next := Moved(s, pid, stage);
    assert next.handlers.Keys == s.handlers.Keys;
    forall a | a in next.uploading
      ensures Admits(next, a)
    {
      StillAdmits(s, next, pid, a);
    }
  }

  lemma AdmitKeepsSlots(slots: nat, s: State, pid: int)
    requires SlotsInv(slots, s) && At(s, pid, HasToken) && s.handlers[pid].account !in s.uploading
    ensures SlotsInv(slots, Moved(s, pid, Uploading).(uploading := s.uploading + {s.handlers[pid].account}))
  {
    var next := Moved(s, pid, Uploading).(uploading := s.uploading + {s.handlers[pid].account});
    assert next.handlers.Keys == s.handlers.Keys;
    forall a | a in next.uploading
      ensures Admits(next, a)
    {
      if a in s.uploading {
        StillAdmits(s, next, pid, a);
      } else {
        assert pid in next.handlers && Admitted(next.handlers[pid]) && next.handlers[pid].account == a;
      }
    }
  }

  lemma ClaimKeepsSlots(slots: nat, s: State, pid: int)
    requires SlotsInv(slots, s) && At(s, pid, HasToken)
    ensures SlotsInv(slots, Next(slots, s, Claim(pid)))
  {
    if s.handlers[pid].account in s.uploading {
      MoveKeepsSlots(slots, s, pid, TurnedAway);
    } else {
      AdmitKeepsSlots(slots, s, pid);
    }
  }

  lemma UnclaimKeepsSlots(slots: nat, s: State, pid: int)
    requires SlotsInv(slots, s) && At(s, pid, Uploading)
    ensures SlotsInv(slots, Next(slots, s, Unclaim(pid)))
  {
    var next := Next(slots, s, Unclaim(pid));
    assert next.handlers.Keys == s.handlers.Keys;
    forall a | a in next.uploading
      ensures Admits(next, a)
    {
      StillAdmits(s, next, pid, a);
    }
  }

  lemma LeaveKeepsSlots(slots: nat, s: State, pid: int)
    requires SlotsInv(slots, s) && pid in s.handlers && !Admitted(s.handlers[pid])
    ensures SlotsInv(slots, s.(tokens := s.tokens - 1, handlers := s.handlers - {pid}))
  {
    var next := s.(tokens := s.tokens - 1, handlers := s.handlers - {pid});
    assert s.handlers.Keys == next.handlers.Keys + {pid};
    forall a | a in next.uploading
      ensures Admits(next, a)
    {
      StillAdmits(s, next, pid, a);
    }
  }

  lemma AcquireKeepsSlots(slots: nat, s: State, pid: int, a: int)
    requires SlotsInv(slots, s) && Enabled(slots, s, Acquire(pid, a))
    ensures SlotsInv(slots, Next(slots, s, Acquire(pid, a)))
  {
    var next := Next(slots, s, Acquire(pid, a));
    assert next.handlers.Keys == s.handlers.Keys + {pid};
    forall x | x in next.uploading
      ensures Admits(next, x)
    {
      StillAdmits(s, next, pid, x);
    }
  }

  /** Each step keeps tokens, handlers and claims in agreement. */
  lemma NextKeepsSlots(slots: nat, s: State, e: Event)
    requires SlotsInv(slots, s) && Enabled(slots, s, e)
    ensures SlotsInv(slots, Next(slots, s, e))
  {
    match e
    case Acquire(pid, a) => AcquireKeepsSlots(slots, s, pid, a);
    case Claim(pid) => ClaimKeepsSlots(slots, s, pid);
    case GiveBack(pid) => LeaveKeepsSlots(slots, s, pid);
    case Unclaim(pid) => UnclaimKeepsSlots(slots, s, pid);
    case Release(pid) => LeaveKeepsSlots(slots, s, pid);
    case Crash =>
  }

  lemma {:induction false} ExecKeepsSlots(slots: nat, s: State, es: seq<Event>)
    requires SlotsInv(slots, s) && Valid(slots, s, es)
    ensures SlotsInv(slots, Exec(slots, s, es))
    decreases |es|
  {
    if es != [] {
      NextKeepsSlots(slots, s, es[0]);
      ExecKeepsSlots(slots, Next(slots, s, es[0]), es[1..]);
    }
  }

  /** The handlers that are uploading. */
  function Busy(s: State): set<int> {
    set i | i in s.handlers && Admitted(s.handlers[i])
  }

  /**
    In every interleaving a handler is admitted only while fewer than `slots`
    others upload, and exactly when none of them is for its account.
   */
  lemma AdmissionGuard(slots: nat, es: seq<Event>, pid: int)
    requires Valid(slots, IDLE, es) && At(Exec(slots, IDLE, es), pid, HasToken)
    ensures var s := Exec(slots, IDLE, es);
            At(Next(slots, s, Claim(pid)), pid, Uploading)
            <==> forall i :: i in Busy(s) ==> s.handlers[i].account != s.handlers[pid].account
    ensures |Busy(Exec(slots, IDLE, es))| < slots
  {
    ExecKeepsSlots(slots, IDLE, es);
    var s := Exec(slots, IDLE, es);
    assert Busy(s) <= s.handlers.Keys - {pid};
    SubsetSize(Busy(s), s.handlers.Keys - {pid});
    assert |s.handlers| == |s.handlers.Keys|;
  }

  /** A handler that is turned away, or lets go, gives back exactly what it took. */
  lemma NothingKept(slots: nat, s: State, pid: int, a: int)
    requires SlotsInv(slots, s) && Enabled(slots, s, Acquire(pid, a))
    ensures var token := Next(slots, s, Acquire(pid, a));
            var claimed := Next(slots, token, Claim(pid));
            if a in s.uploading then Next(slots, claimed, GiveBack(pid)) == s
            else Next(slots, Next(slots, claimed, Unclaim(pid)), Release(pid)) == s
  {
    var token := Next(slots, s, Acquire(pid, a));
    var claimed := Next(slots, token, Claim(pid));
    if a in s.uploading {
      assert claimed.handlers - {pid} == s.handlers;
    } else {
      var left := Next(slots, claimed, Unclaim(pid));
      assert left.handlers - {pid} == s.handlers && left.uploading == s.uploading;
    }
  }

  // ---- uploads of the joint model of rows and files ----

  /** Every upload under way in `b` belongs to an admitted handler of `s`, of the same number and account. */
  ghost predicate Covers(s: State, b: B.State) {
    forall i :: i in b.uploads ==> i in Busy(s) && s.handlers[i].account == b.uploads[i].account
  }

  lemma CoveredAreFewer(s: State, b: B.State)
    requires Covers(s, b)
    ensures |b.uploads| <= |Busy(s)|
  {
    forall i | i in b.uploads.Keys
      ensures i in Busy(s)
    {
      assert i in b.uploads;
    }
    SubsetSize(b.uploads.Keys, Busy(s));
    assert |b.uploads| == |b.uploads.Keys|;
  }

  /**
    Whenever a handler is admitted, its upload can begin in the joint model, under
    any name not taken yet, and is covered from then on.
   */
  lemma AdmittedBegins(w: B.World, s: State, b: B.State, pid: int, path: string)
    requires SlotsInv(w.slots, s) && Covers(s, b) && At(s, pid, HasToken) && path !in b.used
    requires At(Next(w.slots, s, Claim(pid)), pid, Uploading)
    ensures B.Enabled(w, b, B.Begin(pid, s.handlers[pid].account, path))
    ensures Covers(Next(w.slots, s, Claim(pid)), B.Next(w, b, B.Begin(pid, s.handlers[pid].account, path)))
  {
    assert Busy(s) <= s.handlers.Keys - {pid};
    SubsetSize(Busy(s), s.handlers.Keys - {pid});
    assert |s.handlers| == |s.handlers.Keys|;
    CoveredAreFewer(s, b);
    assert s.handlers[pid].account !in s.uploading;
  }

  /** The other steps of the handlers keep the uploads covered, if a handler lets go only after its upload. */
  lemma StepKeepsCovered(slots: nat, s: State, b: B.State, e: Event)
    requires SlotsInv(slots, s) && Enabled(slots, s, e) && Covers(s, b) && !e.Crash?
    requires e.Unclaim? ==> e.pid !in b.uploads
    ensures Covers(Next(slots, s, e), b)
  {
  }

  /** The other steps of the joint model begin no upload, and do not change the account of one. */
  lemma UploadsKeepCovered(w: B.World, s: State, b: B.State, e: B.Event)
    requires B.Enabled(w, b, e) && Covers(s, b) && !e.Begin?
    ensures Covers(s, B.Next(w, b, e))
  {
    B.NextContinues(w, b, e);
    hide B.Next, B.Enabled;
  }
}
