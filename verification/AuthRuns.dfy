/**
  Verify and enroll handlers, logouts, deletes and the janitor, interleaved one
  statement at a time.  Nonces and token hashes are fresh, and the database
  clock does not go back.
 */
module AuthRuns {
  import opened Outcomes
  import opened AuthTables
  import opened Arithmetic

  // Whether a signature by the key is valid for the nonce; the scheme itself is not part of this model.
  datatype World = World(signed: (string, string, string) -> bool)

  // A handler that has redeemed a challenge, and then loaded the device.
  datatype Verifying =
    | Redeemed(challenge: int, device: int, nonce: string)
    | Loaded(challenge: int, device: int, nonce: string, account: int, key: string)

  // A handler that has redeemed an enrollment token.
  datatype Enrolling = Enrolling(hash: string, account: int)

  // What was created in exchange for a challenge or a token.
  datatype Minted = Minted(challenge: int, signature: string, hash: string, session: Session)
  datatype Enrolled = Enrolled(hash: string, device: int, account: int, key: string)

  // What a challenge asks for: a signature of the nonce by the device.
  datatype Issue = Issue(device: int, nonce: string)

  // Which sessions, devices, challenges, device keys and tokens there ever were.
  datatype Log = Log(minted: seq<Minted>, enrolled: seq<Enrolled>, issued: map<int, Issue>, known: map<int, Device>,
                     granted: map<string, int>)

  const NOTHING := Log([], [], map[], map[], map[])

  datatype State = State(t: Tables, verifying: map<int, Verifying>, enrolling: map<int, Enrolling>,
                         log: Log, hashes: set<string>)

  const START := State(NO_ROWS, map[], map[], NOTHING, {})

  datatype Expiring = Challenges | Enrollments | Sessions

  datatype Event =
    | Tick(d: nat)
    | SignUp
    | IssueChallenge(device: int, nonce: string, ttl: int)
    | IssueToken(account: int, hash: string, ttl: int)
    | Redeem(pid: int, id: int, nonce: string)
    | Load(pid: int)
    | Admit(pid: int, signature: string, hash: string, ttl: int)
    | Drop(pid: int)
    | RedeemToken(pid: int, hash: string)
    | Enroll(pid: int, key: string)
    | DropToken(pid: int)
    | Lookup(hash: string)
    | Logout(hash: string)
    | LogoutAll(account: int, keep: Option<string>)
    | RemoveDevice(account: int, id: int)
    | RemoveAccount(account: int)
    | Purge(table: Expiring)

  datatype Answer =
    | Quiet
    | Outcome(r: Result<int, AuthError>)
    | Found(s: Result<Session, AuthError>)
    | Revocations(n: nat)

  predicate Enabled(w: World, s: State, e: Event) {
    match e
    case IssueToken(_, hash, _) => hash !in s.hashes
    case Redeem(pid, _, _) => pid !in s.verifying
    case Load(pid) => pid in s.verifying && s.verifying[pid].Redeemed?
    case Admit(pid, _, hash, _) =>
      pid in s.verifying && s.verifying[pid].Loaded? && hash !in s.hashes
    case Drop(pid) => pid in s.verifying
    case RedeemToken(pid, _) => pid !in s.enrolling
    case Enroll(pid, _) => pid in s.enrolling
    case DropToken(pid) => pid in s.enrolling
    case _ => true
  }

  function Plain(r: Result<(), AuthError>): Answer {
    match r case Ok(_) => Outcome(Ok(0)) case Err(e) => Outcome(Err(e))
  }

  function PurgeTable(t: Tables, which: Expiring): Tables {
    match which
    case Challenges => PurgeChallenges(t)
    case Enrollments => PurgeEnrollments(t)
    case Sessions => PurgeSessions(t)
  }

  function Step(w: World, s: State, e: Event): (State, Answer)
    requires Enabled(w, s, e)
  {
    match e
    case Tick(d) => (s.(t := s.t.(now := s.t.now + d)), Quiet)
    case SignUp => (s.(t := CreateAccount(s.t)), Quiet)
    case IssueChallenge(device, nonce, ttl) =>
      var (t, r) := CreateChallenge(s.t, device, nonce, ttl);
      if r.Err? then (s, Outcome(r)) else
      (s.(t := t, log := s.log.(issued := s.log.issued[r.value := Issue(device, nonce)])), Outcome(r))
    case IssueToken(account, hash, ttl) =>
      var (t, r) := CreateEnrollmentToken(s.t, account, hash, ttl);
      var rest := s.(t := t, hashes := s.hashes + {hash});
      (if r.Ok? then rest.(log := s.log.(granted := s.log.granted[hash := account])) else rest, Plain(r))
    case Redeem(pid, id, nonce) =>
      var (t, r) := ConsumeChallenge(s.t, id, nonce);
      if r.Err? then (s, Outcome(r)) else
      (s.(t := t, verifying := s.verifying[pid := Redeemed(id, r.value, nonce)]), Outcome(r))
    case Load(pid) =>
      var v := s.verifying[pid];
      if v.device !in s.t.devices then (s.(verifying := s.verifying - {pid}), Outcome(Err(NotFound))) else
      var d := s.t.devices[v.device];
      var loaded := Loaded(v.challenge, v.device, v.nonce, d.account, d.key);
      (s.(verifying := s.verifying[pid := loaded]), Outcome(Ok(v.device)))
    case Admit(pid, signature, hash, ttl) =>
      var v := s.verifying[pid];
      if !w.signed(v.key, v.nonce, signature) then
        (s.(verifying := s.verifying - {pid}), Outcome(Err(Unauthorized)))
      else
      var (t, r) := CreateSession(s.t, v.account, v.device, hash, ttl);
      var rest := s.(verifying := s.verifying - {pid}, hashes := s.hashes + {hash});
      if r.Err? then (rest, Plain(r)) else
      var m := Minted(v.challenge, signature, hash, t.sessions[hash]);
      (rest.(t := t, log := s.log.(minted := s.log.minted + [m])), Plain(r))
    case Drop(pid) => (s.(verifying := s.verifying - {pid}), Quiet)
    case RedeemToken(pid, hash) =>
      var (t, r) := ConsumeEnrollmentToken(s.t, hash);
      (if r.Ok? then s.(t := t, enrolling := s.enrolling[pid := Enrolling(hash, r.value)]) else s, Outcome(r))
    case Enroll(pid, key) =>
      var v := s.enrolling[pid];
      var (t, r) := CreateDevice(s.t, v.account, key);
      var rest := s.(enrolling := s.enrolling - {pid});
      if r.Err? then (rest, Outcome(r)) else
      var x := Enrolled(v.hash, r.value, v.account, key);
      var log := s.log.(known := s.log.known[x.device := Device(x.account, x.key)], enrolled := s.log.enrolled + [x]);
      (rest.(t := t, log := log), Outcome(r))
    case DropToken(pid) => (s.(enrolling := s.enrolling - {pid}), Quiet)
    case Lookup(hash) => (s, Found(SessionByTokenHash(s.t, hash)))
    case Logout(hash) => (s.(t := DeleteSession(s.t, hash)), Quiet)
    case LogoutAll(account, keep) =>
      var (t, n) := DeleteSessions(s.t, account, keep);
      (s.(t := t), Revocations(n))
    case RemoveDevice(account, id) =>
      var (t, r) := DeleteDevice(s.t, account, id);
      (s.(t := t), Plain(r))
    case RemoveAccount(account) =>
      var (t, r) := DeleteAccount(s.t, account);
      (s.(t := t), Plain(r))
    case Purge(which) => (s.(t := PurgeTable(s.t, which)), Quiet)
  }

  predicate Valid(w: World, s: State, es: seq<Event>)
    decreases |es|
  {
    es == [] || (Enabled(w, s, es[0]) && Valid(w, Step(w, s, es[0]).0, es[1..]))
  }

  function Exec(w: World, s: State, es: seq<Event>): State
    requires Valid(w, s, es)
    decreases |es|
  {
    if es == [] then s else Exec(w, Step(w, s, es[0]).0, es[1..])
  }

  // ---- single redemption ----

  /** Challenge `c` has been spent: it is not in the table, or marked there. */
  predicate Spent(t: Tables, c: int) {
    c < t.nextChallenge && (c in t.challenges ==> t.challenges[c].used)
  }

  ghost predicate ChallengesOnce(s: State) {
    && (forall c :: c in s.t.challenges ==> c < s.t.nextChallenge)
    && (forall p :: p in s.verifying ==> Spent(s.t, s.verifying[p].challenge))
    && (forall m :: m in s.log.minted ==> Spent(s.t, m.challenge))
    && (forall p, q ::
          p in s.verifying && q in s.verifying && s.verifying[p].challenge == s.verifying[q].challenge ==> p == q)
    && (forall p, m :: p in s.verifying && m in s.log.minted ==> s.verifying[p].challenge != m.challenge)
    && (forall i, j :: 0 <= i < j < |s.log.minted| ==> s.log.minted[i].challenge != s.log.minted[j].challenge)
  }

  predicate SpentToken(s: State, h: string) {
    h in s.hashes && (h in s.t.enrollments ==> s.t.enrollments[h].used)
  }

  ghost predicate TokensOnce(s: State) {
    && (forall h :: h in s.t.enrollments ==> h in s.hashes)
    && (forall p :: p in s.enrolling ==> SpentToken(s, s.enrolling[p].hash))
    && (forall x :: x in s.log.enrolled ==> SpentToken(s, x.hash))
    && (forall p, q :: p in s.enrolling && q in s.enrolling && s.enrolling[p].hash == s.enrolling[q].hash ==> p == q)
    && (forall p, x :: p in s.enrolling && x in s.log.enrolled ==> s.enrolling[p].hash != x.hash)
    && (forall i, j :: 0 <= i < j < |s.log.enrolled| ==> s.log.enrolled[i].hash != s.log.enrolled[j].hash)
  }

  /** Devices and challenges hang on what is there. */
  ghost predicate DevicesFit(
      accounts: set<int>, devices: map<int, Device>, nextDevice: int, challenges: map<int, Challenge>)
  {
    && (forall d :: d in devices ==> d < nextDevice && devices[d].account in accounts)
    && (forall c :: c in challenges ==> challenges[c].device in devices)
  }

  /** Every session belongs to a live device of its account. */
  ghost predicate SessionsFit(devices: map<int, Device>, sessions: map<string, Session>) {
    forall h :: h in sessions ==>
      sessions[h].device in devices && devices[sessions[h].device].account == sessions[h].account
  }

  /** Handlers know the account of their device. */
  ghost predicate HandlersFit(devices: map<int, Device>, nextDevice: int, verifying: map<int, Verifying>) {
    && (forall p :: p in verifying ==> verifying[p].device < nextDevice)
    && (forall p :: p in verifying && verifying[p].Loaded? && verifying[p].device in devices ==>
          devices[verifying[p].device].account == verifying[p].account)
  }

  predicate IsMinted(minted: seq<Minted>, h: string, session: Session) {
    exists m :: m in minted && m.hash == h && m.session == session
  }

  ghost predicate AllMinted(sessions: map<string, Session>, minted: seq<Minted>) {
    forall h :: h in sessions ==> IsMinted(minted, h, sessions[h])
  }

  /** Every session belongs to a live device of its account, and was minted. */
  ghost predicate SessionsOwned(s: State) {
    && DevicesFit(s.t.accounts, s.t.devices, s.t.nextDevice, s.t.challenges)
    && SessionsFit(s.t.devices, s.t.sessions)
    && HandlersFit(s.t.devices, s.t.nextDevice, s.verifying) && AllMinted(s.t.sessions, s.log.minted)
  }

  /** Fewer challenges, fewer handlers, and the same history. */
  lemma ChallengesFrame(s: State, n: State)
    requires ChallengesOnce(s) && n.log.minted == s.log.minted && n.t.nextChallenge == s.t.nextChallenge
    requires forall c :: c in n.t.challenges ==> c in s.t.challenges && n.t.challenges[c] == s.t.challenges[c]
    requires forall p :: p in n.verifying ==> p in s.verifying && n.verifying[p].challenge == s.verifying[p].challenge
    ensures ChallengesOnce(n)
  {
  }

  lemma IssueKeepsChallenges(w: World, s: State, device: int, nonce: string, ttl: int)
    requires ChallengesOnce(s)
    ensures ChallengesOnce(Step(w, s, IssueChallenge(device, nonce, ttl)).0)
  {
  }

  lemma RedeemKeepsChallenges(w: World, s: State, pid: int, id: int, nonce: string)
    requires ChallengesOnce(s) && pid !in s.verifying
    ensures ChallengesOnce(Step(w, s, Redeem(pid, id, nonce)).0)
  {
  }

  lemma AdmitKeepsChallenges(w: World, s: State, e: Event)
    requires ChallengesOnce(s) && Enabled(w, s, e) && e.Admit?
    ensures ChallengesOnce(Step(w, s, e).0)
  {
    var v := s.verifying[e.pid];
    var n := Step(w, s, e).0;
    ChallengesFrame(s, s.(verifying := n.verifying, t := n.t, hashes := n.hashes));
  }

  lemma PurgeKeepsChallenges(w: World, s: State, which: Expiring)
    requires ChallengesOnce(s)
    ensures ChallengesOnce(Step(w, s, Purge(which)).0)
  {
    ChallengesFrame(s, Step(w, s, Purge(which)).0);
  }

  lemma StepChallenges(w: World, s: State, e: Event)
    requires ChallengesOnce(s) && Enabled(w, s, e)
    ensures ChallengesOnce(Step(w, s, e).0)
  {
    match e
    case IssueChallenge(device, nonce, ttl) => IssueKeepsChallenges(w, s, device, nonce, ttl);
    case Redeem(pid, id, nonce) => RedeemKeepsChallenges(w, s, pid, id, nonce);
    case Admit(_, _, _, _) => AdmitKeepsChallenges(w, s, e);
    case Purge(which) => PurgeKeepsChallenges(w, s, which);
    case _ => ChallengesFrame(s, Step(w, s, e).0);
  }

  lemma TokensFrame(s: State, n: State)
    requires TokensOnce(s) && n.log.enrolled == s.log.enrolled && s.hashes <= n.hashes
    requires forall h :: h in n.t.enrollments ==> h in s.t.enrollments && n.t.enrollments[h] == s.t.enrollments[h]
    requires forall p :: p in n.enrolling ==> p in s.enrolling && n.enrolling[p].hash == s.enrolling[p].hash
    ensures TokensOnce(n)
  {
  }

  lemma IssueKeepsTokens(w: World, s: State, account: int, hash: string, ttl: int)
    requires TokensOnce(s) && hash !in s.hashes
    ensures TokensOnce(Step(w, s, IssueToken(account, hash, ttl)).0)
  {
  }

  lemma RedeemKeepsTokens(w: World, s: State, pid: int, hash: string)
    requires TokensOnce(s) && pid !in s.enrolling
    ensures TokensOnce(Step(w, s, RedeemToken(pid, hash)).0)
  {
  }

  /** A device created for a spent token that no one else used. */
  lemma EnrolledOnce(s: State, x: Enrolled)
    requires TokensOnce(s) && SpentToken(s, x.hash)
    requires forall p :: p in s.enrolling ==> s.enrolling[p].hash != x.hash
    requires forall y :: y in s.log.enrolled ==> y.hash != x.hash
    ensures TokensOnce(s.(log := s.log.(enrolled := s.log.enrolled + [x])))
  {
  }

  lemma EnrollKeepsTokens(w: World, s: State, pid: int, key: string)
    requires TokensOnce(s) && pid in s.enrolling
    ensures TokensOnce(Step(w, s, Enroll(pid, key)).0)
  {
    var v := s.enrolling[pid];
    var (t, r) := CreateDevice(s.t, v.account, key);
    var rest := s.(enrolling := s.enrolling - {pid}, t := t);
    TokensFrame(s, rest);
    if r.Ok? {
      EnrolledOnce(rest, Enrolled(v.hash, r.value, v.account, key));
    }
    hide TokensOnce;
  }

  lemma PurgeKeepsTokens(w: World, s: State, which: Expiring)
    requires TokensOnce(s)
    ensures TokensOnce(Step(w, s, Purge(which)).0)
  {
    TokensFrame(s, Step(w, s, Purge(which)).0);
  }

  lemma StepTokens(w: World, s: State, e: Event)
    requires TokensOnce(s) && Enabled(w, s, e)
    ensures TokensOnce(Step(w, s, e).0)
  {
    match e
    case IssueToken(account, hash, ttl) => IssueKeepsTokens(w, s, account, hash, ttl);
    case RedeemToken(pid, hash) => RedeemKeepsTokens(w, s, pid, hash);
    case Enroll(pid, key) => EnrollKeepsTokens(w, s, pid, key);
    case Purge(which) => PurgeKeepsTokens(w, s, which);
    case _ => TokensFrame(s, Step(w, s, e).0);
  }

  predicate Deletes(e: Event) {
    e.Logout? || e.LogoutAll? || e.RemoveDevice? || e.RemoveAccount? || e.Purge?
  }

  predicate Inserts(e: Event) {
    e.SignUp? || e.IssueChallenge? || e.IssueToken? || e.Admit? || e.Enroll?
  }

  /** Losing challenges and sessions hurts nobody. */
  lemma LessRowsKeepSessions(s: State, challenges: map<int, Challenge>, sessions: map<string, Session>)
    requires SessionsOwned(s)
    requires forall c :: c in challenges ==> c in s.t.challenges && challenges[c] == s.t.challenges[c]
    requires forall h :: h in sessions ==> h in s.t.sessions && sessions[h] == s.t.sessions[h]
    ensures SessionsOwned(s.(t := s.t.(challenges := challenges, sessions := sessions)))
  {
  }

  lemma LogoutsKeepSessions(w: World, s: State, e: Event)
    requires SessionsOwned(s) && (e.Logout? || e.LogoutAll? || e.Purge?)
    ensures SessionsOwned(Step(w, s, e).0)
  {
    hide DevicesFit, SessionsFit, HandlersFit, AllMinted;
    var n := Step(w, s, e).0;
    LessRowsKeepSessions(s, n.t.challenges, n.t.sessions);
  }

  lemma RemovesKeepSessions(w: World, s: State, e: Event)
    requires SessionsOwned(s) && (e.RemoveDevice? || e.RemoveAccount?)
    ensures SessionsOwned(Step(w, s, e).0)
  {
  }

  lemma DeletesKeepSessions(w: World, s: State, e: Event)
    requires SessionsOwned(s) && Deletes(e)
    ensures SessionsOwned(Step(w, s, e).0)
  {
    if e.RemoveDevice? || e.RemoveAccount? {
      RemovesKeepSessions(w, s, e);
    } else {
      LogoutsKeepSessions(w, s, e);
    }
  }

  lemma MoreMinted(sessions: map<string, Session>, minted: seq<Minted>, m: Minted)
    requires AllMinted(sessions, minted)
    ensures AllMinted(sessions[m.hash := m.session], minted + [m])
  {
    var more := sessions[m.hash := m.session];
    forall h | h in more
      ensures IsMinted(minted + [m], h, more[h])
    {
      if h == m.hash {
        assert m in minted + [m];
      } else {
        var x :| x in minted && x.hash == h && x.session == sessions[h];
        assert x in minted + [m];
      }
    }
  }

  lemma AdmitKeepsSessions(w: World, s: State, e: Event)
    requires SessionsOwned(s) && Enabled(w, s, e) && e.Admit?
    ensures SessionsOwned(Step(w, s, e).0)
  {
    var v := s.verifying[e.pid];
    var (t, r) := CreateSession(s.t, v.account, v.device, e.hash, e.ttl);
    if r.Ok? {
      MoreMinted(s.t.sessions, s.log.minted, Minted(v.challenge, e.signature, e.hash, t.sessions[e.hash]));
    }
  }

  lemma InsertsKeepSessions(w: World, s: State, e: Event)
    requires SessionsOwned(s) && Enabled(w, s, e) && Inserts(e)
    ensures SessionsOwned(Step(w, s, e).0)
  {
    if e.Admit? {
      AdmitKeepsSessions(w, s, e);
    }
  }

  lemma StepSessions(w: World, s: State, e: Event)
    requires SessionsOwned(s) && Enabled(w, s, e)
    ensures SessionsOwned(Step(w, s, e).0)
  {
    if Deletes(e) {
      DeletesKeepSessions(w, s, e);
    } else if Inserts(e) {
      InsertsKeepSessions(w, s, e);
    }
  }

  lemma {:induction false} ExecKeeps(w: World, s: State, es: seq<Event>)
    requires ChallengesOnce(s) && TokensOnce(s) && SessionsOwned(s) && Valid(w, s, es)
    ensures var end := Exec(w, s, es); ChallengesOnce(end) && TokensOnce(end) && SessionsOwned(end)
    decreases |es|
  {
    if es != [] {
      StepChallenges(w, s, es[0]);
      StepTokens(w, s, es[0]);
      StepSessions(w, s, es[0]);
      ExecKeeps(w, Step(w, s, es[0]).0, es[1..]);
    }
  }

  /**
    Over any interleaving a challenge leads to at most one session, an
    enrollment token to at most one device, and every session was minted for
    the account that owns its device, which still exists.
   */
  lemma SingleRedemption(w: World, es: seq<Event>)
    requires Valid(w, START, es)
    ensures var s := Exec(w, START, es);
            && (forall i, j :: 0 <= i < j < |s.log.minted| ==> s.log.minted[i].challenge != s.log.minted[j].challenge)
            && (forall i, j :: 0 <= i < j < |s.log.enrolled| ==> s.log.enrolled[i].hash != s.log.enrolled[j].hash)
            && SessionsOwned(s)
  {
    ExecKeeps(w, START, es);
  }

  // ---- every session was earned ----

  ghost predicate ChallengesTraced(challenges: map<int, Challenge>, next: int, issued: map<int, Issue>) {
    && (forall c :: c in issued ==> c < next)
    && (forall c :: c in challenges ==> c in issued && issued[c] == Issue(challenges[c].device, challenges[c].nonce))
  }

  predicate IsEnrolled(enrolled: seq<Enrolled>, d: int, device: Device) {
    exists x :: x in enrolled && x.device == d && x.account == device.account && x.key == device.key
  }

  ghost predicate DevicesTraced(
      devices: map<int, Device>, next: int, known: map<int, Device>, enrolled: seq<Enrolled>)
  {
    && (forall d :: d in known ==> d < next && IsEnrolled(enrolled, d, known[d]))
    && (forall d :: d in devices ==> d in known && known[d] == devices[d])
  }

  ghost predicate TokensTraced(enrollments: map<string, Enrollment>, enrolling: map<int, Enrolling>,
                               enrolled: seq<Enrolled>, granted: map<string, int>, hashes: set<string>)
  {
    && granted.Keys <= hashes
    && (forall h :: h in enrollments ==> h in granted && granted[h] == enrollments[h].account)
    && (forall p :: p in enrolling ==>
          enrolling[p].hash in granted && granted[enrolling[p].hash] == enrolling[p].account)
    && (forall x :: x in enrolled ==> x.hash in granted && granted[x.hash] == x.account)
  }

  ghost predicate HandlersTraced(verifying: map<int, Verifying>, issued: map<int, Issue>, known: map<int, Device>) {
    forall p :: p in verifying ==>
      var v := verifying[p];
      && v.challenge in issued && issued[v.challenge] == Issue(v.device, v.nonce)
      && (v.Loaded? ==> v.device in known && known[v.device] == Device(v.account, v.key))
  }

  /** The device the challenge was issued to signed its nonce, and the session is for the account of that device. */
  predicate Earned(w: World, m: Minted, issued: map<int, Issue>, known: map<int, Device>) {
    && m.challenge in issued && issued[m.challenge].device == m.session.device
    && m.session.device in known && known[m.session.device].account == m.session.account
    && w.signed(known[m.session.device].key, issued[m.challenge].nonce, m.signature)
  }

  ghost predicate MintedTraced(w: World, minted: seq<Minted>, issued: map<int, Issue>, known: map<int, Device>) {
    forall m :: m in minted ==> Earned(w, m, issued, known)
  }

  ghost predicate Traced(w: World, s: State) {
    && ChallengesTraced(s.t.challenges, s.t.nextChallenge, s.log.issued)
    && DevicesTraced(s.t.devices, s.t.nextDevice, s.log.known, s.log.enrolled)
    && TokensTraced(s.t.enrollments, s.enrolling, s.log.enrolled, s.log.granted, s.hashes)
    && HandlersTraced(s.verifying, s.log.issued, s.log.known)
    && MintedTraced(w, s.log.minted, s.log.issued, s.log.known)
  }

  /** The sequences of the database are ahead of all ids in use. */
  ghost predicate IdsFresh(t: Tables) {
    && (forall a :: a in t.accounts ==> a < t.nextAccount)
    && (forall d :: d in t.devices ==> d < t.nextDevice)
    && (forall c :: c in t.challenges ==> c < t.nextChallenge)
  }

  lemma DeletesFresh(w: World, s: State, e: Event)
    requires IdsFresh(s.t) && Deletes(e)
    ensures IdsFresh(Step(w, s, e).0.t)
  {
  }

  lemma OthersFresh(w: World, s: State, e: Event)
    requires IdsFresh(s.t) && Enabled(w, s, e) && !Deletes(e)
    ensures IdsFresh(Step(w, s, e).0.t)
  {
  }

  lemma StepFresh(w: World, s: State, e: Event)
    requires IdsFresh(s.t) && Enabled(w, s, e)
    ensures IdsFresh(Step(w, s, e).0.t)
  {
    hide *;
    if Deletes(e) {
      DeletesFresh(w, s, e);
    } else {
      OthersFresh(w, s, e);
    }
  }

  /** In every reachable state an id from a sequence is one that no row has. */
  lemma {:induction false} ExecFresh(w: World, s: State, es: seq<Event>)
    requires IdsFresh(s.t) && Valid(w, s, es)
    ensures IdsFresh(Exec(w, s, es).t)
    decreases |es|
  {
    hide Step, Enabled, IdsFresh;
    if es != [] {
      StepFresh(w, s, es[0]);
      ExecFresh(w, Step(w, s, es[0]).0, es[1..]);
    }
  }

  /** Less to trace: fewer rows and fewer handlers, and the same records. */
  lemma TracedFrame(w: World, s: State, n: State)
    requires Traced(w, s) && n.t.nextChallenge == s.t.nextChallenge && n.t.nextDevice == s.t.nextDevice
    requires n.log == s.log && s.hashes <= n.hashes
    requires forall c :: c in n.t.challenges ==>
               c in s.t.challenges && n.t.challenges[c].(used := true) == s.t.challenges[c].(used := true)
    requires forall d :: d in n.t.devices ==> d in s.t.devices && n.t.devices[d] == s.t.devices[d]
    requires forall h :: h in n.t.enrollments ==>
               h in s.t.enrollments && n.t.enrollments[h].account == s.t.enrollments[h].account
    requires forall p :: p in n.verifying ==> p in s.verifying && n.verifying[p] == s.verifying[p]
    requires forall p :: p in n.enrolling ==> p in s.enrolling && n.enrolling[p] == s.enrolling[p]
    ensures Traced(w, n)
  {
  }

  lemma IssueTraced(w: World, s: State, device: int, nonce: string, ttl: int)
    requires Traced(w, s)
    ensures Traced(w, Step(w, s, IssueChallenge(device, nonce, ttl)).0)
  {
  }

  lemma GrantTokens(
      enrollments: map<string, Enrollment>, enrolling: map<int, Enrolling>, enrolled: seq<Enrolled>,
      granted: map<string, int>, hashes: set<string>, hash: string, token: Enrollment)
    requires TokensTraced(enrollments, enrolling, enrolled, granted, hashes) && hash !in hashes
    ensures TokensTraced(enrollments, enrolling, enrolled, granted, hashes + {hash})
    ensures TokensTraced(enrollments[hash := token], enrolling, enrolled, granted[hash := token.account],
                         hashes + {hash})
  {
  }

  lemma GrantTraced(w: World, s: State, account: int, hash: string, ttl: int)
    requires Traced(w, s) && hash !in s.hashes
    ensures Traced(w, Step(w, s, IssueToken(account, hash, ttl)).0)
  {
    hide ChallengesTraced, DevicesTraced, TokensTraced, HandlersTraced, MintedTraced;
    var token := Enrollment(account, s.t.now + ttl, false);
    GrantTokens(s.t.enrollments, s.enrolling, s.log.enrolled, s.log.granted, s.hashes, hash, token);
  }

  lemma RedeemTraced(w: World, s: State, e: Event)
    requires Traced(w, s) && Enabled(w, s, e) && (e.Redeem? || e.RedeemToken? || e.Load?)
    ensures Traced(w, Step(w, s, e).0)
  {
  }

  lemma AdmitTraced(w: World, s: State, e: Event)
    requires Traced(w, s) && Enabled(w, s, e) && e.Admit?
    ensures Traced(w, Step(w, s, e).0)
  {
    var v, n := s.verifying[e.pid], Step(w, s, e).0;
    TracedFrame(w, s, n.(log := s.log));
    if n.log.minted != s.log.minted {
      assert Earned(w, n.log.minted[|s.log.minted|], s.log.issued, s.log.known);
    }
  }

  lemma MoreEnrolled(enrolled: seq<Enrolled>, x: Enrolled, known: map<int, Device>)
    requires forall d :: d in known ==> IsEnrolled(enrolled, d, known[d])
    ensures var more := known[x.device := Device(x.account, x.key)];
            forall d :: d in more ==> IsEnrolled(enrolled + [x], d, more[d])
  {
    var more := known[x.device := Device(x.account, x.key)];
    forall d | d in more
      ensures IsEnrolled(enrolled + [x], d, more[d])
    {
      if d == x.device {
        assert x in enrolled + [x];
      } else {
        var y :| y in enrolled && y.device == d && y.account == known[d].account && y.key == known[d].key;
        assert y in enrolled + [x];
      }
    }
  }

  lemma EnrollTraced(w: World, s: State, pid: int, key: string)
    requires Traced(w, s) && pid in s.enrolling
    ensures Traced(w, Step(w, s, Enroll(pid, key)).0)
  {
    var v := s.enrolling[pid];
    MoreEnrolled(s.log.enrolled, Enrolled(v.hash, s.t.nextDevice, v.account, key), s.log.known);
  }

  lemma LogoutTraced(w: World, s: State, e: Event)
    requires Traced(w, s) && (e.Logout? || e.LogoutAll? || e.Purge?)
    ensures Traced(w, Step(w, s, e).0)
  {
    hide Traced;
    TracedFrame(w, s, Step(w, s, e).0);
  }

  lemma RemoveTraced(w: World, s: State, e: Event)
    requires Traced(w, s) && (e.RemoveDevice? || e.RemoveAccount?)
    ensures Traced(w, Step(w, s, e).0)
  {
    hide Traced;
    TracedFrame(w, s, Step(w, s, e).0);
  }

  lemma OtherTraced(w: World, s: State, e: Event)
    requires Traced(w, s) && Enabled(w, s, e)
    requires e.Tick? || e.SignUp? || e.Drop? || e.DropToken? || e.Lookup?
    ensures Traced(w, Step(w, s, e).0)
  {
    hide Traced;
    TracedFrame(w, s, Step(w, s, e).0);
  }

  lemma StepTraced(w: World, s: State, e: Event)
    requires Traced(w, s) && Enabled(w, s, e)
    ensures Traced(w, Step(w, s, e).0)
  {
    hide Step, Traced;
    match e
    case IssueChallenge(device, nonce, ttl) => IssueTraced(w, s, device, nonce, ttl);
    case IssueToken(account, hash, ttl) => GrantTraced(w, s, account, hash, ttl);
    case Redeem(_, _, _) => RedeemTraced(w, s, e);
    case RedeemToken(_, _) => RedeemTraced(w, s, e);
    case Load(_) => RedeemTraced(w, s, e);
    case Admit(_, _, _, _) => AdmitTraced(w, s, e);
    case Enroll(pid, key) => EnrollTraced(w, s, pid, key);
    case _ =>
      if e.RemoveDevice? || e.RemoveAccount? {
        RemoveTraced(w, s, e);
      } else if Deletes(e) {
        LogoutTraced(w, s, e);
      } else {
        OtherTraced(w, s, e);
      }
  }

  lemma {:induction false} ExecTraced(w: World, s: State, es: seq<Event>)
    requires Traced(w, s) && Valid(w, s, es)
    ensures Traced(w, Exec(w, s, es))
    decreases |es|
  {
    hide Step, Enabled, Traced;
    if es != [] {
      StepTraced(w, s, es[0]);
      ExecTraced(w, Step(w, s, es[0]).0, es[1..]);
    }
  }

  /**
    The session was minted for a signature of the nonce of its challenge, which was
    issued to its device; and this device was enrolled, with the key that the
    signature is valid for, by a token granted to the account of the session.
   */
  predicate EarnedBy(w: World, s: State, hash: string, m: Minted, x: Enrolled)
    requires hash in s.t.sessions
  {
    var session := s.t.sessions[hash];
    && m in s.log.minted && m.hash == hash && m.session == session
    && m.challenge in s.log.issued && s.log.issued[m.challenge].device == session.device
    && w.signed(x.key, s.log.issued[m.challenge].nonce, m.signature)
    && x in s.log.enrolled && x.device == session.device && x.account == session.account
    && x.hash in s.log.granted && s.log.granted[x.hash] == session.account
  }

  lemma TracedIsEarned(w: World, s: State, hash: string) returns (m: Minted, x: Enrolled)
    requires Traced(w, s) && hash in s.t.sessions && IsMinted(s.log.minted, hash, s.t.sessions[hash])
    ensures EarnedBy(w, s, hash, m, x)
  {
    hide ChallengesTraced, HandlersTraced;
    m :| m in s.log.minted && m.hash == hash && m.session == s.t.sessions[hash];
    var device := s.log.known[m.session.device];
    assert IsEnrolled(s.log.enrolled, m.session.device, device);
    x :| x in s.log.enrolled && x.device == m.session.device && x.account == device.account && x.key == device.key;
  }

  lemma ReachedTraced(w: World, es: seq<Event>)
    requires Valid(w, START, es)
    ensures Traced(w, Exec(w, START, es))
  {
    ExecTraced(w, START, es);
    hide Exec, Valid, Traced;
  }

  /** Over any interleaving, whoever has a session has earned it with a device of the account. */
  lemma SessionsEarned(w: World, es: seq<Event>, hash: string)
    requires Valid(w, START, es) && hash in Exec(w, START, es).t.sessions
    ensures exists m, x :: EarnedBy(w, Exec(w, START, es), hash, m, x)
  {
    hide Traced, Exec, EarnedBy, Valid, SessionsFit, DevicesFit, HandlersFit;
    ReachedTraced(w, es);
    SingleRedemption(w, es);
    var m, x := TracedIsEarned(w, Exec(w, START, es), hash);
  }

  /** Without a valid signature nobody is ever logged in. */
  lemma NobodyForges(w: World, es: seq<Event>)
    requires Valid(w, START, es) && forall key, nonce, signature :: !w.signed(key, nonce, signature)
    ensures Exec(w, START, es).t.sessions == map[]
  {
    var sessions := Exec(w, START, es).t.sessions;
    if hash :| hash in sessions {
      SessionsEarned(w, es, hash);
    }
  }

  /** A signature that is not valid gets nothing but a refusal, and spends the challenge. */
  lemma ForgeryRefused(w: World, s: State, pid: int, signature: string, hash: string, ttl: int)
    requires ChallengesOnce(s) && Enabled(w, s, Admit(pid, signature, hash, ttl))
    ensures var (n, answer) := Step(w, s, Admit(pid, signature, hash, ttl));
            && (!w.signed(s.verifying[pid].key, s.verifying[pid].nonce, signature) <==>
                answer == Outcome(Err(Unauthorized)))
            && (answer != Outcome(Ok(0)) ==> n.t == s.t && n.log.minted == s.log.minted)
            && pid !in n.verifying && forall nonce :: !Redeemable(n.t, s.verifying[pid].challenge, nonce)
  {
  }

  /**
    A handler goes on only after it loaded a device that is there; whatever else it
    does, it is done, and no other handler notices.
   */
  lemma HandlersEnd(w: World, s: State, e: Event)
    requires Enabled(w, s, e) && (e.Load? || e.Admit? || e.Drop? || e.Enroll? || e.DropToken?)
    ensures var n := Step(w, s, e).0;
            && (e.Load? ==> (e.pid in n.verifying <==> s.verifying[e.pid].device in s.t.devices))
            && (e.Admit? || e.Drop? ==> e.pid !in n.verifying)
            && (e.Enroll? || e.DropToken? ==> n.enrolling == s.enrolling - {e.pid} && n.verifying == s.verifying)
            && (e.Load? || e.Admit? || e.Drop? ==> n.enrolling == s.enrolling)
            && (forall p :: p != e.pid ==> (p in n.verifying <==> p in s.verifying))
            && (forall p :: p != e.pid && p in n.verifying ==> n.verifying[p] == s.verifying[p])
  {
  }

  /** What loading the device answers. */
  lemma LoadAnswers(w: World, s: State, pid: int)
    requires Enabled(w, s, Load(pid))
    ensures var (n, answer) := Step(w, s, Load(pid));
            var v := s.verifying[pid];
            && n.t == s.t
            && answer == Outcome(if v.device in s.t.devices then Ok(v.device) else Err(NotFound))
            && (v.device in s.t.devices ==>
                pid in n.verifying && n.verifying[pid].Loaded? && n.verifying[pid].challenge == v.challenge
                && Device(n.verifying[pid].account, n.verifying[pid].key) == s.t.devices[v.device])
  {
  }

  // ---- how a session ends ----

  /** The event revokes the session: a logout, or the end of its device or of its account. */
  predicate Revokes(session: Session, hash: string, e: Event) {
    match e
    case Logout(h) => h == hash
    case LogoutAll(account, keep) => session.account == account && keep != Some(hash)
    case RemoveDevice(account, id) => session.device == id && session.account == account
    case RemoveAccount(account) => session.account == account
    case _ => false
  }

  lemma RemoveEnds(w: World, s: State, e: Event, hash: string)
    requires SessionsOwned(s) && hash in s.t.sessions && (e.RemoveDevice? || e.RemoveAccount?)
    ensures var session, n := s.t.sessions[hash], Step(w, s, e).0;
            && (hash in n.t.sessions <==> !Revokes(session, hash, e))
            && (hash in n.t.sessions ==> n.t.sessions[hash] == session)
  {
  }

  lemma LogoutEnds(w: World, s: State, e: Event, hash: string)
    requires hash in s.t.sessions && (e.Logout? || e.LogoutAll? || e.Purge?)
    ensures var session, n := s.t.sessions[hash], Step(w, s, e).0;
            && (hash in n.t.sessions <==>
                !Revokes(session, hash, e) && (e == Purge(Sessions) ==> s.t.now <= session.expires))
            && (hash in n.t.sessions ==> n.t.sessions[hash] == session)
  {
  }

  lemma AdmitAddsOne(w: World, s: State, e: Event, hash: string)
    requires Enabled(w, s, e) && e.Admit? && hash in s.hashes && s.t.sessions.Keys <= s.hashes
    ensures var n := Step(w, s, e).0;
            && (hash in n.t.sessions <==> hash in s.t.sessions)
            && (hash in s.t.sessions ==> n.t.sessions[hash] == s.t.sessions[hash])
            && n.t.sessions.Keys <= n.hashes && s.hashes <= n.hashes
  {
  }

  /** A session that is there goes with a step exactly when the step revokes it, or purges it after it expired. */
  lemma SessionEndsIff(w: World, s: State, e: Event, hash: string)
    requires SessionsOwned(s) && s.t.sessions.Keys <= s.hashes && Enabled(w, s, e) && hash in s.t.sessions
    ensures var session, n := s.t.sessions[hash], Step(w, s, e).0;
            && (hash in n.t.sessions <==>
                !Revokes(session, hash, e) && (e == Purge(Sessions) ==> s.t.now <= session.expires))
            && (hash in n.t.sessions ==> n.t.sessions[hash] == session)
  {
    hide Step, SessionsOwned;
    if e.RemoveDevice? || e.RemoveAccount? {
      RemoveEnds(w, s, e, hash);
    } else if Deletes(e) {
      LogoutEnds(w, s, e, hash);
    } else if e.Admit? {
      AdmitAddsOne(w, s, e, hash);
    } else {
      OthersKeepSessions(w, s, e);
    }
  }

  /** No session comes back. */
  lemma NoneReturns(w: World, s: State, e: Event, hash: string)
    requires Enabled(w, s, e) && s.t.sessions.Keys <= s.hashes && hash in s.hashes
    ensures var n := Step(w, s, e).0;
            && (hash !in s.t.sessions ==> hash !in n.t.sessions)
            && n.t.sessions.Keys <= n.hashes && s.hashes <= n.hashes
  {
    hide Step;
    if Deletes(e) {
      DeletesKeepHashes(w, s, e);
      DeletesLoseSessions(w, s, e);
    } else if e.Admit? {
      AdmitAddsOne(w, s, e, hash);
    } else {
      OthersKeepSessions(w, s, e);
    }
  }

  lemma DeletesLoseSessions(w: World, s: State, e: Event)
    requires Deletes(e)
    ensures Step(w, s, e).0.t.sessions.Keys <= s.t.sessions.Keys
  {
  }

  lemma {:induction false} StaysGone(w: World, s: State, es: seq<Event>, hash: string)
    requires Valid(w, s, es) && s.t.sessions.Keys <= s.hashes && hash in s.hashes
    ensures hash !in s.t.sessions ==> hash !in Exec(w, s, es).t.sessions
    ensures var n := Exec(w, s, es); n.t.sessions.Keys <= n.hashes && s.hashes <= n.hashes
    decreases |es|
  {
    hide Step, Enabled;
    if es != [] {
      NoneReturns(w, s, es[0], hash);
      StaysGone(w, Step(w, s, es[0]).0, es[1..], hash);
    }
  }

  lemma {:induction false} HashesTaken(w: World, s: State, es: seq<Event>)
    requires Valid(w, s, es) && s.t.sessions.Keys <= s.hashes
    ensures var n := Exec(w, s, es); n.t.sessions.Keys <= n.hashes
    decreases |es|
  {
    hide Step, Enabled;
    if es != [] {
      StepHashes(w, s, es[0]);
      HashesTaken(w, Step(w, s, es[0]).0, es[1..]);
    }
  }

  lemma StepHashes(w: World, s: State, e: Event)
    requires Enabled(w, s, e) && s.t.sessions.Keys <= s.hashes
    ensures var n := Step(w, s, e).0; n.t.sessions.Keys <= n.hashes
  {
    hide Step;
    if Deletes(e) {
      DeletesKeepHashes(w, s, e);
      DeletesLoseSessions(w, s, e);
    } else if e.Admit? {
      forall h | h in Step(w, s, e).0.t.sessions
        ensures h in Step(w, s, e).0.hashes
      {
        AdmitHash(w, s, e, h);
      }
    } else {
      OthersKeepSessions(w, s, e);
    }
  }

  lemma AdmitHash(w: World, s: State, e: Event, h: string)
    requires Enabled(w, s, e) && e.Admit? && s.t.sessions.Keys <= s.hashes && h in Step(w, s, e).0.t.sessions
    ensures h in Step(w, s, e).0.hashes
  {
  }

  /**
    A revoked token is never accepted again: whatever led to the session, and
    whatever follows the logout or the removal of its device or account, the session
    is not found.
   */
  lemma RevokedForever(w: World, es: seq<Event>, e: Event, more: seq<Event>, hash: string)
    requires Valid(w, START, es) && hash in Exec(w, START, es).t.sessions
    requires var s := Exec(w, START, es);
             Enabled(w, s, e) && Revokes(s.t.sessions[hash], hash, e) && Valid(w, Step(w, s, e).0, more)
    ensures var end := Exec(w, Step(w, Exec(w, START, es), e).0, more);
            Step(w, end, Lookup(hash)).1 == Found(Err(NotFound))
  {
    var s := Exec(w, START, es);
    SingleRedemption(w, es);
    HashesTaken(w, START, es);
    SessionEndsIff(w, s, e, hash);
    NoneReturns(w, s, e, hash);
    hide SessionsOwned, Exec, Valid, Revokes;
    StaysGone(w, Step(w, s, e).0, more, hash);
  }

  /** A token is accepted exactly while its session is there and has not expired. */
  lemma AcceptedIff(w: World, s: State, hash: string)
    ensures var (n, answer) := Step(w, s, Lookup(hash));
            && n == s
            && answer == if hash in s.t.sessions && s.t.now < s.t.sessions[hash].expires
                         then Found(Ok(s.t.sessions[hash])) else Found(Err(NotFound))
  {
  }

  // ---- the janitor is invisible ----

  /** Some rows of `more` are missing in `less`, all of them expired. */
  ghost predicate LessChallenges(now: int, less: map<int, Challenge>, more: map<int, Challenge>) {
    && (forall c :: c in less ==> c in more && less[c] == more[c])
    && (forall c :: c in more && c !in less ==> more[c].expires < now)
  }

  ghost predicate LessEnrollments(now: int, less: map<string, Enrollment>, more: map<string, Enrollment>) {
    && (forall h :: h in less ==> h in more && less[h] == more[h])
    && (forall h :: h in more && h !in less ==> more[h].expires < now)
  }

  ghost predicate LessSessions(now: int, less: map<string, Session>, more: map<string, Session>) {
    && (forall h :: h in less ==> h in more && less[h] == more[h])
    && (forall h :: h in more && h !in less ==> more[h].expires < now)
  }

  /** The state without its rows that can expire. */
  function Rest(s: State): State {
    s.(t := s.t.(challenges := map[], enrollments := map[], sessions := map[]))
  }

  ghost predicate HashesUsed(s: State) {
    s.t.sessions.Keys <= s.hashes && s.t.enrollments.Keys <= s.hashes
  }

  /** `s` is `u` less some rows that have expired. */
  ghost predicate Related(s: State, u: State) {
    && Rest(s) == Rest(u) && HashesUsed(u)
    && LessChallenges(u.t.now, s.t.challenges, u.t.challenges)
    && LessEnrollments(u.t.now, s.t.enrollments, u.t.enrollments)
    && LessSessions(u.t.now, s.t.sessions, u.t.sessions)
  }

  /** What a client sees of an event; the number of revoked sessions is left out. */
  function Shown(w: World, s: State, e: Event): Answer
    requires Enabled(w, s, e)
  {
    if e.LogoutAll? then Quiet else Step(w, s, e).1
  }

  function Transcript(w: World, s: State, es: seq<Event>): seq<Answer>
    requires Valid(w, s, es)
    decreases |es|
  {
    if es == [] then [] else
    (if es[0].Purge? then [] else [Shown(w, s, es[0])]) + Transcript(w, Step(w, s, es[0]).0, es[1..])
  }

  function WithoutPurges(es: seq<Event>): seq<Event> {
    if es == [] then [] else (if es[0].Purge? then [] else [es[0]]) + WithoutPurges(es[1..])
  }

  lemma PurgeRelated(w: World, s: State, u: State, which: Expiring)
    requires Related(s, u)
    ensures Related(Step(w, s, Purge(which)).0, u)
  {
  }

  lemma LogoutsRelated(w: World, s: State, u: State, e: Event)
    requires Related(s, u) && (e.Logout? || e.LogoutAll?)
    ensures Shown(w, s, e) == Shown(w, u, e) && Related(Step(w, s, e).0, Step(w, u, e).0)
  {
  }

  lemma RemoveDeviceRelated(w: World, s: State, u: State, e: Event)
    requires Related(s, u) && e.RemoveDevice?
    ensures Shown(w, s, e) == Shown(w, u, e) && Related(Step(w, s, e).0, Step(w, u, e).0)
  {
  }

  lemma RemoveAccountRelated(w: World, s: State, u: State, e: Event)
    requires Related(s, u) && e.RemoveAccount?
    ensures Shown(w, s, e) == Shown(w, u, e) && Related(Step(w, s, e).0, Step(w, u, e).0)
  {
  }

  lemma SameInsert(now: int, less: map<string, Session>, more: map<string, Session>, h: string, session: Session)
    requires LessSessions(now, less, more)
    ensures LessSessions(now, less[h := session], more[h := session])
  {
  }

  /** What the rows that can expire do not show. */
  lemma RestRelated(s: State, u: State, verifying: map<int, Verifying>, log: Log, hashes: set<string>)
    requires Related(s, u) && u.hashes <= hashes
    ensures Related(s.(verifying := verifying, log := log, hashes := hashes),
                    u.(verifying := verifying, log := log, hashes := hashes))
  {
    hide LessChallenges, LessEnrollments, LessSessions;
  }

  lemma CreateSessionRelated(s: State, u: State, account: int, device: int, hash: string, ttl: int)
    requires Related(s, u) && hash in u.hashes && hash !in u.t.sessions
    ensures var (t, r) := CreateSession(s.t, account, device, hash, ttl);
            var (t', r') := CreateSession(u.t, account, device, hash, ttl);
            && r == r' && Related(s.(t := t), u.(t := t')) && (r.Ok? ==> t.sessions[hash] == t'.sessions[hash])
  {
    SameInsert(u.t.now, s.t.sessions, u.t.sessions, hash, Session(account, device, u.t.now + ttl));
    hide LessChallenges, LessEnrollments;
  }

  lemma AdmitRelated(w: World, s: State, u: State, e: Event)
    requires Related(s, u) && Enabled(w, s, e) && e.Admit?
    ensures Enabled(w, u, e) && Shown(w, s, e) == Shown(w, u, e) && Related(Step(w, s, e).0, Step(w, u, e).0)
  {
    var v, hashes := u.verifying[e.pid], u.hashes + {e.hash};
    var rest := u.verifying - {e.pid};
    assert Rest(s) == Rest(u) && e.hash !in u.t.sessions;
    RestRelated(s, u, rest, u.log, hashes);
    var s1 := s.(verifying := rest, log := u.log, hashes := hashes);
    var u1 := u.(verifying := rest, log := u.log, hashes := hashes);
    CreateSessionRelated(s1, u1, v.account, v.device, e.hash, e.ttl);
    var (t, r) := CreateSession(s.t, v.account, v.device, e.hash, e.ttl);
    var (t', _) := CreateSession(u.t, v.account, v.device, e.hash, e.ttl);
    if r.Ok? {
      var m := Minted(v.challenge, e.signature, e.hash, t.sessions[e.hash]);
      RestRelated(s1.(t := t), u1.(t := t'), rest, u.log.(minted := u.log.minted + [m]), hashes);
    }
    hide Related, CreateSession;
  }

  lemma IssueChallengeRelated(w: World, s: State, u: State, e: Event)
    requires Related(s, u) && Enabled(w, s, e) && e.IssueChallenge?
    ensures Enabled(w, u, e) && Shown(w, s, e) == Shown(w, u, e) && Related(Step(w, s, e).0, Step(w, u, e).0)
  {
  }

  lemma IssueTokenRelated(w: World, s: State, u: State, e: Event)
    requires Related(s, u) && Enabled(w, s, e) && e.IssueToken?
    ensures Enabled(w, u, e) && Shown(w, s, e) == Shown(w, u, e) && Related(Step(w, s, e).0, Step(w, u, e).0)
  {
  }

  lemma RedeemsRelated(w: World, s: State, u: State, e: Event)
    requires Related(s, u) && Enabled(w, s, e) && (e.Redeem? || e.RedeemToken?)
    ensures Enabled(w, u, e) && Shown(w, s, e) == Shown(w, u, e) && Related(Step(w, s, e).0, Step(w, u, e).0)
  {
  }

  lemma TickRelated(w: World, s: State, u: State, e: Event)
    requires Related(s, u) && e.Tick?
    ensures Shown(w, s, e) == Shown(w, u, e) && Related(Step(w, s, e).0, Step(w, u, e).0)
  {
  }

  lemma LookupRelated(w: World, s: State, u: State, e: Event)
    requires Related(s, u) && e.Lookup?
    ensures Shown(w, s, e) == Shown(w, u, e) && Related(Step(w, s, e).0, Step(w, u, e).0)
  {
  }

  lemma HandlersRelated(w: World, s: State, u: State, e: Event)
    requires Related(s, u) && Enabled(w, s, e) && (e.Load? || e.Drop? || e.DropToken?)
    ensures Enabled(w, u, e) && Shown(w, s, e) == Shown(w, u, e) && Related(Step(w, s, e).0, Step(w, u, e).0)
  {
    hide LessChallenges, LessEnrollments, LessSessions;
    match e
    case Load(_) =>
    case Drop(_) =>
    case DropToken(_) =>
  }

  lemma SignUpRelated(w: World, s: State, u: State)
    requires Related(s, u)
    ensures Related(Step(w, s, SignUp).0, Step(w, u, SignUp).0)
  {
    hide LessChallenges, LessEnrollments, LessSessions;
  }

  /** The same change to what cannot expire. */
  lemma SameRest(s: State, u: State, n: State, n': State)
    requires Related(s, u) && Rest(n) == Rest(n') && n'.t.now == u.t.now && n'.hashes == u.hashes
    requires n.t.challenges == s.t.challenges && n'.t.challenges == u.t.challenges
    requires n.t.enrollments == s.t.enrollments && n'.t.enrollments == u.t.enrollments
    requires n.t.sessions == s.t.sessions && n'.t.sessions == u.t.sessions
    ensures Related(n, n')
  {
    hide LessChallenges, LessEnrollments, LessSessions, Rest;
  }

  /** Enrolling reads and changes nothing that can expire. */
  lemma EnrollKeepsRows(w: World, s: State, e: Event)
    requires Enabled(w, s, e) && e.Enroll?
    ensures var n := Step(w, s, e).0;
            && n.t.now == s.t.now && n.hashes == s.hashes && n.t.challenges == s.t.challenges
            && n.t.enrollments == s.t.enrollments && n.t.sessions == s.t.sessions
    ensures Enabled(w, Rest(s), e)
    ensures Rest(Step(w, s, e).0) == Step(w, Rest(s), e).0 && Step(w, s, e).1 == Step(w, Rest(s), e).1
  {
  }

  lemma EnrollRelated(w: World, s: State, u: State, e: Event)
    requires Related(s, u) && Enabled(w, s, e) && e.Enroll?
    ensures Enabled(w, u, e) && Shown(w, s, e) == Shown(w, u, e) && Related(Step(w, s, e).0, Step(w, u, e).0)
  {
    assert s.enrolling == u.enrolling by {
      assert Rest(s).enrolling == Rest(u).enrolling;
    }
    hide Step, Rest, LessChallenges, LessEnrollments, LessSessions;
    EnrollKeepsRows(w, s, e);
    EnrollKeepsRows(w, u, e);
    SameRest(s, u, Step(w, s, e).0, Step(w, u, e).0);
  }

  /** Every event but a purge shows the same and keeps the two states related. */
  lemma StepRelated(w: World, s: State, u: State, e: Event)
    requires Related(s, u) && Enabled(w, s, e) && !e.Purge?
    ensures Enabled(w, u, e) && Shown(w, s, e) == Shown(w, u, e) && Related(Step(w, s, e).0, Step(w, u, e).0)
  {
    match e
    case Admit(_, _, _, _) => AdmitRelated(w, s, u, e);
    case IssueChallenge(_, _, _) => IssueChallengeRelated(w, s, u, e);
    case IssueToken(_, _, _) => IssueTokenRelated(w, s, u, e);
    case Redeem(_, _, _) => RedeemsRelated(w, s, u, e);
    case RedeemToken(_, _) => RedeemsRelated(w, s, u, e);
    case Logout(_) => LogoutsRelated(w, s, u, e);
    case LogoutAll(_, _) => LogoutsRelated(w, s, u, e);
    case RemoveDevice(_, _) => RemoveDeviceRelated(w, s, u, e);
    case RemoveAccount(_) => RemoveAccountRelated(w, s, u, e);
    case Tick(_) => TickRelated(w, s, u, e);
    case Lookup(_) => LookupRelated(w, s, u, e);
    case SignUp => SignUpRelated(w, s, u);
    case Enroll(_, _) => EnrollRelated(w, s, u, e);
    case _ => HandlersRelated(w, s, u, e);
  }

  lemma {:induction false} PurgesInvisible(w: World, s: State, u: State, es: seq<Event>)
    requires Related(s, u) && Valid(w, s, es)
    ensures Valid(w, u, WithoutPurges(es))
    ensures Transcript(w, s, es) == Transcript(w, u, WithoutPurges(es))
    decreases |es|
  {
    hide Step, Enabled, Related, Shown;
    if es != [] {
      var e, rest := es[0], es[1..];
      if e.Purge? {
        PurgeRelated(w, s, u, e.table);
        PurgesInvisible(w, Step(w, s, e).0, u, rest);
        assert WithoutPurges(es) == WithoutPurges(rest);
      } else {
        StepRelated(w, s, u, e);
        PurgesInvisible(w, Step(w, s, e).0, Step(w, u, e).0, rest);
        assert WithoutPurges(es)[0] == e && WithoutPurges(es)[1..] == WithoutPurges(rest);
      }
    }
  }

  /**
    Erasing every purge from a run leaves a run in which every redemption, every
    session lookup and everything else a client is told comes out the same,
    except the number of sessions a revocation reports.
   */
  lemma JanitorInvisible(w: World, es: seq<Event>)
    requires Valid(w, START, es)
    ensures Valid(w, START, WithoutPurges(es))
    ensures Transcript(w, START, es) == Transcript(w, START, WithoutPurges(es))
  {
    PurgesInvisible(w, START, START, es);
  }

  // ---- what the number of revoked sessions shows ----

  /** The sessions the purges of a run delete. */
  function Purged(w: World, s: State, es: seq<Event>): set<string>
    requires Valid(w, s, es)
    decreases |es|
  {
    if es == [] then {} else
    var next := Step(w, s, es[0]).0;
    (if es[0].Purge? then s.t.sessions.Keys - next.t.sessions.Keys else {}) + Purged(w, next, es[1..])
  }

  /** Exactly the sessions in `gone` are missing in `less`. */
  ghost predicate Missing(less: map<string, Session>, more: map<string, Session>, gone: set<string>) {
    forall h :: h in more ==> (h in less <==> h !in gone)
  }

  lemma OthersKeepSessions(w: World, s: State, e: Event)
    requires Enabled(w, s, e) && !Deletes(e) && !e.Admit?
    ensures Step(w, s, e).0.t.sessions == s.t.sessions && s.hashes <= Step(w, s, e).0.hashes
  {
  }

  /** Whether the session is created depends on nothing that can expire; its hash is fresh. */
  lemma AdmitEffect(w: World, s: State, e: Event)
    requires Enabled(w, s, e) && e.Admit? && HashesUsed(s)
    ensures var v, n := s.verifying[e.pid], Step(w, s, e).0;
            var ok := w.signed(v.key, v.nonce, e.signature) && v.account in s.t.accounts && v.device in s.t.devices;
            && (ok ==> n.t.sessions.Keys == s.t.sessions.Keys + {e.hash})
            && (!ok ==> n.t.sessions == s.t.sessions) && s.hashes <= n.hashes
  {
  }

  lemma AdmitMissing(w: World, s: State, u: State, e: Event, gone: set<string>)
    requires Related(s, u) && Enabled(w, s, e) && Enabled(w, u, e) && e.Admit?
    requires Missing(s.t.sessions, u.t.sessions, gone) && gone <= s.hashes
    ensures Missing(Step(w, s, e).0.t.sessions, Step(w, u, e).0.t.sessions, gone) && gone <= Step(w, s, e).0.hashes
  {
    assert s.t.accounts == u.t.accounts && s.t.devices == u.t.devices && s.verifying == u.verifying by {
      assert Rest(s).t.accounts == Rest(u).t.accounts && Rest(s).t.devices == Rest(u).t.devices;
    }
    assert HashesUsed(s) && s.hashes == u.hashes by {
      assert Rest(s).hashes == Rest(u).hashes;
    }
    hide Step, Related;
    AdmitEffect(w, s, e);
    AdmitEffect(w, u, e);
  }

  lemma LogoutsMissing(w: World, s: State, u: State, e: Event, gone: set<string>)
    requires Related(s, u) && (e.Logout? || e.LogoutAll?)
    requires Missing(s.t.sessions, u.t.sessions, gone)
    ensures Missing(Step(w, s, e).0.t.sessions, Step(w, u, e).0.t.sessions, gone)
  {
    hide LessChallenges, LessEnrollments;
  }

  lemma RemovesMissing(w: World, s: State, u: State, e: Event, gone: set<string>)
    requires Related(s, u) && (e.RemoveDevice? || e.RemoveAccount?)
    requires Missing(s.t.sessions, u.t.sessions, gone)
    ensures Missing(Step(w, s, e).0.t.sessions, Step(w, u, e).0.t.sessions, gone)
  {
    hide LessChallenges, LessEnrollments;
  }

  lemma DeletesKeepHashes(w: World, s: State, e: Event)
    requires Deletes(e)
    ensures Step(w, s, e).0.hashes == s.hashes
  {
  }

  lemma StepMissing(w: World, s: State, u: State, e: Event, gone: set<string>)
    requires Related(s, u) && Enabled(w, s, e) && Enabled(w, u, e) && !e.Purge?
    requires Missing(s.t.sessions, u.t.sessions, gone) && gone <= s.hashes
    ensures Missing(Step(w, s, e).0.t.sessions, Step(w, u, e).0.t.sessions, gone) && gone <= Step(w, s, e).0.hashes
  {
    hide Related, Missing, Step;
    if e.Admit? {
      AdmitMissing(w, s, u, e, gone);
    } else if Deletes(e) {
      DeletesKeepHashes(w, s, e);
      if e.Logout? || e.LogoutAll? {
        LogoutsMissing(w, s, u, e, gone);
      } else {
        RemovesMissing(w, s, u, e, gone);
      }
    } else {
      OthersKeepSessions(w, s, e);
      OthersKeepSessions(w, u, e);
    }
  }

  lemma PurgeMissing(w: World, s: State, u: State, which: Expiring, gone: set<string>)
    requires Related(s, u) && Missing(s.t.sessions, u.t.sessions, gone) && gone <= s.hashes
    ensures var n := Step(w, s, Purge(which)).0;
            var more := gone + (s.t.sessions.Keys - n.t.sessions.Keys);
            Missing(n.t.sessions, u.t.sessions, more) && more <= n.hashes
  {
  }

  lemma {:induction false} PurgedAreMissing(w: World, s: State, u: State, es: seq<Event>, gone: set<string>)
    requires Related(s, u) && Valid(w, s, es) && Missing(s.t.sessions, u.t.sessions, gone) && gone <= s.hashes
    ensures Valid(w, u, WithoutPurges(es)) && Related(Exec(w, s, es), Exec(w, u, WithoutPurges(es)))
    ensures Missing(Exec(w, s, es).t.sessions, Exec(w, u, WithoutPurges(es)).t.sessions, gone + Purged(w, s, es))
    decreases |es|
  {
    hide Step, Enabled, Related, Missing;
    if es == [] {
      assert gone + {} == gone;
    } else {
      var e, rest := es[0], es[1..];
      var next := Step(w, s, e).0;
      if e.Purge? {
        var lost := s.t.sessions.Keys - next.t.sessions.Keys;
        PurgeRelated(w, s, u, e.table);
        PurgeMissing(w, s, u, e.table, gone);
        assert WithoutPurges(es) == WithoutPurges(rest);
        PurgedAreMissing(w, next, u, rest, gone + lost);
        assert gone + lost + Purged(w, next, rest) == gone + Purged(w, s, es);
      } else {
        StepRelated(w, s, u, e);
        StepMissing(w, s, u, e, gone);
        PurgedAreMissing(w, next, Step(w, u, e).0, rest, gone);
        assert WithoutPurges(es)[0] == e && WithoutPurges(es)[1..] == WithoutPurges(rest);
        assert Purged(w, s, es) == Purged(w, next, rest);
      }
    }
  }

  /** With fewer sessions a revocation counts fewer, unless it would not have counted those. */
  lemma FewerRevoked(t: Tables, more: Tables, account: int, keep: Option<string>, gone: set<string>)
    requires Missing(t.sessions, more.sessions, gone)
    requires forall h :: h in t.sessions ==> h in more.sessions && t.sessions[h] == more.sessions[h]
    ensures |Revoked(t, account, keep)| <= |Revoked(more, account, keep)|
    ensures |Revoked(t, account, keep)| == |Revoked(more, account, keep)| <==> Revoked(more, account, keep) !! gone
  {
    var all, left := Revoked(more, account, keep), Revoked(t, account, keep);
    assert left == all - gone;
    SubsetSize(left, all);
    if h :| h in all && h in gone {
      assert left <= all - {h};
      SubsetSize(left, all - {h});
    } else {
      assert left == all;
    }
  }

  /**
    The exception: at any moment of any run, a revocation reports at most the
    number it would report had nothing been purged, and exactly that number if and
    only if it would revoke no session that was purged earlier.
   */
  lemma RevocationCountShowsPurge(w: World, es: seq<Event>, account: int, keep: Option<string>)
    requires Valid(w, START, es)
    ensures Valid(w, START, WithoutPurges(es))
    ensures var t, plain := Exec(w, START, es).t, Exec(w, START, WithoutPurges(es)).t;
            && DeleteSessions(t, account, keep).1 <= DeleteSessions(plain, account, keep).1
            && (DeleteSessions(t, account, keep).1 == DeleteSessions(plain, account, keep).1
                <==> Revoked(plain, account, keep) !! Purged(w, START, es))
  {
    PurgedAreMissing(w, START, START, es, {});
    assert {} + Purged(w, START, es) == Purged(w, START, es);
    FewerRevoked(Exec(w, START, es).t, Exec(w, START, WithoutPurges(es)).t, account, keep, Purged(w, START, es));
  }

  // ---- a run in which it shows ----

  lemma Cons(w: World, s: State, e: Event, es: seq<Event>)
    requires Enabled(w, s, e) && Valid(w, Step(w, s, e).0, es)
    ensures Valid(w, s, [e] + es) && Exec(w, s, [e] + es) == Exec(w, Step(w, s, e).0, es)
  {
    assert ([e] + es)[0] == e && ([e] + es)[1..] == es;
  }

  lemma Pair(w: World, s: State, e: Event, f: Event)
    requires Enabled(w, s, e) && Enabled(w, Step(w, s, e).0, f)
    ensures Valid(w, s, [e, f]) && Exec(w, s, [e, f]) == Step(w, Step(w, s, e).0, f).0
  {
    hide Step, Enabled;
    var next := Step(w, s, e).0;
    assert [f] + [] == [f] && [e] + [f] == [e, f];
    Cons(w, next, f, []);
    Cons(w, s, e, [f]);
  }

  lemma {:induction false} ExecSplit(w: World, s: State, first: seq<Event>, second: seq<Event>)
    requires Valid(w, s, first) && Valid(w, Exec(w, s, first), second)
    ensures Valid(w, s, first + second) && Exec(w, s, first + second) == Exec(w, Exec(w, s, first), second)
    decreases |first|
  {
    hide Step, Enabled;
    if first == [] {
      assert first + second == second;
    } else {
      ExecSplit(w, Step(w, s, first[0]).0, first[1..], second);
      assert [first[0]] + (first[1..] + second) == first + second;
      Cons(w, s, first[0], first[1..] + second);
    }
  }

  // Account 1 exists, and has a token to enroll a device with.
  const SIGNED_UP := START.(t := NO_ROWS.(accounts := {1}, nextAccount := 2,
                                          enrollments := map["t" := Enrollment(1, 1, false)]),
                            log := NOTHING.(granted := map["t" := 1]), hashes := {"t"})

  /** It has enrolled a device with this key. */
  function WithDevice(key: string): State {
    SIGNED_UP.(t := SIGNED_UP.t.(devices := map[1 := Device(1, key)], nextDevice := 2,
                                 enrollments := map["t" := Enrollment(1, 1, true)]),
               log := SIGNED_UP.log.(known := map[1 := Device(1, key)], enrolled := [Enrolled("t", 1, 1, key)]))
  }

  /** The device has redeemed a challenge with this nonce. */
  function Challenged(key: string, nonce: string): State {
    var s := WithDevice(key);
    s.(t := s.t.(challenges := map[1 := Challenge(1, nonce, 1, true)], nextChallenge := 2),
       log := s.log.(issued := map[1 := Issue(1, nonce)]), verifying := map[0 := Redeemed(1, 1, nonce)])
  }

  /** And has a session that lasts `ttl`. */
  function LoggedIn(key: string, nonce: string, signature: string, ttl: nat): State {
    var s := Challenged(key, nonce);
    s.(t := s.t.(sessions := map["s" := Session(1, 1, ttl)]), verifying := map[],
       log := s.log.(minted := [Minted(1, signature, "s", Session(1, 1, ttl))]), hashes := {"t", "s"})
  }

  lemma SignUpReached(w: World)
    ensures Valid(w, START, [SignUp, IssueToken(1, "t", 1)])
    ensures Exec(w, START, [SignUp, IssueToken(1, "t", 1)]) == SIGNED_UP
  {
    Pair(w, START, SignUp, IssueToken(1, "t", 1));
    var s := Step(w, Step(w, START, SignUp).0, IssueToken(1, "t", 1)).0;
    assert s.t.enrollments == SIGNED_UP.t.enrollments && s.t.accounts == {1} && s.hashes == {"t"};
  }

  lemma DeviceReached(w: World, key: string)
    ensures Valid(w, SIGNED_UP, [RedeemToken(0, "t"), Enroll(0, key)])
    ensures Exec(w, SIGNED_UP, [RedeemToken(0, "t"), Enroll(0, key)]) == WithDevice(key)
  {
    Pair(w, SIGNED_UP, RedeemToken(0, "t"), Enroll(0, key));
    var s := Step(w, Step(w, SIGNED_UP, RedeemToken(0, "t")).0, Enroll(0, key)).0;
    assert s.t.enrollments == WithDevice(key).t.enrollments && s.t.devices == WithDevice(key).t.devices;
    assert s.enrolling == map[] && s.log.enrolled == [Enrolled("t", 1, 1, key)];
  }

  lemma ChallengeReached(w: World, key: string, nonce: string)
    ensures Valid(w, WithDevice(key), [IssueChallenge(1, nonce, 1), Redeem(0, 1, nonce)])
    ensures Exec(w, WithDevice(key), [IssueChallenge(1, nonce, 1), Redeem(0, 1, nonce)]) == Challenged(key, nonce)
  {
    Pair(w, WithDevice(key), IssueChallenge(1, nonce, 1), Redeem(0, 1, nonce));
    var s := Step(w, Step(w, WithDevice(key), IssueChallenge(1, nonce, 1)).0, Redeem(0, 1, nonce)).0;
    assert s.t.challenges == Challenged(key, nonce).t.challenges && s.verifying == Challenged(key, nonce).verifying;
  }

  lemma LoginReached(w: World, key: string, nonce: string, signature: string, ttl: nat)
    requires w.signed(key, nonce, signature)
    ensures Valid(w, Challenged(key, nonce), [Load(0), Admit(0, signature, "s", ttl)])
    ensures Exec(w, Challenged(key, nonce), [Load(0), Admit(0, signature, "s", ttl)])
         == LoggedIn(key, nonce, signature, ttl)
  {
    Pair(w, Challenged(key, nonce), Load(0), Admit(0, signature, "s", ttl));
    var s := Step(w, Step(w, Challenged(key, nonce), Load(0)).0, Admit(0, signature, "s", ttl)).0;
    assert s.t.sessions == LoggedIn(key, nonce, signature, ttl).t.sessions;
    assert s.log.minted == LoggedIn(key, nonce, signature, ttl).log.minted;
    assert s.verifying == map[] && s.hashes == {"t", "s"};
  }

  /** Logging in for the first time, from nothing. */
  function Login(key: string, nonce: string, signature: string, ttl: nat): seq<Event> {
    [SignUp, IssueToken(1, "t", 1)] + ([RedeemToken(0, "t"), Enroll(0, key)]
    + ([IssueChallenge(1, nonce, 1), Redeem(0, 1, nonce)] + [Load(0), Admit(0, signature, "s", ttl)]))
  }

  lemma LoginWorks(w: World, key: string, nonce: string, signature: string, ttl: nat)
    requires w.signed(key, nonce, signature)
    ensures Valid(w, START, Login(key, nonce, signature, ttl))
    ensures Exec(w, START, Login(key, nonce, signature, ttl)) == LoggedIn(key, nonce, signature, ttl)
  {
    hide Step, Enabled, LoggedIn, Challenged, WithDevice;
    SignUpReached(w);
    DeviceReached(w, key);
    ChallengeReached(w, key, nonce);
    LoginReached(w, key, nonce, signature, ttl);
    var admit := [Load(0), Admit(0, signature, "s", ttl)];
    ExecSplit(w, WithDevice(key), [IssueChallenge(1, nonce, 1), Redeem(0, 1, nonce)], admit);
    var challenge := [IssueChallenge(1, nonce, 1), Redeem(0, 1, nonce)] + admit;
    ExecSplit(w, SIGNED_UP, [RedeemToken(0, "t"), Enroll(0, key)], challenge);
    ExecSplit(w, START, [SignUp, IssueToken(1, "t", 1)], [RedeemToken(0, "t"), Enroll(0, key)] + challenge);
  }

  /** One session of account 1, whether or not it has expired. */
  lemma OneSession(key: string, nonce: string, signature: string, ttl: nat, now: int)
    ensures DeleteSessions(LoggedIn(key, nonce, signature, ttl).t.(now := now), 1, None).1 == 1
  {
    var t := LoggedIn(key, nonce, signature, ttl).t.(now := now);
    assert Revoked(t, 1, None) == {"s"};
  }

  lemma NoSession(key: string, nonce: string, signature: string, ttl: nat)
    ensures DeleteSessions(PurgeSessions(LoggedIn(key, nonce, signature, ttl).t.(now := ttl + 1)), 1, None).1 == 0
  {
    var t := PurgeSessions(LoggedIn(key, nonce, signature, ttl).t.(now := ttl + 1));
    assert Revoked(t, 1, None) == {};
  }

  lemma {:induction false} NothingToErase(es: seq<Event>, rest: seq<Event>)
    requires forall e :: e in es ==> !e.Purge?
    ensures WithoutPurges(es + rest) == es + WithoutPurges(rest)
    decreases |es|
  {
    if es == [] {
      assert es + rest == rest;
    } else {
      assert es[0] in es;
      NothingToErase(es[1..], rest);
      assert (es + rest)[1..] == es[1..] + rest;
    }
  }

  lemma SessionExpires(w: World, key: string, nonce: string, signature: string, ttl: nat)
    ensures var s := LoggedIn(key, nonce, signature, ttl);
            && Valid(w, s, [Tick(ttl + 1)]) && Valid(w, s, [Tick(ttl + 1), Purge(Sessions)])
            && Exec(w, s, [Tick(ttl + 1)]).t == s.t.(now := ttl + 1)
            && Exec(w, s, [Tick(ttl + 1), Purge(Sessions)]).t == PurgeSessions(s.t.(now := ttl + 1))
  {
    var s := LoggedIn(key, nonce, signature, ttl);
    assert Step(w, s, Tick(ttl + 1)).0 == s.(t := s.t.(now := ttl + 1));
    assert [Tick(ttl + 1)] + [] == [Tick(ttl + 1)];
    Cons(w, s, Tick(ttl + 1), []);
    Pair(w, s, Tick(ttl + 1), Purge(Sessions));
  }

  lemma LoginPurgesNothing(key: string, nonce: string, signature: string, ttl: nat)
    ensures forall e :: e in Login(key, nonce, signature, ttl) + [Tick(ttl + 1)] ==> !e.Purge?
  {
  }

  lemma OnePurge()
    ensures WithoutPurges([Purge(Sessions)]) == []
  {
  }

  /**
    It happens with any lifetime of a session: the first login, its session expires,
    and the janitor runs.  A revocation then reports 0; without the janitor it
    reports 1.
   */
  lemma PurgeLowersCount(w: World, key: string, nonce: string, signature: string, ttl: nat)
    requires w.signed(key, nonce, signature)
    ensures var login := Login(key, nonce, signature, ttl);
            var plain, purged := login + [Tick(ttl + 1)], login + [Tick(ttl + 1), Purge(Sessions)];
            && Valid(w, START, plain) && Valid(w, START, purged) && plain == WithoutPurges(purged)
            && DeleteSessions(Exec(w, START, plain).t, 1, None).1 == 1
            && DeleteSessions(Exec(w, START, purged).t, 1, None).1 == 0
  {
    hide *;
    var login, tick := Login(key, nonce, signature, ttl), [Tick(ttl + 1)];
    LoginWorks(w, key, nonce, signature, ttl);
    SessionExpires(w, key, nonce, signature, ttl);
    ExecSplit(w, START, login, tick);
    ExecSplit(w, START, login, [Tick(ttl + 1), Purge(Sessions)]);
    LoginPurgesNothing(key, nonce, signature, ttl);
    NothingToErase(login + tick, [Purge(Sessions)]);
    OnePurge();
    assert login + tick + [Purge(Sessions)] == login + [Tick(ttl + 1), Purge(Sessions)];
    assert login + tick + [] == login + tick;
    OneSession(key, nonce, signature, ttl, ttl + 1);
    NoSession(key, nonce, signature, ttl);
  }
}
