/**
  Challenges, enrollment tokens, devices and sessions: the statements of the
  store, each atomic, as functions from tables to tables.  Times are those of the
  database clock.  Hashes, nonces and keys are opaque strings.
 */
module AuthTables {
  import opened Outcomes

  datatype AuthError = NotFound | ChallengeInvalid | EnrollmentInvalid | Unauthorized
                     | ForeignKeyViolation | UniqueViolation

  datatype Device = Device(account: int, key: string)
  datatype Challenge = Challenge(device: int, nonce: string, expires: int, used: bool)
  datatype Enrollment = Enrollment(account: int, expires: int, used: bool)
  datatype Session = Session(account: int, device: int, expires: int)

  datatype Tables = Tables(now: int, accounts: set<int>, devices: map<int, Device>, challenges: map<int, Challenge>,
                           enrollments: map<string, Enrollment>, sessions: map<string, Session>,
                           nextAccount: int, nextDevice: int, nextChallenge: int)

  const NO_ROWS := Tables(0, {}, map[], map[], map[], map[], 1, 1, 1)

  function CreateAccount(t: Tables): Tables {
    t.(accounts := t.accounts + {t.nextAccount}, nextAccount := t.nextAccount + 1)
  }

  function CreateDevice(t: Tables, account: int, key: string): (Tables, Result<int, AuthError>) {
    if account !in t.accounts then (t, Err(ForeignKeyViolation)) else
    (t.(devices := t.devices[t.nextDevice := Device(account, key)], nextDevice := t.nextDevice + 1), Ok(t.nextDevice))
  }

  function CreateChallenge(t: Tables, device: int, nonce: string, ttl: int): (Tables, Result<int, AuthError>) {
    if device !in t.devices then (t, Err(NotFound)) else
    (t.(challenges := t.challenges[t.nextChallenge := Challenge(device, nonce, t.now + ttl, false)],
        nextChallenge := t.nextChallenge + 1),
     Ok(t.nextChallenge))
  }

  predicate Redeemable(t: Tables, id: int, nonce: string) {
    id in t.challenges && t.challenges[id].nonce == nonce && !t.challenges[id].used && t.now < t.challenges[id].expires
  }

  /** UPDATE … SET used = true WHERE … RETURNING device_id */
  function ConsumeChallenge(t: Tables, id: int, nonce: string): (Tables, Result<int, AuthError>) {
    if !Redeemable(t, id, nonce) then (t, Err(ChallengeInvalid)) else
    (t.(challenges := t.challenges[id := t.challenges[id].(used := true)]), Ok(t.challenges[id].device))
  }

  function CreateSession(t: Tables, account: int, device: int, hash: string, ttl: int):
      (Tables, Result<(), AuthError>)
  {
    if hash in t.sessions then (t, Err(UniqueViolation))
    else if account !in t.accounts || device !in t.devices then (t, Err(ForeignKeyViolation))
    else (t.(sessions := t.sessions[hash := Session(account, device, t.now + ttl)]), Ok(()))
  }

  function SessionByTokenHash(t: Tables, hash: string): Result<Session, AuthError> {
    if hash in t.sessions && t.now < t.sessions[hash].expires then Ok(t.sessions[hash]) else Err(NotFound)
  }

  function DeleteSession(t: Tables, hash: string): Tables {
    t.(sessions := t.sessions - {hash})
  }

  /** The sessions of the account a revocation deletes; `keep` survives. */
  function Revoked(t: Tables, account: int, keep: Option<string>): set<string> {
    set h | h in t.sessions && t.sessions[h].account == account && keep != Some(h)
  }

  lemma RestSize(sessions: map<string, Session>, gone: set<string>)
    requires gone <= sessions.Keys
    ensures |sessions - gone| == |sessions| - |gone|
  {
    assert sessions.Keys == (sessions - gone).Keys + gone;
  }

  function DeleteSessions(t: Tables, account: int, keep: Option<string>): (Tables, nat) {
    (t.(sessions := t.sessions - Revoked(t, account, keep)), |Revoked(t, account, keep)|)
  }

  function CreateEnrollmentToken(t: Tables, account: int, hash: string, ttl: int): (Tables, Result<(), AuthError>) {
    if hash in t.enrollments then (t, Err(UniqueViolation))
    else if account !in t.accounts then (t, Err(ForeignKeyViolation))
    else (t.(enrollments := t.enrollments[hash := Enrollment(account, t.now + ttl, false)]), Ok(()))
  }

  function ConsumeEnrollmentToken(t: Tables, hash: string): (Tables, Result<int, AuthError>) {
    if hash in t.enrollments && !t.enrollments[hash].used && t.now < t.enrollments[hash].expires then
      (t.(enrollments := t.enrollments[hash := t.enrollments[hash].(used := true)]), Ok(t.enrollments[hash].account))
    else (t, Err(EnrollmentInvalid))
  }

  /** Challenges and sessions of the device go with it. */
  function DeleteDevice(t: Tables, account: int, id: int): (Tables, Result<(), AuthError>) {
    if id !in t.devices || t.devices[id].account != account then (t, Err(NotFound)) else
    (t.(devices := t.devices - {id},
        challenges := map c | c in t.challenges && t.challenges[c].device != id :: t.challenges[c],
        sessions := map h | h in t.sessions && t.sessions[h].device != id :: t.sessions[h]),
     Ok(()))
  }

  /** Everything that refers to the account, or to one of its devices, goes with it. */
  function DeleteAccount(t: Tables, account: int): (Tables, Result<(), AuthError>) {
    if account !in t.accounts then (t, Err(NotFound)) else
    var devices := map d | d in t.devices && t.devices[d].account != account :: t.devices[d];
    (t.(accounts := t.accounts - {account}, devices := devices,
        challenges := map c | c in t.challenges && t.challenges[c].device in devices :: t.challenges[c],
        enrollments := map h | h in t.enrollments && t.enrollments[h].account != account :: t.enrollments[h],
        sessions := map h | h in t.sessions && t.sessions[h].account != account && t.sessions[h].device in devices
                    :: t.sessions[h]),
     Ok(()))
  }

  function PurgeChallenges(t: Tables): Tables {
    t.(challenges := map c | c in t.challenges && t.now <= t.challenges[c].expires :: t.challenges[c])
  }

  function PurgeEnrollments(t: Tables): Tables {
    t.(enrollments := map h | h in t.enrollments && t.now <= t.enrollments[h].expires :: t.enrollments[h])
  }

  function PurgeSessions(t: Tables): Tables {
    t.(sessions := map h | h in t.sessions && t.now <= t.sessions[h].expires :: t.sessions[h])
  }
}
