/** The store over those tables: each method changes them in place with the effect AuthTables gives it. */
module AuthStore {
  import opened Outcomes
  import A = AuthTables
  import opened AuthTables

  datatype Purged = Purged(challenges: int, enrollments: int, sessions: int)

  class Store {
    var now: int
    var accounts: set<int>
    var devices: map<int, Device>
    var challenges: map<int, Challenge>
    var enrollments: map<string, Enrollment>
    var sessions: map<string, Session>
    var nextAccount: int
    var nextDevice: int
    var nextChallenge: int

    function View(): Tables
      reads this
    {
      Tables(now, accounts, devices, challenges, enrollments, sessions, nextAccount, nextDevice, nextChallenge)
    }

    constructor ()
      ensures View() == NO_ROWS
    {
      now, accounts, devices, challenges, enrollments, sessions := 0, {}, map[], map[], map[], map[];
      nextAccount, nextDevice, nextChallenge := 1, 1, 1;
    }

    method CreateAccount() returns (account: int)
      requires nextAccount !in accounts
      modifies this
      ensures View() == A.CreateAccount(old(View()))
      ensures account !in old(accounts) && accounts == old(accounts) + {account} && account < nextAccount
    {
      account := nextAccount;
      accounts, nextAccount := accounts + {account}, nextAccount + 1;
    }

    /** From then on the challenge can be redeemed with its nonce until it expires; no other changes. */
    method CreateChallenge(device: int, nonce: string, ttl: int) returns (r: Result<int, AuthError>)
      modifies this
      requires nextChallenge !in challenges
      ensures (View(), r) == A.CreateChallenge(old(View()), device, nonce, ttl)
      ensures if device in devices then r.Ok? && r.value !in old(challenges) else r == Err(NotFound)
      ensures r.Ok? ==>
                forall n, later: int ::
                  Redeemable(View().(now := later), r.value, n) <==> n == nonce && later < now + ttl
      ensures forall c, n :: r != Ok(c) ==> (Redeemable(View(), c, n) <==> old(Redeemable(View(), c, n)))
    {
      if device !in devices {
        return Err(NotFound);
      }
      r := Ok(nextChallenge);
      challenges := challenges[nextChallenge := Challenge(device, nonce, now + ttl, false)];
      nextChallenge := nextChallenge + 1;
    }

    /** A challenge is redeemed at most once: success marks it, and a marked one is refused; no other changes. */
    method ConsumeChallenge(id: int, nonce: string) returns (r: Result<int, AuthError>)
      modifies this
      ensures (View(), r) == A.ConsumeChallenge(old(View()), id, nonce)
      ensures r == if old(Redeemable(View(), id, nonce)) then Ok(old(challenges)[id].device) else Err(ChallengeInvalid)
      ensures forall n :: r.Ok? || n == nonce ==> !Redeemable(View(), id, n)
      ensures forall c, n :: c != id ==> (Redeemable(View(), c, n) <==> old(Redeemable(View(), c, n)))
    {
      if !Redeemable(View(), id, nonce) {
        return Err(ChallengeInvalid);
      }
      r := Ok(challenges[id].device);
      challenges := challenges[id := challenges[id].(used := true)];
    }

    /** From then on the session is found until it expires; no other lookup changes. */
    method CreateSession(account: int, device: int, hash: string, ttl: int) returns (r: Result<(), AuthError>)
      modifies this
      ensures (View(), r) == A.CreateSession(old(View()), account, device, hash, ttl)
      ensures r == if hash in old(sessions) then Err(UniqueViolation)
                   else if account in accounts && device in devices then Ok(()) else Err(ForeignKeyViolation)
      ensures r.Ok? ==>
                forall later: int ::
                  A.SessionByTokenHash(View().(now := later), hash)
                  == if later < now + ttl then Ok(Session(account, device, now + ttl)) else Err(NotFound)
      ensures forall h :: h != hash ==> A.SessionByTokenHash(View(), h) == old(A.SessionByTokenHash(View(), h))
    {
      if hash in sessions {
        return Err(UniqueViolation);
      }
      if account !in accounts || device !in devices {
        return Err(ForeignKeyViolation);
      }
      sessions := sessions[hash := Session(account, device, now + ttl)];
      r := Ok(());
    }

    /** Sessions that ran out are not found. */
    method SessionByTokenHash(hash: string) returns (r: Result<Session, AuthError>)
      ensures r == A.SessionByTokenHash(View(), hash)
      ensures r == if hash in sessions && now < sessions[hash].expires then Ok(sessions[hash]) else Err(NotFound)
    {
      if hash !in sessions || sessions[hash].expires <= now {
        return Err(NotFound);
      }
      r := Ok(sessions[hash]);
    }

    method DeleteSession(hash: string)
      modifies this
      ensures View() == A.DeleteSession(old(View()), hash)
      ensures A.SessionByTokenHash(View(), hash).Err?
      ensures forall h :: h != hash ==> A.SessionByTokenHash(View(), h) == old(A.SessionByTokenHash(View(), h))
    {
      sessions := sessions - {hash};
    }

    /** No session of the account is left but `keep`, no other session goes, and the count is what went. */
    method DeleteSessions(account: int, keep: Option<string>) returns (n: nat)
      modifies this
      ensures (View(), n) == A.DeleteSessions(old(View()), account, keep)
      ensures forall h :: h in sessions && sessions[h].account == account ==> keep == Some(h)
      ensures forall h :: h in old(sessions) && (old(sessions)[h].account != account || keep == Some(h)) ==>
                h in sessions && sessions[h] == old(sessions)[h]
      ensures n == |old(sessions)| - |sessions|
    {
      var revoked := Revoked(View(), account, keep);
      RestSize(sessions, revoked);
      n := |revoked|;
      sessions := sessions - revoked;
    }

    /** From then on the token can be redeemed for its account until it expires. */
    method CreateEnrollmentToken(account: int, hash: string, ttl: int) returns (r: Result<(), AuthError>)
      modifies this
      ensures (View(), r) == A.CreateEnrollmentToken(old(View()), account, hash, ttl)
      ensures r == if hash in old(enrollments) then Err(UniqueViolation)
                   else if account in accounts then Ok(()) else Err(ForeignKeyViolation)
      ensures r.Ok? ==>
                forall later: int ::
                  A.ConsumeEnrollmentToken(View().(now := later), hash).1
                  == if later < now + ttl then Ok(account) else Err(EnrollmentInvalid)
      ensures forall h :: h != hash ==>
                A.ConsumeEnrollmentToken(View(), h).1 == old(A.ConsumeEnrollmentToken(View(), h).1)
    {
      if hash in enrollments {
        return Err(UniqueViolation);
      }
      if account !in accounts {
        return Err(ForeignKeyViolation);
      }
      enrollments := enrollments[hash := Enrollment(account, now + ttl, false)];
      r := Ok(());
    }

    /** Whatever the answer, asking again is refused; what other tokens answer does not change. */
    method ConsumeEnrollmentToken(hash: string) returns (r: Result<int, AuthError>)
      modifies this
      ensures (View(), r) == A.ConsumeEnrollmentToken(old(View()), hash)
      ensures A.ConsumeEnrollmentToken(View(), hash).1 == Err(EnrollmentInvalid)
      ensures forall h :: h != hash ==>
                A.ConsumeEnrollmentToken(View(), h).1 == old(A.ConsumeEnrollmentToken(View(), h).1)
    {
      if hash !in enrollments || enrollments[hash].used || enrollments[hash].expires <= now {
        return Err(EnrollmentInvalid);
      }
      r := Ok(enrollments[hash].account);
      enrollments := enrollments[hash := enrollments[hash].(used := true)];
    }

    /** The device belongs to its account; no other device changes. */
    method CreateDevice(account: int, key: string) returns (r: Result<int, AuthError>)
      requires nextDevice !in devices
      modifies this
      ensures (View(), r) == A.CreateDevice(old(View()), account, key)
      ensures r.Ok? <==> account in accounts
      ensures r.Ok? ==> r.value !in old(devices) && devices == old(devices)[r.value := Device(account, key)]
      ensures r.Err? ==> r == Err(ForeignKeyViolation) && devices == old(devices)
    {
      if account !in accounts {
        return Err(ForeignKeyViolation);
      }
      r := Ok(nextDevice);
      devices := devices[nextDevice := Device(account, key)];
      nextDevice := nextDevice + 1;
    }

    /**
      Only the account that owns the device can delete it.  Its sessions and its
      challenges go with it and nothing else does.
     */
    method DeleteDevice(account: int, id: int) returns (r: Result<(), AuthError>)
      modifies this
      ensures (View(), r) == A.DeleteDevice(old(View()), account, id)
      ensures r == if id in old(devices) && old(devices)[id].account == account then Ok(()) else Err(NotFound)
      ensures r.Err? ==> View() == old(View())
      ensures r.Ok? ==> devices == old(devices) - {id}
      ensures r.Ok? ==>
                && (forall h :: h in sessions <==> h in old(sessions) && old(sessions)[h].device != id)
                && (forall c :: c in challenges <==> c in old(challenges) && old(challenges)[c].device != id)
      ensures forall h :: h in sessions ==> sessions[h] == old(sessions)[h]
      ensures forall c :: c in challenges ==> challenges[c] == old(challenges)[c]
    {
      if id !in devices || devices[id].account != account {
        return Err(NotFound);
      }
      devices := devices - {id};
      challenges := map c | c in challenges && challenges[c].device != id :: challenges[c];
      sessions := map h | h in sessions && sessions[h].device != id :: sessions[h];
      r := Ok(());
    }

    /** All that belongs to the account, or to a device of it, goes, and nothing of any other account does. */
    method DeleteAccount(account: int) returns (r: Result<(), AuthError>)
      modifies this
      ensures (View(), r) == A.DeleteAccount(old(View()), account)
      ensures r == if account in old(accounts) then Ok(()) else Err(NotFound)
      ensures r.Err? ==> View() == old(View())
      ensures r.Ok? ==> accounts == old(accounts) - {account}
      ensures r.Ok? ==>
                && (forall d :: d in devices <==> d in old(devices) && old(devices)[d].account != account)
                && (forall c :: c in challenges <==> c in old(challenges) && old(challenges)[c].device in devices)
                && (forall h :: h in enrollments <==> h in old(enrollments) && old(enrollments)[h].account != account)
                && (forall h :: h in sessions <==>
                      h in old(sessions) && old(sessions)[h].account != account && old(sessions)[h].device in devices)
      ensures forall d :: d in devices ==> devices[d] == old(devices)[d]
      ensures forall c :: c in challenges ==> challenges[c] == old(challenges)[c]
      ensures forall h :: h in enrollments ==> enrollments[h] == old(enrollments)[h]
      ensures forall h :: h in sessions ==> sessions[h] == old(sessions)[h]
    {
      if account !in accounts {
        return Err(NotFound);
      }
      accounts := accounts - {account};
      devices := map d | d in devices && devices[d].account != account :: devices[d];
      challenges := map c | c in challenges && challenges[c].device in devices :: challenges[c];
      enrollments := map h | h in enrollments && enrollments[h].account != account :: enrollments[h];
      sessions := map h | h in sessions && sessions[h].account != account && sessions[h].device in devices
                  :: sessions[h];
      r := Ok(());
    }

    /**
      Purge the three tables one after the other; a database error at table
      `failAt` leaves that table and the later ones alone.  The counts are the
      rows that went.
     */
    method PurgeExpired(failAt: nat) returns (p: Purged, failed: bool)
      modifies this
      ensures failed <==> failAt < 3
      ensures var t := old(View());
              var c := if 0 < failAt then PurgeChallenges(t) else t;
              var e := if 1 < failAt then PurgeEnrollments(c) else c;
              View() == if 2 < failAt then PurgeSessions(e) else e
      ensures forall c :: c in challenges <==>
                c in old(challenges) && (failAt == 0 || now <= old(challenges)[c].expires)
      ensures forall h :: h in enrollments <==>
                h in old(enrollments) && (failAt <= 1 || now <= old(enrollments)[h].expires)
      ensures forall h :: h in sessions <==> h in old(sessions) && (failAt <= 2 || now <= old(sessions)[h].expires)
      ensures p.challenges == |old(challenges)| - |challenges|
      ensures p.enrollments == |old(enrollments)| - |enrollments|
      ensures p.sessions == |old(sessions)| - |sessions|
    {
      p, failed := Purged(0, 0, 0), false;
      for i := 0 to 3
        invariant i <= failAt && !failed
        invariant var t := old(View());
                  var c := if 0 < i then PurgeChallenges(t) else t;
                  var e := if 1 < i then PurgeEnrollments(c) else c;
                  View() == if 2 < i then PurgeSessions(e) else e
        invariant p.challenges == |old(challenges)| - |challenges|
        invariant p.enrollments == |old(enrollments)| - |enrollments|
        invariant p.sessions == |old(sessions)| - |sessions|
      {
        if i == failAt {
          return p, true;
        }
        if i == 0 {
          var rows := |challenges|;
          challenges := PurgeChallenges(View()).challenges;
          p := p.(challenges := rows - |challenges|);
        } else if i == 1 {
          var rows := |enrollments|;
          enrollments := PurgeEnrollments(View()).enrollments;
          p := p.(enrollments := rows - |enrollments|);
        } else {
          var rows := |sessions|;
          sessions := PurgeSessions(View()).sessions;
          p := p.(sessions := rows - |sessions|);
        }
      }
    }
  }
}
