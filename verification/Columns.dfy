/**
 Granularity: handler atomic. Which request changes which column of an account, over whole runs: the password, the
 verified email, the second factor. The lock columns are the subject of LockoutOnServer.
 */
module Columns {
  import opened Common
  import opened Uuids
  import opened Keyspace
  import opened Keys
  import opened Tokens
  import opened UserTables
  import opened Worlds
  import opened Server
  import opened Effects
  import opened Answers
  import G = ServerGuarantees
  import L = Login

  // ----- the requests that act on an account

  predicate Resets(w: World, crypto: Crypto, r: Request, id: Uuid) {
    r.Reset? && r.token != "" && crypto.policyOk(r.password) && StandsFor(w.redis, PwdReset(r.token), id)
  }

  predicate Verifies(w: World, r: Request, id: Uuid) {
    r.VerifyEmail? && r.token != "" && StandsFor(w.redis, EmailVerify(r.token), id)
  }

  predicate Enrolls(r: Request, id: Uuid) {
    r.Enroll? && Names(r.subject, id)
  }

  /** A code that is right for the secret stored at that moment. */
  predicate Confirms(w: World, crypto: Crypto, r: Request, id: Uuid) {
    && r.Confirm? && Names(r.subject, id) && r.code != ""
    && id in w.db.users && crypto.totpValid(r.code, w.db.users[id].totpSecret)
  }

  ghost predicate Recovers(w: World, crypto: Crypto, r: Request, id: Uuid) {
    && r.Recovery? && r.mfaSession != "" && r.code != "" && StandsFor(w.redis, MfaSession(r.mfaSession), id)
    && exists c: Uuid :: IsRecoveryCode(w.db, crypto, id, r.code, c)
  }

  /** What the request makes of the account's row, the lock columns aside. */
  ghost function RowAfter(w: World, crypto: Crypto, r: Request, id: Uuid): User
    requires id in w.db.users
  {
    var u := w.db.users[id];
    u.(passwordHash := if Resets(w, crypto, r, id) then crypto.Hash(r.password, r.draw.salt) else u.passwordHash,
       emailVerified := u.emailVerified || Verifies(w, r, id),
       totpSecret := if Enrolls(r, id) then r.enrolment.secret else u.totpSecret,
       totpEnabled := !Enrolls(r, id) && !Recovers(w, crypto, r, id) && (u.totpEnabled || Confirms(w, crypto, r, id)))
  }

  predicate SameButLock(a: User, b: User) {
    a == b.(failedAttempts := a.failedAttempts, lockedUntil := a.lockedUntil)
  }

  ghost predicate Moved(w: World, after: Db, crypto: Crypto, r: Request, id: Uuid)
    requires id in w.db.users
  {
    id in after.users && SameButLock(after.users[id], RowAfter(w, crypto, r, id))
  }

  lemma FailureKeepsRow(w: World, target: Uuid, id: Uuid)
    requires id in w.db.users
    ensures var after := L.FailedAttempt(w, target).db;
            id in after.users && SameButLock(after.users[id], w.db.users[id])
  {
    hide ToString, HitCounter;
  }

  lemma ClearingKeepsRow(w: World, target: Uuid, u: User, id: Uuid)
    requires id in w.db.users
    ensures var after := L.ClearAttempts(w, target, u).db;
            id in after.users && SameButLock(after.users[id], w.db.users[id])
  {
    hide ToString, Drop;
  }

  lemma LoginKeepsRow(w: World, crypto: Crypto, email: string, password: string, d: Draw, id: Uuid)
    requires id in w.db.users
    ensures var after := L.Login(w, crypto, email, password, d).0.db;
            id in after.users && SameButLock(after.users[id], w.db.users[id])
  {
    hide ToString, StoreRefresh, SetText, Crypto.Accepts, L.FailedAttempt, L.ClearAttempts, FindByEmail;
    if FindByEmail(w.db, email).Some? {
      var (target, u) := FindByEmail(w.db, email).value;
      FailureKeepsRow(w, target, id);
      ClearingKeepsRow(w, target, u, id);
    }
  }

  lemma LoginMoves(w: World, crypto: Crypto, r: Request, id: Uuid)
    requires r.Login? && id in w.db.users
    ensures Moved(w, Serve(w, crypto, r).0.db, crypto, r, id)
  {
    hide L.Login;
    LoginKeepsRow(w, crypto, crypto.normalizeEmail(r.email), r.password, r.draw, id);
  }

  lemma CreateKeepsRow(db: Db, created: Uuid, u: User, id: Uuid)
    requires id in db.users && created != id
    ensures var after := Create(db, created, u).0; id in after.users && after.users[id] == db.users[id]
  {
  }

  lemma RegisterMoves(w: World, crypto: Crypto, r: Request, id: Uuid)
    requires r.Register? && id in w.db.users && r.draw.id != id
    ensures Moved(w, Serve(w, crypto, r).0.db, crypto, r, id)
  {
    hide ToString, SetText, Crypto.Hash, Create;
    var email := crypto.normalizeEmail(r.email);
    var u := NULL_ROW.(email := email, passwordHash := crypto.Hash(r.password, r.draw.salt));
    CreateKeepsRow(w.db, r.draw.id, u, id);
  }

  lemma GoogleMoves(w: World, crypto: Crypto, r: Request, id: Uuid)
    requires r.GoogleCallback? && id in w.db.users && r.draw.id != id
    ensures Moved(w, Serve(w, crypto, r).0.db, crypto, r, id)
  {
    hide ToString, Consume, StoreRefresh, Create, FindByEmail;
    if r.claims.Verified? {
      var c := r.claims.value;
      CreateKeepsRow(w.db, r.draw.id, NULL_ROW.(email := c.email, emailVerified := c.emailVerified), id);
    }
  }

  lemma DrawnIdIsNew(s: State, r: Request)
    requires Inv(s) && Allowed(s, r) && DrawOf(r).Some?
    ensures DrawOf(r).value.id !in s.world.db.users
  {
  }

  lemma VerifyEmailMoves(s: State, crypto: Crypto, r: Request, id: Uuid)
    requires Reachable(s, crypto) && id in s.world.db.users && r.VerifyEmail?
    ensures Moved(s.world, Serve(s.world, crypto, r).0.db, crypto, r, id)
  {
    hide Serve, Reachable, Inv, ToString, Parse;
    VerifyEmailAnswers(s, crypto, r.token, id);
    if r.token != "" && Live(s.world.redis, EmailVerify(r.token)) {
      ReachableOk(s, crypto);
      EntryNamesRow(s, EmailVerify(r.token));
      VerifyEmailAnswers(s, crypto, r.token, Parse(s.world.redis.data[EmailVerify(r.token)].value.text).value);
    }
    hide Live;
  }

  lemma ResetMoves(s: State, crypto: Crypto, r: Request, id: Uuid)
    requires Reachable(s, crypto) && id in s.world.db.users && r.Reset?
    ensures Moved(s.world, Serve(s.world, crypto, r).0.db, crypto, r, id)
  {
    hide Serve, Reachable, Inv, ToString, Parse, Crypto.Hash;
    ResetAnswers(s, crypto, r.token, r.password, r.draw, id);
    if r.token != "" && Live(s.world.redis, PwdReset(r.token)) {
      ReachableOk(s, crypto);
      EntryNamesRow(s, PwdReset(r.token));
      var owner := Parse(s.world.redis.data[PwdReset(r.token)].value.text).value;
      ResetAnswers(s, crypto, r.token, r.password, r.draw, owner);
    }
    hide Live;
  }

  lemma EnrollMoves(s: State, crypto: Crypto, r: Request, id: Uuid)
    requires Allowed(s, r) && id in s.world.db.users && r.Enroll?
    ensures Moved(s.world, Serve(s.world, crypto, r).0.db, crypto, r, id)
  {
    hide Serve, Allowed, Parse, Crypto.Hash;
    EnrollAnswers(s, crypto, r.subject, r.enrolment, id);
    if r.subject.Some? && Parse(r.subject.value).Some? {
      EnrollAnswers(s, crypto, r.subject, r.enrolment, Parse(r.subject.value).value);
    }
  }

  lemma ConfirmMoves(s: State, crypto: Crypto, r: Request, id: Uuid)
    requires id in s.world.db.users && r.Confirm?
    ensures Moved(s.world, Serve(s.world, crypto, r).0.db, crypto, r, id)
  {
    hide Serve, Parse;
    ConfirmAnswers(s, crypto, r.subject, r.code, id);
    if r.subject.Some? && Parse(r.subject.value).Some? {
      ConfirmAnswers(s, crypto, r.subject, r.code, Parse(r.subject.value).value);
    }
  }

  lemma RecoveryMoves(s: State, crypto: Crypto, r: Request, id: Uuid)
    requires Reachable(s, crypto) && Allowed(s, r) && id in s.world.db.users && r.Recovery?
    ensures Moved(s.world, Serve(s.world, crypto, r).0.db, crypto, r, id)
  {
    hide Serve, Allowed, Reachable, ToString, IsRecoveryCode, StandsFor, SignedInWith, OnlyKeys;
    RecoveryAnswers(s, crypto, r.mfaSession, r.code, r.listing, r.draw, id);
    var answer := Serve(s.world, crypto, r).1;
    if answer.SignedIn? {
      RecoveryAnswers(s, crypto, r.mfaSession, r.code, r.listing, r.draw, answer.user);
    }
  }

  lemma OthersMoveNothing(w: World, after: Db, crypto: Crypto, r: Request, id: Uuid)
    requires id in w.db.users && after.users == w.db.users
    requires !r.Reset? && !r.VerifyEmail? && !r.Enroll? && !r.Confirm? && !r.Recovery?
    ensures Moved(w, after, crypto, r, id)
  {
  }

  /** Every request, whatever its arguments, does to every account's row exactly what RowAfter says. */
  lemma RowMoves(s: State, crypto: Crypto, r: Request, id: Uuid)
    requires Reachable(s, crypto) && Allowed(s, r) && id in s.world.db.users
    ensures Moved(s.world, Serve(s.world, crypto, r).0.db, crypto, r, id)
  {
    hide Serve, Moved, Reachable, Inv;
    assert r.Enroll? ==> r.enrolment.Complete();
    if r.Login? {
      LoginMoves(s.world, crypto, r, id);
    } else if r.Register? || r.GoogleCallback? {
      ReachableOk(s, crypto);
      DrawnIdIsNew(s, r);
      if r.Register? {
        RegisterMoves(s.world, crypto, r, id);
      } else {
        GoogleMoves(s.world, crypto, r, id);
      }
    } else if r.VerifyEmail? {
      VerifyEmailMoves(s, crypto, r, id);
    } else if r.Reset? {
      ResetMoves(s, crypto, r, id);
    } else if r.Enroll? {
      EnrollMoves(s, crypto, r, id);
    } else if r.Confirm? {
      ConfirmMoves(s, crypto, r, id);
    } else if r.Recovery? {
      RecoveryMoves(s, crypto, r, id);
    } else {
      if r.Authorize? || r.Consent? || r.Exchange? || r.RateHit? || r.NewClient? || r.Elapse? {
        G.FlowsAddNoRow(s.world, crypto, r);
      } else {
        G.SignInsAddNoRow(s.world, crypto, r);
      }
      OthersMoveNothing(s.world, Serve(s.world, crypto, r).0.db, crypto, r, id);
    }
    hide Allowed;
  }

  lemma CreateAddsRow(db: Db, created: Uuid, u: User, id: Uuid)
    requires id !in db.users
    ensures var after := Create(db, created, u).0; id in after.users ==> after.users[id] == u
  {
  }

  lemma SignUpsAddBareRows(w: World, crypto: Crypto, r: Request, id: Uuid)
    requires (r.Register? || r.GoogleCallback?) && id !in w.db.users
    ensures var users := Serve(w, crypto, r).0.db.users; id in users ==> !users[id].totpEnabled
  {
    hide ToString, SetText, Consume, StoreRefresh, Crypto.Hash, Create, FindByEmail;
    if r.Register? {
      var email := crypto.normalizeEmail(r.email);
      var u := NULL_ROW.(email := email, passwordHash := crypto.Hash(r.password, r.draw.salt));
      CreateAddsRow(w.db, r.draw.id, u, id);
    } else if r.claims.Verified? {
      var c := r.claims.value;
      CreateAddsRow(w.db, r.draw.id, NULL_ROW.(email := c.email, emailVerified := c.emailVerified), id);
    }
  }

  /** A new account starts without a second factor. */
  lemma NewRowIsBare(s: State, crypto: Crypto, r: Request, id: Uuid)
    requires Reachable(s, crypto) && Allowed(s, r) && id !in s.world.db.users
    ensures var users := Serve(s.world, crypto, r).0.db.users; id in users ==> !users[id].totpEnabled
  {
    hide Serve, Reachable, Inv;
    ReachableOk(s, crypto);
    G.NoPhantomRows(s, crypto, r);
    if r.Register? || r.GoogleCallback? {
      SignUpsAddBareRows(s.world, crypto, r, id);
    }
    hide Allowed;
  }
}
