/** Granularity: handler atomic. What the server's invariant means for its users, request by request. */
module ServerGuarantees {
  import opened Common
  import opened Uuids
  import opened Keyspace
  import opened Keys
  import opened Tokens
  import opened UserTables
  import opened Worlds
  import opened Server
  import L = Login
  import U = SignUp
  import F = SecondFactor
  import A = Authorization

  // ----- referential integrity

  /** The id of the account a request creates, if it creates one. */
  function Created(w: World, crypto: Crypto, r: Request): set<Uuid> {
    match r
    case Register(typed, password, draw) =>
      var email := crypto.normalizeEmail(typed);
      if email != "" && crypto.policyOk(password) && FindByEmail(w.db, email).None? then {draw.id} else {}
    case GoogleCallback(state, claims, draw) =>
      if Consume(w.redis, OAuthState(state)).1.Some? && claims.Verified? && claims.value.email != ""
         && FindByEmail(w.db, claims.value.email).None? then {draw.id} else {}
    case _ => {}
  }

  lemma LoginUsers(w: World, crypto: Crypto, email: string, password: string, d: Draw)
    ensures L.Login(w, crypto, email, password, d).0.db.users.Keys == w.db.users.Keys
  {
    hide ToString, Exec, StoreRefresh, SetText, HitCounter, Drop, Crypto.Accepts;
  }

  lemma RegisterUsers(w: World, crypto: Crypto, email: string, password: string, d: Draw)
    ensures U.Register(w, crypto, crypto.normalizeEmail(email), password, d).0.db.users.Keys
         == w.db.users.Keys + Created(w, crypto, Register(email, password, d))
  {
    hide ToString, Exec, SetText, Crypto.Hash;
  }

  lemma GoogleUsers(w: World, crypto: Crypto, state: string, claims: U.IdToken, d: Draw)
    ensures U.GoogleCallback(w, state, claims, d).0.db.users.Keys
         == w.db.users.Keys + Created(w, crypto, GoogleCallback(state, claims, d))
  {
    hide ToString, Consume, StoreRefresh;
  }

  lemma SignInsAddNoRow(w: World, crypto: Crypto, r: Request)
    requires r.ResendVerification? || r.Rotate? || r.Logout? || r.LogoutAll? || r.ResetRequest? || r.Verify?
             || r.GoogleRedirect?
    ensures Serve(w, crypto, r).0.db == w.db
  {
    hide ToString, Parse, StoreRefresh, ConsumeRefresh, Consume, Drop, RevokeAll, SetText, HitCounter;
    hide L.Login, L.Reset, F.Recovery, F.Enroll, F.Confirm, U.VerifyEmail, U.Register, U.GoogleCallback;
    hide A.Authorize, A.Consent, A.Exchange;
  }

  lemma FlowsAddNoRow(w: World, crypto: Crypto, r: Request)
    requires r.Authorize? || r.Consent? || r.Exchange? || r.RateHit? || r.NewClient? || r.Elapse?
    ensures Serve(w, crypto, r).0.db.users == w.db.users
  {
    hide Parse, Exec, HitCounter, A.SessionUser, A.ValidRedirectURI, HasConsent, A.VerifyPKCE, A.IdOrNil;
    hide L.Login, L.Refresh, L.Logout, L.LogoutAll, L.ResetRequest, L.Reset, U.Register, U.VerifyEmail;
    hide U.ResendVerification, U.GoogleRedirect, U.GoogleCallback, F.Enroll, F.Confirm, F.Verify, F.Recovery;
  }

  /**
   Upserting UPDATEs never create a row: the users table grows by the account a sign-up creates and by nothing else.
   The proof goes through the invariant that every stored token names an existing row.
   */
  lemma NoPhantomRows(s: State, crypto: Crypto, r: Request)
    requires Inv(s) && Allowed(s, r)
    ensures Serve(s.world, crypto, r).0.db.users.Keys == s.world.db.users.Keys + Created(s.world, crypto, r)
  {
    var w := s.world;
    hide WorldOk, L.Login, L.Refresh, L.Logout, L.LogoutAll, L.ResetRequest, L.Reset, U.Register, U.VerifyEmail;
    hide U.ResendVerification, U.GoogleRedirect, U.GoogleCallback, F.Enroll, F.Confirm, F.Verify, F.Recovery;
    hide A.Authorize, A.Consent, A.Exchange, F.ListsUnused, Consume, HitCounter;
    match r
    case Register(email, password, draw) => RegisterUsers(w, crypto, email, password, draw);
    case GoogleCallback(state, claims, draw) => GoogleUsers(w, crypto, state, claims, draw);
    case VerifyEmail(token) => VerifyEmailOk(w, token, s.drawn, s.ids);
    case Login(email, password, d) => LoginUsers(w, crypto, crypto.normalizeEmail(email), password, d);
    case Reset(token, password, draw) => ResetOk(w, crypto, token, password, draw, s.drawn, s.ids);
    case Enroll(subject, e) => EnrollOk(w, crypto, subject, e, s.drawn, s.ids);
    case Confirm(subject, code) => ConfirmOk(w, crypto, subject, code, s.drawn, s.ids);
    case Recovery(session, code, listing, draw) =>
      RecoveryOk(w, crypto, session, code, listing, draw, s.drawn, s.ids);
    case Authorize(_, _, _) => FlowsAddNoRow(w, crypto, r);
    case Consent(_, _, _) => FlowsAddNoRow(w, crypto, r);
    case Exchange(_) => FlowsAddNoRow(w, crypto, r);
    case RateHit(_, _) => FlowsAddNoRow(w, crypto, r);
    case NewClient(_, _) => FlowsAddNoRow(w, crypto, r);
    case Elapse(_) => FlowsAddNoRow(w, crypto, r);
    case _ => SignInsAddNoRow(w, crypto, r);
  }

  /**
   In every state the server can reach, every stored verification, reset, MFA, refresh, session or authorization
   entry names an existing row, so no request ever meets an id it cannot parse, and the code exchange cannot panic.
   */
  lemma StoredIdsAreRows(s: State, crypto: Crypto, r: Request, k: Key)
    requires Reachable(s, crypto) && Allowed(s, r)
    ensures Serve(s.world, crypto, r).1 != ServerError
    ensures k in s.world.redis.data ==> EntryOk(s.world.db.users.Keys, k, s.world.redis.data[k].value)
  {
    ReachableOk(s, crypto);
    StepKeeps(s, crypto, r);
    hide Serve, Allowed, Reachable;
  }

  /** In every reachable state a lookup by email finds exactly the one row that carries it. */
  lemma LookupIsScan(s: State, crypto: Crypto, email: string, id: Uuid, u: User)
    requires Reachable(s, crypto)
    ensures FindByEmail(s.world.db, email) == Some((id, u))
            <==> FindByID(s.world.db, id) == Some(u) && u.email == email
  {
    ReachableOk(s, crypto);
    FindByEmailIsScan(s.world.db, email, id, u);
  }

  // ----- full revocation

  /** Every refresh token of the user and its index are gone; apart from the listed keys nothing else changed. */
  ghost predicate Revoked(before: Store<Key>, after: Store<Key>, user: string, alsoGone: set<Key>) {
    && after.now == before.now
    && (forall k :: k in after.data <==>
          k in before.data && k !in alsoGone && k != UserSessions(user)
          && !(k.Refresh? && before.data[k].value == Text(user)))
    && (forall k :: k in after.data ==> after.data[k] == before.data[k])
  }

  lemma LogoutAllRevokes(s: State, crypto: Crypto, user: string)
    requires Reachable(s, crypto)
    ensures var (after, answer) := L.LogoutAll(s.world, Some(user));
            answer == Accepted200 && Revoked(s.world.redis, after.redis, user, {}) && after.db == s.world.db
    ensures L.LogoutAll(s.world, None) == (s.world, Accepted200)
  {
    ReachableOk(s, crypto);
    RevokeAllExact(s.world.redis, s.world.db.users.Keys, s.drawn, user);
  }

  /**
   A successful password reset spends its token, replaces the hash, unlocks the account and kills every refresh token
   of that user; all other rows, tokens and keys are untouched. The login counter in Redis is not reset.
   */
  lemma ResetRevokes(s: State, crypto: Crypto, token: string, password: string, d: Draw)
    requires Reachable(s, crypto)
    ensures var w := s.world;
            var (after, resp) := L.Reset(w, crypto, token, password, d);
            var user := Consume(w.redis, PwdReset(token)).1;
            && (resp == Accepted200 <==> token != "" && crypto.policyOk(password) && Live(w.redis, PwdReset(token)))
            && (resp == Accepted200 ==>
              && user.Some? && Parse(user.value).Some? && Parse(user.value).value in w.db.users
              && Revoked(w.redis, after.redis, user.value, {PwdReset(token)})
              && var id := Parse(user.value).value;
                 after.db == w.db.(users := w.db.users[id := w.db.users[id].(
                   passwordHash := crypto.Hash(password, d.salt), failedAttempts := 0, lockedUntil := None)]))
  {
    ReachableOk(s, crypto);
    var w := s.world;
    assert WellTyped(w.redis);
    ConsumeReadsLive(w.redis, PwdReset(token));
    hide Parse, RevokeAll, NamesUser, ToString, Revoked, Crypto.Hash, Reachable, DbOk;
    ConsumeOk(w, PwdReset(token), s.drawn, s.ids);
    if Consume(w.redis, PwdReset(token)).1.Some? {
      ResetRevokesKeys(w, s.drawn, s.ids, token);
    }
    hide WorldOk, RedisOk, Consume;
  }

  lemma ConsumeReadsLive(redis: Store<Key>, k: Key)
    requires WellTyped(redis) && k.PwdReset?
    ensures Consume(redis, k).1.Some? <==> Live(redis, k)
  {
  }

  lemma ResetRevokesKeys(w: World, drawn: set<string>, ids: set<Uuid>, token: string)
    requires WorldOk(w, drawn, ids) && Consume(w.redis, PwdReset(token)).1.Some?
    ensures var (redis, user) := Consume(w.redis, PwdReset(token));
            Revoked(w.redis, RevokeAll(redis, user.value), user.value, {PwdReset(token)})
  {
    ConsumeOk(w, PwdReset(token), drawn, ids);
    var (redis, user) := Consume(w.redis, PwdReset(token));
    RevokeAllExact(redis, w.db.users.Keys, drawn, user.value);
    hide WorldOk, RevokeAll, Parse, ToString, NamesUser;
  }
}
