/** Granularity: handler atomic. Each account of the running server behaves as the account machine of Lockout. */
module LockoutOnServer {
  import opened Common
  import opened Uuids
  import opened Keyspace
  import opened Keys
  import opened Tokens
  import opened UserTables
  import opened Worlds
  import opened Server
  import opened ServerGuarantees
  import L = Login
  import U = SignUp
  import F = SecondFactor
  import A = Authorization
  import Acct = Lockout

  function CounterOf(redis: Store<Key>, id: Uuid): Option<Acct.Counter> {
    var k := LoginAttempts(ToString(id));
    if k in redis.data && redis.data[k].value.Count? && redis.data[k].expiry.At?
    then Some(Acct.Counter(redis.data[k].value.count, redis.data[k].expiry.time)) else None
  }

  function AccountOf(w: World, id: Uuid): Acct.Account {
    var u := Row(w.db, id);
    Acct.Account(w.redis.now, CounterOf(w.redis, id), u.failedAttempts, u.lockedUntil)
  }

  /** What a request is to the account; while it is locked, a login of any kind is nothing. */
  function EventFor(w: World, crypto: Crypto, r: Request, id: Uuid): Acct.Event {
    match r
    case Login(typed, password, _) =>
      var email := crypto.normalizeEmail(typed);
      var found := FindByEmail(w.db, email);
      if email == "" || password == "" || found.None? || found.value.0 != id || L.IsLocked(found.value.1, w.redis.now)
      then Acct.Nothing
      else if crypto.Accepts(password, found.value.1.passwordHash) then Acct.Succeed else Acct.Guess
    case Reset(token, password, _) =>
      var user := Consume(w.redis, PwdReset(token)).1;
      if token != "" && crypto.policyOk(password) && user.Some? && Parse(user.value) == Some(id)
      then Acct.ResetPassword else Acct.Nothing
    case Elapse(d) => Acct.Wait(d)
    case _ => Acct.Nothing
  }

  lemma DistinctUsersDistinctKeys(a: Uuid, b: Uuid)
    requires ToString(a) == ToString(b)
    ensures a == b
  {
    ParseToString(a);
    ParseToString(b);
  }

  lemma CounterFrame(redis: Store<Key>, c: Command<Key>, id: Uuid)
    requires c.key != LoginAttempts(ToString(id))
    ensures CounterOf(Exec(redis, c).0, id) == CounterOf(redis, id) && Exec(redis, c).0.now == redis.now
  {
  }

  lemma StoreRefreshCounter(redis: Store<Key>, token: string, user: string, ttl: Time, id: Uuid)
    ensures CounterOf(StoreRefresh(redis, token, user, ttl), id) == CounterOf(redis, id)
    ensures StoreRefresh(redis, token, user, ttl).now == redis.now
  {
    var c1, c2 := Set(Refresh(token), Text(user), ttl), SAdd(UserSessions(user), token);
    ExecAllShort(redis, c1, c2);
    CounterFrame(redis, c1, id);
    CounterFrame(Exec(redis, c1).0, c2, id);
  }

  lemma ConsumeRefreshCounter(redis: Store<Key>, token: string, id: Uuid)
    ensures CounterOf(ConsumeRefresh(redis, token).0, id) == CounterOf(redis, id)
    ensures ConsumeRefresh(redis, token).0.now == redis.now
  {
    var c1 := GetDel(Refresh(token));
    var c2 := SRem(UserSessions(Consume(redis, Refresh(token)).1.GetOr("")), token);
    ExecAllShort(redis, c1, c2);
    CounterFrame(redis, c1, id);
    CounterFrame(Exec(redis, c1).0, c2, id);
  }

  /** A failed login is one Guess for its own account and invisible to every other. */
  lemma FailedAttemptProjects(w: World, target: Uuid, id: Uuid)
    requires WellTyped(w.redis) && target in w.db.users && id in w.db.users
    requires !L.IsLocked(w.db.users[target], w.redis.now)
    ensures AccountOf(L.FailedAttempt(w, target), id)
         == if target == id then Acct.Step(AccountOf(w, id), Acct.Guess) else AccountOf(w, id)
  {
    var c := Hit(LoginAttempts(ToString(target)), LOGIN_ATTEMPT_WINDOW);
    if target != id {
      if ToString(target) == ToString(id) {
        DistinctUsersDistinctKeys(target, id);
      }
      CounterFrame(w.redis, c, id);
    }
    hide ToString;
  }

  lemma ClearAttemptsProjects(w: World, target: Uuid, id: Uuid)
    requires target in w.db.users && id in w.db.users && !L.IsLocked(w.db.users[target], w.redis.now)
    ensures AccountOf(L.ClearAttempts(w, target, w.db.users[target]), id)
         == if target == id then Acct.Step(AccountOf(w, id), Acct.Succeed) else AccountOf(w, id)
  {
    var c := Del(LoginAttempts(ToString(target)));
    if target != id {
      if ToString(target) == ToString(id) {
        DistinctUsersDistinctKeys(target, id);
      }
      CounterFrame(w.redis, c, id);
    }
  }

  lemma LoginProjects(w: World, crypto: Crypto, r: Request, id: Uuid)
    requires r.Login? && WellTyped(w.redis) && id in w.db.users
    ensures AccountOf(L.Login(w, crypto, crypto.normalizeEmail(r.email), r.password, r.draw).0, id)
         == Acct.Step(AccountOf(w, id), EventFor(w, crypto, r, id))
  {
    hide L.FailedAttempt, L.ClearAttempts, StoreRefresh, ToString, Exec, CounterOf, Crypto.Accepts;
    var email := crypto.normalizeEmail(r.email);
    var found := FindByEmail(w.db, email);
    if email != "" && r.password != "" && found.Some? && !L.IsLocked(found.value.1, w.redis.now) {
      var (target, u) := found.value;
      FailedAttemptProjects(w, target, id);
      ClearAttemptsProjects(w, target, id);
      var cleared := L.ClearAttempts(w, target, u);
      var d := r.draw;
      CounterFrame(cleared.redis, Set(MfaSession(d.token), Text(ToString(target)), MFA_SESSION_TTL), id);
      StoreRefreshCounter(cleared.redis, d.token, ToString(target), REFRESH_TOKEN_TTL, id);
      var stored := StoreRefresh(cleared.redis, d.token, ToString(target), REFRESH_TOKEN_TTL);
      CounterFrame(stored, Set(SsoSession(d.session), Text(ToString(target)), SESSION_TOKEN_TTL), id);
    }
  }

  lemma ResetProjects(s: State, crypto: Crypto, r: Request, id: Uuid)
    requires Inv(s) && r.Reset? && id in s.world.db.users
    ensures AccountOf(L.Reset(s.world, crypto, r.token, r.password, r.draw).0, id)
         == Acct.Step(AccountOf(s.world, id), EventFor(s.world, crypto, r, id))
  {
    hide WorldOk, ToString, Parse, CounterOf, Exec, RevokeAll, Crypto.Hash, NamesUser;
    var w := s.world;
    ConsumeOk(w, PwdReset(r.token), s.drawn, s.ids);
    CounterFrame(w.redis, GetDel(PwdReset(r.token)), id);
    var (redis, user) := Consume(w.redis, PwdReset(r.token));
    RevokeCounter(redis, user.GetOr(""), id);
  }

  lemma FreshIdIsNoRow(s: State, r: Request, id: Uuid)
    requires Inv(s) && Allowed(s, r) && id in s.world.db.users
    ensures DrawOf(r).Some? ==> DrawOf(r).value.id != id
  {
  }

  lemma CallbackKeepsCounter(w: World, state: string, claims: U.IdToken, d: Draw, id: Uuid)
    ensures var after := U.GoogleCallback(w, state, claims, d).0.redis;
            CounterOf(after, id) == CounterOf(w.redis, id) && after.now == w.redis.now
  {
    hide ToString, Parse, CounterOf, StoreRefresh, Exec, Create;
    CounterFrame(w.redis, GetDel(OAuthState(state)), id);
    var redis := Consume(w.redis, OAuthState(state)).0;
    if claims.Verified? {
      var (_, user) := U.FindOrCreateUser(w.db, claims.value.email, claims.value.emailVerified, d);
      StoreRefreshCounter(redis, d.token, ToString(user), REFRESH_TOKEN_TTL, id);
    }
  }

  lemma FlowsKeepCounter(w: World, crypto: Crypto, r: Request, id: Uuid)
    requires r.GoogleRedirect? || r.GoogleCallback? || r.Authorize? || r.Consent? || r.Exchange?
    ensures var after := Serve(w, crypto, r).0.redis;
            CounterOf(after, id) == CounterOf(w.redis, id) && after.now == w.redis.now
  {
    hide ToString, Parse, CounterOf, StoreRefresh, Exec, U.GoogleCallback, HasConsent, A.ValidRedirectURI;
    hide A.VerifyPKCE, A.SessionUser;
    match r
    case GoogleRedirect(returnTo, d) =>
      CounterFrame(w.redis, Set(OAuthState(d.token), Text(returnTo), STATE_TTL), id);
    case GoogleCallback(state, claims, d) => CallbackKeepsCounter(w, state, claims, d, id);
    case Authorize(session, q, d) =>
      var user := A.SessionUser(w, session);
      if user.Some? {
        CounterFrame(w.redis, Set(OAuthCode(d.token), Code(A.GrantFor(user.value, q)), AUTH_CODE_TTL), id);
      }
    case Consent(session, q, d) =>
      var user := A.SessionUser(w, session);
      if user.Some? {
        CounterFrame(w.redis, Set(OAuthCode(d.token), Code(A.GrantFor(user.value, q)), AUTH_CODE_TTL), id);
      }
    case Exchange(q) => CounterFrame(w.redis, GetDel(OAuthCode(q.code)), id);
  }

  /** No other request touches the counter, and only Elapse moves the clock. */
  lemma OthersKeepCounter(w: World, crypto: Crypto, r: Request, id: Uuid)
    requires !r.Login? && !r.Reset? && (r.Enroll? ==> r.enrolment.Complete())
    requires r.RateHit? ==> !r.rateKey.LoginAttempts?
    ensures var after := Serve(w, crypto, r).0.redis;
            CounterOf(after, id) == CounterOf(w.redis, id) && after.now == w.redis.now + if r.Elapse? then r.d else 0
  {
    hide ToString, Parse, CounterOf, StoreRefresh, ConsumeRefresh, Exec, Drop, RevokeAll, Advance;
    hide Crypto.Accepts, Crypto.Hash, HasConsent, A.ValidRedirectURI, A.VerifyPKCE, A.SessionUser, F.FirstMatch;
    hide Create, MarkUsed, ReplaceAll, F.HashAll, UpdateTOTP, SetEmailVerified;
    hide U.GoogleRedirect, U.GoogleCallback, A.Authorize, A.Consent, A.Exchange;
    match r
    case Register(_, _, d) =>
      CounterFrame(w.redis, Set(EmailVerify(d.token), Text(ToString(d.id)), EMAIL_VERIFY_TTL), id);
    case VerifyEmail(token) => CounterFrame(w.redis, GetDel(EmailVerify(token)), id);
    case ResendVerification(typed, d) =>
      var email := crypto.normalizeEmail(typed);
      if FindByEmail(w.db, email).Some? {
        var user := FindByEmail(w.db, email).value.0;
        CounterFrame(w.redis, Set(EmailVerify(d.token), Text(ToString(user)), EMAIL_VERIFY_TTL), id);
      }
    case Rotate(token, d) =>
      ConsumeRefreshCounter(w.redis, token, id);
      var (redis, user) := ConsumeRefresh(w.redis, token);
      if user.Some? && Parse(user.value).Some? {
        IssueTokenPairCounter(w.(redis := redis), Parse(user.value).value, d, id);
      }
    case Logout(refresh, session) =>
      ConsumeRefreshCounter(w.redis, refresh, id);
      DropCounter(w.redis, SsoSession(session), id);
      DropCounter(ConsumeRefresh(w.redis, refresh).0, SsoSession(session), id);
    case LogoutAll(subject) => if subject.Some? { RevokeCounter(w.redis, subject.value, id); }
    case ResetRequest(typed, d) =>
      var email := crypto.normalizeEmail(typed);
      if FindByEmail(w.db, email).Some? {
        var user := FindByEmail(w.db, email).value.0;
        CounterFrame(w.redis, Set(PwdReset(d.token), Text(ToString(user)), PASSWORD_RESET_TTL), id);
      }
    case Enroll(_, _) =>
    case Confirm(_, _) =>
    case Verify(session, _, d) =>
      CounterFrame(w.redis, GetDel(MfaSession(session)), id);
      var (redis, user) := Consume(w.redis, MfaSession(session));
      if user.Some? && Parse(user.value).Some? {
        StoreRefreshCounter(redis, d.token, ToString(Parse(user.value).value), REFRESH_TOKEN_TTL, id);
      }
    case Recovery(session, _, _, d) =>
      CounterFrame(w.redis, GetDel(MfaSession(session)), id);
      var (redis, user) := Consume(w.redis, MfaSession(session));
      if user.Some? && Parse(user.value).Some? {
        StoreRefreshCounter(redis, d.token, ToString(Parse(user.value).value), REFRESH_TOKEN_TTL, id);
      }
    case RateHit(k, window) => CounterFrame(w.redis, Hit(k, window), id);
    case NewClient(_, _) =>
    case Elapse(d) => AdvanceCounter(w.redis, d, id);
    case _ => FlowsKeepCounter(w, crypto, r, id);
  }

  /** The two lock columns of a row, as a lookup would read them. */
  predicate SameLock(before: Db, after: Db, id: Uuid) {
    && Row(after, id).failedAttempts == Row(before, id).failedAttempts
    && Row(after, id).lockedUntil == Row(before, id).lockedUntil
  }

  lemma SignUpsKeepLock(w: World, crypto: Crypto, r: Request, id: Uuid)
    requires r.Register? || r.GoogleCallback? || r.VerifyEmail?
    requires DrawOf(r).Some? ==> DrawOf(r).value.id != id
    ensures SameLock(w.db, Serve(w, crypto, r).0.db, id)
  {
    hide ToString, Parse, StoreRefresh, Consume, SetText, Crypto.Hash;
  }

  lemma EnrollKeepsLock(w: World, crypto: Crypto, subject: Option<string>, e: F.Enrolment, id: Uuid)
    requires e.Complete()
    ensures SameLock(w.db, F.Enroll(w, crypto, subject, e).0.db, id)
  {
    hide Parse, F.HashAll;
  }

  lemma ConfirmKeepsLock(w: World, crypto: Crypto, subject: Option<string>, code: string, id: Uuid)
    ensures SameLock(w.db, F.Confirm(w, crypto, subject, code).0.db, id)
  {
  }

  lemma RecoveryKeepsLock(w: World, crypto: Crypto, session: string, code: string, listing: seq<Uuid>, d: Draw,
                          id: Uuid)
    ensures SameLock(w.db, F.Recovery(w, crypto, session, code, listing, d).0.db, id)
  {
    hide Parse, ToString, Consume, StoreRefresh, F.FirstMatch;
  }

  lemma OthersKeepRow(w: World, crypto: Crypto, r: Request, id: Uuid)
    requires !r.Login? && !r.Reset? && (r.Enroll? ==> r.enrolment.Complete())
    requires DrawOf(r).Some? ==> DrawOf(r).value.id != id
    ensures SameLock(w.db, Serve(w, crypto, r).0.db, id)
  {
    hide U.Register, U.GoogleCallback, U.VerifyEmail, F.Enroll, F.Confirm, F.Recovery, ToString, Parse, StoreRefresh;
    hide ConsumeRefresh, Consume, Exec, RevokeAll, SetText, HitCounter, A.SessionUser, A.ValidRedirectURI, HasConsent;
    hide Crypto.Accepts, A.VerifyPKCE;
    if r.Register? || r.GoogleCallback? || r.VerifyEmail? {
      SignUpsKeepLock(w, crypto, r, id);
    } else if r.Enroll? {
      EnrollKeepsLock(w, crypto, r.subject, r.enrolment, id);
    } else if r.Confirm? {
      ConfirmKeepsLock(w, crypto, r.subject, r.code, id);
    } else if r.Recovery? {
      RecoveryKeepsLock(w, crypto, r.mfaSession, r.code, r.listing, r.draw, id);
    }
  }

  lemma OtherEvents(w: World, crypto: Crypto, r: Request, id: Uuid)
    requires !r.Login? && !r.Reset?
    ensures EventFor(w, crypto, r, id) == if r.Elapse? then Acct.Wait(r.d) else Acct.Nothing
  {
  }

  /** Every other request leaves the account as it is. */
  lemma OthersProject(s: State, crypto: Crypto, r: Request, id: Uuid)
    requires Inv(s) && Allowed(s, r) && id in s.world.db.users && !r.Login? && !r.Reset?
    ensures AccountOf(Serve(s.world, crypto, r).0, id)
         == Acct.Step(AccountOf(s.world, id), EventFor(s.world, crypto, r, id))
  {
    hide Serve, Inv, CounterOf, F.ListsUnused, Consume, EventFor;
    FreshIdIsNoRow(s, r, id);
    OthersKeepRow(s.world, crypto, r, id);
    OthersKeepCounter(s.world, crypto, r, id);
    OtherEvents(s.world, crypto, r, id);
  }

  lemma IssueTokenPairCounter(w: World, user: Uuid, d: Draw, id: Uuid)
    ensures AccountOf(L.IssueTokenPair(w, user, d), id) == AccountOf(w, id)
  {
    StoreRefreshCounter(w.redis, d.token, ToString(user), REFRESH_TOKEN_TTL, id);
    var stored := StoreRefresh(w.redis, d.token, ToString(user), REFRESH_TOKEN_TTL);
    CounterFrame(stored, Set(SsoSession(d.session), Text(ToString(user)), SESSION_TOKEN_TTL), id);
  }

  lemma DropCounter(redis: Store<Key>, k: Key, id: Uuid)
    requires k.SsoSession?
    ensures CounterOf(Drop(redis, k), id) == CounterOf(redis, id) && Drop(redis, k).now == redis.now
  {
  }

  lemma RevokeCounter(redis: Store<Key>, user: string, id: Uuid)
    ensures CounterOf(RevokeAll(redis, user), id) == CounterOf(redis, id) && RevokeAll(redis, user).now == redis.now
  {
  }

  lemma AdvanceCounter(redis: Store<Key>, d: Time, id: Uuid)
    ensures CounterOf(Advance(redis, d), id) == CounterOf(redis, id) && Advance(redis, d).now == redis.now + d
  {
  }

  /** One server step is one account step, for every account at once. */
  lemma StepProjects(s: State, crypto: Crypto, r: Request, id: Uuid)
    requires Inv(s) && Allowed(s, r) && id in s.world.db.users
    ensures AccountOf(Step(s, crypto, r).world, id)
         == Acct.Step(AccountOf(s.world, id), EventFor(s.world, crypto, r, id))
  {
    if r.Login? {
      LoginProjects(s.world, crypto, r, id);
    } else if r.Reset? {
      ResetProjects(s, crypto, r, id);
    } else {
      OthersProject(s, crypto, r, id);
    }
  }

  ghost function EventOf(s: State, crypto: Crypto, r: Request, id: Uuid): Acct.Event {
    if Allowed(s, r) then EventFor(s.world, crypto, r, id) else Acct.Nothing
  }

  ghost function Projection(s: State, crypto: Crypto, rs: seq<Request>, id: Uuid): seq<Acct.Event>
    decreases |rs|
  {
    if rs == [] then []
    else
      [EventOf(s, crypto, rs[0], id)]
      + Projection(Step(s, crypto, rs[0]), crypto, rs[1..], id)
  }

  /** The request gets as far as comparing a password with this account's hash. */
  ghost predicate Checked(s: State, crypto: Crypto, r: Request, id: Uuid) {
    Allowed(s, r) && r.Login? && crypto.normalizeEmail(r.email) != "" && r.password != ""
    && var found := FindByEmail(s.world.db, crypto.normalizeEmail(r.email));
       found.Some? && found.value.0 == id && !L.IsLocked(found.value.1, s.world.redis.now)
  }

  ghost function PasswordChecks(s: State, crypto: Crypto, rs: seq<Request>, id: Uuid): seq<Time>
    decreases |rs|
  {
    if rs == [] then []
    else (if Checked(s, crypto, rs[0], id) then [s.world.redis.now] else [])
         + PasswordChecks(Step(s, crypto, rs[0]), crypto, rs[1..], id)
  }

  lemma StaysARow(s: State, crypto: Crypto, r: Request, id: Uuid)
    requires Inv(s) && Allowed(s, r) && id in s.world.db.users
    ensures id in Step(s, crypto, r).world.db.users
  {
    hide Serve, Inv, Allowed, Created;
    NoPhantomRows(s, crypto, r);
  }

  lemma CheckedIffEvaluated(s: State, crypto: Crypto, r: Request, id: Uuid)
    requires id in s.world.db.users
    ensures var a, e := AccountOf(s.world, id), EventOf(s, crypto, r, id);
            (Checked(s, crypto, r, id) <==> (e.Guess? || e.Succeed?) && !Acct.IsLocked(a)) && a.now == s.world.redis.now
  {
  }

  lemma StepChecks(s: State, crypto: Crypto, r: Request, id: Uuid)
    requires Inv(s) && id in s.world.db.users
    ensures var a, e := AccountOf(s.world, id), EventOf(s, crypto, r, id);
            && Inv(Step(s, crypto, r)) && id in Step(s, crypto, r).world.db.users
            && AccountOf(Step(s, crypto, r).world, id) == Acct.Step(a, e)
            && (Checked(s, crypto, r, id) <==> (e.Guess? || e.Succeed?) && !Acct.IsLocked(a))
            && a.now == s.world.redis.now
  {
    hide Serve, Inv, Allowed, EventFor, Checked, AccountOf, Acct.IsLocked;
    StepKeeps(s, crypto, r);
    if Allowed(s, r) {
      StepProjects(s, crypto, r, id);
      StaysARow(s, crypto, r, id);
    }
    CheckedIffEvaluated(s, crypto, r, id);
  }

  lemma {:induction false} ChecksAreEvaluations(s: State, crypto: Crypto, rs: seq<Request>, id: Uuid)
    requires Inv(s) && id in s.world.db.users
    ensures var a, es := AccountOf(s.world, id), Projection(s, crypto, rs, id);
            PasswordChecks(s, crypto, rs, id) == Acct.Evaluations(a, es)
            && AccountOf(Run(s, crypto, rs).world, id) == Acct.Run(a, es)
    decreases |rs|
  {
    hide Step, Inv, AccountOf, EventOf, Checked, Acct.Step, Acct.IsLocked;
    if rs != [] {
      var next, e := Step(s, crypto, rs[0]), EventOf(s, crypto, rs[0], id);
      var rest := Projection(next, crypto, rs[1..], id);
      assert ([e] + rest)[1..] == rest;
      StepChecks(s, crypto, rs[0], id);
      ChecksAreEvaluations(next, crypto, rs[1..], id);
    }
  }

  ghost predicate NoSuccessOrReset(s: State, crypto: Crypto, rs: seq<Request>, id: Uuid) {
    Acct.OnlyFailures(Projection(s, crypto, rs, id))
  }

  /** Stored counters hold at least 1. */
  lemma CounterIsPositive(s: State, id: Uuid)
    requires Inv(s)
    ensures CounterOf(s.world.redis, id).Some? ==> CounterOf(s.world.redis, id).value.count >= 1
  {
  }

  lemma GuessBoundFrom(s: State, crypto: Crypto, rs: seq<Request>, id: Uuid)
    requires Inv(s) && id in s.world.db.users && NoSuccessOrReset(s, crypto, rs, id)
    ensures Acct.AllSpaced(PasswordChecks(s, crypto, rs, id))
  {
    ChecksAreEvaluations(s, crypto, rs, id);
    CounterIsPositive(s, id);
    hide Inv, PasswordChecks, Projection, Acct.Evaluations, Acct.AllSpaced, CounterOf;
    Acct.FailuresAllSpaced(AccountOf(s.world, id), Projection(s, crypto, rs, id));
  }

  /**
   The guess bound, for the whole server: from any reachable state, as long as nobody logs in to the account or resets
   its password, any six looks at its password span at least fifteen minutes, and n looks over a span of time obey
   n <= 4 * floor(span / 15 min) + 5.
   */
  lemma GuessBound(s: State, crypto: Crypto, rs: seq<Request>, id: Uuid)
    requires Reachable(s, crypto) && id in s.world.db.users && NoSuccessOrReset(s, crypto, rs, id)
    ensures var ts := PasswordChecks(s, crypto, rs, id);
            && (forall i, j :: 0 <= i && i + 5 <= j < |ts| ==> ts[j] >= ts[i] + Acct.WINDOW)
            && (ts != [] ==> |ts| <= 4 * ((ts[|ts| - 1] - ts[0]) / Acct.WINDOW) + 5)
  {
    hide *;
    ReachableOk(s, crypto);
    GuessBoundFrom(s, crypto, rs, id);
    Acct.SpacedMeans(PasswordChecks(s, crypto, rs, id));
  }

  // ----- the coupling of counter, failure count and lock, from the empty server on

  predicate Blank(a: Acct.Account) {
    a.counter.None? && a.failed == 0 && a.lockedUntil.None?
  }

  lemma NobodysCounter(s: State, id: Uuid)
    requires Inv(s) && id !in s.world.db.users
    ensures Blank(AccountOf(s.world, id))
  {
    var k := LoginAttempts(ToString(id));
    if k in s.world.redis.data {
      assert EntryOk(s.world.db.users.Keys, k, s.world.redis.data[k].value);
      NamedUserParses(s.world.db.users.Keys, k.user);
      ParseToString(id);
      assert false;
    }
  }

  lemma NewRowIsBlank(w: World, crypto: Crypto, r: Request, id: Uuid)
    requires (r.Register? || r.GoogleCallback?) && id !in w.db.users
    ensures var u := Row(Serve(w, crypto, r).0.db, id); u.failedAttempts == 0 && u.lockedUntil.None?
  {
    hide ToString, Parse, StoreRefresh, Consume, SetText, Crypto.Hash;
  }

  /** An account starts blank: no counter, no failures, no lock. */
  lemma NewcomerIsBlank(s: State, crypto: Crypto, r: Request, id: Uuid)
    requires Inv(s) && Allowed(s, r) && id !in s.world.db.users
    ensures Blank(AccountOf(Step(s, crypto, r).world, id))
  {
    NobodysCounter(s, id);
    StepKeeps(s, crypto, r);
    NoPhantomRows(s, crypto, r);
    if id !in Step(s, crypto, r).world.db.users {
      NobodysCounter(Step(s, crypto, r), id);
    } else {
      assert Created(s.world, crypto, r) != {};
      assert r.Register? || r.GoogleCallback?;
      OthersKeepCounter(s.world, crypto, r, id);
      NewRowIsBlank(s.world, crypto, r, id);
    }
    hide Serve, Inv, CounterOf, F.ListsUnused, Consume, Created;
  }

  lemma BlankIsCoupled(a: Acct.Account, n: nat)
    requires Blank(a)
    ensures Acct.Coupled(a, n)
  {
  }

  lemma CoupledStep(s: State, crypto: Crypto, r: Request, id: Uuid, n: nat)
    requires Inv(s) && Acct.Coupled(AccountOf(s.world, id), n)
    ensures Inv(Step(s, crypto, r))
    ensures Acct.Coupled(AccountOf(Step(s, crypto, r).world, id),
                         n + if EventOf(s, crypto, r, id).ResetPassword? then 1 else 0)
  {
    hide Serve, Inv, Allowed, AccountOf, EventFor, Acct.Step, Acct.Coupled, Blank;
    StepKeeps(s, crypto, r);
    if Allowed(s, r) && id in s.world.db.users {
      StepProjects(s, crypto, r, id);
      Acct.StepCouples(AccountOf(s.world, id), n, EventOf(s, crypto, r, id));
    } else if Allowed(s, r) {
      NewcomerIsBlank(s, crypto, r, id);
      BlankIsCoupled(AccountOf(Step(s, crypto, r).world, id),
                     n + if EventOf(s, crypto, r, id).ResetPassword? then 1 else 0);
    }
  }

  lemma {:induction false} CoupledFrom(s: State, crypto: Crypto, rs: seq<Request>, id: Uuid, n: nat)
    requires Inv(s) && Acct.Coupled(AccountOf(s.world, id), n)
    ensures Acct.Coupled(AccountOf(Run(s, crypto, rs).world, id), n + Acct.Resets(Projection(s, crypto, rs, id)))
    decreases |rs|
  {
    hide Step, Inv, AccountOf, EventOf, Acct.Coupled;
    if rs != [] {
      var next, e := Step(s, crypto, rs[0]), EventOf(s, crypto, rs[0], id);
      var tail := Projection(next, crypto, rs[1..], id);
      assert ([e] + tail)[1..] == tail;
      CoupledStep(s, crypto, rs[0], id, n);
      CoupledFrom(next, crypto, rs[1..], id, n + if e.ResetPassword? then 1 else 0);
    }
  }

  /**
   In every run from the empty server, for every account: with n password resets so far the live counter never passes
   5 + n, at that bound the lock outlasts the counter, and a lock comes with a positive failure count.
   */
  lemma LockoutCoupled(crypto: Crypto, rs: seq<Request>, id: Uuid)
    ensures Acct.Coupled(AccountOf(Run(Init(), crypto, rs).world, id), Acct.Resets(Projection(Init(), crypto, rs, id)))
  {
    InitOk();
    CoupledFrom(Init(), crypto, rs, id, 0);
  }
}
