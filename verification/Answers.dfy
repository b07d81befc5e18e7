/**
 Granularity: handler atomic. What each request is answered in a reachable state, and what it leaves behind, for all
 arguments: said of the rows, the entries and the clock.
 */
module Answers {
  import opened Common
  import opened Uuids
  import opened Base64
  import opened PasswordHash
  import opened Keyspace
  import opened Keys
  import opened Tokens
  import opened UserTables
  import opened Worlds
  import opened Server
  import opened Effects
  import L = Login
  import U = SignUp
  import F = SecondFactor
  import A = Authorization

  // ----- what a stored entry names

  predicate NamesOwner(k: Key) {
    k.EmailVerify? || k.PwdReset? || k.Refresh? || k.MfaSession? || k.SsoSession?
  }

  /** A stored entry of these kinds is the text of an existing row's id, and of no other. */
  lemma EntryNamesRow(s: State, k: Key)
    requires Inv(s) && NamesOwner(k) && k in s.world.redis.data
    ensures var v := s.world.redis.data[k].value;
            v.Text? && Parse(v.text).Some? && Parse(v.text).value in s.world.db.users
            && ToString(Parse(v.text).value) == v.text
  {
    var v := s.world.redis.data[k].value;
    assert EntryOk(s.world.db.users.Keys, k, v);
    NamedUserParses(s.world.db.users.Keys, v.text);
  }

  lemma OwnerIsUnique(s: State, k: Key, id: Uuid)
    requires Inv(s) && NamesOwner(k) && Live(s.world.redis, k)
    ensures StandsFor(s.world.redis, k, id) <==> Parse(s.world.redis.data[k].value.text) == Some(id)
    ensures StandsFor(s.world.redis, k, id) ==> id in s.world.db.users
  {
    EntryNamesRow(s, k);
    ParseToString(id);
    hide Inv, Parse, ToString;
  }

  lemma DrawnTokens(s: State, t: string)
    requires Inv(s)
    ensures Refresh(t) in s.world.redis.data ==> t in s.drawn
    ensures WellTyped(s.world.redis)
  {
  }

  // ----- rotation

  /**
   A refresh succeeds if and only if its token is live, and then for the user the token stands for: the token is gone,
   its successor and a session stand for seven days, and nothing else changed. Otherwise only the token goes.
   */
  lemma RefreshAnswers(s: State, crypto: Crypto, token: string, d: Draw, id: Uuid)
    requires Reachable(s, crypto) && Allowed(s, Rotate(token, d))
    ensures var w, (after, answer) := s.world, Serve(s.world, crypto, Rotate(token, d));
            var u := ToString(id);
            && (answer == SignedIn(id, d.token) <==> StandsFor(w.redis, Refresh(token), id))
            && (answer == Unauthorized <==> !Live(w.redis, Refresh(token)))
            && after.db == w.db && Refresh(token) !in after.redis.data
            && (answer == SignedIn(id, d.token) ==>
                  NewPair(w.redis, after.redis, d, u, {token})
                  && OnlyKeys(w.redis, after.redis,
                              {Refresh(token), UserSessions(u), Refresh(d.token), SsoSession(d.session)}))
            && (answer == Unauthorized ==> OnlyKeys(w.redis, after.redis, {Refresh(token)}))
  {
    hide Reachable, Inv, NewPair, OnlyKeys, Parse, ToString, WellTyped, ConsumeRefresh, L.IssueTokenPair;
    ReachableOk(s, crypto);
    DrawnTokens(s, token);
    var w := s.world;
    assert d.token !in s.drawn;
    hide Allowed;
    ConsumeRefreshTakes(w.redis, token);
    var (redis, user) := ConsumeRefresh(w.redis, token);
    if user.Some? {
      assert Refresh(token) in w.redis.data;
      EntryNamesRow(s, Refresh(token));
      OwnerIsUnique(s, Refresh(token), id);
      RotationIssues(s, token, redis, Parse(user.value).value, d);
    }
  }

  lemma RotationIssues(s: State, token: string, redis: Store<Key>, id: Uuid, d: Draw)
    requires WellTyped(redis) && token != d.token && Refresh(token) !in redis.data
    requires var u := ToString(id);
             OnlyKeys(s.world.redis, redis, {Refresh(token), UserSessions(u)})
             && IndexedTokens(redis, u) == IndexedTokens(s.world.redis, u) - {token}
    ensures var after, u := L.IssueTokenPair(s.world.(redis := redis), id, d), ToString(id);
            && after.db == s.world.db && Refresh(token) !in after.redis.data
            && NewPair(s.world.redis, after.redis, d, u, {token})
            && OnlyKeys(s.world.redis, after.redis,
                        {Refresh(token), UserSessions(u), Refresh(d.token), SsoSession(d.session)})
  {
    var w1, u := s.world.(redis := redis), ToString(id);
    IssuePairStores(w1, id, d);
    hide L.IssueTokenPair, WellTyped, IndexedTokens, ToString, Holds;
    var after := L.IssueTokenPair(w1, id, d);
    var ks1, ks2 := {Refresh(token), UserSessions(u)}, {Refresh(d.token), UserSessions(u), SsoSession(d.session)};
    OnlyKeysAdd(s.world.redis, redis, after.redis, ks1, ks2);
    assert ks1 + ks2 == {Refresh(token), UserSessions(u), Refresh(d.token), SsoSession(d.session)};
    assert SameAt(redis, after.redis, Refresh(token));
  }

  // ----- password login

  predicate Carries(db: Db, id: Uuid, email: string) {
    id in db.users && db.users[id].email == email
  }

  predicate LockedAt(u: User, now: Time) {
    match u.lockedUntil
    case Some(until) => now < until
    case None => false
  }

  /** The account carries the email, is not locked, and its hash accepts the password. */
  predicate MayEnter(w: World, crypto: Crypto, email: string, password: string, id: Uuid) {
    && email != "" && password != "" && Carries(w.db, id, email)
    && !LockedAt(w.db.users[id], w.redis.now) && crypto.Accepts(password, w.db.users[id].passwordHash)
  }

  predicate LockedOut(w: World, email: string, id: Uuid) {
    Carries(w.db, id, email) && LockedAt(w.db.users[id], w.redis.now)
  }

  lemma CarriesIsFound(s: State, email: string, id: Uuid)
    requires Inv(s)
    ensures Carries(s.world.db, id, email) <==> FindByEmail(s.world.db, email) == Some((id, Row(s.world.db, id)))
    ensures FindByEmail(s.world.db, email).Some? ==> Carries(s.world.db, FindByEmail(s.world.db, email).value.0, email)
  {
  }

  /** The answer to a login, for any email and any password: the success cases, each refusal, and no other. */
  lemma LoginAnswers(s: State, crypto: Crypto, typed: string, password: string, d: Draw, id: Uuid)
    requires Reachable(s, crypto) && Allowed(s, Login(typed, password, d))
    ensures var w, answer := s.world, Serve(s.world, crypto, Login(typed, password, d)).1;
            var email := crypto.normalizeEmail(typed);
            && (answer == SignedIn(id, d.token)
                <==> MayEnter(w, crypto, email, password, id) && !w.db.users[id].totpEnabled)
            && (answer == MfaRequired(d.token)
                <==> exists i: Uuid :: MayEnter(w, crypto, email, password, i) && w.db.users[i].totpEnabled)
            && (answer == Locked <==> email != "" && password != "" && exists i: Uuid :: LockedOut(w, email, i))
            && (answer == BadRequest <==> email == "" || password == "")
            && (answer.SignedIn? ==> answer.refreshToken == d.token)
            && (answer.MfaRequired? ==> answer.session == d.token)
            && (answer.SignedIn? || answer.MfaRequired? || answer in {Locked, BadRequest, Unauthorized})
  {
    ReachableOk(s, crypto);
    var w, email := s.world, crypto.normalizeEmail(typed);
    forall i: Uuid ensures Carries(w.db, i, email) <==> FindByEmail(w.db, email) == Some((i, Row(w.db, i))) {
      CarriesIsFound(s, email, i);
    }
    CarriesIsFound(s, email, id);
    if FindByEmail(w.db, email).Some? {
      var (i, u) := FindByEmail(w.db, email).value;
      assert Carries(w.db, i, email);
      assert MayEnter(w, crypto, email, password, i)
          <==> email != "" && password != "" && !LockedAt(u, w.redis.now) && crypto.Accepts(password, u.passwordHash);
      assert LockedOut(w, email, i) <==> LockedAt(u, w.redis.now);
      hide Carries;
    }
    hide Inv, Reachable, Allowed, FindByEmail, Crypto.Accepts, L.FailedAttempt, L.ClearAttempts, L.IssueTokenPair;
    hide SetText;
  }

  /** The account's counter is gone, its user has a new pair, and nothing else changed. */
  ghost predicate Entered(before: Store<Key>, after: Store<Key>, d: Draw, id: Uuid) {
    var u := ToString(id);
    && NewPair(before, after, d, u, {}) && LoginAttempts(u) !in after.data
    && OnlyKeys(before, after, {LoginAttempts(u), Refresh(d.token), UserSessions(u), SsoSession(d.session)})
  }

  /** The account's counter is gone, a second-factor session stands for five minutes, and nothing else changed. */
  ghost predicate Challenged(before: Store<Key>, after: Store<Key>, d: Draw, id: Uuid) {
    var u := ToString(id);
    && Holds(after, MfaSession(d.token), Text(u), 5 * MINUTE) && LoginAttempts(u) !in after.data
    && OnlyKeys(before, after, {LoginAttempts(u), MfaSession(d.token)})
  }

  /**
   What a login leaves in Redis: a pair or a second-factor session for whoever may enter, nothing for anybody else,
   and in any case no other change but to the account's own counter.
   */
  lemma LoginEffects(s: State, crypto: Crypto, typed: string, password: string, d: Draw)
    requires Reachable(s, crypto) && Allowed(s, Login(typed, password, d))
    ensures var w, (after, answer) := s.world, Serve(s.world, crypto, Login(typed, password, d));
            var email := crypto.normalizeEmail(typed);
            && (answer.SignedIn? ==> Entered(w.redis, after.redis, d, answer.user))
            && (answer.MfaRequired? ==>
                  exists id: Uuid ::
                    MayEnter(w, crypto, email, password, id) && Challenged(w.redis, after.redis, d, id))
            && (answer == Unauthorized ==> forall k: Key :: !k.LoginAttempts? ==> SameAt(w.redis, after.redis, k))
            && after.redis.now == w.redis.now
            && (answer == Locked || answer == BadRequest ==> after == w)
  {
    hide Reachable, FindByEmail, Crypto.Accepts, L.FailedAttempt, L.ClearAttempts, L.IssueTokenPair, SetText, Allowed;
    hide Inv, Entered, Challenged, ToString;
    ReachableOk(s, crypto);
    var w, email := s.world, crypto.normalizeEmail(typed);
    DrawnTokens(s, "");
    if FindByEmail(w.db, email).Some? {
      var (id, u) := FindByEmail(w.db, email).value;
      CarriesIsFound(s, email, id);
      FailureTouches(w, id);
      EntryStores(w, id, u, d);
      EntryKeepsClock(w, id, u, d);
    }
    hide WellTyped;
  }

  lemma FailureTouches(w: World, id: Uuid)
    ensures forall k: Key :: !k.LoginAttempts? ==> SameAt(w.redis, L.FailedAttempt(w, id).redis, k)
    ensures L.FailedAttempt(w, id).redis.now == w.redis.now
  {
    CommandTouches(w.redis, Hit(LoginAttempts(ToString(id)), LOGIN_ATTEMPT_WINDOW));
    hide SameAt, Exec;
  }

  lemma EntryKeepsClock(w: World, id: Uuid, u: User, d: Draw)
    requires WellTyped(w.redis)
    ensures var cleared := L.ClearAttempts(w, id, u);
            && L.IssueTokenPair(cleared, id, d).redis.now == w.redis.now
            && SetText(cleared.redis, MfaSession(d.token), ToString(id), MFA_SESSION_TTL).now == w.redis.now
  {
    EntryStores(w, id, u, d);
    hide L.IssueTokenPair, L.ClearAttempts, SetText, NewPair, Holds, ToString;
  }

  lemma EntryStores(w: World, id: Uuid, u: User, d: Draw)
    requires WellTyped(w.redis)
    ensures var cleared := L.ClearAttempts(w, id, u);
            && Entered(w.redis, L.IssueTokenPair(cleared, id, d).redis, d, id)
            && Challenged(w.redis, SetText(cleared.redis, MfaSession(d.token), ToString(id), MFA_SESSION_TTL), d, id)
  {
    var cleared, text := L.ClearAttempts(w, id, u), ToString(id);
    var gone := {LoginAttempts(text)};
    DropRemoves(w.redis, LoginAttempts(text));
    SameIndex(w.redis, cleared.redis, text);
    IssuePairStores(cleared, id, d);
    SetTextStores(cleared.redis, MfaSession(d.token), text, MFA_SESSION_TTL);
    hide L.IssueTokenPair, L.ClearAttempts, SetText, IndexedTokens, ToString, WellTyped, Holds;
    var pair := L.IssueTokenPair(cleared, id, d).redis;
    var mfa := SetText(cleared.redis, MfaSession(d.token), text, MFA_SESSION_TTL);
    var ks := {Refresh(d.token), UserSessions(text), SsoSession(d.session)};
    OnlyKeysAdd(w.redis, cleared.redis, pair, gone, ks);
    OnlyKeysAdd(w.redis, cleared.redis, mfa, gone, {MfaSession(d.token)});
    assert gone + ks == {LoginAttempts(text), Refresh(d.token), UserSessions(text), SsoSession(d.session)};
    assert gone + {MfaSession(d.token)} == {LoginAttempts(text), MfaSession(d.token)};
    assert SameAt(cleared.redis, pair, LoginAttempts(text)) && SameAt(cleared.redis, mfa, LoginAttempts(text));
  }

  // ----- the token endpoint

  /** The code is live and was issued for this user, client and redirect URI, and the verifier proves its challenge. */
  predicate Redeems(w: World, crypto: Crypto, q: A.TokenRequest, id: Uuid) {
    && Live(w.redis, OAuthCode(q.code)) && w.redis.data[OAuthCode(q.code)].value.Code?
    && var g := w.redis.data[OAuthCode(q.code)].value.grant;
       && g.userID == ToString(id) && g.clientID == q.clientID && g.redirectURI == q.redirectURI
       && (g.codeChallenge == ""
           || (q.codeVerifier != "" && Encode(Url, crypto.sha256(q.codeVerifier)) == g.codeChallenge))
  }

  /** The endpoint answers with a token if and only if the request redeems its code; the code is gone either way. */
  lemma ExchangeAnswers(s: State, crypto: Crypto, q: A.TokenRequest, id: Uuid)
    requires Reachable(s, crypto)
    ensures var w, (after, answer) := s.world, Serve(s.world, crypto, Exchange(q));
            && (answer == AccessToken(id, q.clientID) <==> Redeems(w, crypto, q, id))
            && (answer == InvalidGrant <==> !exists i: Uuid :: Redeems(w, crypto, q, i))
            && (answer.AccessToken? || answer == InvalidGrant)
            && after.db == w.db && OAuthCode(q.code) !in after.redis.data
            && OnlyKeys(w.redis, after.redis, {OAuthCode(q.code)})
  {
    hide Reachable, Inv, Parse, ToString, Encode, Redeems, A.GrantMatches, OnlyKeys;
    ReachableOk(s, crypto);
    var w, k := s.world, OAuthCode(q.code);
    CommandTouches(w.redis, GetDel(k));
    forall i: Uuid ensures Redeems(w, crypto, q, i) ==> Live(w.redis, k) {
      OnlyLiveRedeem(w, crypto, q, i);
    }
    if Live(w.redis, k) {
      CodeNamesRow(s, q.code);
      var g := w.redis.data[k].value.grant;
      forall i: Uuid
        ensures Redeems(w, crypto, q, i) <==> A.GrantMatches(crypto, g, q) && i == Parse(g.userID).value
      {
        RedeemsIff(w, crypto, q, i);
      }
      assert Redeems(w, crypto, q, Parse(g.userID).value) <==> A.GrantMatches(crypto, g, q);
    }
  }

  lemma OnlyLiveRedeem(w: World, crypto: Crypto, q: A.TokenRequest, id: Uuid)
    ensures Redeems(w, crypto, q, id) ==> Live(w.redis, OAuthCode(q.code))
  {
  }

  /** The check the endpoint makes is the one written out above. */
  lemma RedeemsIff(w: World, crypto: Crypto, q: A.TokenRequest, id: Uuid)
    requires Live(w.redis, OAuthCode(q.code)) && w.redis.data[OAuthCode(q.code)].value.Code?
    requires var g := w.redis.data[OAuthCode(q.code)].value.grant;
             Parse(g.userID).Some? && ToString(Parse(g.userID).value) == g.userID
    ensures var g := w.redis.data[OAuthCode(q.code)].value.grant;
            Redeems(w, crypto, q, id) <==> A.GrantMatches(crypto, g, q) && id == Parse(g.userID).value
  {
    ParseToString(id);
    hide Parse, ToString, Encode;
  }

  lemma CodeNamesRow(s: State, code: string)
    requires Inv(s) && Live(s.world.redis, OAuthCode(code))
    ensures var v := s.world.redis.data[OAuthCode(code)].value;
            v.Code? && Parse(v.grant.userID).Some? && Parse(v.grant.userID).value in s.world.db.users
            && ToString(Parse(v.grant.userID).value) == v.grant.userID
  {
    var v := s.world.redis.data[OAuthCode(code)].value;
    assert EntryOk(s.world.db.users.Keys, OAuthCode(code), v);
    NamedUserParses(s.world.db.users.Keys, v.grant.userID);
  }

  // ----- the second factor

  /** Both fields are there, the session stands for the user, and the code fits the user's secret. */
  predicate FactorFits(w: World, crypto: Crypto, m: string, code: string, id: Uuid) {
    && m != "" && code != "" && StandsFor(w.redis, MfaSession(m), id)
    && id in w.db.users && crypto.totpValid(code, w.db.users[id].totpSecret)
  }

  /** The session is gone, its user has a new refresh token, and nothing else changed. */
  ghost predicate SignedInWith(before: Store<Key>, after: Store<Key>, m: string, d: Draw, id: Uuid) {
    var u := ToString(id);
    && MfaSession(m) !in after.data && NewRefreshToken(before, after, d.token, u, {})
    && OnlyKeys(before, after, {MfaSession(m), Refresh(d.token), UserSessions(u)})
  }

  /** A second factor signs its user in if and only if session and code are right; either way it costs the session. */
  lemma VerifyAnswers(s: State, crypto: Crypto, m: string, code: string, d: Draw, id: Uuid)
    requires Reachable(s, crypto) && Allowed(s, Verify(m, code, d))
    ensures var w, (after, answer) := s.world, Serve(s.world, crypto, Verify(m, code, d));
            && (answer == SignedIn(id, d.token) <==> FactorFits(w, crypto, m, code, id))
            && (answer == BadRequest <==> m == "" || code == "")
            && (answer.SignedIn? || answer == BadRequest || answer == Unauthorized)
            && (answer.SignedIn? ==> answer.refreshToken == d.token)
            && after.db == w.db
            && (answer == SignedIn(id, d.token) ==> SignedInWith(w.redis, after.redis, m, d, id))
            && (answer == Unauthorized ==>
                  MfaSession(m) !in after.redis.data && OnlyKeys(w.redis, after.redis, {MfaSession(m)}))
            && (answer == BadRequest ==> after == w)
  {
    hide Reachable, Inv, Parse, ToString, OnlyKeys, SignedInWith, Allowed, WellTyped, StoreRefresh, Consume;
    ReachableOk(s, crypto);
    DrawnTokens(s, "");
    var w := s.world;
    ConsumeTakes(w.redis, MfaSession(m));
    if Live(w.redis, MfaSession(m)) {
      EntryNamesRow(s, MfaSession(m));
      OwnerIsUnique(s, MfaSession(m), id);
      SignInStores(w.redis, Consume(w.redis, MfaSession(m)).0, m, d, id);
    }
    hide StandsFor;
  }

  lemma SignInStores(before: Store<Key>, spent: Store<Key>, m: string, d: Draw, id: Uuid)
    requires WellTyped(spent) && OnlyKeys(before, spent, {MfaSession(m)}) && MfaSession(m) !in spent.data
    ensures SignedInWith(before, StoreRefresh(spent, d.token, ToString(id), REFRESH_TOKEN_TTL), m, d, id)
  {
    var u := ToString(id);
    var after := StoreRefresh(spent, d.token, u, REFRESH_TOKEN_TTL);
    StoreRefreshStores(spent, d.token, u);
    SameIndex(before, spent, u);
    hide StoreRefresh, IndexedTokens, WellTyped, Holds, ToString;
    OnlyKeysAdd(before, spent, after, {MfaSession(m)}, {Refresh(d.token), UserSessions(u)});
    assert {MfaSession(m)} + {Refresh(d.token), UserSessions(u)} == {MfaSession(m), Refresh(d.token), UserSessions(u)};
    assert SameAt(spent, after, MfaSession(m));
  }

  /** The code is one of the user's unused recovery codes. */
  predicate IsRecoveryCode(db: Db, crypto: Crypto, id: Uuid, code: string, c: Uuid) {
    c in Unused(CodesOf(db, id)) && crypto.Accepts(code, CodesOf(db, id)[c].hash)
  }

  /** That code is used, the second factor is off with its secret kept, and no table changed otherwise. */
  predicate Recovered(before: Db, after: Db, id: Uuid, c: Uuid) {
    && id in before.users && c in CodesOf(before, id)
    && var codes := CodesOf(before, id);
       after == before.(users := before.users[id := before.users[id].(totpEnabled := false)],
                        recoveryCodes := before.recoveryCodes[id := codes[c := codes[c].(used := true)]])
  }

  /**
   Recovery signs its user in if and only if the session stands and the code is an unused one; then one such code is
   used up and the second factor is off. Otherwise no table changes; either way it costs the session.
   */
  lemma RecoveryAnswers(s: State, crypto: Crypto, m: string, code: string, listing: seq<Uuid>, d: Draw, id: Uuid)
    requires Reachable(s, crypto) && Allowed(s, Recovery(m, code, listing, d))
    ensures var w, (after, answer) := s.world, Serve(s.world, crypto, Recovery(m, code, listing, d));
            && (answer == SignedIn(id, d.token)
                <==> m != "" && code != "" && StandsFor(w.redis, MfaSession(m), id)
                     && exists c: Uuid :: IsRecoveryCode(w.db, crypto, id, code, c))
            && (answer == BadRequest <==> m == "" || code == "")
            && (answer.SignedIn? || answer == BadRequest || answer == Unauthorized)
            && (answer.SignedIn? ==> answer.refreshToken == d.token)
            && (answer == SignedIn(id, d.token) ==>
                  && SignedInWith(w.redis, after.redis, m, d, id)
                  && exists c: Uuid :: IsRecoveryCode(w.db, crypto, id, code, c) && Recovered(w.db, after.db, id, c))
            && (answer == Unauthorized ==>
                  && MfaSession(m) !in after.redis.data && OnlyKeys(w.redis, after.redis, {MfaSession(m)})
                  && after.db == w.db)
            && (answer == BadRequest ==> after == w)
  {
    hide Reachable, Inv, Parse, ToString, OnlyKeys, SignedInWith, WellTyped, StoreRefresh, Consume, Crypto.Accepts;
    hide F.FirstMatch, Unused, IsRecoveryCode, Recovered, F.ListsUnused;
    ReachableOk(s, crypto);
    DrawnTokens(s, "");
    var w := s.world;
    ConsumeTakes(w.redis, MfaSession(m));
    if Live(w.redis, MfaSession(m)) {
      EntryNamesRow(s, MfaSession(m));
      OwnerIsUnique(s, MfaSession(m), id);
      var owner := Parse(w.redis.data[MfaSession(m)].value.text).value;
      assert F.ListsUnused(w.db, owner, listing);
      MatchIsRecoveryCode(w.db, crypto, owner, code, listing);
      SignInStores(w.redis, Consume(w.redis, MfaSession(m)).0, m, d, id);
    }
    hide Allowed;
  }

  /** The search through the listing finds an unused code that accepts the text, or there is none. */
  lemma MatchIsRecoveryCode(db: Db, crypto: Crypto, id: Uuid, code: string, listing: seq<Uuid>)
    requires F.ListsUnused(db, id, listing) && id in db.users
    ensures var found := F.FirstMatch(crypto, CodesOf(db, id), code, listing);
            && (found.Some? <==> exists c: Uuid :: IsRecoveryCode(db, crypto, id, code, c))
            && (found.Some? ==>
                  var marked := MarkUsed(db, id, found.value);
                  && IsRecoveryCode(db, crypto, id, code, found.value) && id in marked.users
                  && Recovered(db, UpdateTOTP(marked, id, marked.users[id].totpSecret, false), id, found.value))
  {
    F.FirstMatchIsListed(crypto, CodesOf(db, id), code, listing);
    hide F.FirstMatch, Crypto.Accepts;
    var found := F.FirstMatch(crypto, CodesOf(db, id), code, listing);
    if found.Some? {
      assert IsRecoveryCode(db, crypto, id, code, found.value);
    } else {
      forall c: Uuid ensures !IsRecoveryCode(db, crypto, id, code, c) {
        assert c in Unused(CodesOf(db, id)) ==> c in listing && c in CodesOf(db, id);
      }
    }
  }

  // ----- logout

  /** The keys a logout may touch: those of its two cookies, and the index of the refresh token's user. */
  function LogoutKeys(redis: Store<Key>, cookie: string, session: string): set<Key> {
    (if cookie == "" then {} else {Refresh(cookie)})
    + (if session == "" then {} else {SsoSession(session)})
    + (if cookie != "" && Live(redis, Refresh(cookie)) && redis.data[Refresh(cookie)].value.Text?
       then {UserSessions(redis.data[Refresh(cookie)].value.text)} else {})
  }

  /** Logout always answers 200; the refresh token, its place in the index and the session are gone, and that is all. */
  lemma LogoutAnswers(s: State, crypto: Crypto, cookie: string, session: string, id: Uuid)
    requires Reachable(s, crypto)
    ensures var w, (after, answer) := s.world, Serve(s.world, crypto, Logout(cookie, session));
            && answer == Accepted200 && after.db == w.db
            && (cookie != "" ==> Refresh(cookie) !in after.redis.data)
            && (session != "" ==> SsoSession(session) !in after.redis.data)
            && (cookie != "" && StandsFor(w.redis, Refresh(cookie), id) ==>
                  IndexedTokens(after.redis, ToString(id)) == IndexedTokens(w.redis, ToString(id)) - {cookie})
            && OnlyKeys(w.redis, after.redis, LogoutKeys(w.redis, cookie, session))
  {
    hide Reachable, Inv, ToString, WellTyped, ConsumeRefresh, IndexedTokens, Drop;
    ReachableOk(s, crypto);
    DrawnTokens(s, "");
    var w := s.world;
    var redis1 := if cookie == "" then w.redis else ConsumeRefresh(w.redis, cookie).0;
    ConsumeRefreshTakes(w.redis, cookie);
    DropRemoves(redis1, SsoSession(session));
    var after := Serve(w, crypto, Logout(cookie, session)).0.redis;
    if cookie != "" && Live(w.redis, Refresh(cookie)) {
      EntryNamesRow(s, Refresh(cookie));
    }
    var ks1, ks2 := LogoutKeys(w.redis, cookie, ""), if session == "" then {} else {SsoSession(session)};
    OnlyKeysAdd(w.redis, redis1, after, ks1, ks2);
    assert ks1 + ks2 == LogoutKeys(w.redis, cookie, session);
    assert SameAt(redis1, after, Refresh(cookie));
    SameIndex(redis1, after, ToString(id));
  }

  // ----- mailed tokens

  /** Exactly one entry was added or replaced: this one. */
  ghost predicate Mailed(before: Store<Key>, after: Store<Key>, k: Key, id: Uuid, ttl: Time) {
    Holds(after, k, Text(ToString(id)), ttl) && OnlyKeys(before, after, {k})
  }

  /** A reset token for whoever carries the email, valid for an hour; the answer never tells. */
  lemma ResetRequestAnswers(s: State, crypto: Crypto, typed: string, d: Draw, id: Uuid)
    requires Reachable(s, crypto)
    ensures var w, (after, answer) := s.world, Serve(s.world, crypto, ResetRequest(typed, d));
            var email := crypto.normalizeEmail(typed);
            && answer == Accepted200 && after.db == w.db
            && (Carries(w.db, id, email) ==> Mailed(w.redis, after.redis, PwdReset(d.token), id, HOUR))
            && ((forall i: Uuid :: !Carries(w.db, i, email)) ==> after == w)
  {
    hide Reachable, Inv, SetText, ToString, Carries, FindByEmail;
    ReachableOk(s, crypto);
    var email := crypto.normalizeEmail(typed);
    CarriesIsFound(s, email, id);
    SetTextStores(s.world.redis, PwdReset(d.token), ToString(id), PASSWORD_RESET_TTL);
  }

  /** A new verification token for whoever carries the email and has not verified it, valid for a day. */
  lemma ResendAnswers(s: State, crypto: Crypto, typed: string, d: Draw, id: Uuid)
    requires Reachable(s, crypto)
    ensures var w, (after, answer) := s.world, Serve(s.world, crypto, ResendVerification(typed, d));
            var email := crypto.normalizeEmail(typed);
            && answer == Accepted200 && after.db == w.db
            && (Carries(w.db, id, email) && !w.db.users[id].emailVerified ==>
                  Mailed(w.redis, after.redis, EmailVerify(d.token), id, DAY))
            && (Carries(w.db, id, email) && w.db.users[id].emailVerified ==> after == w)
            && ((forall i: Uuid :: !Carries(w.db, i, email)) ==> after == w)
  {
    hide Reachable, Inv, SetText, ToString, FindByEmail;
    ReachableOk(s, crypto);
    var email := crypto.normalizeEmail(typed);
    CarriesIsFound(s, email, id);
    SetTextStores(s.world.redis, EmailVerify(d.token), ToString(id), EMAIL_VERIFY_TTL);
  }

  /** The link works if and only if its token is live, and only once; it marks the email of its user as verified. */
  lemma VerifyEmailAnswers(s: State, crypto: Crypto, token: string, id: Uuid)
    requires Reachable(s, crypto)
    ensures var w, (after, answer) := s.world, Serve(s.world, crypto, VerifyEmail(token));
            && (answer == Accepted200 <==> token != "" && Live(w.redis, EmailVerify(token)))
            && (answer == Accepted200 || answer == BadRequest)
            && (answer == Accepted200 && StandsFor(w.redis, EmailVerify(token), id) ==>
                  id in w.db.users
                  && after.db == w.db.(users := w.db.users[id := w.db.users[id].(emailVerified := true)]))
            && (answer == BadRequest ==> after.db == w.db)
            && (token != "" ==> EmailVerify(token) !in after.redis.data)
            && OnlyKeys(w.redis, after.redis, if token == "" then {} else {EmailVerify(token)})
  {
    hide Reachable, Inv, ToString, WellTyped, Parse, Consume;
    ReachableOk(s, crypto);
    DrawnTokens(s, "");
    ConsumeTakes(s.world.redis, EmailVerify(token));
    if Live(s.world.redis, EmailVerify(token)) {
      EntryNamesRow(s, EmailVerify(token));
      OwnerIsUnique(s, EmailVerify(token), id);
    }
    hide Live;
  }

  /**
   A reset succeeds if and only if its token is live and the policy accepts the password; a weak password does not
   cost the token, and a dead token changes nothing.
   */
  lemma ResetAnswers(s: State, crypto: Crypto, token: string, password: string, d: Draw, id: Uuid)
    requires Reachable(s, crypto)
    ensures var w, (after, answer) := s.world, Serve(s.world, crypto, Reset(token, password, d));
            && (answer == Accepted200 <==>
                  token != "" && crypto.policyOk(password) && Live(w.redis, PwdReset(token)))
            && (answer == WeakPassword <==> token != "" && !crypto.policyOk(password))
            && (answer == Accepted200 || answer == WeakPassword || answer == BadRequest)
            && (answer == Accepted200 && StandsFor(w.redis, PwdReset(token), id) ==>
                  id in w.db.users
                  && after.db == w.db.(users := w.db.users[id := w.db.users[id].(
                       passwordHash := crypto.Hash(password, d.salt), failedAttempts := 0, lockedUntil := None)]))
            && (answer != Accepted200 ==>
                  after.db == w.db && OnlyKeys(w.redis, after.redis, {PwdReset(token)}))
            && (answer == WeakPassword ==> after == w)
  {
    hide Reachable, Inv, ToString, WellTyped, Parse, Consume, RevokeAll, Crypto.Hash;
    ReachableOk(s, crypto);
    DrawnTokens(s, "");
    ConsumeTakes(s.world.redis, PwdReset(token));
    if Live(s.world.redis, PwdReset(token)) {
      EntryNamesRow(s, PwdReset(token));
      OwnerIsUnique(s, PwdReset(token), id);
    }
    hide Live;
  }

  // ----- new accounts

  /**
   Registration answers the same whether or not the email is taken. If it is not, it adds one row, with the hash of
   the password and nothing verified, its lookup entry, and a verification token for that row.
   */
  lemma RegisterAnswers(s: State, crypto: Crypto, typed: string, password: string, d: Draw)
    requires Reachable(s, crypto)
    ensures var w, (after, answer) := s.world, Serve(s.world, crypto, Register(typed, password, d));
            var email := crypto.normalizeEmail(typed);
            && (answer == BadRequest <==> email == "")
            && (answer == WeakPassword <==> email != "" && !crypto.policyOk(password))
            && (answer == BadRequest || answer == WeakPassword || answer == Created201)
            && (answer == Created201 && (forall i: Uuid :: !Carries(w.db, i, email)) ==>
                  && after.db == w.db.(
                       users :=
                         w.db.users[d.id := User(email, crypto.Hash(password, d.salt), false, false, "", None, 0)],
                       usersByEmail := w.db.usersByEmail[email := d.id])
                  && Mailed(w.redis, after.redis, EmailVerify(d.token), d.id, DAY))
            && (answer != Created201 || (exists i: Uuid :: Carries(w.db, i, email)) ==> after == w)
  {
    hide Reachable, Inv, ToString, SetText, Crypto.Hash, FindByEmail;
    ReachableOk(s, crypto);
    var email := crypto.normalizeEmail(typed);
    forall i: Uuid ensures Carries(s.world.db, i, email)
                           <==> FindByEmail(s.world.db, email) == Some((i, Row(s.world.db, i))) {
      CarriesIsFound(s, email, i);
    }
    if FindByEmail(s.world.db, email).Some? {
      CarriesIsFound(s, email, FindByEmail(s.world.db, email).value.0);
    }
    SetTextStores(s.world.redis, EmailVerify(d.token), ToString(d.id), EMAIL_VERIFY_TTL);
    hide Carries;
  }

  /** The way to Google leaves a state for ten minutes, and the way back is described below. */
  lemma GoogleRedirectAnswers(w: World, crypto: Crypto, returnTo: string, d: Draw)
    ensures var (after, answer) := Serve(w, crypto, GoogleRedirect(returnTo, d));
            && answer == Accepted200 && after.db == w.db
            && Holds(after.redis, OAuthState(d.token), Text(returnTo), 10 * MINUTE)
            && OnlyKeys(w.redis, after.redis, {OAuthState(d.token)})
  {
    SetTextStores(w.redis, OAuthState(d.token), returnTo, STATE_TTL);
    hide SetText, OnlyKeys, Holds;
  }

  /** The state is live and Google vouched for an email. */
  predicate Vouched(w: World, state: string, claims: U.IdToken) {
    Live(w.redis, OAuthState(state)) && claims.Verified? && claims.value.email != ""
  }

  /** Google signs in the account that carries the email, or a new one with no password; each failure has its answer. */
  lemma GoogleAnswers(s: State, crypto: Crypto, state: string, claims: U.IdToken, d: Draw, id: Uuid)
    requires Reachable(s, crypto) && Allowed(s, GoogleCallback(state, claims, d))
    ensures var w, (after, answer) := s.world, Serve(s.world, crypto, GoogleCallback(state, claims, d));
            && (answer == SignedIn(id, d.token) <==>
                  Vouched(w, state, claims)
                  && (Carries(w.db, id, claims.value.email)
                      || (id == d.id && forall i: Uuid :: !Carries(w.db, i, claims.value.email))))
            && (answer == Unauthorized <==> Live(w.redis, OAuthState(state)) && claims.Unverified?)
            && (answer == ClaimsUnreadable <==> Live(w.redis, OAuthState(state)) && claims.Unreadable?)
            && (answer.SignedIn? || answer in {Unauthorized, ClaimsUnreadable, BadRequest})
            && (answer == SignedIn(id, d.token) ==>
                  after.db.users == if id in w.db.users then w.db.users
                    else w.db.users[id := User(claims.value.email, "", claims.value.emailVerified, false, "", None, 0)])
            && (answer == SignedIn(id, d.token) ==>
                  after.db.identities
                  == w.db.identities[(id, "google") := Identity(claims.value.sub, claims.value.email)])
            && (!answer.SignedIn? ==> after.db == w.db)
  {
    hide Reachable, Inv, ToString, WellTyped, Consume, StoreRefresh, FindByEmail, Carries, Allowed;
    ReachableOk(s, crypto);
    DrawnTokens(s, "");
    var w := s.world;
    ConsumeTakes(w.redis, OAuthState(state));
    if claims.Verified? {
      var email := claims.value.email;
      forall i: Uuid ensures Carries(w.db, i, email) <==> FindByEmail(w.db, email) == Some((i, Row(w.db, i))) {
        CarriesIsFound(s, email, i);
      }
      RowsAreDrawn(s, crypto, state, claims, d);
      if FindByEmail(w.db, email).Some? {
        FoundIsRow(w.db, email);
        assert Carries(w.db, FindByEmail(w.db, email).value.0, email);
      }
      CarriersAreRows(w.db, id, email);
    }
    hide Live;
  }

  /** The state is spent either way; a sign-in leaves a refresh token for its user, and nothing else changes. */
  lemma GoogleEffects(s: State, crypto: Crypto, state: string, claims: U.IdToken, d: Draw)
    requires Reachable(s, crypto)
    ensures var w, (after, answer) := s.world, Serve(s.world, crypto, GoogleCallback(state, claims, d));
            && OAuthState(state) !in after.redis.data
            && (answer.SignedIn? ==>
                  var u := ToString(answer.user);
                  && answer.refreshToken == d.token
                  && NewRefreshToken(w.redis, after.redis, d.token, u, {})
                  && OnlyKeys(w.redis, after.redis, {OAuthState(state), Refresh(d.token), UserSessions(u)}))
            && (!answer.SignedIn? ==> OnlyKeys(w.redis, after.redis, {OAuthState(state)}))
  {
    hide Reachable, Inv, ToString, WellTyped, Consume, StoreRefresh, U.FindOrCreateUser, OnlyKeys, NewRefreshToken;
    ReachableOk(s, crypto);
    DrawnTokens(s, "");
    var w := s.world;
    ConsumeTakes(w.redis, OAuthState(state));
    if claims.Verified? {
      var id := U.FindOrCreateUser(w.db, claims.value.email, claims.value.emailVerified, d).1;
      CallbackStores(w.redis, Consume(w.redis, OAuthState(state)).0, state, d.token, ToString(id));
    }
    hide Live;
  }

  lemma RowsAreDrawn(s: State, crypto: Crypto, state: string, claims: U.IdToken, d: Draw)
    requires Inv(s) && Allowed(s, GoogleCallback(state, claims, d))
    ensures d.id !in s.world.db.users
  {
  }

  lemma FoundIsRow(db: Db, email: string)
    requires FindByEmail(db, email).Some?
    ensures var (id, u) := FindByEmail(db, email).value; id in db.users && u == Row(db, id)
  {
  }

  lemma CarriersAreRows(db: Db, id: Uuid, email: string)
    ensures Carries(db, id, email) ==> id in db.users
  {
  }

  lemma CallbackStores(before: Store<Key>, spent: Store<Key>, state: string, token: string, u: string)
    requires WellTyped(spent) && OnlyKeys(before, spent, {OAuthState(state)}) && OAuthState(state) !in spent.data
    ensures var after := StoreRefresh(spent, token, u, REFRESH_TOKEN_TTL);
            && NewRefreshToken(before, after, token, u, {}) && OAuthState(state) !in after.data
            && OnlyKeys(before, after, {OAuthState(state), Refresh(token), UserSessions(u)})
  {
    var after := StoreRefresh(spent, token, u, REFRESH_TOKEN_TTL);
    StoreRefreshStores(spent, token, u);
    SameIndex(before, spent, u);
    hide StoreRefresh, IndexedTokens, WellTyped, Holds;
    OnlyKeysAdd(before, spent, after, {OAuthState(state)}, {Refresh(token), UserSessions(u)});
    assert {OAuthState(state)} + {Refresh(token), UserSessions(u)}
        == {OAuthState(state), Refresh(token), UserSessions(u)};
    assert SameAt(spent, after, OAuthState(state));
  }

  // ----- enrolment and confirmation

  /** The verified access token names this user. */
  predicate Names(subject: Option<string>, id: Uuid) {
    subject.Some? && Parse(subject.value) == Some(id)
  }

  /** The secret is stored with the second factor off, and the recovery codes are the new ones, each under its hash. */
  ghost predicate EnrolledWith(before: Db, after: Db, crypto: Crypto, e: F.Enrolment, id: Uuid) {
    && e.Complete() && id in before.users
    && after == before.(users := before.users[id := before.users[id].(totpSecret := e.secret, totpEnabled := false)],
                        recoveryCodes := before.recoveryCodes[id := CodesOf(after, id)])
    && CodesOf(after, id).Keys == (set c | c in e.ids)
    && forall i :: 0 <= i < RECOVERY_CODE_COUNT ==>
         CodesOf(after, id)[e.ids[i]] == RecoveryCode(crypto.Hash(e.codes[i], e.salts[i]), false)
  }

  /** Enrolling works for an existing user, who gets the secret and the codes to see; nothing changes otherwise. */
  lemma EnrollAnswers(s: State, crypto: Crypto, subject: Option<string>, e: F.Enrolment, id: Uuid)
    requires Allowed(s, Enroll(subject, e))
    ensures e.Complete()
    ensures var w, (after, answer) := s.world, Serve(s.world, crypto, Enroll(subject, e));
            && (Names(subject, id) && id in w.db.users <==> EnrolledNow(w, after, answer, crypto, e, subject, id))
            && (answer == Unauthorized <==> subject.None?)
            && (answer == BadRequest <==> subject.Some? && Parse(subject.value).None?)
            && (answer == NotFound <==> subject.Some? && Parse(subject.value).Some?
                                        && Parse(subject.value).value !in w.db.users)
            && (answer.Enrolled? || answer in {Unauthorized, BadRequest, NotFound})
            && (!answer.Enrolled? ==> after == w)
  {
    assert e.Complete() && forall i, j :: 0 <= i < j < |e.ids| ==> e.ids[i] != e.ids[j];
    hide Parse, ReplaceAll, UpdateTOTP, EnrolledWith;
    if Names(subject, id) && id in s.world.db.users {
      EnrolledTables(s.world.db, crypto, e, id);
    }
    if id !in s.world.db.users {
      WithoutRow(s.world.db, crypto, e, id);
    }
    hide Allowed;
  }

  lemma EnrolledTables(db: Db, crypto: Crypto, e: F.Enrolment, id: Uuid)
    requires id in db.users && e.Complete() && forall i, j :: 0 <= i < j < |e.ids| ==> e.ids[i] != e.ids[j]
    ensures EnrolledWith(db, ReplaceAll(UpdateTOTP(db, id, e.secret, false), id, e.ids, F.HashAll(crypto, e)), crypto,
                         e, id)
  {
    hide FreshCodes, F.HashAll;
    var hashes := F.HashAll(crypto, e);
    FreshCodesUnused(e.ids, hashes);
    forall i | 0 <= i < RECOVERY_CODE_COUNT
      ensures FreshCodes(e.ids, hashes)[e.ids[i]] == RecoveryCode(crypto.Hash(e.codes[i], e.salts[i]), false)
    {
      FreshCodesAt(e.ids, hashes, i);
      HashAllAt(crypto, e, i);
    }
    hide Crypto.Hash, Unused;
  }

  lemma WithoutRow(db: Db, crypto: Crypto, e: F.Enrolment, id: Uuid)
    requires id !in db.users
    ensures forall after: Db :: !EnrolledWith(db, after, crypto, e, id)
  {
  }

  ghost predicate EnrolledNow(w: World, after: World, answer: Response, crypto: Crypto, e: F.Enrolment,
                              subject: Option<string>, id: Uuid) {
    && answer == Enrolled(e.secret, e.codes) && Names(subject, id) && after.redis == w.redis
    && EnrolledWith(w.db, after.db, crypto, e, id)
  }

  lemma HashAllAt(crypto: Crypto, e: F.Enrolment, i: nat)
    requires e.Complete() && i < RECOVERY_CODE_COUNT
    ensures F.HashAll(crypto, e)[i] == crypto.Hash(e.codes[i], e.salts[i])
  {
  }

  /** The second factor goes on if and only if the code is right for the stored secret; nothing else ever changes. */
  lemma ConfirmAnswers(s: State, crypto: Crypto, subject: Option<string>, code: string, id: Uuid)
    ensures var w, (after, answer) := s.world, Serve(s.world, crypto, Confirm(subject, code));
            && (Names(subject, id) ==>
                  (answer == Accepted200
                   <==> code != "" && id in w.db.users && crypto.totpValid(code, w.db.users[id].totpSecret)))
            && (subject.None? || Parse(subject.value).None? ==> answer != Accepted200)
            && (Names(subject, id) && answer == Accepted200 ==>
                  after == w.(db := w.db.(users := w.db.users[id := w.db.users[id].(totpEnabled := true)])))
            && (answer != Accepted200 ==> after == w)
            && (answer == Accepted200 || answer in {Unauthorized, BadRequest, NotFound})
  {
    hide Parse;
  }

  // ----- authorization codes

  predicate HasSession(w: World, session: string, id: Uuid) {
    session != "" && StandsFor(w.redis, SsoSession(session), id)
  }

  /** A code is asked for, by a known client, with one of its redirect URIs. */
  predicate WellAsked(w: World, q: A.AuthorizeRequest) {
    && q.responseType == "code" && q.clientID in w.db.clients
    && q.redirectURI in w.db.clients[q.clientID].redirectURIs
  }

  predicate Consented(db: Db, id: Uuid, q: A.AuthorizeRequest) {
    (id, q.clientID) in db.consents && forall scope :: scope in q.scopes ==> scope in db.consents[(id, q.clientID)]
  }

  /** The code was stored for a minute with every field of its request, and nothing else changed in Redis. */
  ghost predicate CodeStored(before: Store<Key>, after: Store<Key>, q: A.AuthorizeRequest, code: string, id: Uuid) {
    var g := Grant(ToString(id), q.clientID, q.redirectURI, q.scopes, q.codeChallenge);
    Holds(after, OAuthCode(code), Code(g), MINUTE) && OnlyKeys(before, after, {OAuthCode(code)})
  }

  lemma CodeEntry(w: World, q: A.AuthorizeRequest, code: string, id: Uuid)
    ensures CodeStored(w.redis, A.IssueAuthCode(w, code, A.GrantFor(ToString(id), q)).redis, q, code, id)
  {
    CommandTouches(w.redis, Set(OAuthCode(code), Code(A.GrantFor(ToString(id), q)), AUTH_CODE_TTL));
    hide OnlyKeys, ToString;
  }

  lemma SessionIsRead(s: State, session: string, id: Uuid)
    requires Inv(s)
    ensures var user := A.SessionUser(s.world, session);
            && (user.Some? <==> session != "" && Live(s.world.redis, SsoSession(session)))
            && (user.Some? ==> Parse(user.value).Some?)
            && (HasSession(s.world, session, id) <==> user == Some(ToString(id)))
            && (user == Some(ToString(id)) ==> Parse(user.value) == Some(id))
  {
    ParseToString(id);
    if session != "" && Live(s.world.redis, SsoSession(session)) {
      EntryNamesRow(s, SsoSession(session));
    }
    hide Inv, Parse, ToString;
  }

  /** The answers of the authorization endpoint: which check failed, or the code. Only a code changes anything. */
  lemma AuthorizeAnswers(s: State, crypto: Crypto, session: string, q: A.AuthorizeRequest, d: Draw, id: Uuid)
    requires Reachable(s, crypto)
    ensures var w, (after, answer) := s.world, Serve(s.world, crypto, Authorize(session, q, d));
            var live := session != "" && Live(w.redis, SsoSession(session));
            var hashed := q.codeChallenge == "" || q.codeChallengeMethod == "S256";
            && (answer == InvalidClient <==> q.responseType == "code" && q.clientID !in w.db.clients)
            && (answer == LoginRedirect <==> WellAsked(w, q) && !live)
            && (HasSession(w, session, id) ==>
                  && (answer == ConsentScreen <==> WellAsked(w, q) && !Consented(w.db, id, q))
                  && (answer == CodeIssued(d.token) <==> WellAsked(w, q) && Consented(w.db, id, q) && hashed)
                  && (answer == CodeIssued(d.token) ==> CodeStored(w.redis, after.redis, q, d.token, id)))
            && (!live ==> answer != ConsentScreen && !answer.CodeIssued?)
            && (answer in {InvalidClient, LoginRedirect, ConsentScreen, BadRequest} || answer == CodeIssued(d.token))
            && after.db == w.db && (!answer.CodeIssued? ==> after == w)
  {
    hide Reachable, Inv, ToString, Parse, A.SessionUser, A.IssueAuthCode, CodeStored, HasSession;
    ReachableOk(s, crypto);
    SessionIsRead(s, session, id);
    CodeEntry(s.world, q, d.token, id);
    IssuingKeepsTables(s.world, d.token, A.GrantFor(A.SessionUser(s.world, session).GetOr(""), q));
    hide Live;
  }

  lemma IssuingKeepsTables(w: World, code: string, g: Grant)
    ensures A.IssueAuthCode(w, code, g).db == w.db
  {
  }

  /** Consent stores its row and a code for any live session, and does nothing without one. */
  lemma ConsentAnswers(s: State, crypto: Crypto, session: string, q: A.AuthorizeRequest, d: Draw, id: Uuid)
    requires Reachable(s, crypto)
    ensures var w, (after, answer) := s.world, Serve(s.world, crypto, Consent(session, q, d));
            && (answer == CodeIssued(d.token) <==> session != "" && Live(w.redis, SsoSession(session)))
            && (answer == CodeIssued(d.token) || answer == Unauthorized)
            && (HasSession(w, session, id) ==>
                  && CodeStored(w.redis, after.redis, q, d.token, id)
                  && after.db == w.db.(consents := w.db.consents[(id, q.clientID) := q.scopes]))
            && (answer == Unauthorized ==> after == w)
  {
    hide Reachable, Inv, ToString, Parse, A.SessionUser, A.IssueAuthCode, CodeStored, HasSession;
    ReachableOk(s, crypto);
    SessionIsRead(s, session, id);
    var stored := s.world.(db := StoreConsent(s.world.db, id, q.clientID, q.scopes));
    CodeEntry(stored, q, d.token, id);
    IssuingKeepsTables(stored, d.token, A.GrantFor(ToString(id), q));
    hide Live;
  }

  // ----- what stored hashes accept

  /** Argon2id returns as many octets as it was asked for. */
  ghost predicate FullLength(argon: Argon) {
    forall secret: string, salt: seq<Byte> ::
      |argon(secret, salt, ARGON_TIME, ARGON_MEMORY, ARGON_THREADS, ARGON_KEY_LEN)| == ARGON_KEY_LEN
  }

  /** The two passwords have the same Argon2id digest under this salt, pepper included. */
  predicate SameDigest(crypto: Crypto, a: string, b: string, salt: seq<Byte>) {
    crypto.argon(a + crypto.pepper, salt, ARGON_TIME, ARGON_MEMORY, ARGON_THREADS, ARGON_KEY_LEN)
    == crypto.argon(b + crypto.pepper, salt, ARGON_TIME, ARGON_MEMORY, ARGON_THREADS, ARGON_KEY_LEN)
  }

  lemma HashAcceptsIff(crypto: Crypto, text: string, password: string, salt: seq<Byte>)
    requires FullLength(crypto.argon)
    ensures crypto.Accepts(text, crypto.Hash(password, salt)) <==> SameDigest(crypto, text, password, salt)
  {
    VerifyHashPassword(crypto.argon, password, crypto.pepper, salt, text, crypto.pepper);
    hide VerifyPassword, HashPassword;
  }

  /** After an enrolment the user's recovery codes are exactly those returned, up to texts of the same digest. */
  lemma EnrolledCodesWork(before: Db, after: Db, crypto: Crypto, e: F.Enrolment, id: Uuid, text: string)
    requires EnrolledWith(before, after, crypto, e, id) && FullLength(crypto.argon)
    ensures (exists c: Uuid :: IsRecoveryCode(after, crypto, id, text, c))
            <==> exists i :: 0 <= i < RECOVERY_CODE_COUNT && SameDigest(crypto, text, e.codes[i], e.salts[i])
  {
    hide SameDigest, FullLength, Crypto.Accepts, Crypto.Hash;
    forall i | 0 <= i < RECOVERY_CODE_COUNT
      ensures IsRecoveryCode(after, crypto, id, text, e.ids[i]) <==> SameDigest(crypto, text, e.codes[i], e.salts[i])
    {
      HashAcceptsIff(crypto, text, e.codes[i], e.salts[i]);
    }
    forall c: Uuid | IsRecoveryCode(after, crypto, id, text, c)
      ensures exists i :: 0 <= i < RECOVERY_CODE_COUNT && SameDigest(crypto, text, e.codes[i], e.salts[i])
    {
      assert c in (set x | x in e.ids);
      var i :| 0 <= i < |e.ids| && e.ids[i] == c;
      assert SameDigest(crypto, text, e.codes[i], e.salts[i]);
    }
  }
}
