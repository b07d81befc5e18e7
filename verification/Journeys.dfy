/**
 Granularity: handler atomic. What a user gets over several requests, with any other requests in between: an account
 from its registration to its login, a mailed link from its sending to its use, a second factor from its enrolment on.
 */
module Journeys {
  import opened Common
  import opened Uuids
  import opened Base64
  import opened PasswordHash
  import opened Keyspace
  import opened Keys
  import opened Tokens
  import opened UserTables
  import opened Worlds
  import opened Server
  import opened Effects
  import opened Answers
  import opened Columns
  import G = ServerGuarantees
  import L = Login
  import U = SignUp
  import A = Authorization
  import HashTexts

  // ----- runs

  lemma {:induction false} RunAppend(s: State, crypto: Crypto, rs: seq<Request>, more: seq<Request>)
    ensures Run(s, crypto, rs + more) == Run(Run(s, crypto, rs), crypto, more)
    decreases |rs|
  {
    hide Step;
    if rs == [] {
      assert rs + more == more;
    } else {
      assert (rs + more)[0] == rs[0] && (rs + more)[1..] == rs[1..] + more;
      RunAppend(Step(s, crypto, rs[0]), crypto, rs[1..], more);
    }
  }

  lemma StaysReachable(s: State, crypto: Crypto, rs: seq<Request>)
    requires Reachable(s, crypto)
    ensures Reachable(Run(s, crypto, rs), crypto)
  {
    var past: seq<Request> :| Run(Init(), crypto, past) == s;
    RunAppend(Init(), crypto, past, rs);
  }

  lemma StepIsReachable(s: State, crypto: Crypto, r: Request)
    requires Reachable(s, crypto)
    ensures Reachable(Step(s, crypto, r), crypto)
  {
    hide Step;
    StaysReachable(s, crypto, [r]);
    assert [r][1..] == [];
    assert Run(s, crypto, [r]) == Run(Step(s, crypto, r), crypto, []) == Step(s, crypto, r);
  }

  /** An account stays, and its row moves as its requests say. */
  lemma StepMoves(s: State, crypto: Crypto, r: Request, id: Uuid)
    requires Reachable(s, crypto) && id in s.world.db.users
    ensures var s2 := Step(s, crypto, r);
            && Reachable(s2, crypto) && id in s2.world.db.users
            && SameButLock(s2.world.db.users[id],
                           if Allowed(s, r) then RowAfter(s.world, crypto, r, id) else s.world.db.users[id])
  {
    hide Serve, RowAfter, Reachable;
    StepIsReachable(s, crypto, r);
    if Allowed(s, r) {
      RowMoves(s, crypto, r, id);
    }
    hide Allowed;
  }

  // ----- passwords

  ghost predicate NeverReset(s: State, crypto: Crypto, rs: seq<Request>, id: Uuid)
    decreases |rs|
  {
    rs == [] || (!(Allowed(s, rs[0]) && Resets(s.world, crypto, rs[0], id))
                 && NeverReset(Step(s, crypto, rs[0]), crypto, rs[1..], id))
  }

  /** Without a reset, whatever else happens, the account keeps its email and its hash. */
  lemma {:induction false} PasswordStays(s: State, crypto: Crypto, rs: seq<Request>, id: Uuid)
    requires Reachable(s, crypto) && id in s.world.db.users && NeverReset(s, crypto, rs, id)
    ensures var s2, u := Run(s, crypto, rs), s.world.db.users[id];
            && Reachable(s2, crypto) && id in s2.world.db.users
            && s2.world.db.users[id].passwordHash == u.passwordHash && s2.world.db.users[id].email == u.email
    decreases |rs|
  {
    hide Step, Reachable, Resets, Allowed;
    if rs != [] {
      StepMoves(s, crypto, rs[0], id);
      PasswordStays(Step(s, crypto, rs[0]), crypto, rs[1..], id);
    }
  }

  /** No password ever enters an account that Google sign-in created, until its password is reset. */
  lemma GoogleAccountsHaveNoPassword(s: State, crypto: Crypto, r: Request, rs: seq<Request>, typed: string,
                                     password: string, d: Draw)
    requires Reachable(s, crypto) && Allowed(s, r) && r.GoogleCallback?
    requires Serve(s.world, crypto, r).1 == SignedIn(r.draw.id, r.draw.token)
    requires var s1 := Step(s, crypto, r);
             NeverReset(s1, crypto, rs, r.draw.id) && Allowed(Run(s1, crypto, rs), Login(typed, password, d))
    ensures var s2 := Run(Step(s, crypto, r), crypto, rs);
            && !MayEnter(s2.world, crypto, crypto.normalizeEmail(typed), password, r.draw.id)
            && Serve(s2.world, crypto, Login(typed, password, d)).1 != SignedIn(r.draw.id, d.token)
  {
    hide Serve, Reachable, Inv, NeverReset, Run, MayEnter;
    ReachableOk(s, crypto);
    DrawnIdIsNew(s, r);
    GoogleAnswers(s, crypto, r.state, r.claims, r.draw, r.draw.id);
    var s1, id := Step(s, crypto, r), r.draw.id;
    assert s1.world.db.users[id].passwordHash == "";
    StepIsReachable(s, crypto, r);
    hide Step, Allowed;
    PasswordStays(s1, crypto, rs, id);
    var s2 := Run(s1, crypto, rs);
    NoHashNoEntry(s2.world, crypto, crypto.normalizeEmail(typed), password, id);
    LoginAnswers(s2, crypto, typed, password, d, id);
  }

  lemma NoHashNoEntry(w: World, crypto: Crypto, email: string, password: string, id: Uuid)
    requires id in w.db.users && w.db.users[id].passwordHash == ""
    ensures !MayEnter(w, crypto, email, password, id)
  {
    HashTexts.NoPrefixNoPassword(crypto.argon, password, crypto.pepper, "");
    hide VerifyPassword;
  }

  lemma HashedEntry(w: World, crypto: Crypto, email: string, chosen: string, salt: seq<Byte>, password: string,
                    id: Uuid)
    requires FullLength(crypto.argon) && Carries(w.db, id, email) && email != "" && password != ""
    requires w.db.users[id].passwordHash == crypto.Hash(chosen, salt)
    ensures MayEnter(w, crypto, email, password, id)
            <==> !LockedAt(w.db.users[id], w.redis.now) && SameDigest(crypto, password, chosen, salt)
  {
    HashAcceptsIff(crypto, password, chosen, salt);
    hide FullLength, SameDigest, Crypto.Accepts, Crypto.Hash;
  }

  /**
   A registered account can be entered, as long as it is neither locked nor reset, with the password it was registered
   with and with no password of another digest.
   */
  lemma RegisteredPasswordLasts(s: State, crypto: Crypto, r: Request, rs: seq<Request>, password: string)
    requires Reachable(s, crypto) && Allowed(s, r) && r.Register? && Serve(s.world, crypto, r).1 == Created201
    requires forall i: Uuid :: !Carries(s.world.db, i, crypto.normalizeEmail(r.email))
    requires NeverReset(Step(s, crypto, r), crypto, rs, r.draw.id) && FullLength(crypto.argon) && password != ""
    ensures var w, id := Run(Step(s, crypto, r), crypto, rs).world, r.draw.id;
            && id in w.db.users
            && (MayEnter(w, crypto, crypto.normalizeEmail(r.email), password, id)
                <==> !LockedAt(w.db.users[id], w.redis.now) && SameDigest(crypto, password, r.password, r.draw.salt))
  {
    hide Serve, Reachable, NeverReset, Run, MayEnter, FullLength, SameDigest, Crypto.Hash;
    RegisterAnswers(s, crypto, r.email, r.password, r.draw);
    var s1, id := Step(s, crypto, r), r.draw.id;
    StepIsReachable(s, crypto, r);
    hide Step, Allowed;
    PasswordStays(s1, crypto, rs, id);
    var w := Run(s1, crypto, rs).world;
    HashedEntry(w, crypto, crypto.normalizeEmail(r.email), r.password, r.draw.salt, password, id);
  }

  // ----- mailed links

  predicate IsMail(k: Key) {
    k.EmailVerify? || k.PwdReset?
  }

  /** The request follows this link. */
  predicate Presents(r: Request, k: Key) {
    (r.VerifyEmail? && k == EmailVerify(r.token)) || (r.Reset? && k == PwdReset(r.token))
  }

  /** The entry of the link is as it was, and the clock did not go back. */
  ghost predicate Kept(before: Store<Key>, after: Store<Key>, k: Key) {
    SameAt(before, after, k) && before.now <= after.now
  }

  /** Nobody's id in particular, for the theorems that ask for one. */
  function SomeId(): Uuid {
    A.IdOrNil("")
  }

  lemma RegisterKeepsMail(s: State, crypto: Crypto, r: Request, k: Key)
    requires Reachable(s, crypto) && r.Register? && IsMail(k) && k != EmailVerify(r.draw.token)
    ensures Kept(s.world.redis, Serve(s.world, crypto, r).0.redis, k)
  {
    hide Serve, Reachable, Carries;
    RegisterAnswers(s, crypto, r.email, r.password, r.draw);
  }

  lemma MailingKeepsMail(s: State, crypto: Crypto, r: Request, k: Key)
    requires Reachable(s, crypto) && (r.ResendVerification? || r.ResetRequest?) && IsMail(k)
    requires k != EmailVerify(r.draw.token) && k != PwdReset(r.draw.token)
    ensures Kept(s.world.redis, Serve(s.world, crypto, r).0.redis, k)
  {
    hide Serve, Reachable, Carries, Holds;
    var email := crypto.normalizeEmail(r.email);
    var id := if i: Uuid :| Carries(s.world.db, i, email) then i else SomeId();
    if r.ResendVerification? {
      ResendAnswers(s, crypto, r.email, r.draw, id);
    } else {
      ResetRequestAnswers(s, crypto, r.email, r.draw, id);
    }
  }

  lemma LoginKeepsMail(s: State, crypto: Crypto, r: Request, k: Key)
    requires Reachable(s, crypto) && Allowed(s, r) && r.Login? && IsMail(k)
    ensures Kept(s.world.redis, Serve(s.world, crypto, r).0.redis, k)
  {
    hide Serve, Reachable, Allowed, MayEnter, NewPair, Holds, ToString;
    LoginEffects(s, crypto, r.email, r.password, r.draw);
    LoginAnswers(s, crypto, r.email, r.password, r.draw, SomeId());
  }

  lemma RotationKeepsMail(s: State, crypto: Crypto, r: Request, k: Key)
    requires Reachable(s, crypto) && Allowed(s, r) && r.Rotate? && IsMail(k)
    ensures Kept(s.world.redis, Serve(s.world, crypto, r).0.redis, k)
  {
    hide Serve, Reachable, Allowed, NewPair, Holds, ToString, Inv, Parse;
    RefreshAnswers(s, crypto, r.token, r.draw, SomeId());
    if Live(s.world.redis, Refresh(r.token)) {
      ReachableOk(s, crypto);
      EntryNamesRow(s, Refresh(r.token));
      RefreshAnswers(s, crypto, r.token, r.draw, Parse(s.world.redis.data[Refresh(r.token)].value.text).value);
    }
    hide Live;
  }

  lemma LogoutKeepsMail(s: State, crypto: Crypto, r: Request, k: Key)
    requires Reachable(s, crypto) && (r.Logout? || r.LogoutAll?) && IsMail(k)
    ensures Kept(s.world.redis, Serve(s.world, crypto, r).0.redis, k)
  {
    hide Reachable, ToString, IndexedTokens, ConsumeRefresh, RevokeAll;
    if r.Logout? {
      hide Serve;
      LogoutAnswers(s, crypto, r.refreshCookie, r.sessionCookie, SomeId());
    } else if r.subject.Some? {
      G.LogoutAllRevokes(s, crypto, r.subject.value);
    }
  }

  lemma LinksKeepMail(s: State, crypto: Crypto, r: Request, k: Key)
    requires Reachable(s, crypto) && (r.VerifyEmail? || r.Reset?) && IsMail(k) && !Presents(r, k)
    ensures Kept(s.world.redis, Serve(s.world, crypto, r).0.redis, k)
  {
    hide Reachable, ToString, Parse, Crypto.Hash, Live, Consume, L.Reset, U.VerifyEmail;
    if r.VerifyEmail? {
      VerifyEmailAnswers(s, crypto, r.token, SomeId());
    } else {
      ResetAnswers(s, crypto, r.token, r.password, r.draw, SomeId());
      G.ResetRevokes(s, crypto, r.token, r.password, r.draw);
    }
  }

  lemma FactorsKeepMail(s: State, crypto: Crypto, r: Request, k: Key)
    requires Reachable(s, crypto) && Allowed(s, r) && IsMail(k)
    requires r.Enroll? || r.Confirm? || r.Verify? || r.Recovery?
    ensures Kept(s.world.redis, Serve(s.world, crypto, r).0.redis, k)
  {
    hide Serve, Reachable, Allowed, ToString, Parse, NewRefreshToken, FactorFits, IsRecoveryCode, Recovered;
    if r.Enroll? {
      EnrollAnswers(s, crypto, r.subject, r.enrolment, SomeId());
      EnrollKeepsRedis(s.world, crypto, r);
    } else if r.Confirm? {
      ConfirmKeepsRedis(s.world, crypto, r);
    } else if r.Verify? {
      VerifyAnswers(s, crypto, r.mfaSession, r.code, r.draw, SomeId());
      var answer := Serve(s.world, crypto, r).1;
      if answer.SignedIn? {
        VerifyAnswers(s, crypto, r.mfaSession, r.code, r.draw, answer.user);
      }
    } else {
      RecoveryAnswers(s, crypto, r.mfaSession, r.code, r.listing, r.draw, SomeId());
      var answer := Serve(s.world, crypto, r).1;
      if answer.SignedIn? {
        RecoveryAnswers(s, crypto, r.mfaSession, r.code, r.listing, r.draw, answer.user);
      }
    }
  }

  lemma EnrollKeepsRedis(w: World, crypto: Crypto, r: Request)
    requires r.Enroll? && r.enrolment.Complete()
    ensures Serve(w, crypto, r).0.redis == w.redis
  {
  }

  lemma ConfirmKeepsRedis(w: World, crypto: Crypto, r: Request)
    requires r.Confirm?
    ensures Serve(w, crypto, r).0.redis == w.redis
  {
  }

  lemma CodesKeepMail(w: World, crypto: Crypto, r: Request, k: Key)
    requires (r.Authorize? || r.Consent? || r.Exchange?) && IsMail(k)
    ensures Kept(w.redis, Serve(w, crypto, r).0.redis, k)
  {
    hide Parse, Exec, Live, A.GrantMatches, HasConsent, A.SessionUser, A.ValidRedirectURI;
    if r.Exchange? {
      CommandTouches(w.redis, GetDel(OAuthCode(r.form.code)));
    } else {
      var g := A.GrantFor(A.SessionUser(w, r.session).GetOr(""), r.query);
      CommandTouches(w.redis, Set(OAuthCode(r.draw.token), Code(g), AUTH_CODE_TTL));
    }
  }

  lemma EnvironmentKeepsMail(w: World, crypto: Crypto, r: Request, k: Key)
    requires (r.GoogleRedirect? || r.RateHit? || r.NewClient? || r.Elapse?) && IsMail(k)
    requires r.RateHit? ==> r.rateKey != k
    ensures Kept(w.redis, Serve(w, crypto, r).0.redis, k)
  {
    hide Exec;
    if r.GoogleRedirect? {
      CommandTouches(w.redis, Set(OAuthState(r.draw.token), Text(r.returnTo), STATE_TTL));
    } else if r.RateHit? {
      CommandTouches(w.redis, Hit(r.rateKey, r.window));
    }
  }

  lemma CallbackKeepsMail(s: State, crypto: Crypto, r: Request, k: Key)
    requires Reachable(s, crypto) && r.GoogleCallback? && IsMail(k)
    ensures Kept(s.world.redis, Serve(s.world, crypto, r).0.redis, k)
  {
    hide Serve, Reachable, ToString, NewRefreshToken;
    GoogleEffects(s, crypto, r.state, r.claims, r.draw);
  }

  /** No request but the one that follows the link touches its entry. */
  lemma MailKept(s: State, crypto: Crypto, r: Request, k: Key)
    requires Reachable(s, crypto) && Allowed(s, r) && IsMail(k) && k.token in s.drawn && !Presents(r, k)
    ensures Kept(s.world.redis, Serve(s.world, crypto, r).0.redis, k)
  {
    hide Serve, Reachable, Kept;
    assert DrawOf(r).Some? ==> DrawOf(r).value.token !in s.drawn;
    assert r.RateHit? ==> r.rateKey.IpRate? || r.rateKey.EmailIpRate?;
    hide Allowed;
    match r
    case Register(_, _, _) => RegisterKeepsMail(s, crypto, r, k);
    case VerifyEmail(_) => LinksKeepMail(s, crypto, r, k);
    case ResendVerification(_, _) => MailingKeepsMail(s, crypto, r, k);
    case Login(_, _, _) => LoginKeepsMail(s, crypto, r, k);
    case Rotate(_, _) => RotationKeepsMail(s, crypto, r, k);
    case Logout(_, _) => LogoutKeepsMail(s, crypto, r, k);
    case LogoutAll(_) => LogoutKeepsMail(s, crypto, r, k);
    case ResetRequest(_, _) => MailingKeepsMail(s, crypto, r, k);
    case Reset(_, _, _) => LinksKeepMail(s, crypto, r, k);
    case Enroll(_, _) => FactorsKeepMail(s, crypto, r, k);
    case Confirm(_, _) => FactorsKeepMail(s, crypto, r, k);
    case Verify(_, _, _) => FactorsKeepMail(s, crypto, r, k);
    case Recovery(_, _, _, _) => FactorsKeepMail(s, crypto, r, k);
    case GoogleCallback(_, _, _) => CallbackKeepsMail(s, crypto, r, k);
    case Authorize(_, _, _) => CodesKeepMail(s.world, crypto, r, k);
    case Consent(_, _, _) => CodesKeepMail(s.world, crypto, r, k);
    case Exchange(_) => CodesKeepMail(s.world, crypto, r, k);
    case _ => EnvironmentKeepsMail(s.world, crypto, r, k);
  }

  ghost predicate NeverFollowed(rs: seq<Request>, k: Key) {
    forall i :: 0 <= i < |rs| ==> !Presents(rs[i], k)
  }

  /** A link that nobody follows keeps its entry, whatever else happens. */
  lemma {:induction false} LinkLasts(s: State, crypto: Crypto, rs: seq<Request>, k: Key)
    requires Reachable(s, crypto) && IsMail(k) && k.token in s.drawn && NeverFollowed(rs, k)
    ensures Kept(s.world.redis, Run(s, crypto, rs).world.redis, k)
    decreases |rs|
  {
    hide Serve, Reachable;
    if rs != [] {
      var s1 := Step(s, crypto, rs[0]);
      if Allowed(s, rs[0]) {
        MailKept(s, crypto, rs[0], k);
      }
      StepIsReachable(s, crypto, rs[0]);
      hide Allowed;
      assert !Presents(rs[0], k) && forall i :: 0 <= i < |rs[1..]| ==> rs[1..][i] == rs[i + 1];
      assert k.token in s1.drawn;
      hide Step;
      LinkLasts(s1, crypto, rs[1..], k);
    }
  }

  /** The email of an account never changes, and once verified it stays verified. */
  lemma {:induction false} EmailStays(s: State, crypto: Crypto, rs: seq<Request>, id: Uuid)
    requires Reachable(s, crypto) && id in s.world.db.users
    ensures var s2, u := Run(s, crypto, rs), s.world.db.users[id];
            && Reachable(s2, crypto) && id in s2.world.db.users && s2.world.db.users[id].email == u.email
            && (u.emailVerified ==> s2.world.db.users[id].emailVerified)
    decreases |rs|
  {
    hide Step, Reachable, Allowed;
    if rs != [] {
      StepMoves(s, crypto, rs[0], id);
      EmailStays(Step(s, crypto, rs[0]), crypto, rs[1..], id);
    }
  }

  /**
   The link mailed on registration, followed for the first time within a day, verifies the email of the new account,
   for good.
   */
  lemma RegisterThenVerify(s: State, crypto: Crypto, r: Request, rs: seq<Request>, later: seq<Request>)
    requires Reachable(s, crypto) && Allowed(s, r) && r.Register? && Serve(s.world, crypto, r).1 == Created201
    requires (forall i: Uuid :: !Carries(s.world.db, i, crypto.normalizeEmail(r.email))) && r.draw.token != ""
    requires var s2 := Run(Step(s, crypto, r), crypto, rs);
             NeverFollowed(rs, EmailVerify(r.draw.token)) && s2.world.redis.now < s.world.redis.now + DAY
    ensures var s2, follow := Run(Step(s, crypto, r), crypto, rs), VerifyEmail(r.draw.token);
            && Serve(s2.world, crypto, follow).1 == Accepted200
            && var s3 := Run(Step(s2, crypto, follow), crypto, later);
               r.draw.id in s3.world.db.users && s3.world.db.users[r.draw.id].emailVerified
  {
    hide Serve, Reachable, Run, Crypto.Hash, NeverFollowed, ToString;
    var k, id := EmailVerify(r.draw.token), r.draw.id;
    RegisterAnswers(s, crypto, r.email, r.password, r.draw);
    var s1 := Step(s, crypto, r);
    assert Holds(s1.world.redis, k, Text(ToString(id)), DAY) && s1.world.redis.now == s.world.redis.now;
    StepIsReachable(s, crypto, r);
    assert k.token in s1.drawn && id in s1.world.db.users;
    hide Step, Allowed;
    LinkLasts(s1, crypto, rs, k);
    EmailStays(s1, crypto, rs, id);
    var s2 := Run(s1, crypto, rs);
    FollowedVerifies(s2, crypto, r.draw.token, id);
    EmailStays(Step(s2, crypto, VerifyEmail(r.draw.token)), crypto, later, id);
  }

  /** Following a live link marks its account as verified. */
  lemma FollowedVerifies(s: State, crypto: Crypto, token: string, id: Uuid)
    requires Reachable(s, crypto) && token != "" && StandsFor(s.world.redis, EmailVerify(token), id)
    ensures var s2 := Step(s, crypto, VerifyEmail(token));
            && Serve(s.world, crypto, VerifyEmail(token)).1 == Accepted200
            && Reachable(s2, crypto) && id in s2.world.db.users && s2.world.db.users[id].emailVerified
  {
    VerifyEmailAnswers(s, crypto, token, id);
    StepIsReachable(s, crypto, VerifyEmail(token));
    assert Allowed(s, VerifyEmail(token));
    hide Serve, Reachable, Allowed, StandsFor, OnlyKeys;
  }

  lemma FollowedResets(s: State, crypto: Crypto, r: Request, id: Uuid)
    requires Reachable(s, crypto) && Allowed(s, r) && r.Reset? && Resets(s.world, crypto, r, id)
    ensures var s2 := Step(s, crypto, r);
            && Serve(s.world, crypto, r).1 == Accepted200
            && Reachable(s2, crypto) && id in s.world.db.users && id in s2.world.db.users
            && s2.world.db.users[id].passwordHash == crypto.Hash(r.password, r.draw.salt)
            && s2.world.db.users[id].email == s.world.db.users[id].email
            && s2.world.db.users[id].lockedUntil.None?
  {
    ResetAnswers(s, crypto, r.token, r.password, r.draw, id);
    StepIsReachable(s, crypto, r);
    hide Serve, Reachable, Allowed, StandsFor, OnlyKeys, Crypto.Hash;
  }

  /**
   A reset link followed for the first time within an hour, with a password the policy accepts, works: it unlocks the
   account, which from then on, until the next reset, can be entered with that password and none of another digest.
   */
  lemma ResetThenLogin(s: State, crypto: Crypto, typed: string, d: Draw, rs: seq<Request>, reset: Request,
                       later: seq<Request>, candidate: string, id: Uuid)
    requires Reachable(s, crypto) && Allowed(s, ResetRequest(typed, d)) && d.token != "" && FullLength(crypto.argon)
    requires Carries(s.world.db, id, crypto.normalizeEmail(typed)) && crypto.normalizeEmail(typed) != ""
    requires var s2 := Run(Step(s, crypto, ResetRequest(typed, d)), crypto, rs);
             && NeverFollowed(rs, PwdReset(d.token)) && s2.world.redis.now < s.world.redis.now + HOUR
             && reset.Reset? && reset.token == d.token && crypto.policyOk(reset.password) && Allowed(s2, reset)
             && NeverReset(Step(s2, crypto, reset), crypto, later, id) && candidate != ""
    ensures var s2 := Run(Step(s, crypto, ResetRequest(typed, d)), crypto, rs);
            var s3 := Step(s2, crypto, reset);
            var w := Run(s3, crypto, later).world;
            && Serve(s2.world, crypto, reset).1 == Accepted200
            && id in s3.world.db.users && !LockedAt(s3.world.db.users[id], s3.world.redis.now)
            && id in w.db.users
            && (MayEnter(w, crypto, crypto.normalizeEmail(typed), candidate, id)
                <==> !LockedAt(w.db.users[id], w.redis.now)
                     && SameDigest(crypto, candidate, reset.password, reset.draw.salt))
  {
    hide Serve, Reachable, Run, Crypto.Hash, NeverFollowed, NeverReset, ToString, MayEnter, SameDigest, FullLength;
    var k, ask := PwdReset(d.token), ResetRequest(typed, d);
    ResetRequestAnswers(s, crypto, typed, d, id);
    var s1 := Step(s, crypto, ask);
    assert Holds(s1.world.redis, k, Text(ToString(id)), HOUR) && s1.world.redis.now == s.world.redis.now;
    assert k.token in s1.drawn && id in s1.world.db.users && Carries(s1.world.db, id, crypto.normalizeEmail(typed));
    StepIsReachable(s, crypto, ask);
    hide Step, Allowed;
    LinkLasts(s1, crypto, rs, k);
    EmailStays(s1, crypto, rs, id);
    var s2 := Run(s1, crypto, rs);
    FollowedResets(s2, crypto, reset, id);
    var s3 := Step(s2, crypto, reset);
    PasswordStays(s3, crypto, later, id);
    HashedEntry(Run(s3, crypto, later).world, crypto, crypto.normalizeEmail(typed), reset.password, reset.draw.salt,
                candidate, id);
  }

  // ----- the second factor

  ghost predicate TurnsOff(s: State, crypto: Crypto, r: Request, id: Uuid) {
    Allowed(s, r) && (Enrolls(r, id) || Recovers(s.world, crypto, r, id))
  }

  /** Nothing turns the user's second factor off during the run. */
  ghost predicate LeftOn(s: State, crypto: Crypto, rs: seq<Request>, id: Uuid)
    decreases |rs|
  {
    rs == [] || (!TurnsOff(s, crypto, rs[0], id) && LeftOn(Step(s, crypto, rs[0]), crypto, rs[1..], id))
  }

  /** Some request of the run confirmed this secret with a right code, and nothing turned it off afterwards. */
  ghost predicate ConfirmedLast(s: State, crypto: Crypto, rs: seq<Request>, id: Uuid, secret: string)
    decreases |rs|
  {
    rs != []
    && ((Allowed(s, rs[0]) && Confirms(s.world, crypto, rs[0], id) && s.world.db.users[id].totpSecret == secret
         && LeftOn(Step(s, crypto, rs[0]), crypto, rs[1..], id))
        || ConfirmedLast(Step(s, crypto, rs[0]), crypto, rs[1..], id, secret))
  }

  ghost predicate IsOn(s: State, id: Uuid) {
    id in s.world.db.users && s.world.db.users[id].totpEnabled
  }

  /** One request: on afterwards means on before or confirmed now, and not turned off. */
  lemma StepFactor(s: State, crypto: Crypto, r: Request, id: Uuid)
    requires Reachable(s, crypto)
    ensures var s2 := Step(s, crypto, r);
            && Reachable(s2, crypto)
            && (IsOn(s2, id) <==>
                  !TurnsOff(s, crypto, r, id)
                  && (IsOn(s, id) || (Allowed(s, r) && Confirms(s.world, crypto, r, id))))
            && (id in s.world.db.users ==> id in s2.world.db.users)
            && (id in s.world.db.users && !TurnsOff(s, crypto, r, id) ==>
                  s2.world.db.users[id].totpSecret == s.world.db.users[id].totpSecret)
  {
    hide Serve, Reachable, Recovers, Names;
    if id in s.world.db.users {
      StepMoves(s, crypto, r, id);
    } else {
      StepIsReachable(s, crypto, r);
      if Allowed(s, r) {
        NewRowIsBare(s, crypto, r, id);
      }
    }
    hide Allowed;
  }

  lemma {:induction false} SecretKept(s: State, crypto: Crypto, rs: seq<Request>, id: Uuid)
    requires Reachable(s, crypto) && id in s.world.db.users && LeftOn(s, crypto, rs, id)
    ensures var s2 := Run(s, crypto, rs);
            id in s2.world.db.users && s2.world.db.users[id].totpSecret == s.world.db.users[id].totpSecret
    decreases |rs|
  {
    hide Step, Reachable, TurnsOff, Allowed;
    if rs != [] {
      StepFactor(s, crypto, rs[0], id);
      SecretKept(Step(s, crypto, rs[0]), crypto, rs[1..], id);
    }
  }

  lemma {:induction false} OnFrom(s: State, crypto: Crypto, rs: seq<Request>, id: Uuid, secret: string)
    requires Reachable(s, crypto)
    requires var s2 := Run(s, crypto, rs); id in s2.world.db.users && s2.world.db.users[id].totpSecret == secret
    ensures IsOn(Run(s, crypto, rs), id)
            <==> ConfirmedLast(s, crypto, rs, id, secret) || (IsOn(s, id) && LeftOn(s, crypto, rs, id))
    decreases |rs|
  {
    hide Step, Reachable, TurnsOff, Allowed;
    if rs != [] {
      var s1 := Step(s, crypto, rs[0]);
      StepFactor(s, crypto, rs[0], id);
      OnFrom(s1, crypto, rs[1..], id, secret);
      if id in s1.world.db.users && LeftOn(s1, crypto, rs[1..], id) {
        SecretKept(s1, crypto, rs[1..], id);
      }
      ConfirmTurnsNothingOff(s, crypto, rs[0], id);
    }
  }

  lemma ConfirmTurnsNothingOff(s: State, crypto: Crypto, r: Request, id: Uuid)
    ensures Confirms(s.world, crypto, r, id) ==> !TurnsOff(s, crypto, r, id)
  {
  }

  /**
   In every run of the server, an account's second factor is on if and only if the secret it has now was confirmed by
   a right code and neither an enrolment nor a recovery came after that.
   */
  lemma FactorOnIff(crypto: Crypto, rs: seq<Request>, id: Uuid)
    requires id in Run(Init(), crypto, rs).world.db.users
    ensures var u := Run(Init(), crypto, rs).world.db.users[id];
            u.totpEnabled <==> ConfirmedLast(Init(), crypto, rs, id, u.totpSecret)
  {
    hide Step, ConfirmedLast, LeftOn;
    assert Run(Init(), crypto, []) == Init();
    OnFrom(Init(), crypto, rs, id, Run(Init(), crypto, rs).world.db.users[id].totpSecret);
  }
}
