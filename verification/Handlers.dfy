/**
 The handlers as the server runs them: objects over the token store and the repositories, changing Redis and
 Cassandra one call at a time. Each method is proved to leave exactly the world its function describes.
 */
module Handlers {
  import opened Common
  import opened Uuids
  import opened Keyspace
  import opened Keys
  import opened Tokens
  import opened UserTables
  import opened Repositories
  import opened Worlds
  import L = Login
  import U = SignUp
  import F = SecondFactor
  import A = Authorization

  class LoginHandler {
    const users: Repository
    const tokens: TokenStore
    const crypto: Crypto

    constructor (users: Repository, tokens: TokenStore, crypto: Crypto)
      ensures this.users == users && this.tokens == tokens && this.crypto == crypto
    {
      this.users, this.tokens, this.crypto := users, tokens, crypto;
    }

    ghost function Here(): World
      reads users.session, tokens.redis
    {
      World(tokens.redis.typed, users.session.Tables())
    }

    method Login(typed: string, password: string, draw: Draw) returns (r: Response)
      requires tokens.redis.Ready()
      modifies users.session, tokens.redis
      ensures tokens.redis.Ready()
      ensures (Here(), r) == L.Login(old(Here()), crypto, crypto.normalizeEmail(typed), password, draw)
    {
      hide Crypto.Accepts, ToString, StoreRefresh, SetText, Drop, UpdateFailedAttemptsReset, L.FailedAttempt;
      var email := crypto.normalizeEmail(typed);
      if email == "" || password == "" {
        return BadRequest;
      }
      var found := users.FindByEmail(email);
      if found.None? {
        return Unauthorized;
      }
      var (id, u) := found.value;
      if u.lockedUntil.Some? && tokens.redis.now < u.lockedUntil.value {
        return Locked;
      }
      if !crypto.Accepts(password, u.passwordHash) {
        HandleFailedAttempt(id);
        return Unauthorized;
      }
      tokens.ResetLoginAttempts(ToString(id));
      if u.failedAttempts > 0 {
        users.UpdateFailedAttemptsReset(id);
      }
      if u.totpEnabled {
        tokens.StoreMFASession(draw.token, ToString(id), MFA_SESSION_TTL);
        return MfaRequired(draw.token);
      }
      r := IssueTokenPair(id, draw);
    }

    method HandleFailedAttempt(id: Uuid)
      requires tokens.redis.Ready()
      modifies users.session, tokens.redis
      ensures tokens.redis.Ready() && Here() == L.FailedAttempt(old(Here()), id)
    {
      var count := tokens.IncrLoginAttempts(ToString(id));
      var lockedUntil: Option<Time> := None;
      if count >= MAX_LOGIN_ATTEMPTS {
        lockedUntil := Some(tokens.redis.now + LOCKOUT_DURATION);
      }
      users.UpdateFailedAttempts(id, count, lockedUntil);
    }

    method IssueTokenPair(id: Uuid, draw: Draw) returns (r: Response)
      requires tokens.redis.Ready()
      modifies tokens.redis
      ensures tokens.redis.Ready() && Here() == L.IssueTokenPair(old(Here()), id, draw)
      ensures r == SignedIn(id, draw.token)
    {
      tokens.StoreRefreshToken(draw.token, ToString(id), REFRESH_TOKEN_TTL);
      tokens.StoreSessionToken(draw.session, ToString(id));
      r := SignedIn(id, draw.token);
    }

    method Refresh(token: string, draw: Draw) returns (r: Response)
      requires tokens.redis.Ready()
      modifies tokens.redis
      ensures tokens.redis.Ready() && (Here(), r) == L.Refresh(old(Here()), token, draw)
    {
      var user := tokens.ConsumeRefreshToken(token);
      if user.None? {
        return Unauthorized;
      }
      var id := Parse(user.value);
      if id.None? {
        return ServerError;
      }
      var u := users.FindByID(id.value);
      if u.None? {
        return Unauthorized;
      }
      r := IssueTokenPair(id.value, draw);
    }
  }

  class LogoutHandler {
    const tokens: TokenStore

    constructor (tokens: TokenStore)
      ensures this.tokens == tokens
    {
      this.tokens := tokens;
    }

    method Logout(refreshCookie: string, sessionCookie: string, ghost db: Db) returns (r: Response)
      requires tokens.redis.Ready()
      modifies tokens.redis
      ensures tokens.redis.Ready()
      ensures (World(tokens.redis.typed, db), r)
           == L.Logout(World(old(tokens.redis.typed), db), refreshCookie, sessionCookie)
    {
      if refreshCookie != "" {
        var _ := tokens.ConsumeRefreshToken(refreshCookie);
      }
      if sessionCookie != "" {
        tokens.RevokeSessionToken(sessionCookie);
      }
      r := Accepted200;
    }

    method RevokeAll(subject: Option<string>, ghost db: Db) returns (r: Response)
      requires tokens.redis.Ready()
      modifies tokens.redis
      ensures tokens.redis.Ready()
      ensures (World(tokens.redis.typed, db), r) == L.LogoutAll(World(old(tokens.redis.typed), db), subject)
    {
      if subject.Some? {
        ghost var _ := tokens.RevokeAllUserSessions(subject.value);
      }
      r := Accepted200;
    }
  }

  class PasswordResetHandler {
    const users: Repository
    const tokens: TokenStore
    const crypto: Crypto

    constructor (users: Repository, tokens: TokenStore, crypto: Crypto)
      ensures this.users == users && this.tokens == tokens && this.crypto == crypto
    {
      this.users, this.tokens, this.crypto := users, tokens, crypto;
    }

    ghost function Here(): World
      reads users.session, tokens.redis
    {
      World(tokens.redis.typed, users.session.Tables())
    }

    method ResetRequest(typed: string, draw: Draw) returns (r: Response)
      requires tokens.redis.Ready()
      modifies tokens.redis
      ensures tokens.redis.Ready() && (Here(), r) == L.ResetRequest(old(Here()), crypto.normalizeEmail(typed), draw)
    {
      var found := users.FindByEmail(crypto.normalizeEmail(typed));
      if found.Some? {
        tokens.CreatePasswordResetToken(draw.token, ToString(found.value.0), PASSWORD_RESET_TTL);
      }
      r := Accepted200;
    }

    method Reset(token: string, password: string, draw: Draw) returns (r: Response)
      requires tokens.redis.Ready()
      modifies users.session, tokens.redis
      ensures tokens.redis.Ready() && (Here(), r) == L.Reset(old(Here()), crypto, token, password, draw)
    {
      if token == "" {
        return BadRequest;
      }
      if !crypto.policyOk(password) {
        return WeakPassword;
      }
      var user := tokens.ConsumePasswordResetToken(token);
      if user.None? {
        return BadRequest;
      }
      var id := Parse(user.value);
      if id.None? {
        return ServerError;
      }
      users.UpdatePassword(id.value, crypto.Hash(password, draw.salt));
      ghost var _ := tokens.RevokeAllUserSessions(user.value);
      r := Accepted200;
    }
  }

  class RegistrationHandler {
    const users: Repository
    const tokens: TokenStore
    const crypto: Crypto

    constructor (users: Repository, tokens: TokenStore, crypto: Crypto)
      ensures this.users == users && this.tokens == tokens && this.crypto == crypto
    {
      this.users, this.tokens, this.crypto := users, tokens, crypto;
    }

    ghost function Here(): World
      reads users.session, tokens.redis
    {
      World(tokens.redis.typed, users.session.Tables())
    }

    method Register(typed: string, password: string, draw: Draw) returns (r: Response)
      requires tokens.redis.Ready()
      modifies users.session, tokens.redis
      ensures tokens.redis.Ready()
      ensures (Here(), r) == U.Register(old(Here()), crypto, crypto.normalizeEmail(typed), password, draw)
    {
      var email := crypto.normalizeEmail(typed);
      if email == "" {
        return BadRequest;
      }
      if !crypto.policyOk(password) {
        return WeakPassword;
      }
      var hash := crypto.Hash(password, draw.salt);
      var err := users.Create(draw.id, NULL_ROW.(email := email, passwordHash := hash));
      if err.None? {
        tokens.CreateEmailVerificationToken(draw.token, ToString(draw.id), EMAIL_VERIFY_TTL);
      }
      r := Created201;
    }

    method VerifyEmail(token: string) returns (r: Response)
      requires tokens.redis.Ready()
      modifies users.session, tokens.redis
      ensures tokens.redis.Ready() && (Here(), r) == U.VerifyEmail(old(Here()), token)
    {
      if token == "" {
        return BadRequest;
      }
      var user := tokens.ConsumeEmailVerificationToken(token);
      if user.None? {
        return BadRequest;
      }
      var id := Parse(user.value);
      if id.None? {
        return ServerError;
      }
      users.SetEmailVerified(id.value);
      r := Accepted200;
    }

    method ResendVerification(typed: string, draw: Draw) returns (r: Response)
      requires tokens.redis.Ready()
      modifies tokens.redis
      ensures tokens.redis.Ready()
      ensures (Here(), r) == U.ResendVerification(old(Here()), crypto.normalizeEmail(typed), draw)
    {
      var found := users.FindByEmail(crypto.normalizeEmail(typed));
      if found.Some? && !found.value.1.emailVerified {
        tokens.CreateEmailVerificationToken(draw.token, ToString(found.value.0), EMAIL_VERIFY_TTL);
      }
      r := Accepted200;
    }
  }

  class FederationHandler {
    const users: Repository
    const identities: FederatedIdentityRepository
    const tokens: TokenStore

    constructor (users: Repository, identities: FederatedIdentityRepository, tokens: TokenStore)
      ensures this.users == users && this.identities == identities && this.tokens == tokens
    {
      this.users, this.identities, this.tokens := users, identities, tokens;
    }

    ghost predicate Wired()
      reads this, tokens.redis
    {
      users.session == identities.session && tokens.redis.Ready()
    }

    ghost function Here(): World
      reads users.session, tokens.redis
    {
      World(tokens.redis.typed, users.session.Tables())
    }

    method GoogleRedirect(returnTo: string, draw: Draw) returns (r: Response)
      requires tokens.redis.Ready()
      modifies tokens.redis
      ensures tokens.redis.Ready() && (Here(), r) == U.GoogleRedirect(old(Here()), returnTo, draw)
    {
      tokens.SetState(draw.token, returnTo);
      r := Accepted200;
    }

    method FindOrCreateUser(email: string, verified: bool, draw: Draw) returns (id: Uuid)
      modifies users.session
      ensures (users.session.Tables(), id) == U.FindOrCreateUser(old(users.session.Tables()), email, verified, draw)
    {
      var existing := users.FindByEmail(email);
      if existing.Some? {
        return existing.value.0;
      }
      var _ := users.Create(draw.id, NULL_ROW.(email := email, emailVerified := verified));
      id := draw.id;
    }

    method GoogleCallback(state: string, claims: U.IdToken, draw: Draw) returns (r: Response)
      requires Wired()
      modifies users.session, tokens.redis
      ensures Wired() && (Here(), r) == U.GoogleCallback(old(Here()), state, claims, draw)
    {
      var found := tokens.ConsumeState(state);
      if found.None? {
        return BadRequest;
      }
      match claims {
        case Missing => return BadRequest;
        case Unverified => return Unauthorized;
        case Unreadable => return ClaimsUnreadable;
        case Verified(c) =>
          if c.email == "" {
            return BadRequest;
          }
          var id := FindOrCreateUser(c.email, c.emailVerified, draw);
          identities.Upsert(id, U.GOOGLE, c.sub, c.email);
          tokens.StoreRefreshToken(draw.token, ToString(id), REFRESH_TOKEN_TTL);
          r := SignedIn(id, draw.token);
      }
    }
  }

  class TOTPHandler {
    const users: Repository
    const codes: RecoveryCodeRepository
    const tokens: TokenStore
    const crypto: Crypto

    constructor (users: Repository, codes: RecoveryCodeRepository, tokens: TokenStore, crypto: Crypto)
      ensures this.users == users && this.codes == codes && this.tokens == tokens && this.crypto == crypto
    {
      this.users, this.codes, this.tokens, this.crypto := users, codes, tokens, crypto;
    }

    ghost predicate Wired()
      reads tokens.redis
    {
      codes.session == users.session && tokens.redis.Ready()
    }

    ghost function Here(): World
      reads users.session, tokens.redis
    {
      World(tokens.redis.typed, users.session.Tables())
    }

    /** The secret is stored first, disabled; the codes are hashed and replaced after. */
    method Enroll(subject: Option<string>, e: F.Enrolment) returns (r: Response)
      requires Wired() && e.Complete()
      modifies users.session
      ensures Wired() && (Here(), r) == F.Enroll(old(Here()), crypto, subject, e)
    {
      if subject.None? {
        return Unauthorized;
      }
      var id := Parse(subject.value);
      if id.None? {
        return BadRequest;
      }
      var u := users.FindByID(id.value);
      if u.None? {
        return NotFound;
      }
      users.UpdateTOTP(id.value, e.secret, false);
      var hashed: seq<string> := [];
      for i := 0 to |e.codes|
        invariant |hashed| == i && hashed == F.HashAll(crypto, e)[..i]
      {
        hashed := hashed + [crypto.Hash(e.codes[i], e.salts[i])];
      }
      assert hashed == F.HashAll(crypto, e);
      codes.ReplaceAll(id.value, e.ids, hashed);
      r := Enrolled(e.secret, e.codes);
    }

    method Confirm(subject: Option<string>, code: string) returns (r: Response)
      requires Wired()
      modifies users.session
      ensures Wired() && (Here(), r) == F.Confirm(old(Here()), crypto, subject, code)
    {
      if subject.None? {
        return Unauthorized;
      }
      var id := Parse(subject.value);
      if id.None? || code == "" {
        return BadRequest;
      }
      var u := users.FindByID(id.value);
      if u.None? {
        return NotFound;
      }
      if !crypto.totpValid(code, u.value.totpSecret) {
        return Unauthorized;
      }
      users.UpdateTOTP(id.value, u.value.totpSecret, true);
      r := Accepted200;
    }

    method SignIn(id: Uuid, draw: Draw) returns (r: Response)
      requires Wired()
      modifies tokens.redis
      ensures Wired() && (Here(), r) == F.SignIn(old(Here()), id, draw)
    {
      tokens.StoreRefreshToken(draw.token, ToString(id), REFRESH_TOKEN_TTL);
      r := SignedIn(id, draw.token);
    }

    method Verify(mfaSession: string, code: string, draw: Draw) returns (r: Response)
      requires Wired()
      modifies tokens.redis
      ensures Wired() && (Here(), r) == F.Verify(old(Here()), crypto, mfaSession, code, draw)
    {
      if mfaSession == "" || code == "" {
        return BadRequest;
      }
      var user := tokens.ConsumeMFASession(mfaSession);
      if user.None? {
        return Unauthorized;
      }
      var id := Parse(user.value);
      if id.None? {
        return ServerError;
      }
      var u := users.FindByID(id.value);
      if u.None? || !crypto.totpValid(code, u.value.totpSecret) {
        return Unauthorized;
      }
      r := SignIn(id.value, draw);
    }

    /** Tries the unused codes in the order listed and stops at the first that accepts. */
    method Recovery(mfaSession: string, code: string, draw: Draw) returns (r: Response, ghost listing: seq<Uuid>)
      requires Wired()
      modifies users.session, tokens.redis
      ensures Wired() && (Here(), r) == F.Recovery(old(Here()), crypto, mfaSession, code, listing, draw)
      ensures var user := Consume(old(tokens.redis.typed), MfaSession(mfaSession)).1;
              mfaSession != "" && code != "" && user.Some? && Parse(user.value).Some?
              ==> F.ListsUnused(old(users.session.Tables()), Parse(user.value).value, listing)
    {
      listing := [];
      if mfaSession == "" || code == "" {
        return BadRequest, listing;
      }
      var user := tokens.ConsumeMFASession(mfaSession);
      if user.None? {
        return Unauthorized, listing;
      }
      var parsed := Parse(user.value);
      if parsed.None? {
        return ServerError, listing;
      }
      var id := parsed.value;
      var unused := codes.ListUnused(id);
      listing := Ids(unused);
      var matched := FindMatch(code, unused, CodesOf(users.session.Tables(), id));
      if matched.None? {
        return Unauthorized, listing;
      }
      codes.MarkUsed(id, matched.value);
      var u := users.FindByID(id);
      if u.None? {
        return ServerError, listing;
      }
      users.UpdateTOTP(id, u.value.totpSecret, false);
      r := SignIn(id, draw);
    }

    /** Compares the text with one listed hash after the other. */
    method FindMatch(code: string, unused: seq<UnusedCode>, ghost codes: map<Uuid, RecoveryCode>)
      returns (matched: Option<Uuid>)
      requires ListsWithHashes(unused, codes)
      ensures matched == F.FirstMatch(crypto, codes, code, Ids(unused))
    {
      hide Crypto.Accepts;
      ghost var ids := Ids(unused);
      matched := None;
      assert ids[0..] == ids;
      for i := 0 to |unused|
        invariant F.FirstMatch(crypto, codes, code, ids) == F.FirstMatch(crypto, codes, code, ids[i..])
      {
        assert ids[i..][1..] == ids[i + 1..] && ids[i] == unused[i].id;
        if crypto.Accepts(code, unused[i].hash) {
          matched := Some(unused[i].id);
          break;
        }
      }
    }
  }

  class OAuthHandlers {
    const clients: ClientRepository
    const consents: ConsentRepository
    const users: Repository
    const tokens: TokenStore
    const crypto: Crypto

    constructor (clients: ClientRepository, consents: ConsentRepository, users: Repository, tokens: TokenStore,
                 crypto: Crypto)
      ensures this.clients == clients && this.consents == consents && this.users == users
      ensures this.tokens == tokens && this.crypto == crypto
    {
      this.clients, this.consents, this.users, this.tokens := clients, consents, users, tokens;
      this.crypto := crypto;
    }

    ghost predicate Wired()
      reads tokens.redis
    {
      clients.session == users.session && consents.session == users.session && tokens.redis.Ready()
    }

    ghost function Here(): World
      reads users.session, tokens.redis
    {
      World(tokens.redis.typed, users.session.Tables())
    }

    method ValidRedirectURI(allowed: seq<string>, uri: string) returns (ok: bool)
      ensures ok == A.ValidRedirectURI(allowed, uri)
    {
      for i := 0 to |allowed|
        invariant uri !in allowed[..i]
      {
        if allowed[i] == uri {
          return true;
        }
      }
      return false;
    }

    method IssueAuthCode(code: string, grant: Grant)
      requires Wired()
      modifies tokens.redis
      ensures Wired() && Here() == A.IssueAuthCode(old(Here()), code, grant)
    {
      var _ := tokens.redis.Do(Set(PREFIX_OAUTH_CODE + code, Code(grant), AUTH_CODE_TTL),
                               Set(OAuthCode(code), Code(grant), AUTH_CODE_TTL));
    }

    method SessionUser(session: string) returns (user: Option<string>)
      requires Wired()
      modifies tokens.redis
      ensures Wired() && Here() == old(Here()) && user == A.SessionUser(Here(), session)
    {
      if session == "" {
        return None;
      }
      user := tokens.LookupSessionToken(session);
    }

    method Authorize(session: string, q: A.AuthorizeRequest, draw: Draw) returns (r: Response)
      requires Wired()
      modifies tokens.redis
      ensures Wired() && (Here(), r) == A.Authorize(old(Here()), session, q, draw)
    {
      var user := SessionUser(session);
      if q.responseType != "code" {
        return BadRequest;
      }
      var client := clients.FindByID(q.clientID);
      if client.None? {
        return InvalidClient;
      }
      var valid := ValidRedirectURI(client.value.redirectURIs, q.redirectURI);
      if !valid {
        return BadRequest;
      }
      if user.None? {
        return LoginRedirect;
      }
      var id := Parse(user.value);
      if id.None? {
        return ServerError;
      }
      var hasConsent := consents.HasConsent(id.value, q.clientID, q.scopes);
      if !hasConsent {
        return ConsentScreen;
      }
      if q.codeChallenge != "" && q.codeChallengeMethod != "S256" {
        return BadRequest;
      }
      IssueAuthCode(draw.token, A.GrantFor(user.value, q));
      r := CodeIssued(draw.token);
    }

    method Consent(session: string, q: A.AuthorizeRequest, draw: Draw) returns (r: Response)
      requires Wired()
      modifies users.session, tokens.redis
      ensures Wired() && (Here(), r) == A.Consent(old(Here()), session, q, draw)
    {
      var user := SessionUser(session);
      if user.None? {
        return Unauthorized;
      }
      consents.StoreConsent(A.IdOrNil(user.value), q.clientID, q.scopes);
      IssueAuthCode(draw.token, A.GrantFor(user.value, q));
      r := CodeIssued(draw.token);
    }

    method HandleAuthCode(q: A.TokenRequest) returns (r: Response)
      requires Wired()
      modifies tokens.redis
      ensures Wired() && (Here(), r) == A.Exchange(old(Here()), crypto, q)
    {
      var reply := tokens.redis.Do(GetDel(PREFIX_OAUTH_CODE + q.code), GetDel(OAuthCode(q.code)));
      var grant := A.GrantReply(reply.value);
      if grant.None? {
        return InvalidGrant;
      }
      var g := grant.value;
      if g.clientID != q.clientID || g.redirectURI != q.redirectURI {
        return InvalidGrant;
      }
      if g.codeChallenge != "" {
        if q.codeVerifier == "" {
          return InvalidGrant;
        }
        if !A.VerifyPKCE(crypto, q.codeVerifier, g.codeChallenge) {
          return InvalidGrant;
        }
      }
      var id := Parse(g.userID);
      if id.None? {
        return ServerError;
      }
      var u := users.FindByID(id.value);
      if u.None? {
        return InvalidGrant;
      }
      r := AccessToken(id.value, q.clientID);
    }
  }
}
