/** Password login with lockout, refresh rotation, logout and password reset, each as one atomic step. */
module Login {
  import opened Common
  import opened Uuids
  import opened Keyspace
  import opened Keys
  import opened Tokens
  import opened UserTables
  import opened Worlds

  function IssueTokenPair(w: World, id: Uuid, draw: Draw): World {
    var stored := StoreRefresh(w.redis, draw.token, ToString(id), REFRESH_TOKEN_TTL);
    w.(redis := SetText(stored, SsoSession(draw.session), ToString(id), SESSION_TOKEN_TTL))
  }

  predicate IsLocked(u: User, now: Time) {
    u.lockedUntil.Some? && now < u.lockedUntil.value
  }

  /** The counter decides; the row copies its value, and every write below the threshold clears the lock. */
  function FailedAttempt(w: World, id: Uuid): World {
    var (redis, reply) := HitCounter(w.redis, LoginAttempts(ToString(id)), LOGIN_ATTEMPT_WINDOW);
    if !reply.Integer? then w.(redis := redis)
    else
      var lock := if reply.n >= MAX_LOGIN_ATTEMPTS then Some(w.redis.now + LOCKOUT_DURATION) else None;
      World(redis, UpdateFailedAttempts(w.db, id, reply.n, lock))
  }

  function ClearAttempts(w: World, id: Uuid, u: User): World {
    World(Drop(w.redis, LoginAttempts(ToString(id))),
          if u.failedAttempts > 0 then UpdateFailedAttemptsReset(w.db, id) else w.db)
  }

  function Login(w: World, crypto: Crypto, email: string, password: string, draw: Draw): (World, Response) {
    if email == "" || password == "" then (w, BadRequest)
    else
      match FindByEmail(w.db, email)
      case None => (w, Unauthorized)
      case Some((id, u)) =>
        if IsLocked(u, w.redis.now) then (w, Locked)
        else if !crypto.Accepts(password, u.passwordHash) then (FailedAttempt(w, id), Unauthorized)
        else
          var cleared := ClearAttempts(w, id, u);
          if u.totpEnabled then
            (cleared.(redis := SetText(cleared.redis, MfaSession(draw.token), ToString(id), MFA_SESSION_TTL)),
             MfaRequired(draw.token))
          else (IssueTokenPair(cleared, id, draw), SignedIn(id, draw.token))
  }

  function Refresh(w: World, token: string, draw: Draw): (World, Response) {
    var (redis, user) := ConsumeRefresh(w.redis, token);
    var consumed := w.(redis := redis);
    match user
    case None => (consumed, Unauthorized)
    case Some(text) =>
      match Parse(text)
      case None => (consumed, ServerError)
      case Some(id) =>
        if FindByID(w.db, id).None? then (consumed, Unauthorized)
        else (IssueTokenPair(consumed, id, draw), SignedIn(id, draw.token))
  }

  /** Idempotent: a missing or dead cookie is not an error. */
  function Logout(w: World, refreshCookie: string, sessionCookie: string): (World, Response) {
    var redis1 := if refreshCookie == "" then w.redis else ConsumeRefresh(w.redis, refreshCookie).0;
    var redis2 := if sessionCookie == "" then redis1 else Drop(redis1, SsoSession(sessionCookie));
    (w.(redis := redis2), Accepted200)
  }

  /** The subject of a verified access token, if there is one. */
  function LogoutAll(w: World, subject: Option<string>): (World, Response) {
    (if subject.None? then w else w.(redis := RevokeAll(w.redis, subject.value)), Accepted200)
  }

  function ResetRequest(w: World, email: string, draw: Draw): (World, Response) {
    match FindByEmail(w.db, email)
    case None => (w, Accepted200)
    case Some((id, _)) =>
      (w.(redis := SetText(w.redis, PwdReset(draw.token), ToString(id), PASSWORD_RESET_TTL)), Accepted200)
  }

  function Reset(w: World, crypto: Crypto, token: string, password: string, draw: Draw): (World, Response) {
    if token == "" then (w, BadRequest)
    else if !crypto.policyOk(password) then (w, WeakPassword)
    else
      var (redis, user) := Consume(w.redis, PwdReset(token));
      match user
      case None => (w.(redis := redis), BadRequest)
      case Some(text) =>
        match Parse(text)
        case None => (w.(redis := redis), ServerError)
        case Some(id) =>
          (World(RevokeAll(redis, text), UpdatePassword(w.db, id, crypto.Hash(password, draw.salt))), Accepted200)
  }
}

/** Account creation: registration, email verification and Google sign-in. */
module SignUp {
  import opened Common
  import opened Uuids
  import opened Keyspace
  import opened Keys
  import opened Tokens
  import opened UserTables
  import opened Worlds

  function Register(w: World, crypto: Crypto, email: string, password: string, draw: Draw): (World, Response) {
    if email == "" then (w, BadRequest)
    else if !crypto.policyOk(password) then (w, WeakPassword)
    else
      var u := NULL_ROW.(email := email, passwordHash := crypto.Hash(password, draw.salt));
      var (db, err) := Create(w.db, draw.id, u);
      if err.Some? then (w, Created201)
      else
        (World(SetText(w.redis, EmailVerify(draw.token), ToString(draw.id), EMAIL_VERIFY_TTL), db), Created201)
  }

  function VerifyEmail(w: World, token: string): (World, Response) {
    if token == "" then (w, BadRequest)
    else
      var (redis, user) := Consume(w.redis, EmailVerify(token));
      match user
      case None => (w.(redis := redis), BadRequest)
      case Some(text) =>
        match Parse(text)
        case None => (w.(redis := redis), ServerError)
        case Some(id) => (World(redis, SetEmailVerified(w.db, id)), Accepted200)
  }

  function ResendVerification(w: World, email: string, draw: Draw): (World, Response) {
    match FindByEmail(w.db, email)
    case None => (w, Accepted200)
    case Some((id, u)) =>
      if u.emailVerified then (w, Accepted200)
      else (w.(redis := SetText(w.redis, EmailVerify(draw.token), ToString(id), EMAIL_VERIFY_TTL)), Accepted200)
  }

  function GoogleRedirect(w: World, returnTo: string, draw: Draw): (World, Response) {
    (w.(redis := SetText(w.redis, OAuthState(draw.token), returnTo, STATE_TTL)), Accepted200)
  }

  /** Claims of a Google ID token whose signature and audience have been checked. */
  datatype Claims = Claims(sub: string, email: string, emailVerified: bool)

  /** What the exchange of the authorization code with Google came to. */
  datatype IdToken = Missing | Unverified | Unreadable | Verified(value: Claims)

  const GOOGLE := "google"

  function FindOrCreateUser(db: Db, email: string, verified: bool, draw: Draw): (Db, Uuid) {
    match FindByEmail(db, email)
    case Some((id, _)) => (db, id)
    case None => (Create(db, draw.id, NULL_ROW.(email := email, emailVerified := verified)).0, draw.id)
  }

  function GoogleCallback(w: World, state: string, claims: IdToken, draw: Draw): (World, Response) {
    var (redis, found) := Consume(w.redis, OAuthState(state));
    var consumed := w.(redis := redis);
    if found.None? then (consumed, BadRequest)
    else
      match claims
      case Missing => (consumed, BadRequest)
      case Unverified => (consumed, Unauthorized)
      case Unreadable => (consumed, ClaimsUnreadable)
      case Verified(c) =>
        if c.email == "" then (consumed, BadRequest)
        else
          var (db, id) := FindOrCreateUser(w.db, c.email, c.emailVerified, draw);
          (World(StoreRefresh(redis, draw.token, ToString(id), REFRESH_TOKEN_TTL),
                 UpsertIdentity(db, id, GOOGLE, c.sub, c.email)),
           SignedIn(id, draw.token))
  }
}
