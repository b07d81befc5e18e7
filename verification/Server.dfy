/**
 Granularity: handler atomic. The whole server as a machine whose steps are complete requests, in any order and
 number, with any arguments; random draws are fresh. What every reachable state satisfies is proved here.
 */
module Server {
  import opened Common
  import opened Uuids
  import opened Keyspace
  import opened Keys
  import opened Tokens
  import opened UserTables
  import opened Worlds
  import L = Login
  import U = SignUp
  import F = SecondFactor
  import A = Authorization

  /** Emails are as typed. */
  datatype Request =
    | Register(email: string, password: string, draw: Draw)
    | VerifyEmail(token: string)
    | ResendVerification(email: string, draw: Draw)
    | Login(email: string, password: string, draw: Draw)
    | Rotate(token: string, draw: Draw)
    | Logout(refreshCookie: string, sessionCookie: string)
    | LogoutAll(subject: Option<string>)
    | ResetRequest(email: string, draw: Draw)
    | Reset(token: string, password: string, draw: Draw)
    | Enroll(subject: Option<string>, enrolment: F.Enrolment)
    | Confirm(subject: Option<string>, code: string)
    | Verify(mfaSession: string, code: string, draw: Draw)
    | Recovery(mfaSession: string, code: string, listing: seq<Uuid>, draw: Draw)
    | GoogleRedirect(returnTo: string, draw: Draw)
    | GoogleCallback(state: string, claims: U.IdToken, draw: Draw)
    | Authorize(session: string, query: A.AuthorizeRequest, draw: Draw)
    | Consent(session: string, query: A.AuthorizeRequest, draw: Draw)
    | Exchange(form: A.TokenRequest)
    | RateHit(rateKey: Key, window: Time)
    | NewClient(clientID: string, client: Client)
    | Elapse(d: Time)

  /** drawn and ids remember every random token and user id ever handed to a request. */
  datatype State = State(world: World, drawn: set<string>, ids: set<Uuid>)

  function Init(): State {
    State(World(Store(0, map[]), Db(map[], map[], map[], map[], map[], map[])), {}, {})
  }

  function DrawOf(r: Request): Option<Draw> {
    match r
    case Register(_, _, d) => Some(d)
    case ResendVerification(_, d) => Some(d)
    case Login(_, _, d) => Some(d)
    case Rotate(_, d) => Some(d)
    case ResetRequest(_, d) => Some(d)
    case Reset(_, _, d) => Some(d)
    case Verify(_, _, d) => Some(d)
    case Recovery(_, _, _, d) => Some(d)
    case GoogleRedirect(_, d) => Some(d)
    case GoogleCallback(_, _, d) => Some(d)
    case Authorize(_, _, d) => Some(d)
    case Consent(_, _, d) => Some(d)
    case _ => None
  }

  /** Random draws are new, the database lists the unused codes it has, and limiter keys are limiter keys. */
  ghost predicate Allowed(s: State, r: Request) {
    && (DrawOf(r).Some? ==>
          var d := DrawOf(r).value;
          d.token !in s.drawn && d.session !in s.drawn && d.token != d.session && d.id !in s.ids)
    && (r.Enroll? ==>
          r.enrolment.Complete()
          && forall i, j :: 0 <= i < j < |r.enrolment.ids| ==> r.enrolment.ids[i] != r.enrolment.ids[j])
    && (r.Recovery? ==>
          forall id: Uuid :: Consume(s.world.redis, MfaSession(r.mfaSession)).1 == Some(ToString(id))
            ==> F.ListsUnused(s.world.db, id, r.listing))
    && (r.RateHit? ==> r.rateKey.IpRate? || r.rateKey.EmailIpRate?)
  }

  function Serve(w: World, crypto: Crypto, r: Request): (World, Response)
    requires r.Enroll? ==> r.enrolment.Complete()
  {
    match r
    case Register(email, password, draw) => U.Register(w, crypto, crypto.normalizeEmail(email), password, draw)
    case VerifyEmail(token) => U.VerifyEmail(w, token)
    case ResendVerification(email, draw) => U.ResendVerification(w, crypto.normalizeEmail(email), draw)
    case Login(email, password, draw) => L.Login(w, crypto, crypto.normalizeEmail(email), password, draw)
    case Rotate(token, draw) => L.Refresh(w, token, draw)
    case Logout(refresh, session) => L.Logout(w, refresh, session)
    case LogoutAll(subject) => L.LogoutAll(w, subject)
    case ResetRequest(email, draw) => L.ResetRequest(w, crypto.normalizeEmail(email), draw)
    case Reset(token, password, draw) => L.Reset(w, crypto, token, password, draw)
    case Enroll(subject, e) => F.Enroll(w, crypto, subject, e)
    case Confirm(subject, code) => F.Confirm(w, crypto, subject, code)
    case Verify(session, code, draw) => F.Verify(w, crypto, session, code, draw)
    case Recovery(session, code, listing, draw) => F.Recovery(w, crypto, session, code, listing, draw)
    case GoogleRedirect(returnTo, draw) => U.GoogleRedirect(w, returnTo, draw)
    case GoogleCallback(state, claims, draw) => U.GoogleCallback(w, state, claims, draw)
    case Authorize(session, q, draw) => A.Authorize(w, session, q, draw)
    case Consent(session, q, draw) => A.Consent(w, session, q, draw)
    case Exchange(q) => A.Exchange(w, crypto, q)
    case RateHit(k, window) => (w.(redis := HitCounter(w.redis, k, window).0), Accepted200)
    case NewClient(id, c) => (w.(db := w.db.(clients := w.db.clients[id := c])), Created201)
    case Elapse(d) => (w.(redis := Advance(w.redis, d)), Accepted200)
  }

  ghost function Step(s: State, crypto: Crypto, r: Request): State {
    if !Allowed(s, r) then s
    else
      var d := DrawOf(r);
      State(Serve(s.world, crypto, r).0,
            s.drawn + if d.Some? then {d.value.token, d.value.session} else {},
            s.ids + if d.Some? then {d.value.id} else {})
  }

  ghost function Run(s: State, crypto: Crypto, rs: seq<Request>): State
    decreases |rs|
  {
    if rs == [] then s else Run(Step(s, crypto, rs[0]), crypto, rs[1..])
  }

  // ----- what every reachable state satisfies

  /** The text names a row of the users table, in the one spelling the server writes. */
  ghost predicate NamesUser(users: set<Uuid>, text: string) {
    exists id :: id in users && ToString(id) == text
  }

  ghost predicate EntryOk(users: set<Uuid>, k: Key, v: Value) {
    match k
    case EmailVerify(_) => v.Text? && NamesUser(users, v.text)
    case PwdReset(_) => v.Text? && NamesUser(users, v.text)
    case Refresh(_) => v.Text? && NamesUser(users, v.text)
    case MfaSession(_) => v.Text? && NamesUser(users, v.text)
    case SsoSession(_) => v.Text? && NamesUser(users, v.text)
    case OAuthCode(_) => v.Code? && NamesUser(users, v.grant.userID)
    case LoginAttempts(user) => v.Count? && v.count >= 1 && NamesUser(users, user)
    case _ => true
  }

  /** The per-user index lists every stored refresh token of that user, and no one else's. */
  ghost predicate IndexExact(s: Store<Key>, drawn: set<string>) {
    && (forall t :: Refresh(t) in s.data ==>
          t in drawn && s.data[Refresh(t)].value.Text? && t in IndexedTokens(s, s.data[Refresh(t)].value.text))
    && (forall u, t :: t in IndexedTokens(s, u) ==>
          t in drawn && (Refresh(t) in s.data ==> s.data[Refresh(t)].value == Text(u)))
  }

  ghost predicate RedisOk(s: Store<Key>, users: set<Uuid>, drawn: set<string>) {
    WellTyped(s) && IndexExact(s, drawn) && forall k :: k in s.data ==> EntryOk(users, k, s.data[k].value)
  }

  ghost predicate DbOk(db: Db, ids: set<Uuid>) {
    && IndexAgrees(db)
    && db.users.Keys <= ids
    && forall id :: id in db.users ==>
         db.users[id].failedAttempts >= 0 && (db.users[id].lockedUntil.Some? ==> db.users[id].failedAttempts > 0)
  }

  ghost predicate WorldOk(w: World, drawn: set<string>, ids: set<Uuid>) {
    RedisOk(w.redis, w.db.users.Keys, drawn) && DbOk(w.db, ids)
  }

  ghost predicate Inv(s: State) {
    WorldOk(s.world, s.drawn, s.ids)
  }

  // ----- Redis operations

  lemma NamedUserParses(users: set<Uuid>, text: string)
    requires NamesUser(users, text)
    ensures Parse(text).Some? && Parse(text).value in users && ToString(Parse(text).value) == text
  {
    var id :| id in users && ToString(id) == text;
    ParseToString(id);
  }

  lemma RowIsNamed(users: set<Uuid>, id: Uuid)
    requires id in users
    ensures NamesUser(users, ToString(id))
  {
  }

  lemma RedisOkGrows(s: Store<Key>, users: set<Uuid>, drawn: set<string>, users2: set<Uuid>, drawn2: set<string>)
    requires RedisOk(s, users, drawn) && users <= users2 && drawn <= drawn2
    ensures RedisOk(s, users2, drawn2)
  {
  }

  /** Any command that stays away from refresh tokens and their index. */
  lemma OtherKeyKeeps(s: Store<Key>, users: set<Uuid>, drawn: set<string>, c: Command<Key>)
    requires RedisOk(s, users, drawn) && CommandFits(c) && !c.key.Refresh? && !c.key.UserSessions?
    requires c.Set? ==> EntryOk(users, c.key, c.value)
    requires c.Hit? && c.key.LoginAttempts? ==> NamesUser(users, c.key.user)
    ensures RedisOk(Exec(s, c).0, users, drawn)
  {
    hide NamesUser, EntryOk, ValueFits;
    var s1 := Exec(s, c).0;
    OwnKeyFits(s, users, drawn, c);
    FittingCommand(s, c);
    OtherKeyFrame(s, c);
    forall k | k in s1.data ensures EntryOk(users, k, s1.data[k].value) {
      if k != c.key {
        assert EntryOk(users, k, s.data[k].value);
      }
    }
    hide Exec, IndexedTokens, WellTyped;
  }

  lemma OtherKeyFrame(s: Store<Key>, c: Command<Key>)
    requires !c.key.UserSessions?
    ensures var s1 := Exec(s, c).0;
            && (forall k :: k != c.key ==> (k in s1.data <==> k in s.data) && (k in s.data ==> s1.data[k] == s.data[k]))
            && forall u :: IndexedTokens(s1, u) == IndexedTokens(s, u)
  {
    var s1 := Exec(s, c).0;
    forall k | k != c.key ensures k in s1.data <==> k in s.data
                          ensures k in s.data ==> s1.data[k] == s.data[k] {
      ExecFrame(s, c, k);
    }
    forall u ensures IndexedTokens(s1, u) == IndexedTokens(s, u) {
      ExecFrame(s, c, UserSessions(u));
    }
  }

  lemma OwnKeyFits(s: Store<Key>, users: set<Uuid>, drawn: set<string>, c: Command<Key>)
    requires RedisOk(s, users, drawn) && CommandFits(c) && !c.key.Refresh? && !c.key.UserSessions?
    requires c.Set? ==> EntryOk(users, c.key, c.value)
    requires c.Hit? && c.key.LoginAttempts? ==> NamesUser(users, c.key.user)
    ensures var s1 := Exec(s, c).0;
            c.key in s1.data ==> EntryOk(users, c.key, s1.data[c.key].value) && ValueFits(c.key, s1.data[c.key].value)
  {
  }

  lemma SetTextKeeps(s: Store<Key>, users: set<Uuid>, drawn: set<string>, k: Key, id: Uuid, ttl: Time)
    requires RedisOk(s, users, drawn) && id in users
    requires k.EmailVerify? || k.PwdReset? || k.MfaSession? || k.SsoSession?
    ensures RedisOk(SetText(s, k, ToString(id), ttl), users, drawn)
  {
    RowIsNamed(users, id);
    OtherKeyKeeps(s, users, drawn, Set(k, Text(ToString(id)), ttl));
  }

  lemma ConsumeKeeps(s: Store<Key>, users: set<Uuid>, drawn: set<string>, k: Key)
    requires RedisOk(s, users, drawn) && !k.Refresh? && !k.UserSessions?
    ensures RedisOk(Consume(s, k).0, users, drawn)
    ensures !k.OAuthState? && Consume(s, k).1.Some? ==> NamesUser(users, Consume(s, k).1.value)
  {
    hide NamesUser;
    OtherKeyKeeps(s, users, drawn, GetDel(k));
    if k in s.data {
      assert EntryOk(users, k, s.data[k].value);
    }
  }

  lemma DropKeeps(s: Store<Key>, users: set<Uuid>, drawn: set<string>, k: Key)
    requires RedisOk(s, users, drawn) && !k.Refresh? && !k.UserSessions?
    ensures RedisOk(Drop(s, k), users, drawn)
  {
    hide NamesUser;
    OtherKeyKeeps(s, users, drawn, Del(k));
  }

  lemma StoreRefreshShape(s: Store<Key>, token: string, u: string, ttl: Time)
    requires WellTyped(s)
    ensures StoreRefresh(s, token, u, ttl)
         == s.(data := s.data[Refresh(token) := Entry(Text(u), At(s.now + ttl))]
                             [UserSessions(u) := Entry(Members(IndexedTokens(s, u) + {token}), Never)])
  {
    hide NamesUser;
    ExecAllShort(s, Set(Refresh(token), Text(u), ttl), SAdd(UserSessions(u), token));
    var s1 := Put(s, Refresh(token), Text(u), At(s.now + ttl));
    assert Lookup(s1, UserSessions(u)) == Lookup(s, UserSessions(u));
    assert UserSessions(u) in s.data ==> Live(s, UserSessions(u)) && s.data[UserSessions(u)].value.Members?;
    if UserSessions(u) !in s.data {
      assert IndexedTokens(s, u) + {token} == {token};
    }
    assert Exec(s1, SAdd(UserSessions(u), token)).0
        == Put(s1, UserSessions(u), Members(IndexedTokens(s, u) + {token}), Never);
  }

  lemma StoreRefreshKeeps(s: Store<Key>, users: set<Uuid>, drawn: set<string>, token: string, id: Uuid)
    requires RedisOk(s, users, drawn) && id in users && token !in drawn
    ensures RedisOk(StoreRefresh(s, token, ToString(id), REFRESH_TOKEN_TTL), users, drawn + {token})
  {
    RowIsNamed(users, id);
    hide NamesUser, ToString, StoreRefresh;
    StoreRefreshEntries(s, users, token, ToString(id));
    StoreRefreshExact(s, drawn, token, ToString(id));
    hide WellTyped, IndexExact;
  }

  lemma StoreRefreshEntries(s: Store<Key>, users: set<Uuid>, token: string, u: string)
    requires WellTyped(s) && (forall k :: k in s.data ==> EntryOk(users, k, s.data[k].value)) && NamesUser(users, u)
    ensures var s2 := StoreRefresh(s, token, u, REFRESH_TOKEN_TTL);
            WellTyped(s2) && forall k :: k in s2.data ==> EntryOk(users, k, s2.data[k].value)
  {
    hide NamesUser, StoreRefresh, IndexedTokens;
    StoreRefreshShape(s, token, u, REFRESH_TOKEN_TTL);
  }

  lemma StoreRefreshExact(s: Store<Key>, drawn: set<string>, token: string, u: string)
    requires WellTyped(s) && IndexExact(s, drawn) && token !in drawn
    ensures IndexExact(StoreRefresh(s, token, u, REFRESH_TOKEN_TTL), drawn + {token})
  {
    hide StoreRefresh;
    var s2 := StoreRefresh(s, token, u, REFRESH_TOKEN_TTL);
    StoreRefreshShape(s, token, u, REFRESH_TOKEN_TTL);
    forall v ensures IndexedTokens(s2, v) == IndexedTokens(s, v) + if v == u then {token} else {} {
    }
    hide IndexedTokens, WellTyped;
  }

  /** What consuming one token leaves, described without the commands. */
  lemma ConsumeRefreshShape(s: Store<Key>, token: string)
    requires WellTyped(s)
    ensures var (s2, user) := ConsumeRefresh(s, token);
            && s2.now == s.now && WellTyped(s2) && Refresh(token) !in s2.data
            && (user == if Live(s, Refresh(token)) then Some(s.data[Refresh(token)].value.text) else None)
            && (forall k :: k != Refresh(token) && !(user.Some? && k == UserSessions(user.value))
                  ==> (k in s2.data <==> k in s.data) && (k in s.data ==> s2.data[k] == s.data[k]))
            && (user.Some? ==> IndexedTokens(s2, user.value) == IndexedTokens(s, user.value) - {token})
  {
    hide NamesUser;
    var u := Consume(s, Refresh(token)).1.GetOr("");
    ExecAllShort(s, GetDel(Refresh(token)), SRem(UserSessions(u), token));
  }

  /** The index stays exact when one token leaves the store and leaves at most its owner's list. */
  lemma IndexExactAfterRemoval(s: Store<Key>, s2: Store<Key>, drawn: set<string>, token: string, owner: Option<string>)
    requires IndexExact(s, drawn) && Refresh(token) !in s2.data
    requires forall t :: t != token ==> (Refresh(t) in s2.data <==> Refresh(t) in s.data)
                                        && (Refresh(t) in s.data ==> s2.data[Refresh(t)] == s.data[Refresh(t)])
    requires forall v :: IndexedTokens(s2, v) == IndexedTokens(s, v) - if owner == Some(v) then {token} else {}
    ensures IndexExact(s2, drawn)
  {
  }

  lemma ConsumeRefreshKeeps(s: Store<Key>, users: set<Uuid>, drawn: set<string>, token: string)
    requires RedisOk(s, users, drawn)
    ensures RedisOk(ConsumeRefresh(s, token).0, users, drawn)
    ensures ConsumeRefresh(s, token).1.Some? ==> NamesUser(users, ConsumeRefresh(s, token).1.value)
  {
    var (s2, user) := ConsumeRefresh(s, token);
    ConsumeRefreshShape(s, token);
    hide ConsumeRefresh, NamesUser, WellTyped;
    forall k | k in s2.data ensures EntryOk(users, k, s2.data[k].value) {
      if k in s.data {
        assert EntryOk(users, k, s.data[k].value);
      }
    }
    if user.Some? {
      assert EntryOk(users, Refresh(token), s.data[Refresh(token)].value);
    }
    IndexExactAfterRemoval(s, s2, drawn, token, user);
  }

  /**
   Full revocation: afterwards no refresh token of the user exists, expired or not; every other user's tokens and
   every key of any other kind are as before. Only the user's own index goes with the tokens.
   */
  lemma RevokeAllExact(s: Store<Key>, users: set<Uuid>, drawn: set<string>, user: string)
    requires RedisOk(s, users, drawn)
    ensures RedisOk(RevokeAll(s, user), users, drawn)
    ensures forall k :: k in RevokeAll(s, user).data
              <==> k in s.data && k != UserSessions(user) && !(k.Refresh? && s.data[k].value == Text(user))
    ensures forall k :: k in RevokeAll(s, user).data ==> RevokeAll(s, user).data[k] == s.data[k]
  {
    hide NamesUser;
    var after := RevokeAll(s, user);
    forall k | k in s.data && k.Refresh?
      ensures k in RefreshKeys(IndexedTokens(s, user)) <==> s.data[k].value == Text(user)
    {
      assert k == Refresh(k.token) && s.data[k].value.Text?;
    }
    forall v ensures IndexedTokens(after, v) == if v == user then {} else IndexedTokens(s, v) {
    }
    forall k | k in after.data ensures EntryOk(users, k, after.data[k].value) {
      assert EntryOk(users, k, s.data[k].value);
    }
  }

  lemma AdvanceKeeps(s: Store<Key>, users: set<Uuid>, drawn: set<string>, d: Time)
    requires RedisOk(s, users, drawn)
    ensures RedisOk(Advance(s, d), users, drawn)
  {
    hide NamesUser;
    var after := Advance(s, d);
    forall v ensures IndexedTokens(after, v) == IndexedTokens(s, v) {
      assert UserSessions(v) in s.data ==> s.data[UserSessions(v)].expiry.Never?;
    }
    forall k | k in after.data ensures EntryOk(users, k, after.data[k].value) {
      assert EntryOk(users, k, s.data[k].value);
    }
  }

  // ----- table operations

  /** Updating an existing row, without touching its email, and never leaving a lock without a failure count. */
  lemma UpsertKeeps(db: Db, ids: set<Uuid>, id: Uuid, u: User)
    requires DbOk(db, ids) && id in db.users && u.email == db.users[id].email
    requires u.failedAttempts >= 0 && (u.lockedUntil.Some? ==> u.failedAttempts > 0)
    ensures DbOk(Upsert(db, id, u), ids) && Upsert(db, id, u).users.Keys == db.users.Keys
  {
    UpsertKeepsIndex(db, id, u);
  }

  lemma CreateKeeps(db: Db, ids: set<Uuid>, id: Uuid, u: User)
    requires DbOk(db, ids) && id !in ids && u.lockedUntil.None? && u.failedAttempts == 0
    ensures DbOk(Create(db, id, u).0, ids + {id})
    ensures Create(db, id, u).0.users.Keys
         == db.users.Keys + if Create(db, id, u).1.None? then {id} else {}
  {
    CreateKeepsIndex(db, id, u);
  }

  lemma DbOkGrows(db: Db, ids: set<Uuid>, ids2: set<Uuid>)
    requires DbOk(db, ids) && ids <= ids2
    ensures DbOk(db, ids2)
  {
  }

  lemma WorldOkGrows(w: World, drawn: set<string>, ids: set<Uuid>, drawn2: set<string>, ids2: set<Uuid>)
    requires WorldOk(w, drawn, ids) && drawn <= drawn2 && ids <= ids2
    ensures WorldOk(w, drawn2, ids2)
  {
  }

  // ----- handlers

  ghost predicate FreshDraw(d: Draw, drawn: set<string>, ids: set<Uuid>) {
    d.token !in drawn && d.session !in drawn && d.token != d.session && d.id !in ids
  }

  /** The world is fine once the request's draws count as used. */
  ghost predicate OkAfter(w: World, d: Draw, drawn: set<string>, ids: set<Uuid>) {
    WorldOk(w, drawn + {d.token, d.session}, ids + {d.id})
  }

  lemma UnchangedOk(w: World, d: Draw, drawn: set<string>, ids: set<Uuid>)
    requires WorldOk(w, drawn, ids)
    ensures OkAfter(w, d, drawn, ids)
  {
  }

  lemma StoreRefreshOk(w: World, id: Uuid, d: Draw, drawn: set<string>, ids: set<Uuid>)
    requires WorldOk(w, drawn, ids) && id in w.db.users && d.token !in drawn
    ensures WorldOk(w.(redis := StoreRefresh(w.redis, d.token, ToString(id), REFRESH_TOKEN_TTL)),
                    drawn + {d.token}, ids)
    ensures OkAfter(w.(redis := StoreRefresh(w.redis, d.token, ToString(id), REFRESH_TOKEN_TTL)), d, drawn, ids)
  {
    StoreRefreshKeeps(w.redis, w.db.users.Keys, drawn, d.token, id);
    var w2 := w.(redis := StoreRefresh(w.redis, d.token, ToString(id), REFRESH_TOKEN_TTL));
    WorldOkGrows(w2, drawn + {d.token}, ids, drawn + {d.token, d.session}, ids + {d.id});
  }

  lemma IssueTokenPairOk(w: World, id: Uuid, d: Draw, drawn: set<string>, ids: set<Uuid>)
    requires WorldOk(w, drawn, ids) && id in w.db.users && FreshDraw(d, drawn, ids)
    ensures OkAfter(L.IssueTokenPair(w, id, d), d, drawn, ids)
  {
    StoreRefreshOk(w, id, d, drawn, ids);
    var stored := w.(redis := StoreRefresh(w.redis, d.token, ToString(id), REFRESH_TOKEN_TTL));
    SetTextKeeps(stored.redis, w.db.users.Keys, drawn + {d.token, d.session}, SsoSession(d.session), id,
                 SESSION_TOKEN_TTL);
  }

  lemma SetTextOk(w: World, k: Key, id: Uuid, ttl: Time, d: Draw, drawn: set<string>, ids: set<Uuid>)
    requires WorldOk(w, drawn, ids) && id in w.db.users
    requires k.EmailVerify? || k.PwdReset? || k.MfaSession? || k.SsoSession?
    ensures OkAfter(w.(redis := SetText(w.redis, k, ToString(id), ttl)), d, drawn, ids)
  {
    SetTextKeeps(w.redis, w.db.users.Keys, drawn, k, id, ttl);
    UnchangedOk(w.(redis := SetText(w.redis, k, ToString(id), ttl)), d, drawn, ids);
  }

  lemma ConsumeOk(w: World, k: Key, drawn: set<string>, ids: set<Uuid>)
    requires WorldOk(w, drawn, ids) && !k.Refresh? && !k.UserSessions?
    ensures WorldOk(w.(redis := Consume(w.redis, k).0), drawn, ids)
    ensures var user := Consume(w.redis, k).1;
            !k.OAuthState? && user.Some?
            ==> Parse(user.value).Some? && Parse(user.value).value in w.db.users
                && ToString(Parse(user.value).value) == user.value
  {
    ConsumeKeeps(w.redis, w.db.users.Keys, drawn, k);
    var user := Consume(w.redis, k).1;
    if !k.OAuthState? && user.Some? {
      NamedUserParses(w.db.users.Keys, user.value);
    }
  }

  lemma FailureRowKeeps(db: Db, ids: set<Uuid>, id: Uuid, attempts: int, lock: Option<Time>)
    requires DbOk(db, ids) && id in db.users && attempts > 0
    ensures DbOk(UpdateFailedAttempts(db, id, attempts, lock), ids)
    ensures UpdateFailedAttempts(db, id, attempts, lock).users.Keys == db.users.Keys
  {
    UpsertKeeps(db, ids, id, Row(db, id).(failedAttempts := attempts, lockedUntil := lock));
  }

  lemma FailureCountOk(s: Store<Key>, users: set<Uuid>, drawn: set<string>, k: Key)
    requires RedisOk(s, users, drawn) && k.LoginAttempts? && NamesUser(users, k.user)
    ensures var (after, reply) := HitCounter(s, k, LOGIN_ATTEMPT_WINDOW);
            RedisOk(after, users, drawn) && reply.Integer? && reply.n >= 1 && after.now == s.now
  {
    hide NamesUser;
    OtherKeyKeeps(s, users, drawn, Hit(k, LOGIN_ATTEMPT_WINDOW));
    if k in s.data {
      assert EntryOk(users, k, s.data[k].value);
    }
  }

  lemma FailedAttemptOk(w: World, id: Uuid, drawn: set<string>, ids: set<Uuid>)
    requires WorldOk(w, drawn, ids) && id in w.db.users
    ensures WorldOk(L.FailedAttempt(w, id), drawn, ids)
    ensures L.FailedAttempt(w, id).db.users.Keys == w.db.users.Keys
  {
    hide ToString, RedisOk, HitCounter, NamesUser;
    var key := LoginAttempts(ToString(id));
    RowIsNamed(w.db.users.Keys, id);
    FailureCountOk(w.redis, w.db.users.Keys, drawn, key);
    var reply := HitCounter(w.redis, key, LOGIN_ATTEMPT_WINDOW).1;
    var lock := if reply.n >= MAX_LOGIN_ATTEMPTS then Some(w.redis.now + LOCKOUT_DURATION) else None;
    FailureRowKeeps(w.db, ids, id, reply.n, lock);
    hide DbOk, UpdateFailedAttempts;
  }

  lemma ClearAttemptsOk(w: World, id: Uuid, drawn: set<string>, ids: set<Uuid>)
    requires WorldOk(w, drawn, ids) && id in w.db.users
    ensures WorldOk(L.ClearAttempts(w, id, w.db.users[id]), drawn, ids)
    ensures L.ClearAttempts(w, id, w.db.users[id]).db.users.Keys == w.db.users.Keys
  {
    DropKeeps(w.redis, w.db.users.Keys, drawn, LoginAttempts(ToString(id)));
    UpsertKeeps(w.db, ids, id, Row(w.db, id).(failedAttempts := 0, lockedUntil := None));
  }

  lemma LoginOk(w: World, crypto: Crypto, email: string, password: string, d: Draw, drawn: set<string>,
                ids: set<Uuid>)
    requires WorldOk(w, drawn, ids) && FreshDraw(d, drawn, ids)
    ensures OkAfter(L.Login(w, crypto, email, password, d).0, d, drawn, ids)
    ensures L.Login(w, crypto, email, password, d).1 != ServerError
  {
    hide WorldOk, RedisOk, DbOk, OkAfter, FreshDraw;
    hide L.FailedAttempt, L.ClearAttempts, L.IssueTokenPair, SetText;
    UnchangedOk(w, d, drawn, ids);
    var found := FindByEmail(w.db, email);
    if found.Some? {
      var (id, u) := found.value;
      FailedAttemptOk(w, id, drawn, ids);
      UnchangedOk(L.FailedAttempt(w, id), d, drawn, ids);
      ClearAttemptsOk(w, id, drawn, ids);
      var cleared := L.ClearAttempts(w, id, u);
      SetTextOk(cleared, MfaSession(d.token), id, MFA_SESSION_TTL, d, drawn, ids);
      IssueTokenPairOk(cleared, id, d, drawn, ids);
    }
  }

  lemma RefreshOk(w: World, token: string, d: Draw, drawn: set<string>, ids: set<Uuid>)
    requires WorldOk(w, drawn, ids) && FreshDraw(d, drawn, ids)
    ensures OkAfter(L.Refresh(w, token, d).0, d, drawn, ids) && L.Refresh(w, token, d).1 != ServerError
  {
    var (redis, user) := ConsumeRefresh(w.redis, token);
    var consumed := w.(redis := redis);
    ConsumeRefreshKeeps(w.redis, w.db.users.Keys, drawn, token);
    UnchangedOk(consumed, d, drawn, ids);
    if user.Some? {
      NamedUserParses(w.db.users.Keys, user.value);
      IssueTokenPairOk(consumed, Parse(user.value).value, d, drawn, ids);
    }
  }

  lemma LogoutOk(w: World, refreshCookie: string, sessionCookie: string, drawn: set<string>, ids: set<Uuid>)
    requires WorldOk(w, drawn, ids)
    ensures WorldOk(L.Logout(w, refreshCookie, sessionCookie).0, drawn, ids)
    ensures L.Logout(w, refreshCookie, sessionCookie).1 != ServerError
  {
    ConsumeRefreshKeeps(w.redis, w.db.users.Keys, drawn, refreshCookie);
    var redis1 := if refreshCookie == "" then w.redis else ConsumeRefresh(w.redis, refreshCookie).0;
    DropKeeps(redis1, w.db.users.Keys, drawn, SsoSession(sessionCookie));
  }

  lemma LogoutAllOk(w: World, subject: Option<string>, drawn: set<string>, ids: set<Uuid>)
    requires WorldOk(w, drawn, ids)
    ensures WorldOk(L.LogoutAll(w, subject).0, drawn, ids)
    ensures L.LogoutAll(w, subject).1 != ServerError
  {
    if subject.Some? {
      RevokeAllExact(w.redis, w.db.users.Keys, drawn, subject.value);
    }
  }

  lemma ResetRequestOk(w: World, email: string, d: Draw, drawn: set<string>, ids: set<Uuid>)
    requires WorldOk(w, drawn, ids)
    ensures OkAfter(L.ResetRequest(w, email, d).0, d, drawn, ids)
    ensures L.ResetRequest(w, email, d).1 != ServerError
  {
    UnchangedOk(w, d, drawn, ids);
    if FindByEmail(w.db, email).Some? {
      SetTextOk(w, PwdReset(d.token), FindByEmail(w.db, email).value.0, PASSWORD_RESET_TTL, d, drawn, ids);
    }
  }

  lemma ResetOk(w: World, crypto: Crypto, token: string, password: string, d: Draw, drawn: set<string>,
                ids: set<Uuid>)
    requires WorldOk(w, drawn, ids)
    ensures OkAfter(L.Reset(w, crypto, token, password, d).0, d, drawn, ids)
    ensures L.Reset(w, crypto, token, password, d).1 != ServerError
    ensures L.Reset(w, crypto, token, password, d).0.db.users.Keys == w.db.users.Keys
  {
    hide RedisOk, DbOk, NamesUser, ToString, Parse, Consume, RevokeAll, Crypto.Hash;
    UnchangedOk(w, d, drawn, ids);
    ConsumeOk(w, PwdReset(token), drawn, ids);
    var (redis, user) := Consume(w.redis, PwdReset(token));
    UnchangedOk(w.(redis := redis), d, drawn, ids);
    if user.Some? {
      var id := Parse(user.value).value;
      RevokeAllExact(redis, w.db.users.Keys, drawn, user.value);
      var hash := crypto.Hash(password, d.salt);
      var row := Row(w.db, id).(passwordHash := hash, failedAttempts := 0, lockedUntil := None);
      UpsertKeeps(w.db, ids, id, row);
      UnchangedOk(World(RevokeAll(redis, user.value), Upsert(w.db, id, row)), d, drawn, ids);
    }
  }

  lemma RegisterOk(w: World, crypto: Crypto, email: string, password: string, d: Draw, drawn: set<string>,
                   ids: set<Uuid>)
    requires WorldOk(w, drawn, ids) && FreshDraw(d, drawn, ids)
    ensures OkAfter(U.Register(w, crypto, email, password, d).0, d, drawn, ids)
    ensures U.Register(w, crypto, email, password, d).1 != ServerError
  {
    UnchangedOk(w, d, drawn, ids);
    var u := NULL_ROW.(email := email, passwordHash := crypto.Hash(password, d.salt));
    CreateKeeps(w.db, ids, d.id, u);
    var (db, err) := Create(w.db, d.id, u);
    if err.None? {
      RedisOkGrows(w.redis, w.db.users.Keys, drawn, db.users.Keys, drawn);
      SetTextOk(World(w.redis, db), EmailVerify(d.token), d.id, EMAIL_VERIFY_TTL, d, drawn, ids + {d.id});
      assert ids + {d.id} + {d.id} == ids + {d.id};
    }
  }

  lemma VerifyEmailOk(w: World, token: string, drawn: set<string>, ids: set<Uuid>)
    requires WorldOk(w, drawn, ids)
    ensures WorldOk(U.VerifyEmail(w, token).0, drawn, ids) && U.VerifyEmail(w, token).1 != ServerError
    ensures U.VerifyEmail(w, token).0.db.users.Keys == w.db.users.Keys
  {
    ConsumeOk(w, EmailVerify(token), drawn, ids);
    var user := Consume(w.redis, EmailVerify(token)).1;
    if user.Some? {
      var id := Parse(user.value).value;
      UpsertKeeps(w.db, ids, id, Row(w.db, id).(emailVerified := true));
    }
  }

  lemma ResendOk(w: World, email: string, d: Draw, drawn: set<string>, ids: set<Uuid>)
    requires WorldOk(w, drawn, ids)
    ensures OkAfter(U.ResendVerification(w, email, d).0, d, drawn, ids)
    ensures U.ResendVerification(w, email, d).1 != ServerError
  {
    UnchangedOk(w, d, drawn, ids);
    if FindByEmail(w.db, email).Some? {
      SetTextOk(w, EmailVerify(d.token), FindByEmail(w.db, email).value.0, EMAIL_VERIFY_TTL, d, drawn, ids);
    }
  }

  lemma GoogleRedirectOk(w: World, returnTo: string, d: Draw, drawn: set<string>, ids: set<Uuid>)
    requires WorldOk(w, drawn, ids)
    ensures OkAfter(U.GoogleRedirect(w, returnTo, d).0, d, drawn, ids)
    ensures U.GoogleRedirect(w, returnTo, d).1 != ServerError
  {
    OtherKeyKeeps(w.redis, w.db.users.Keys, drawn, Set(OAuthState(d.token), Text(returnTo), STATE_TTL));
    UnchangedOk(U.GoogleRedirect(w, returnTo, d).0, d, drawn, ids);
  }

  lemma SignedInOk(w: World, claims: U.Claims, d: Draw, drawn: set<string>, ids: set<Uuid>)
    requires WorldOk(w, drawn, ids) && FreshDraw(d, drawn, ids)
    ensures var (db, id) := U.FindOrCreateUser(w.db, claims.email, claims.emailVerified, d);
            var linked := UpsertIdentity(db, id, U.GOOGLE, claims.sub, claims.email);
            OkAfter(World(StoreRefresh(w.redis, d.token, ToString(id), REFRESH_TOKEN_TTL), linked), d, drawn, ids)
  {
    var u := NULL_ROW.(email := claims.email, emailVerified := claims.emailVerified);
    CreateKeeps(w.db, ids, d.id, u);
    var (db, id) := U.FindOrCreateUser(w.db, claims.email, claims.emailVerified, d);
    RedisOkGrows(w.redis, w.db.users.Keys, drawn, db.users.Keys, drawn);
    DbOkGrows(w.db, ids, ids + {d.id});
    var linked := UpsertIdentity(db, id, U.GOOGLE, claims.sub, claims.email);
    assert DbOk(linked, ids + {d.id});
    StoreRefreshOk(World(w.redis, linked), id, d, drawn, ids + {d.id});
    assert ids + {d.id} + {d.id} == ids + {d.id};
  }

  lemma GoogleCallbackOk(w: World, state: string, claims: U.IdToken, d: Draw, drawn: set<string>,
                         ids: set<Uuid>)
    requires WorldOk(w, drawn, ids) && FreshDraw(d, drawn, ids)
    ensures OkAfter(U.GoogleCallback(w, state, claims, d).0, d, drawn, ids)
    ensures U.GoogleCallback(w, state, claims, d).1 != ServerError
  {
    ConsumeOk(w, OAuthState(state), drawn, ids);
    var consumed := w.(redis := Consume(w.redis, OAuthState(state)).0);
    UnchangedOk(consumed, d, drawn, ids);
    if claims.Verified? {
      SignedInOk(consumed, claims.value, d, drawn, ids);
    }
    hide WorldOk, OkAfter, FreshDraw, StoreRefresh, UpsertIdentity, U.FindOrCreateUser;
  }

  lemma EnrollOk(w: World, crypto: Crypto, subject: Option<string>, e: F.Enrolment, drawn: set<string>,
                 ids: set<Uuid>)
    requires WorldOk(w, drawn, ids) && e.Complete()
    ensures WorldOk(F.Enroll(w, crypto, subject, e).0, drawn, ids)
    ensures F.Enroll(w, crypto, subject, e).1 != ServerError
    ensures F.Enroll(w, crypto, subject, e).0.db.users.Keys == w.db.users.Keys
  {
    hide RedisOk, Parse, FreshCodes, F.HashAll;
    if subject.Some? && Parse(subject.value).Some? && Parse(subject.value).value in w.db.users {
      var id := Parse(subject.value).value;
      UpsertKeeps(w.db, ids, id, Row(w.db, id).(totpSecret := e.secret, totpEnabled := false));
    }
  }

  lemma ConfirmOk(w: World, crypto: Crypto, subject: Option<string>, code: string, drawn: set<string>,
                  ids: set<Uuid>)
    requires WorldOk(w, drawn, ids)
    ensures WorldOk(F.Confirm(w, crypto, subject, code).0, drawn, ids)
    ensures F.Confirm(w, crypto, subject, code).1 != ServerError
    ensures F.Confirm(w, crypto, subject, code).0.db.users.Keys == w.db.users.Keys
  {
    hide RedisOk, Parse;
    if subject.Some? && Parse(subject.value).Some? && Parse(subject.value).value in w.db.users {
      var id := Parse(subject.value).value;
      UpsertKeeps(w.db, ids, id, Row(w.db, id).(totpEnabled := true));
    }
  }

  lemma VerifyOk(w: World, crypto: Crypto, session: string, code: string, d: Draw, drawn: set<string>,
                 ids: set<Uuid>)
    requires WorldOk(w, drawn, ids) && FreshDraw(d, drawn, ids)
    ensures OkAfter(F.Verify(w, crypto, session, code, d).0, d, drawn, ids)
    ensures F.Verify(w, crypto, session, code, d).1 != ServerError
  {
    UnchangedOk(w, d, drawn, ids);
    ConsumeOk(w, MfaSession(session), drawn, ids);
    var (redis, user) := Consume(w.redis, MfaSession(session));
    UnchangedOk(w.(redis := redis), d, drawn, ids);
    if user.Some? {
      StoreRefreshOk(w.(redis := redis), Parse(user.value).value, d, drawn, ids);
    }
  }

  lemma RecoveryOk(w: World, crypto: Crypto, session: string, code: string, listing: seq<Uuid>, d: Draw,
                   drawn: set<string>, ids: set<Uuid>)
    requires WorldOk(w, drawn, ids) && FreshDraw(d, drawn, ids)
    ensures OkAfter(F.Recovery(w, crypto, session, code, listing, d).0, d, drawn, ids)
    ensures F.Recovery(w, crypto, session, code, listing, d).1 != ServerError
    ensures F.Recovery(w, crypto, session, code, listing, d).0.db.users.Keys == w.db.users.Keys
  {
    hide RedisOk, NamesUser, ToString, Parse, Consume, StoreRefresh, Unused;
    UnchangedOk(w, d, drawn, ids);
    ConsumeOk(w, MfaSession(session), drawn, ids);
    var (redis, user) := Consume(w.redis, MfaSession(session));
    UnchangedOk(w.(redis := redis), d, drawn, ids);
    if user.Some? {
      var id := Parse(user.value).value;
      var matched := F.FirstMatch(crypto, CodesOf(w.db, id), code, listing);
      if matched.Some? {
        var marked := MarkUsed(w.db, id, matched.value);
        UpsertKeeps(marked, ids, id, Row(marked, id).(totpEnabled := false));
        var db := UpdateTOTP(marked, id, marked.users[id].totpSecret, false);
        StoreRefreshOk(World(redis, db), id, d, drawn, ids);
      }
    }
  }

  lemma SessionUserOk(w: World, session: string, drawn: set<string>, ids: set<Uuid>)
    requires WorldOk(w, drawn, ids)
    ensures var user := A.SessionUser(w, session);
            user.Some? ==> NamesUser(w.db.users.Keys, user.value) && Parse(user.value).Some?
                           && Parse(user.value).value in w.db.users && ToString(Parse(user.value).value) == user.value
  {
    var user := A.SessionUser(w, session);
    if user.Some? {
      assert EntryOk(w.db.users.Keys, SsoSession(session), w.redis.data[SsoSession(session)].value);
      NamedUserParses(w.db.users.Keys, user.value);
    }
  }

  lemma IssueAuthCodeOk(w: World, g: Grant, d: Draw, drawn: set<string>, ids: set<Uuid>)
    requires WorldOk(w, drawn, ids) && NamesUser(w.db.users.Keys, g.userID)
    ensures OkAfter(A.IssueAuthCode(w, d.token, g), d, drawn, ids)
  {
    OtherKeyKeeps(w.redis, w.db.users.Keys, drawn, Set(OAuthCode(d.token), Code(g), AUTH_CODE_TTL));
    UnchangedOk(A.IssueAuthCode(w, d.token, g), d, drawn, ids);
  }

  lemma AuthorizeOk(w: World, session: string, q: A.AuthorizeRequest, d: Draw, drawn: set<string>, ids: set<Uuid>)
    requires WorldOk(w, drawn, ids)
    ensures OkAfter(A.Authorize(w, session, q, d).0, d, drawn, ids)
    ensures A.Authorize(w, session, q, d).1 != ServerError
  {
    UnchangedOk(w, d, drawn, ids);
    SessionUserOk(w, session, drawn, ids);
    var user := A.SessionUser(w, session);
    if user.Some? {
      IssueAuthCodeOk(w, A.GrantFor(user.value, q), d, drawn, ids);
    }
  }

  lemma ConsentOk(w: World, session: string, q: A.AuthorizeRequest, d: Draw, drawn: set<string>, ids: set<Uuid>)
    requires WorldOk(w, drawn, ids)
    ensures OkAfter(A.Consent(w, session, q, d).0, d, drawn, ids)
    ensures A.Consent(w, session, q, d).1 != ServerError
  {
    UnchangedOk(w, d, drawn, ids);
    SessionUserOk(w, session, drawn, ids);
    var user := A.SessionUser(w, session);
    if user.Some? {
      var stored := w.(db := StoreConsent(w.db, A.IdOrNil(user.value), q.clientID, q.scopes));
      IssueAuthCodeOk(stored, A.GrantFor(user.value, q), d, drawn, ids);
    }
  }

  lemma ExchangeOk(w: World, crypto: Crypto, q: A.TokenRequest, drawn: set<string>, ids: set<Uuid>)
    requires WorldOk(w, drawn, ids)
    ensures WorldOk(A.Exchange(w, crypto, q).0, drawn, ids)
    ensures A.Exchange(w, crypto, q).1 != ServerError
  {
    OtherKeyKeeps(w.redis, w.db.users.Keys, drawn, GetDel(OAuthCode(q.code)));
    var grant := A.GrantReply(Exec(w.redis, GetDel(OAuthCode(q.code))).1);
    if grant.Some? {
      assert EntryOk(w.db.users.Keys, OAuthCode(q.code), w.redis.data[OAuthCode(q.code)].value);
      NamedUserParses(w.db.users.Keys, grant.value.userID);
    }
  }

  // ----- whole runs

  ghost predicate ServedOk(w: World, crypto: Crypto, r: Request, drawn: set<string>, ids: set<Uuid>)
    requires r.Enroll? ==> r.enrolment.Complete()
  {
    var (w2, answer) := Serve(w, crypto, r);
    && answer != ServerError
    && (match DrawOf(r) case Some(d) => OkAfter(w2, d, drawn, ids) case None => WorldOk(w2, drawn, ids))
  }

  /** The requests about federation, authorization, limits and the environment. */
  predicate IsFlow(r: Request) {
    || r.GoogleRedirect? || r.GoogleCallback? || r.Authorize? || r.Consent? || r.Exchange?
    || r.RateHit? || r.NewClient? || r.Elapse?
  }

  lemma FlowsOk(w: World, crypto: Crypto, r: Request, drawn: set<string>, ids: set<Uuid>)
    requires IsFlow(r)
    requires WorldOk(w, drawn, ids)
    requires r.RateHit? ==> r.rateKey.IpRate? || r.rateKey.EmailIpRate?
    requires DrawOf(r).Some? ==> FreshDraw(DrawOf(r).value, drawn, ids)
    ensures ServedOk(w, crypto, r, drawn, ids)
  {
    hide WorldOk, OkAfter, FreshDraw, RedisOk, DbOk;
    hide U.GoogleRedirect, U.GoogleCallback, A.Authorize, A.Consent, A.Exchange, HitCounter;
    match r
    case GoogleRedirect(returnTo, draw) => GoogleRedirectOk(w, returnTo, draw, drawn, ids);
    case GoogleCallback(state, claims, draw) => GoogleCallbackOk(w, state, claims, draw, drawn, ids);
    case Authorize(session, q, draw) => AuthorizeOk(w, session, q, draw, drawn, ids);
    case Consent(session, q, draw) => ConsentOk(w, session, q, draw, drawn, ids);
    case Exchange(q) => ExchangeOk(w, crypto, q, drawn, ids);
    case RateHit(k, window) => RateHitOk(w, k, window, drawn, ids);
    case NewClient(id, c) => NewClientOk(w, id, c, drawn, ids);
    case Elapse(d) => ElapseOk(w, d, drawn, ids);
  }

  lemma ServeOk(w: World, crypto: Crypto, r: Request, drawn: set<string>, ids: set<Uuid>)
    requires WorldOk(w, drawn, ids) && (r.Enroll? ==> r.enrolment.Complete())
    requires r.RateHit? ==> r.rateKey.IpRate? || r.rateKey.EmailIpRate?
    requires DrawOf(r).Some? ==> FreshDraw(DrawOf(r).value, drawn, ids)
    ensures ServedOk(w, crypto, r, drawn, ids)
  {
    hide WorldOk, OkAfter, FreshDraw, RedisOk, DbOk;
    hide U.Register, U.VerifyEmail, U.ResendVerification, U.GoogleRedirect, U.GoogleCallback;
    hide L.Login, L.Refresh, L.Logout, L.LogoutAll, L.ResetRequest, L.Reset;
    hide F.Enroll, F.Confirm, F.Verify, F.Recovery, A.Authorize, A.Consent, A.Exchange, HitCounter;
    match r
    case Register(email, password, draw) =>
      RegisterOk(w, crypto, crypto.normalizeEmail(email), password, draw, drawn, ids);
    case VerifyEmail(token) => VerifyEmailOk(w, token, drawn, ids);
    case ResendVerification(email, draw) => ResendOk(w, crypto.normalizeEmail(email), draw, drawn, ids);
    case Login(email, password, draw) =>
      LoginOk(w, crypto, crypto.normalizeEmail(email), password, draw, drawn, ids);
    case Rotate(token, draw) => RefreshOk(w, token, draw, drawn, ids);
    case Logout(refresh, session) => LogoutOk(w, refresh, session, drawn, ids);
    case LogoutAll(subject) => LogoutAllOk(w, subject, drawn, ids);
    case ResetRequest(email, draw) => ResetRequestOk(w, crypto.normalizeEmail(email), draw, drawn, ids);
    case Reset(token, password, draw) => ResetOk(w, crypto, token, password, draw, drawn, ids);
    case Enroll(subject, e) => EnrollOk(w, crypto, subject, e, drawn, ids);
    case Confirm(subject, code) => ConfirmOk(w, crypto, subject, code, drawn, ids);
    case Verify(session, code, draw) => VerifyOk(w, crypto, session, code, draw, drawn, ids);
    case Recovery(session, code, listing, draw) =>
      RecoveryOk(w, crypto, session, code, listing, draw, drawn, ids);
    case _ => FlowsOk(w, crypto, r, drawn, ids);
  }

  lemma StepKeeps(s: State, crypto: Crypto, r: Request)
    requires Inv(s)
    ensures Inv(Step(s, crypto, r))
    ensures Allowed(s, r) ==> Serve(s.world, crypto, r).1 != ServerError
  {
    hide WorldOk, Serve, F.ListsUnused, Consume, ToString;
    if Allowed(s, r) {
      ServeOk(s.world, crypto, r, s.drawn, s.ids);
      assert s.drawn + {} == s.drawn && s.ids + {} == s.ids;
    }
  }

  lemma RateHitOk(w: World, k: Key, window: Time, drawn: set<string>, ids: set<Uuid>)
    requires WorldOk(w, drawn, ids) && (k.IpRate? || k.EmailIpRate?)
    ensures WorldOk(w.(redis := HitCounter(w.redis, k, window).0), drawn, ids)
  {
    OtherKeyKeeps(w.redis, w.db.users.Keys, drawn, Hit(k, window));
  }

  lemma NewClientOk(w: World, id: string, c: Client, drawn: set<string>, ids: set<Uuid>)
    requires WorldOk(w, drawn, ids)
    ensures WorldOk(w.(db := w.db.(clients := w.db.clients[id := c])), drawn, ids)
  {
  }

  lemma ElapseOk(w: World, d: Time, drawn: set<string>, ids: set<Uuid>)
    requires WorldOk(w, drawn, ids)
    ensures WorldOk(w.(redis := Advance(w.redis, d)), drawn, ids)
  {
    AdvanceKeeps(w.redis, w.db.users.Keys, drawn, d);
  }

  lemma InitOk()
    ensures Inv(Init())
  {
  }

  /** Every state the server can reach, by any requests at all, satisfies the invariant. */
  lemma {:induction false} RunKeeps(s: State, crypto: Crypto, rs: seq<Request>)
    requires Inv(s)
    ensures Inv(Run(s, crypto, rs))
    decreases |rs|
  {
    if rs != [] {
      StepKeeps(s, crypto, rs[0]);
      RunKeeps(Step(s, crypto, rs[0]), crypto, rs[1..]);
    }
  }

  ghost predicate Reachable(s: State, crypto: Crypto) {
    exists past: seq<Request> :: Run(Init(), crypto, past) == s
  }

  lemma ReachableOk(s: State, crypto: Crypto)
    requires Reachable(s, crypto)
    ensures Inv(s)
  {
    hide Inv;
    var past: seq<Request> :| Run(Init(), crypto, past) == s;
    InitOk();
    RunKeeps(Init(), crypto, past);
  }
}
