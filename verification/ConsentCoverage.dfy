/**
 Granularity: handler atomic. Consent: no authorization code outruns the stored consent, and a stored consent spares
 its user the consent screen until it is overwritten.
 */
module ConsentCoverage {
  import opened Common
  import opened Uuids
  import opened Keyspace
  import opened Keys
  import opened Tokens
  import opened UserTables
  import opened Worlds
  import opened Server
  import L = Login
  import U = SignUp
  import F = SecondFactor
  import A = Authorization

  function ScopeSet(scopes: seq<string>): set<string> {
    set s | s in scopes
  }

  /** The stored row grants every scope in the list, in any order and however often repeated. */
  predicate Grants(db: Db, user: Uuid, client: string, scopes: set<string>) {
    (user, client) in db.consents && scopes <= ScopeSet(db.consents[(user, client)])
  }

  lemma HasConsentIsSubset(db: Db, user: Uuid, client: string, scopes: seq<string>)
    ensures HasConsent(db, user, client, scopes) <==> Grants(db, user, client, ScopeSet(scopes))
  {
    if Grants(db, user, client, ScopeSet(scopes)) {
      forall s | s in scopes ensures s in db.consents[(user, client)] {
        assert s in ScopeSet(scopes);
      }
    }
  }

  lemma StoredConsentGrants(db: Db, user: Uuid, client: string, scopes: seq<string>)
    ensures Grants(StoreConsent(db, user, client, scopes), user, client, ScopeSet(scopes))
  {
  }

  /**
   The code is stored for sixty seconds under the requesting user and client, with the scopes of the request, all of
   them inside the consent row as it is at that moment.
   */
  predicate Covered(w: World, session: string, q: A.AuthorizeRequest, code: string, after: World) {
    var key := OAuthCode(code);
    && key in after.redis.data && after.redis.data[key].value.Code?
    && after.redis.data[key].expiry == At(after.redis.now + AUTH_CODE_TTL)
    && var g := after.redis.data[key].value.grant;
       && Some(g.userID) == A.SessionUser(w, session)
       && g == Grant(g.userID, q.clientID, q.redirectURI, q.scopes, q.codeChallenge)
       && Parse(g.userID).Some? && Parse(g.userID).value in after.db.users
       && Grants(after.db, Parse(g.userID).value, g.clientID, ScopeSet(g.scopes))
  }

  predicate KnownUser(w: World, session: string) {
    var user := A.SessionUser(w, session);
    user.Some? ==> Parse(user.value).Some? && Parse(user.value).value in w.db.users
  }

  lemma AuthorizeCovers(w: World, session: string, q: A.AuthorizeRequest, d: Draw)
    requires KnownUser(w, session)
    ensures var (after, response) := A.Authorize(w, session, q, d);
            response.CodeIssued? ==> Covered(w, session, q, response.code, after)
  {
  }

  lemma ConsentCovers(w: World, session: string, q: A.AuthorizeRequest, d: Draw)
    requires KnownUser(w, session)
    ensures var (after, response) := A.Consent(w, session, q, d);
            response.CodeIssued? ==> Covered(w, session, q, response.code, after)
  {
  }

  /** Every code handed out by Authorize or Consent is covered by the stored consent of its user for its client. */
  lemma IssuedCodesAreCovered(s: State, crypto: Crypto, r: Request)
    requires Reachable(s, crypto) && Allowed(s, r) && (r.Authorize? || r.Consent?)
    ensures var (after, response) := Serve(s.world, crypto, r);
            response.CodeIssued? ==> Covered(s.world, r.session, r.query, response.code, after)
  {
    ReachableOk(s, crypto);
    hide WorldOk, Parse, ToString, NamesUser, A.SessionUser, A.Authorize, A.Consent, Covered;
    SessionUserOk(s.world, r.session, s.drawn, s.ids);
    if r.Authorize? {
      AuthorizeCovers(s.world, r.session, r.query, r.draw);
    } else {
      ConsentCovers(s.world, r.session, r.query, r.draw);
    }
    hide Inv, Allowed, Reachable;
  }

  /** Authorize codes also went through the redirect check and, with a challenge, the S256 check. */
  lemma AuthorizedCodesAreChecked(w: World, session: string, q: A.AuthorizeRequest, d: Draw)
    ensures A.Authorize(w, session, q, d).1.CodeIssued?
            <==> && q.responseType == "code" && q.clientID in w.db.clients
                 && q.redirectURI in w.db.clients[q.clientID].redirectURIs
                 && A.SessionUser(w, session).Some? && Parse(A.SessionUser(w, session).value).Some?
                 && HasConsent(w.db, Parse(A.SessionUser(w, session).value).value, q.clientID, q.scopes)
                 && (q.codeChallenge != "" ==> q.codeChallengeMethod == "S256")
  {
  }

  // ----- what a code is issued for

  /** Consent issues a code to any live session; no other condition is looked at. */
  lemma ConsentIssuesToAnySession(w: World, session: string, q: A.AuthorizeRequest, d: Draw)
    ensures A.Consent(w, session, q, d).1.CodeIssued? <==> A.SessionUser(w, session).Some?
  {
    hide A.SessionUser, A.IdOrNil;
  }

  /** So an unknown client gets a code, and the code is worth an access token in its name. */
  lemma UnknownClientGetsToken(w: World, crypto: Crypto, session: string, q: A.AuthorizeRequest, d: Draw, user: Uuid)
    requires A.SessionUser(w, session).Some? && Parse(A.SessionUser(w, session).value) == Some(user)
    requires user in w.db.users && q.clientID !in w.db.clients && q.codeChallenge == ""
    ensures var (w1, response) := A.Consent(w, session, q, d);
            && response == CodeIssued(d.token)
            && A.Exchange(w1, crypto, A.TokenRequest(d.token, q.clientID, q.redirectURI, "")).1
               == AccessToken(user, q.clientID)
  {
    hide A.SessionUser, Parse, A.IdOrNil;
  }

  /** The checks that Authorize makes: a known client, one of its redirect URIs, and S256 if there is a challenge. */
  predicate Registered(clients: map<string, Client>, client: string, uri: string, challenge: string, hashing: string) {
    && client in clients && uri in clients[client].redirectURIs
    && (challenge != "" ==> hashing == "S256")
  }

  /** A code as it was stored, with the challenge method of its request and the clients registered at that moment. */
  datatype IssuedCode = IssuedCode(grant: Option<Grant>, hashing: string, clients: map<string, Client>)

  predicate CodeRegistered(c: IssuedCode) {
    c.grant.Some?
    && Registered(c.clients, c.grant.value.clientID, c.grant.value.redirectURI, c.grant.value.codeChallenge, c.hashing)
  }

  function StoredGrant(redis: Store<Key>, code: string): Option<Grant> {
    var k := OAuthCode(code);
    if k in redis.data && redis.data[k].value.Code? then Some(redis.data[k].value.grant) else None
  }

  /** The code a request leaves in Redis, if it answers with one. */
  ghost function IssuedBy(s: State, crypto: Crypto, r: Request): seq<IssuedCode> {
    if !Allowed(s, r) || !Serve(s.world, crypto, r).1.CodeIssued? then []
    else
      var (after, response) := Serve(s.world, crypto, r);
      var hashing := if r.Authorize? || r.Consent? then r.query.codeChallengeMethod else "";
      [IssuedCode(StoredGrant(after.redis, response.code), hashing, s.world.db.clients)]
  }

  ghost function IssuedCodes(s: State, crypto: Crypto, rs: seq<Request>): seq<IssuedCode>
    decreases |rs|
  {
    if rs == [] then []
    else IssuedBy(s, crypto, rs[0]) + IssuedCodes(Step(s, crypto, rs[0]), crypto, rs[1..])
  }

  /** What a caller of Consent with a live session would have to check before the call. */
  predicate ConsentRegistered(w: World, r: Request) {
    r.Consent? && A.SessionUser(w, r.session).Some? ==>
      var q := r.query;
      Registered(w.db.clients, q.clientID, q.redirectURI, q.codeChallenge, q.codeChallengeMethod)
  }

  ghost predicate ConsentsRegistered(s: State, crypto: Crypto, rs: seq<Request>)
    decreases |rs|
  {
    rs == [] || ((Allowed(s, rs[0]) ==> ConsentRegistered(s.world, rs[0]))
                 && ConsentsRegistered(Step(s, crypto, rs[0]), crypto, rs[1..]))
  }

  lemma AuthorizeIssuesRegistered(s: State, crypto: Crypto, r: Request)
    requires r.Authorize?
    ensures forall c :: c in IssuedBy(s, crypto, r) ==> CodeRegistered(c)
  {
    hide A.SessionUser, Parse, HasConsent, Allowed;
  }

  lemma ConsentIssuesAsAsked(s: State, crypto: Crypto, r: Request)
    requires r.Consent? && Allowed(s, r)
    ensures (forall c :: c in IssuedBy(s, crypto, r) ==> CodeRegistered(c)) <==> ConsentRegistered(s.world, r)
  {
    hide A.SessionUser, A.IdOrNil, Allowed, Registered;
    if A.SessionUser(s.world, r.session).Some? {
      assert IssuedBy(s, crypto, r)
          == [IssuedCode(Some(A.GrantFor(A.SessionUser(s.world, r.session).value, r.query)),
                         r.query.codeChallengeMethod, s.world.db.clients)];
      assert IssuedBy(s, crypto, r)[0] in IssuedBy(s, crypto, r);
    }
  }

  lemma SignInsIssueNoCode(w: World, crypto: Crypto, r: Request)
    requires r.Login? || r.Rotate? || r.Logout? || r.LogoutAll? || r.ResetRequest? || r.Reset? || r.Register?
             || r.VerifyEmail? || r.ResendVerification?
    ensures !Serve(w, crypto, r).1.CodeIssued?
  {
    hide ToString, Parse, StoreRefresh, ConsumeRefresh, Consume, Exec, Drop, RevokeAll, SetText, HitCounter;
    hide Crypto.Accepts, Crypto.Hash, Create, F.Enroll, F.Confirm, F.Verify, F.Recovery, U.GoogleCallback;
    hide A.Authorize, A.Consent, A.Exchange;
  }

  lemma OthersIssueNoCode(w: World, crypto: Crypto, r: Request)
    requires !r.Authorize? && !r.Consent? && (r.Enroll? ==> r.enrolment.Complete())
    ensures !Serve(w, crypto, r).1.CodeIssued?
  {
    hide ToString, Parse, StoreRefresh, Consume, Exec, Advance, HitCounter, F.FirstMatch, Create;
    hide A.Authorize, A.Consent;
    hide L.Login, L.Refresh, L.Logout, L.LogoutAll, L.ResetRequest, L.Reset, U.Register, U.VerifyEmail;
    hide U.ResendVerification, A.VerifyPKCE, F.HashAll, ReplaceAll, MarkUsed, UpdateTOTP;
    match r
    case Login(_, _, _) => SignInsIssueNoCode(w, crypto, r);
    case Rotate(_, _) => SignInsIssueNoCode(w, crypto, r);
    case Logout(_, _) => SignInsIssueNoCode(w, crypto, r);
    case LogoutAll(_) => SignInsIssueNoCode(w, crypto, r);
    case ResetRequest(_, _) => SignInsIssueNoCode(w, crypto, r);
    case Reset(_, _, _) => SignInsIssueNoCode(w, crypto, r);
    case Register(_, _, _) => SignInsIssueNoCode(w, crypto, r);
    case VerifyEmail(_) => SignInsIssueNoCode(w, crypto, r);
    case ResendVerification(_, _) => SignInsIssueNoCode(w, crypto, r);
    case _ =>
  }

  lemma IssuedByRegistered(s: State, crypto: Crypto, r: Request)
    ensures (forall c :: c in IssuedBy(s, crypto, r) ==> CodeRegistered(c))
            <==> (Allowed(s, r) ==> ConsentRegistered(s.world, r))
  {
    hide Serve, Registered, CodeRegistered, A.SessionUser;
    if Allowed(s, r) {
      if r.Authorize? {
        AuthorizeIssuesRegistered(s, crypto, r);
      } else if r.Consent? {
        ConsentIssuesAsAsked(s, crypto, r);
      } else {
        OthersIssueNoCode(s.world, crypto, r);
      }
    }
    hide Allowed;
  }

  /**
   Over every run: all codes handed out are for a client and redirect URI registered at that moment, with S256 if they
   carry a challenge, if and only if every Consent of a live session asked for nothing else.
   */
  lemma {:induction false} CodesRegisteredIff(s: State, crypto: Crypto, rs: seq<Request>)
    ensures (forall c :: c in IssuedCodes(s, crypto, rs) ==> CodeRegistered(c)) <==> ConsentsRegistered(s, crypto, rs)
    decreases |rs|
  {
    hide IssuedBy, CodeRegistered, ConsentRegistered, Allowed, Step;
    if rs != [] {
      var now, rest := IssuedBy(s, crypto, rs[0]), IssuedCodes(Step(s, crypto, rs[0]), crypto, rs[1..]);
      IssuedByRegistered(s, crypto, rs[0]);
      CodesRegisteredIff(Step(s, crypto, rs[0]), crypto, rs[1..]);
      assert forall c :: c in now + rest <==> c in now || c in rest;
    }
  }

  /** The request replaces the consent row of this user and client. */
  predicate Overwrites(w: World, r: Request, user: Uuid, client: string) {
    r.Consent? && r.query.clientID == client
    && A.SessionUser(w, r.session).Some? && A.IdOrNil(A.SessionUser(w, r.session).value) == user
  }

  lemma SignUpsKeepConsents(w: World, crypto: Crypto, r: Request)
    requires r.Register? || r.VerifyEmail? || r.GoogleCallback?
    ensures Serve(w, crypto, r).0.db.consents == w.db.consents
  {
    hide ToString, Parse, StoreRefresh, Consume, Exec, SetText, Crypto.Hash;
  }

  lemma FactorsKeepConsents(w: World, crypto: Crypto, r: Request)
    requires r.Enroll? || r.Confirm? || r.Recovery?
    requires r.Enroll? ==> r.enrolment.Complete()
    ensures Serve(w, crypto, r).0.db.consents == w.db.consents
  {
    hide ToString, Parse, StoreRefresh, Consume, Exec, SetText, Crypto.Accepts, Crypto.Hash, F.FirstMatch, F.HashAll;
  }

  lemma OthersKeepConsents(w: World, crypto: Crypto, r: Request)
    requires !r.Consent? && (r.Enroll? ==> r.enrolment.Complete())
    ensures Serve(w, crypto, r).0.db.consents == w.db.consents
  {
    hide U.Register, U.GoogleCallback, U.VerifyEmail, F.Enroll, F.Confirm, F.Recovery;
    hide ToString, Parse, StoreRefresh, ConsumeRefresh, Consume, Exec, Drop, RevokeAll, Advance, SetText, HitCounter;
    hide Crypto.Accepts, Crypto.Hash, HasConsent, A.ValidRedirectURI, A.VerifyPKCE, A.SessionUser, F.FirstMatch;
    hide F.HashAll;
    if r.Register? || r.VerifyEmail? || r.GoogleCallback? {
      SignUpsKeepConsents(w, crypto, r);
    } else if r.Enroll? || r.Confirm? || r.Recovery? {
      FactorsKeepConsents(w, crypto, r);
    }
  }

  lemma ConsentReplacesOneRow(w: World, crypto: Crypto, r: Request, user: Uuid, client: string)
    requires r.Consent? && !Overwrites(w, r, user, client)
    ensures var after := Serve(w, crypto, r).0.db.consents;
            ((user, client) in after <==> (user, client) in w.db.consents)
            && ((user, client) in w.db.consents ==> after[(user, client)] == w.db.consents[(user, client)])
  {
    hide A.SessionUser, A.IdOrNil;
  }

  ghost predicate NeverOverwritten(s: State, crypto: Crypto, rs: seq<Request>, user: Uuid, client: string)
    decreases |rs|
  {
    rs == [] || (!(Allowed(s, rs[0]) && Overwrites(s.world, rs[0], user, client))
                 && NeverOverwritten(Step(s, crypto, rs[0]), crypto, rs[1..], user, client))
  }

  lemma {:induction false} ConsentLasts(s: State, crypto: Crypto, rs: seq<Request>, user: Uuid, client: string,
                                        scopes: set<string>)
    requires Grants(s.world.db, user, client, scopes) && NeverOverwritten(s, crypto, rs, user, client)
    ensures Grants(Run(s, crypto, rs).world.db, user, client, scopes)
    decreases |rs|
  {
    hide Serve, A.SessionUser, A.IdOrNil, F.ListsUnused;
    if rs != [] {
      if Allowed(s, rs[0]) {
        if rs[0].Consent? {
          ConsentReplacesOneRow(s.world, crypto, rs[0], user, client);
        } else {
          OthersKeepConsents(s.world, crypto, rs[0]);
        }
      }
      ConsentLasts(Step(s, crypto, rs[0]), crypto, rs[1..], user, client, scopes);
    }
  }

  /** Consent leaves its scopes, and any fewer, granted. */
  lemma ConsentStores(s: State, crypto: Crypto, session: string, granted: A.AuthorizeRequest, d: Draw,
                      scopes: set<string>)
    requires Allowed(s, Consent(session, granted, d)) && A.Consent(s.world, session, granted, d).1.CodeIssued?
    requires scopes <= ScopeSet(granted.scopes)
    ensures var user := A.IdOrNil(A.SessionUser(s.world, session).GetOr(""));
            Grants(Step(s, crypto, Consent(session, granted, d)).world.db, user, granted.clientID, scopes)
  {
    hide A.SessionUser, A.IdOrNil, Allowed;
    var user := A.IdOrNil(A.SessionUser(s.world, session).GetOr(""));
    StoredConsentGrants(s.world.db, user, granted.clientID, granted.scopes);
  }

  lemma GrantedSkips(w: World, session: string, q: A.AuthorizeRequest, d: Draw, user: Uuid)
    requires A.SessionUser(w, session).Some? && Parse(A.SessionUser(w, session).value) == Some(user)
    requires HasConsent(w.db, user, q.clientID, q.scopes)
    ensures A.Authorize(w, session, q, d).1 != ConsentScreen
  {
    hide A.SessionUser, Parse, HasConsent, A.ValidRedirectURI;
  }

  /**
   After a user consents, any later Authorize by that user for the client and any of those scopes skips the consent
   screen, however much else happens in between, until the row is overwritten.
   */
  lemma ConsentSkipsTheScreen(s: State, crypto: Crypto, session: string, granted: A.AuthorizeRequest, d: Draw,
                              rs: seq<Request>, later: string, q: A.AuthorizeRequest, d2: Draw)
    requires Allowed(s, Consent(session, granted, d)) && A.Consent(s.world, session, granted, d).1.CodeIssued?
    requires var user := A.IdOrNil(A.SessionUser(s.world, session).GetOr(""));
             var s1 := Step(s, crypto, Consent(session, granted, d));
             && NeverOverwritten(s1, crypto, rs, user, granted.clientID)
             && var s2 := Run(s1, crypto, rs);
                A.SessionUser(s2.world, later).Some? && Parse(A.SessionUser(s2.world, later).value) == Some(user)
    requires q.clientID == granted.clientID && forall x :: x in q.scopes ==> x in granted.scopes
    ensures var s2 := Run(Step(s, crypto, Consent(session, granted, d)), crypto, rs);
            A.Authorize(s2.world, later, q, d2).1 != ConsentScreen
  {
    hide Step, Allowed, A.SessionUser, A.IdOrNil, Parse, NeverOverwritten, Run, Grants, HasConsent;
    var user := A.IdOrNil(A.SessionUser(s.world, session).GetOr(""));
    var s1 := Step(s, crypto, Consent(session, granted, d));
    var s2 := Run(s1, crypto, rs);
    ConsentStores(s, crypto, session, granted, d, ScopeSet(q.scopes));
    ConsentLasts(s1, crypto, rs, user, granted.clientID, ScopeSet(q.scopes));
    HasConsentIsSubset(s2.world.db, user, q.clientID, q.scopes);
    GrantedSkips(s2.world, later, q, d2, user);
  }
}
