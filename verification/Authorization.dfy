/** The authorization code flow: sections 4.1.2 and 4.1.3 of RFC 6749, with PKCE (sections 4.2 and 4.6 of RFC 7636). */
module Authorization {
  import opened Common
  import opened Uuids
  import opened Base64
  import opened Keyspace
  import opened Keys
  import opened Tokens
  import opened UserTables
  import opened Worlds

  predicate ValidRedirectURI(allowed: seq<string>, uri: string) {
    exists i :: 0 <= i < |allowed| && allowed[i] == uri
  }

  /** BASE64URL(SHA256(verifier)) == challenge. */
  predicate VerifyPKCE(crypto: Crypto, verifier: string, challenge: string) {
    Encode(Url, crypto.sha256(verifier)) == challenge
  }

  function IssueAuthCode(w: World, code: string, grant: Grant): World {
    w.(redis := Exec(w.redis, Set(OAuthCode(code), Code(grant), AUTH_CODE_TTL)).0)
  }

  function SessionUser(w: World, session: string): Option<string> {
    if session == "" then None else TextReply(Exec(w.redis, Get(SsoSession(session))).1)
  }

  datatype AuthorizeRequest =
    AuthorizeRequest(responseType: string, clientID: string, redirectURI: string, scopes: seq<string>,
                     codeChallenge: string, codeChallengeMethod: string)

  function GrantFor(user: string, r: AuthorizeRequest): Grant {
    Grant(user, r.clientID, r.redirectURI, r.scopes, r.codeChallenge)
  }

  function Authorize(w: World, session: string, r: AuthorizeRequest, draw: Draw): (World, Response) {
    var user := SessionUser(w, session);
    if r.responseType != "code" then (w, BadRequest)
    else if r.clientID !in w.db.clients then (w, InvalidClient)
    else if !ValidRedirectURI(w.db.clients[r.clientID].redirectURIs, r.redirectURI) then (w, BadRequest)
    else if user.None? then (w, LoginRedirect)
    else
      match Parse(user.value)
      case None => (w, ServerError)
      case Some(id) =>
        if !HasConsent(w.db, id, r.clientID, r.scopes) then (w, ConsentScreen)
        else if r.codeChallenge != "" && r.codeChallengeMethod != "S256" then (w, BadRequest)
        else (IssueAuthCode(w, draw.token, GrantFor(user.value, r)), CodeIssued(draw.token))
  }

  /** A user id that does not parse reads as the nil UUID here: the error is dropped. */
  function IdOrNil(user: string): Uuid {
    match Parse(user)
    case Some(id) => id
    case None => [0, 0, 0, 0, 0, 0, 0, 0, 0, 0, 0, 0, 0, 0, 0, 0, 0, 0, 0, 0, 0, 0, 0, 0, 0, 0, 0, 0, 0, 0, 0, 0]
  }

  function Consent(w: World, session: string, r: AuthorizeRequest, draw: Draw): (World, Response) {
    var user := SessionUser(w, session);
    if user.None? then (w, Unauthorized)
    else
      var stored := w.(db := StoreConsent(w.db, IdOrNil(user.value), r.clientID, r.scopes));
      (IssueAuthCode(stored, draw.token, GrantFor(user.value, r)), CodeIssued(draw.token))
  }

  datatype TokenRequest = TokenRequest(code: string, clientID: string, redirectURI: string, codeVerifier: string)

  /** The checks between reading the code and looking up its user. */
  predicate GrantMatches(crypto: Crypto, g: Grant, r: TokenRequest) {
    && g.clientID == r.clientID && g.redirectURI == r.redirectURI
    && (g.codeChallenge != "" ==> r.codeVerifier != "" && VerifyPKCE(crypto, r.codeVerifier, g.codeChallenge))
  }

  function GrantReply(r: Reply): Option<Grant> {
    if r.Bulk? && r.value.Code? then Some(r.value.grant) else None
  }

  /** The code is deleted by the read, before any check. A stored user id that is no UUID would panic: ServerError. */
  function Exchange(w: World, crypto: Crypto, r: TokenRequest): (World, Response) {
    var (redis, reply) := Exec(w.redis, GetDel(OAuthCode(r.code)));
    var consumed := w.(redis := redis);
    match GrantReply(reply)
    case None => (consumed, InvalidGrant)
    case Some(g) =>
      if !GrantMatches(crypto, g, r) then (consumed, InvalidGrant)
      else
        match Parse(g.userID)
        case None => (consumed, ServerError)
        case Some(id) =>
          if FindByID(w.db, id).None? then (consumed, InvalidGrant)
          else (consumed, AccessToken(id, r.clientID))
  }
}
