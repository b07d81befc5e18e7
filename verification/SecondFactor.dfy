/** TOTP enrolment, confirmation, verification and recovery, each as one atomic step. */
module SecondFactor {
  import opened Common
  import opened Uuids
  import opened Base64
  import opened Keyspace
  import opened Keys
  import opened Tokens
  import opened UserTables
  import opened Worlds

  /** The secret, the plaintext recovery codes, their salts and the ids of their rows: all random. */
  datatype Enrolment = Enrolment(secret: string, codes: seq<string>, salts: seq<seq<Byte>>, ids: seq<Uuid>) {
    predicate Complete() {
      |codes| == |salts| == |ids| == RECOVERY_CODE_COUNT
    }
  }

  function HashAll(crypto: Crypto, e: Enrolment): (hashes: seq<string>)
    requires e.Complete()
    ensures |hashes| == RECOVERY_CODE_COUNT
  {
    seq(RECOVERY_CODE_COUNT, i requires 0 <= i < RECOVERY_CODE_COUNT => crypto.Hash(e.codes[i], e.salts[i]))
  }

  function Enroll(w: World, crypto: Crypto, subject: Option<string>, e: Enrolment): (World, Response)
    requires e.Complete()
  {
    if subject.None? then (w, Unauthorized)
    else
      match Parse(subject.value)
      case None => (w, BadRequest)
      case Some(id) =>
        if FindByID(w.db, id).None? then (w, NotFound)
        else
          var db := UpdateTOTP(w.db, id, e.secret, false);
          (w.(db := ReplaceAll(db, id, e.ids, HashAll(crypto, e))), Enrolled(e.secret, e.codes))
  }

  function Confirm(w: World, crypto: Crypto, subject: Option<string>, code: string): (World, Response) {
    if subject.None? then (w, Unauthorized)
    else
      match Parse(subject.value)
      case None => (w, BadRequest)
      case Some(id) =>
        if code == "" then (w, BadRequest)
        else
          match FindByID(w.db, id)
          case None => (w, NotFound)
          case Some(u) =>
            if !crypto.totpValid(code, u.totpSecret) then (w, Unauthorized)
            else (w.(db := UpdateTOTP(w.db, id, u.totpSecret, true)), Accepted200)
  }

  function SignIn(w: World, id: Uuid, draw: Draw): (World, Response) {
    (w.(redis := StoreRefresh(w.redis, draw.token, ToString(id), REFRESH_TOKEN_TTL)), SignedIn(id, draw.token))
  }

  /** The session is spent before the code is looked at, so a wrong code costs it too. */
  function Verify(w: World, crypto: Crypto, session: string, code: string, draw: Draw): (World, Response) {
    if session == "" || code == "" then (w, BadRequest)
    else
      var (redis, user) := Consume(w.redis, MfaSession(session));
      var consumed := w.(redis := redis);
      match user
      case None => (consumed, Unauthorized)
      case Some(text) =>
        match Parse(text)
        case None => (consumed, ServerError)
        case Some(id) =>
          match FindByID(w.db, id)
          case None => (consumed, Unauthorized)
          case Some(u) =>
            if !crypto.totpValid(code, u.totpSecret) then (consumed, Unauthorized)
            else SignIn(consumed, id, draw)
  }

  /** The first listed code whose hash accepts the given one. */
  function FirstMatch(crypto: Crypto, codes: map<Uuid, RecoveryCode>, code: string, listing: seq<Uuid>): Option<Uuid> {
    if listing == [] then None
    else if listing[0] in codes && crypto.Accepts(code, codes[listing[0]].hash) then Some(listing[0])
    else FirstMatch(crypto, codes, code, listing[1..])
  }

  /** Listing is the order in which the database happened to return the unused codes. */
  function Recovery(w: World, crypto: Crypto, session: string, code: string, listing: seq<Uuid>, draw: Draw)
    : (World, Response)
  {
    if session == "" || code == "" then (w, BadRequest)
    else
      var (redis, user) := Consume(w.redis, MfaSession(session));
      var consumed := w.(redis := redis);
      match user
      case None => (consumed, Unauthorized)
      case Some(text) =>
        match Parse(text)
        case None => (consumed, ServerError)
        case Some(id) =>
          match FirstMatch(crypto, CodesOf(w.db, id), code, listing)
          case None => (consumed, Unauthorized)
          case Some(matched) =>
            var marked := consumed.(db := MarkUsed(w.db, id, matched));
            match FindByID(marked.db, id)
            case None => (marked, ServerError)
            case Some(u) =>
              SignIn(marked.(db := UpdateTOTP(marked.db, id, u.totpSecret, false)), id, draw)
  }

  ghost predicate ListsUnused(db: Db, user: Uuid, listing: seq<Uuid>) {
    forall c :: c in listing <==> c in Unused(CodesOf(db, user))
  }

  lemma {:induction false} FirstMatchIsListed(crypto: Crypto, codes: map<Uuid, RecoveryCode>, code: string,
                                              listing: seq<Uuid>)
    ensures var m := FirstMatch(crypto, codes, code, listing);
            if m.Some? then m.value in listing && m.value in codes && crypto.Accepts(code, codes[m.value].hash)
            else forall c :: c in listing && c in codes ==> !crypto.Accepts(code, codes[c].hash)
  {
    if listing != [] {
      FirstMatchIsListed(crypto, codes, code, listing[1..]);
    }
  }
}
