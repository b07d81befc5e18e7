/**
 Granularity: interleaved. Authorization codes are issued and presented by any number of requests at once; a token
 request may stop between reading its code from Redis and looking its user up, and may be abandoned there.
 */
module AuthCodes {
  import opened Common
  import opened Uuids
  import opened Base64
  import opened Keyspace
  import opened Keys
  import opened Worlds
  import opened UserTables
  import opened Authorization

  datatype Issuance = Issuance(grant: Grant, at: Time)

  /** The request that took the code out of Redis, and when. */
  datatype Presentation = Presentation(request: nat, at: Time)

  /** A token request that has its code and is about to look up the user. */
  datatype Frame = Redeeming(request: TokenRequest, user: Uuid)

  datatype Token = Token(request: TokenRequest, subject: Uuid, audience: string)

  datatype State =
    State(store: Store<Key>, flight: map<nat, Frame>, started: set<nat>,
          issued: map<string, Issuance>, presented: map<string, Presentation>, tokens: map<nat, Token>)

  datatype Action =
    | Tick(d: Time)
    | Foreign(c: Command<Key>)
    | IssueCode(code: string, grant: Grant)
    | Present(pid: nat, r: TokenRequest)
    | LookUp(pid: nat, found: bool)
    | Abandon(pid: nat)

  function Init(): State {
    State(Store(0, map[]), map[], {}, map[], map[], map[])
  }

  /** SET of a code that was never drawn before. */
  function IssueStep(s: State, code: string, grant: Grant): State {
    if code in s.issued then s
    else
      s.(store := Exec(s.store, Set(OAuthCode(code), Code(grant), AUTH_CODE_TTL)).0,
         issued := s.issued[code := Issuance(grant, s.store.now)])
  }

  /** GETDEL, then the checks; whatever they say, the code is gone. */
  function PresentStep(s: State, crypto: Crypto, pid: nat, r: TokenRequest): State {
    if pid in s.started then s
    else
      var (after, reply) := Exec(s.store, GetDel(OAuthCode(r.code)));
      var s1 := s.(store := after, started := s.started + {pid});
      match GrantReply(reply)
      case None => s1
      case Some(g) =>
        Checked(s1.(presented := s.presented[r.code := Presentation(pid, s.store.now)]), crypto, pid, r, g)
  }

  function Checked(s: State, crypto: Crypto, pid: nat, r: TokenRequest, g: Grant): State {
    if GrantMatches(crypto, g, r) && Parse(g.userID).Some?
    then s.(flight := s.flight[pid := Redeeming(r, Parse(g.userID).value)]) else s
  }

  function LookUpStep(s: State, pid: nat, found: bool): State {
    if pid !in s.flight then s
    else
      var f := s.flight[pid];
      var s1 := s.(flight := s.flight - {pid});
      if found then s1.(tokens := s.tokens[pid := Token(f.request, f.user, f.request.clientID)]) else s1
  }

  function Next(s: State, crypto: Crypto, a: Action): State {
    match a
    case Tick(d) => s.(store := Advance(s.store, d))
    case Foreign(c) => if c.key.OAuthCode? then s else s.(store := Exec(s.store, c).0)
    case IssueCode(code, grant) => IssueStep(s, code, grant)
    case Present(pid, r) => PresentStep(s, crypto, pid, r)
    case LookUp(pid, found) => LookUpStep(s, pid, found)
    case Abandon(pid) => s.(flight := s.flight - {pid})
  }

  function Run(s: State, crypto: Crypto, actions: seq<Action>): State
    decreases |actions|
  {
    if actions == [] then s else Run(Next(s, crypto, actions[0]), crypto, actions[1..])
  }

  // ----- the invariant

  /** A code waits in Redis exactly as issued, from its issue to its first presentation or its expiry. */
  ghost predicate CodesOk(s: State) {
    && (forall c :: OAuthCode(c) in s.store.data ==>
          && c in s.issued && c !in s.presented
          && s.store.data[OAuthCode(c)] == Entry(Code(s.issued[c].grant), At(s.issued[c].at + AUTH_CODE_TTL)))
    && (forall c :: c in s.issued && c !in s.presented && s.store.now < s.issued[c].at + AUTH_CODE_TTL ==>
          OAuthCode(c) in s.store.data)
    && (forall c :: c in s.presented ==>
          c in s.issued && s.issued[c].at <= s.presented[c].at < s.issued[c].at + AUTH_CODE_TTL)
    && (forall c :: c in s.issued ==> s.issued[c].at <= s.store.now)
  }

  /** The request took the code, and its details fit what the code was issued for. */
  predicate Earned(s: State, crypto: Crypto, pid: nat, r: TokenRequest, user: Uuid) {
    && r.code in s.issued && r.code in s.presented && s.presented[r.code].request == pid
    && GrantMatches(crypto, s.issued[r.code].grant, r) && Parse(s.issued[r.code].grant.userID) == Some(user)
  }

  ghost predicate RequestsOk(s: State, crypto: Crypto) {
    && (forall p :: p in s.flight ==> p in s.started && p !in s.tokens
                                      && Earned(s, crypto, p, s.flight[p].request, s.flight[p].user))
    && (forall p :: p in s.tokens ==> p in s.started && s.tokens[p].audience == s.tokens[p].request.clientID
                                      && Earned(s, crypto, p, s.tokens[p].request, s.tokens[p].subject))
  }

  ghost predicate Inv(s: State, crypto: Crypto) {
    CodesOk(s) && RequestsOk(s, crypto)
  }

  /** What was issued and presented stays on record. */
  ghost predicate Kept(s: State, s2: State) {
    && (forall c :: c in s.issued ==> c in s2.issued && s2.issued[c] == s.issued[c])
    && (forall c :: c in s.presented ==> c in s2.presented && s2.presented[c] == s.presented[c])
  }

  lemma StoreCommandOk(s: State, crypto: Crypto, c: Command<Key>)
    requires Inv(s, crypto) && !c.key.OAuthCode?
    ensures Inv(s.(store := Exec(s.store, c).0), crypto)
  {
    hide GrantMatches, Parse;
    forall k: Key | k.OAuthCode? ensures (k in Exec(s.store, c).0.data <==> k in s.store.data)
                                         && (k in s.store.data ==> Exec(s.store, c).0.data[k] == s.store.data[k])
                                         && Exec(s.store, c).0.now == s.store.now {
      ExecFrame(s.store, c, k);
    }
    assert Exec(s.store, c).0.now == s.store.now;
    hide Exec;
  }

  lemma IssueOk(s: State, crypto: Crypto, code: string, grant: Grant)
    requires Inv(s, crypto)
    ensures Inv(IssueStep(s, code, grant), crypto) && Kept(s, IssueStep(s, code, grant))
  {
    hide GrantMatches, Parse, RequestsOk, CodesOk, Kept;
    IssuedCodesOk(s, code, grant);
    RequestsStay(s, IssueStep(s, code, grant), crypto);
  }

  lemma IssuedCodesOk(s: State, code: string, grant: Grant)
    requires CodesOk(s)
    ensures CodesOk(IssueStep(s, code, grant)) && Kept(s, IssueStep(s, code, grant))
  {
  }

  lemma RequestsStay(s: State, s2: State, crypto: Crypto)
    requires RequestsOk(s, crypto) && Kept(s, s2)
    requires s2.flight == s.flight && s2.tokens == s.tokens && s.started <= s2.started
    ensures RequestsOk(s2, crypto)
  {
    hide GrantMatches, Parse;
  }

  /** Reading a code finds it exactly when it was issued, has not been presented and has not expired. */
  lemma CodeFound(s: State, code: string)
    requires CodesOk(s)
    ensures var (after, reply) := Exec(s.store, GetDel(OAuthCode(code)));
            && after == Drop(s.store, OAuthCode(code))
            && GrantReply(reply)
               == if code in s.issued && code !in s.presented && s.store.now < s.issued[code].at + AUTH_CODE_TTL
                  then Some(s.issued[code].grant) else None
  {
  }

  lemma DroppedOk(s: State, code: string)
    requires CodesOk(s)
    requires code in s.issued && code !in s.presented ==> s.issued[code].at + AUTH_CODE_TTL <= s.store.now
    ensures CodesOk(s.(store := Drop(s.store, OAuthCode(code))))
  {
  }

  lemma TakenOk(s: State, code: string, pid: nat)
    requires CodesOk(s) && code in s.issued && code !in s.presented && s.store.now < s.issued[code].at + AUTH_CODE_TTL
    ensures CodesOk(s.(store := Drop(s.store, OAuthCode(code)),
                       presented := s.presented[code := Presentation(pid, s.store.now)]))
  {
  }

  lemma PresentOk(s: State, crypto: Crypto, pid: nat, r: TokenRequest)
    requires Inv(s, crypto)
    ensures Inv(PresentStep(s, crypto, pid, r), crypto) && Kept(s, PresentStep(s, crypto, pid, r))
  {
    hide GrantMatches, Parse, Exec, CodesOk;
    if pid !in s.started {
      CodeFound(s, r.code);
      var s1 := s.(store := Drop(s.store, OAuthCode(r.code)), started := s.started + {pid});
      if GrantReply(Exec(s.store, GetDel(OAuthCode(r.code))).1).None? {
        NotFoundOk(s, crypto, pid, r);
      } else {
        FoundOk(s, crypto, pid, r);
      }
    }
  }

  lemma NotFoundOk(s: State, crypto: Crypto, pid: nat, r: TokenRequest)
    requires Inv(s, crypto) && GrantReply(Exec(s.store, GetDel(OAuthCode(r.code))).1).None?
    ensures var s1 := s.(store := Drop(s.store, OAuthCode(r.code)), started := s.started + {pid});
            Inv(s1, crypto) && Kept(s, s1)
  {
    hide GrantMatches, Parse, Exec;
    CodeFound(s, r.code);
    DroppedOk(s, r.code);
    RequestsStay(s, s.(store := Drop(s.store, OAuthCode(r.code)), started := s.started + {pid}), crypto);
    hide RequestsOk;
  }

  function Taken(s: State, pid: nat, code: string): State {
    s.(store := Drop(s.store, OAuthCode(code)), started := s.started + {pid},
       presented := s.presented[code := Presentation(pid, s.store.now)])
  }

  lemma FoundOk(s: State, crypto: Crypto, pid: nat, r: TokenRequest)
    requires Inv(s, crypto) && pid !in s.started && GrantReply(Exec(s.store, GetDel(OAuthCode(r.code))).1).Some?
    ensures var s2 := Checked(Taken(s, pid, r.code), crypto, pid, r,
                              GrantReply(Exec(s.store, GetDel(OAuthCode(r.code))).1).value);
            Inv(s2, crypto) && Kept(s, s2)
  {
    hide GrantMatches, Parse, Exec, GrantReply, Checked, CodesOk;
    CodeFound(s, r.code);
    TakenKeeps(s, pid, r.code);
    var s1 := Taken(s, pid, r.code);
    RequestsStay(s, s1, crypto);
    CheckedOk(s1, crypto, pid, r);
    hide RequestsOk, Taken;
    SameCodesOk(s1, Checked(s1, crypto, pid, r, s.issued[r.code].grant));
  }

  lemma TakenKeeps(s: State, pid: nat, code: string)
    requires CodesOk(s) && code in s.issued && code !in s.presented
    requires s.store.now < s.issued[code].at + AUTH_CODE_TTL
    ensures CodesOk(Taken(s, pid, code)) && Kept(s, Taken(s, pid, code))
  {
    TakenOk(s, code, pid);
  }

  lemma SameCodesOk(s: State, s2: State)
    requires CodesOk(s) && s2 == s.(flight := s2.flight)
    ensures CodesOk(s2) && Kept(s, s2)
  {
  }

  lemma CheckedOk(s: State, crypto: Crypto, pid: nat, r: TokenRequest)
    requires RequestsOk(s, crypto) && pid in s.started && pid !in s.flight && pid !in s.tokens
    requires r.code in s.issued && r.code in s.presented && s.presented[r.code].request == pid
    ensures var s2 := Checked(s, crypto, pid, r, s.issued[r.code].grant);
            RequestsOk(s2, crypto) && s2 == s.(flight := s2.flight)
  {
    hide GrantMatches, Parse;
  }

  lemma LookUpOk(s: State, crypto: Crypto, pid: nat, found: bool)
    requires Inv(s, crypto)
    ensures Inv(LookUpStep(s, pid, found), crypto) && Kept(s, LookUpStep(s, pid, found))
  {
    hide Parse, GrantMatches;
    var s2 := LookUpStep(s, pid, found);
    assert CodesOk(s2);
    hide CodesOk;
    LookUpRequests(s, crypto, pid, found);
    hide RequestsOk;
  }

  lemma LookUpRequests(s: State, crypto: Crypto, pid: nat, found: bool)
    requires RequestsOk(s, crypto)
    ensures RequestsOk(LookUpStep(s, pid, found), crypto)
  {
    var s2 := LookUpStep(s, pid, found);
    hide Earned;
    if pid in s.flight && found {
      var f := s.flight[pid];
      assert s2.tokens == s.tokens[pid := Token(f.request, f.user, f.request.clientID)];
    }
    forall p, r, u | Earned(s, crypto, p, r, u) ensures Earned(s2, crypto, p, r, u) {
      SameCodes(s, s2, crypto, p, r, u);
    }
  }

  lemma SameCodes(s: State, s2: State, crypto: Crypto, p: nat, r: TokenRequest, u: Uuid)
    requires Earned(s, crypto, p, r, u) && s2.issued == s.issued && s2.presented == s.presented
    ensures Earned(s2, crypto, p, r, u)
  {
  }

  lemma NextOk(s: State, crypto: Crypto, a: Action)
    requires Inv(s, crypto)
    ensures Inv(Next(s, crypto, a), crypto) && Kept(s, Next(s, crypto, a))
  {
    hide GrantMatches, Parse, IssueStep, PresentStep, LookUpStep, Exec, RequestsOk;
    match a
    case Tick(d) =>
      RequestsStay(s, s.(store := Advance(s.store, d)), crypto);
    case Abandon(pid) => AbandonOk(s, crypto, pid);
    case Foreign(c) => if !c.key.OAuthCode? { StoreCommandOk(s, crypto, c); }
    case IssueCode(code, grant) => IssueOk(s, crypto, code, grant);
    case Present(pid, r) => PresentOk(s, crypto, pid, r);
    case LookUp(pid, found) => LookUpOk(s, crypto, pid, found);
  }

  lemma AbandonOk(s: State, crypto: Crypto, pid: nat)
    requires Inv(s, crypto)
    ensures Inv(s.(flight := s.flight - {pid}), crypto) && Kept(s, s.(flight := s.flight - {pid}))
  {
    hide GrantMatches, Parse;
  }

  lemma {:induction false} RunOk(s: State, crypto: Crypto, actions: seq<Action>)
    requires Inv(s, crypto)
    ensures Inv(Run(s, crypto, actions), crypto) && Kept(s, Run(s, crypto, actions))
    decreases |actions|
  {
    hide Inv, Next;
    if actions != [] {
      NextOk(s, crypto, actions[0]);
      RunOk(Next(s, crypto, actions[0]), crypto, actions[1..]);
    }
  }

  ghost predicate Reachable(s: State, crypto: Crypto) {
    exists actions :: s == Run(Init(), crypto, actions)
  }

  lemma ReachableOk(s: State, crypto: Crypto)
    requires Reachable(s, crypto)
    ensures Inv(s, crypto)
  {
    hide Run;
    var actions :| s == Run(Init(), crypto, actions);
    RunOk(Init(), crypto, actions);
  }

  // ----- what the flow guarantees

  /** A token is for the user, client and redirect URI of its code, which was redeemed in time with its PKCE proof. */
  lemma TokensMatchTheirCodes(s: State, crypto: Crypto, pid: nat)
    requires Reachable(s, crypto) && pid in s.tokens
    ensures var t := s.tokens[pid];
            && t.request.code in s.issued && t.request.code in s.presented
            && var g, when := s.issued[t.request.code].grant, s.issued[t.request.code].at;
               && when <= s.presented[t.request.code].at < when + 60
               && Parse(g.userID) == Some(t.subject) && t.audience == g.clientID
               && t.request.clientID == g.clientID && t.request.redirectURI == g.redirectURI
               && (g.codeChallenge != "" ==> Encode(Url, crypto.sha256(t.request.codeVerifier)) == g.codeChallenge)
  {
    ReachableOk(s, crypto);
    hide Parse, Reachable, Encode;
  }

  /** No code yields two tokens. */
  lemma OneTokenPerCode(s: State, crypto: Crypto, p: nat, q: nat)
    requires Reachable(s, crypto) && p in s.tokens && q in s.tokens
    requires s.tokens[p].request.code == s.tokens[q].request.code
    ensures p == q
  {
    ReachableOk(s, crypto);
    hide Parse, Reachable, GrantMatches;
  }

  /** A token request gets past its checks exactly when it fits a code that is unexpired and never presented before. */
  lemma PresentationSucceeds(s: State, crypto: Crypto, pid: nat, r: TokenRequest)
    requires Reachable(s, crypto) && pid !in s.started
    ensures pid in PresentStep(s, crypto, pid, r).flight <==>
              && r.code in s.issued && r.code !in s.presented && s.store.now < s.issued[r.code].at + AUTH_CODE_TTL
              && var g := s.issued[r.code].grant;
                 && g.clientID == r.clientID && g.redirectURI == r.redirectURI && Parse(g.userID).Some?
                 && (g.codeChallenge == ""
                     || (r.codeVerifier != "" && Encode(Url, crypto.sha256(r.codeVerifier)) == g.codeChallenge))
  {
    ReachableOk(s, crypto);
    CodeFound(s, r.code);
    hide Parse, Reachable, Exec, GrantReply, Encode;
  }

  lemma FirstIsRecorded(s: State, crypto: Crypto, pid: nat, r: TokenRequest)
    requires Inv(s, crypto) && pid !in s.started && Live(s.store, OAuthCode(r.code))
    ensures var s1 := PresentStep(s, crypto, pid, r); r.code in s1.presented && s1.presented[r.code].request == pid
  {
    CodeFound(s, r.code);
    hide Parse, GrantMatches, Exec, GrantReply, RequestsOk;
  }

  /** Right or wrong, the first presentation of a live code is its last: no other request ever gets a token for it. */
  lemma FirstPresentationIsLast(s: State, crypto: Crypto, pid: nat, r: TokenRequest, actions: seq<Action>, q: nat)
    requires Reachable(s, crypto) && pid !in s.started && Live(s.store, OAuthCode(r.code)) && q != pid
    ensures var s2 := Run(PresentStep(s, crypto, pid, r), crypto, actions);
            && OAuthCode(r.code) !in s2.store.data
            && (q in s2.flight ==> s2.flight[q].request.code != r.code)
            && (q in s2.tokens ==> s2.tokens[q].request.code != r.code)
  {
    hide Parse, Reachable, GrantMatches, Exec, Run;
    ReachableOk(s, crypto);
    FirstIsRecorded(s, crypto, pid, r);
    var s1 := PresentStep(s, crypto, pid, r);
    hide PresentStep;
    PresentOk(s, crypto, pid, r);
    RunOk(s1, crypto, actions);
  }

  /** Without interruption, the two steps are the handler of the token endpoint. */
  lemma RedeemingWithoutInterruption(s: State, crypto: Crypto, db: Db, pid: nat, r: TokenRequest)
    requires pid !in s.started && pid !in s.flight && pid !in s.tokens
    ensures var s1 := PresentStep(s, crypto, pid, r);
            var s2 := LookUpStep(s1, pid, pid in s1.flight && s1.flight[pid].user in db.users);
            var (w, response) := Exchange(World(s.store, db), crypto, r);
            && w == World(s2.store, db)
            && (response.AccessToken? <==> pid in s2.tokens)
            && (pid in s2.tokens ==> response == AccessToken(s2.tokens[pid].subject, s2.tokens[pid].audience))
  {
    hide Parse, GrantMatches, Exec;
  }
}
