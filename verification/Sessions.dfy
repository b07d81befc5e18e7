/**
 Granularity: interleaved. Any number of sign-in, rotation, logout and revocation requests are in flight, each
 stopped between any two of its Redis commands; any of them may be abandoned anywhere. Database reads return whatever
 row they like, other handlers run any commands on other kinds of keys, and the clock advances at will.
 The machine keeps a history of who authenticated, which token was minted from which, and who consumed it.
 */
module Sessions {
  import opened Common
  import opened Uuids
  import opened Keyspace
  import opened Keys
  import opened Tokens
  import opened UserTables
  import opened Worlds

  // ----- the machine

  /** How a chain of refresh tokens began. */
  datatype How = PasswordOnly(check: Check) | TwoFactor(mfa: string, factor: Factor) | Google

  /** What was presented as second factor, and what the database held against it. */
  datatype Factor = TotpCode(row: User, code: string) | BackupCode(hash: string, code: string)

  datatype Root = Root(user: Uuid, how: How)

  /** The request that authenticated, the user, and the tokens consumed since, oldest first. */
  datatype Lineage = Lineage(root: nat, user: Uuid, chain: seq<string>)

  /** What a request in flight is about to do; the text is what Redis returned. */
  datatype Frame =
    | PasswordOk(user: Uuid)
    | SecondFactor(user: Uuid, mfa: string)
    | Minting(lin: Lineage)
    | Indexing(text: string, token: string)
    | Rotating(token: string, text: string, lin: Lineage)
    | LookingUp(token: string, text: string, lin: Lineage)
    | LoggingOut(token: string, text: string)
    | Revoking(text: string, seen: set<string>, todo: set<string>)

  datatype Holder = Tok(token: string) | Req(pid: nat)

  /** The password that was compared, the row it was compared with, and when. */
  datatype Check = Check(user: Uuid, row: User, password: string, at: Time)
  datatype MfaIssue = MfaIssue(login: nat, user: Uuid, at: Time)
  datatype Spend = Spend(request: nat, at: Time)

  datatype State =
    State(store: Store<Key>, flight: map<nat, Frame>,
          started: set<nat>, drawn: set<string>,
          roots: map<nat, Root>, custody: map<nat, Holder>,
          lineage: map<string, Lineage>, spent: map<string, nat>, revoked: set<string>,
          checks: map<nat, Check>, mfaIssued: map<string, MfaIssue>, mfaOf: map<nat, string>,
          mfaSpent: map<string, Spend>)

  /**
   A row is whatever the database returned for the user of the request, a hash whatever it returned as an unused
   recovery code; found says whether the user of a rotation was still there.
   */
  datatype Action =
    | Tick(d: Time)
    | Foreign(c: Command<Key>)
    | LoginPlain(pid: nat, user: Uuid, row: User, password: string)
    | LoginTotp(pid: nat, user: Uuid, row: User, password: string)
    | StoreMfa(pid: nat, token: string)
    | SpendMfa(pid: nat, token: string)
    | TotpOk(pid: nat, row: User, code: string)
    | RecoveryOk(pid: nat, hash: string, code: string)
    | GoogleOk(pid: nat, user: Uuid)
    | Mint(pid: nat, token: string)
    | Index(pid: nat)
    | Rotate(pid: nat, token: string)
    | Unindex(pid: nat, delivered: bool)
    | LookUp(pid: nat, found: bool)
    | LogoutSpend(pid: nat, token: string)
    | LogoutUnindex(pid: nat)
    | RevokeList(pid: nat, text: string)
    | RevokeOne(pid: nat, token: string)
    | RevokeIndex(pid: nat)
    | Abandon(pid: nat)

  function Init(): State {
    State(Store(0, map[]), map[], {}, {}, map[], map[], map[], map[], {}, map[], map[], map[], map[])
  }

  /** What was consumed and revoked is on record: only three kinds of step add to the records, and none takes away. */
  predicate SameRecords(s: State, s2: State) {
    s2.spent == s.spent && s2.mfaSpent == s.mfaSpent && s.revoked <= s2.revoked
  }

  /** Who authenticated, and with what password. */
  predicate SameSignIns(s: State, s2: State) {
    s2.roots == s.roots && s2.checks == s.checks
  }

  function Do(s: State, c: Command<Key>): (s2: State)
    ensures SameRecords(s, s2) && SameSignIns(s, s2)
  {
    s.(store := Exec(s.store, c).0)
  }

  function Move(s: State, pid: nat, f: Frame): (s2: State)
    ensures SameRecords(s, s2) && SameSignIns(s, s2)
  {
    s.(flight := s.flight[pid := f], started := s.started + {pid})
  }

  function End(s: State, pid: nat): (s2: State)
    ensures SameRecords(s, s2) && SameSignIns(s, s2)
  {
    s.(flight := s.flight - {pid}, started := s.started + {pid})
  }

  /** The request has authenticated the user: a new chain begins, held by the request itself. */
  function Authenticated(s: State, pid: nat, user: Uuid, how: How): (s2: State)
    ensures SameRecords(s, s2)
  {
    Move(s.(roots := s.roots[pid := Root(user, how)], custody := s.custody[pid := Req(pid)]), pid,
         Minting(Lineage(pid, user, [])))
  }

  /** The request has consumed a stored token and goes on with its chain. */
  function PickedUp(s: State, pid: nat, token: string, text: string): (s2: State)
    requires token in s.lineage
    ensures SameRecords(s, s2) && SameSignIns(s, s2)
  {
    var lin := s.lineage[token];
    Move(s.(custody := s.custody[lin.root := Req(pid)]), pid, Rotating(token, text, lin))
  }

  predicate IsForeign(k: Key) {
    !k.Refresh? && !k.UserSessions? && !k.MfaSession?
  }

  predicate PasswordPasses(s: State, crypto: Crypto, row: User, password: string) {
    && !(row.lockedUntil.Some? && s.store.now < row.lockedUntil.value)
    && crypto.Accepts(password, row.passwordHash)
  }

  function LoginPlainStep(s: State, crypto: Crypto, pid: nat, user: Uuid, row: User, password: string): (s2: State)
    ensures SameRecords(s, s2)
  {
    if pid in s.started || !PasswordPasses(s, crypto, row, password) || row.totpEnabled then s
    else Authenticated(s, pid, user, PasswordOnly(Check(user, row, password, s.store.now)))
  }

  function LoginTotpStep(s: State, crypto: Crypto, pid: nat, user: Uuid, row: User, password: string): (s2: State)
    ensures SameRecords(s, s2)
  {
    if pid in s.started || !PasswordPasses(s, crypto, row, password) || !row.totpEnabled then s
    else Move(s.(checks := s.checks[pid := Check(user, row, password, s.store.now)]), pid, PasswordOk(user))
  }

  /** Login stores the second-factor session it will answer with. */
  function StoreMfaStep(s: State, pid: nat, token: string): (s2: State)
    ensures SameRecords(s, s2) && SameSignIns(s, s2)
  {
    if token in s.drawn || pid !in s.flight || !s.flight[pid].PasswordOk? then s
    else
      var user := s.flight[pid].user;
      End(Do(s, Set(MfaSession(token), Text(ToString(user)), MFA_SESSION_TTL)).(
            drawn := s.drawn + {token}, mfaOf := s.mfaOf[pid := token],
            mfaIssued := s.mfaIssued[token := MfaIssue(pid, user, s.store.now)]), pid)
  }

  /** GETDEL of a second-factor session, and the reading of its text. */
  function SpendMfaStep(s: State, pid: nat, token: string): (s2: State)
    ensures SameSignIns(s, s2)
  {
    if pid in s.started then s
    else
      var (after, text) := Consume(s.store, MfaSession(token));
      var s1 := s.(store := after);
      if text.None? then End(s1, pid)
      else
        var spent := s1.(mfaSpent := s.mfaSpent[token := Spend(pid, s.store.now)]);
        (match Parse(text.value)
         case None => End(spent, pid)
         case Some(user) => Move(spent, pid, SecondFactor(user, token)))
  }

  /** The TOTP code or the recovery code has been compared with what the database returned. */
  function FactorStep(s: State, crypto: Crypto, pid: nat, factor: Factor): (s2: State)
    ensures SameRecords(s, s2)
  {
    if pid !in s.flight || !s.flight[pid].SecondFactor? || !FactorRight(crypto, factor) then s
    else Authenticated(s, pid, s.flight[pid].user, TwoFactor(s.flight[pid].mfa, factor))
  }

  predicate FactorRight(crypto: Crypto, factor: Factor) {
    match factor
    case TotpCode(row, code) => crypto.totpValid(code, row.totpSecret)
    case BackupCode(hash, code) => crypto.Accepts(code, hash)
  }

  function GoogleStep(s: State, pid: nat, user: Uuid): (s2: State)
    ensures SameRecords(s, s2)
  {
    if pid in s.started then s else Authenticated(s, pid, user, Google)
  }

  /** SET of a freshly drawn refresh token for the holder's user. */
  function MintStep(s: State, pid: nat, token: string): (s2: State)
    ensures SameRecords(s, s2) && SameSignIns(s, s2)
  {
    if token in s.drawn || pid !in s.flight || !s.flight[pid].Minting? then s
    else
      var lin := s.flight[pid].lin;
      var text := ToString(lin.user);
      Move(Do(s, Set(Refresh(token), Text(text), REFRESH_TOKEN_TTL)).(
             drawn := s.drawn + {token}, lineage := s.lineage[token := lin],
             custody := s.custody[lin.root := Tok(token)]), pid, Indexing(text, token))
  }

  /** SADD of the minted token to its user's index. */
  function IndexStep(s: State, pid: nat): (s2: State)
    ensures SameRecords(s, s2) && SameSignIns(s, s2)
  {
    if pid !in s.flight || !s.flight[pid].Indexing? then s
    else End(Do(s, SAdd(UserSessions(s.flight[pid].text), s.flight[pid].token)), pid)
  }

  /** GETDEL of a refresh token by a rotation request. */
  function RotateStep(s: State, pid: nat, token: string): (s2: State)
    ensures SameSignIns(s, s2)
  {
    if pid in s.started then s
    else
      var (after, text) := Consume(s.store, Refresh(token));
      var s1 := s.(store := after);
      if text.None? || token !in s.lineage then End(s1, pid)
      else PickedUp(s1.(spent := s.spent[token := pid]), pid, token, text.value)
  }

  /** SREM of the consumed token; its error, if any, is ignored. */
  function UnindexStep(s: State, pid: nat, delivered: bool): (s2: State)
    ensures SameRecords(s, s2) && SameSignIns(s, s2)
  {
    if pid !in s.flight || !s.flight[pid].Rotating? then s
    else
      var f := s.flight[pid];
      var s1 := if delivered then Do(s, SRem(UserSessions(f.text), f.token)) else s;
      Move(s1, pid, LookingUp(f.token, f.text, f.lin))
  }

  /** The stored text is read back as a user id, and the user is looked up. */
  function LookUpStep(s: State, pid: nat, found: bool): (s2: State)
    ensures SameRecords(s, s2) && SameSignIns(s, s2)
  {
    hide Parse;
    if pid !in s.flight || !s.flight[pid].LookingUp? then s
    else
      var f := s.flight[pid];
      match Parse(f.text)
      case Some(user) =>
        if found then Move(s, pid, Minting(Lineage(f.lin.root, user, f.lin.chain + [f.token]))) else End(s, pid)
      case None => End(s, pid)
  }

  /** GETDEL of a refresh token by a logout request. */
  function LogoutSpendStep(s: State, pid: nat, token: string): (s2: State)
    ensures SameSignIns(s, s2)
  {
    if pid in s.started then s
    else
      var (after, text) := Consume(s.store, Refresh(token));
      var s1 := s.(store := after);
      if text.None? then End(s1, pid)
      else Move(s1.(spent := s.spent[token := pid]), pid, LoggingOut(token, text.value))
  }

  function LogoutUnindexStep(s: State, pid: nat): (s2: State)
    ensures SameRecords(s, s2) && SameSignIns(s, s2)
  {
    if pid !in s.flight || !s.flight[pid].LoggingOut? then s
    else End(Do(s, SRem(UserSessions(s.flight[pid].text), s.flight[pid].token)), pid)
  }

  /** SMEMBERS: from here on the revocation works from its own copy of the list. */
  function RevokeListStep(s: State, pid: nat, text: string): (s2: State)
    ensures SameRecords(s, s2) && SameSignIns(s, s2)
  {
    if pid in s.started then s
    else Move(s, pid, Revoking(text, IndexedTokens(s.store, text), IndexedTokens(s.store, text)))
  }

  /** One DEL of the revocation pipeline. */
  function RevokeOneStep(s: State, pid: nat, token: string): (s2: State)
    ensures SameRecords(s, s2) && SameSignIns(s, s2)
  {
    if pid !in s.flight || !s.flight[pid].Revoking? || token !in s.flight[pid].todo then s
    else
      var f := s.flight[pid];
      Move(Do(s, Del(Refresh(token))).(revoked := s.revoked + {token}), pid, f.(todo := f.todo - {token}))
  }

  /** The last DEL of the pipeline, of the index. */
  function RevokeIndexStep(s: State, pid: nat): (s2: State)
    ensures SameRecords(s, s2) && SameSignIns(s, s2)
  {
    if pid !in s.flight || !s.flight[pid].Revoking? || s.flight[pid].todo != {} then s
    else End(Do(s, Del(UserSessions(s.flight[pid].text))), pid)
  }

  /** One atomic step. An action whose request is not at the right point does nothing. */
  function Next(s: State, crypto: Crypto, a: Action): State {
    match a
    case Tick(d) => s.(store := Advance(s.store, d))
    case Foreign(c) => if IsForeign(c.key) && CommandFits(c) then Do(s, c) else s
    case LoginPlain(pid, user, row, password) => LoginPlainStep(s, crypto, pid, user, row, password)
    case LoginTotp(pid, user, row, password) => LoginTotpStep(s, crypto, pid, user, row, password)
    case StoreMfa(pid, token) => StoreMfaStep(s, pid, token)
    case SpendMfa(pid, token) => SpendMfaStep(s, pid, token)
    case TotpOk(pid, row, code) => FactorStep(s, crypto, pid, TotpCode(row, code))
    case RecoveryOk(pid, hash, code) => FactorStep(s, crypto, pid, BackupCode(hash, code))
    case GoogleOk(pid, user) => GoogleStep(s, pid, user)
    case Mint(pid, token) => MintStep(s, pid, token)
    case Index(pid) => IndexStep(s, pid)
    case Rotate(pid, token) => RotateStep(s, pid, token)
    case Unindex(pid, delivered) => UnindexStep(s, pid, delivered)
    case LookUp(pid, found) => LookUpStep(s, pid, found)
    case LogoutSpend(pid, token) => LogoutSpendStep(s, pid, token)
    case LogoutUnindex(pid) => LogoutUnindexStep(s, pid)
    case RevokeList(pid, text) => RevokeListStep(s, pid, text)
    case RevokeOne(pid, token) => RevokeOneStep(s, pid, token)
    case RevokeIndex(pid) => RevokeIndexStep(s, pid)
    case Abandon(pid) => if pid in s.flight then End(s, pid) else s
  }

  function Run(s: State, crypto: Crypto, actions: seq<Action>): State
    decreases |actions|
  {
    if actions == [] then s else Run(Next(s, crypto, actions[0]), crypto, actions[1..])
  }

  // ----- the invariant

  function FrameLineage(f: Frame): Option<Lineage> {
    match f
    case Minting(lin) => Some(lin)
    case Rotating(_, _, lin) => Some(lin)
    case LookingUp(_, _, lin) => Some(lin)
    case _ => None
  }

  /** A stored token, or a request on its way to storing one, holds its chain. */
  function Held(s: State, h: Holder): Option<Lineage> {
    match h
    case Tok(t) => if Refresh(t) in s.store.data && t in s.lineage then Some(s.lineage[t]) else None
    case Req(p) => if p in s.flight then FrameLineage(s.flight[p]) else None
  }

  /** Each chain has one holder at most. */
  ghost predicate OneHolder(s: State) {
    forall h :: Held(s, h).Some? ==> Held(s, h).value.root in s.custody && s.custody[Held(s, h).value.root] == h
  }

  predicate LinkOk(s: State, lin: Lineage, i: nat)
    requires i < |lin.chain|
  {
    var t := lin.chain[i];
    t in s.lineage && t in s.spent && s.lineage[t] == Lineage(lin.root, lin.user, lin.chain[..i])
  }

  /** The chain starts at an authentication of the same user, and every earlier token of it was consumed. */
  ghost predicate LineageOk(s: State, lin: Lineage) {
    && lin.root in s.roots && s.roots[lin.root].user == lin.user
    && forall i: nat :: i < |lin.chain| ==> LinkOk(s, lin, i)
  }

  ghost predicate TokensOk(s: State) {
    && (forall t :: Refresh(t) in s.store.data ==>
          && t in s.lineage && t !in s.spent && t !in s.revoked
          && s.store.data[Refresh(t)].value == Text(ToString(s.lineage[t].user)))
    && (forall t :: t in s.lineage ==> t in s.drawn && LineageOk(s, s.lineage[t]))
    && (forall u, t :: t in IndexedTokens(s.store, u) ==> t in s.lineage)
    && s.spent.Keys <= s.lineage.Keys && s.revoked <= s.lineage.Keys
  }

  ghost predicate FrameOk(s: State, pid: nat, f: Frame) {
    match f
    case PasswordOk(user) =>
      pid in s.checks && s.checks[pid].user == user && s.checks[pid].at <= s.store.now && pid !in s.mfaOf
    case SecondFactor(user, m) =>
      && pid !in s.roots && m in s.mfaSpent && s.mfaSpent[m].request == pid
      && m in s.mfaIssued && s.mfaIssued[m].user == user
    case Minting(lin) => LineageOk(s, lin)
    case Indexing(_, t) => t in s.lineage
    case Rotating(t, text, lin) =>
      t in s.lineage && s.lineage[t] == lin && t in s.spent && text == ToString(lin.user) && LineageOk(s, lin)
    case LookingUp(t, text, lin) =>
      t in s.lineage && s.lineage[t] == lin && t in s.spent && text == ToString(lin.user) && LineageOk(s, lin)
    case LoggingOut(t, _) => t in s.spent
    case Revoking(_, seen, todo) => seen <= s.lineage.Keys && todo <= seen && seen - todo <= s.revoked
  }

  ghost predicate RequestsOk(s: State) {
    && (forall p :: p in s.flight ==> p in s.started && FrameOk(s, p, s.flight[p]))
    && s.roots.Keys <= s.started && s.checks.Keys <= s.started && s.mfaOf.Keys <= s.started
  }

  predicate MfaRoot(s: State, p: nat, m: string, user: Uuid) {
    m in s.mfaSpent && s.mfaSpent[m].request == p && m in s.mfaIssued && s.mfaIssued[m].user == user
  }

  ghost predicate MfaOk(s: State) {
    && (forall m :: MfaSession(m) in s.store.data ==>
          && m in s.mfaIssued && m !in s.mfaSpent
          && s.store.data[MfaSession(m)]
             == Entry(Text(ToString(s.mfaIssued[m].user)), At(s.mfaIssued[m].at + MFA_SESSION_TTL)))
    && (forall m :: m in s.mfaIssued ==>
          var i := s.mfaIssued[m];
          && m in s.drawn && i.at <= s.store.now
          && i.login in s.checks && s.checks[i.login].user == i.user && s.checks[i.login].at <= i.at
          && i.login in s.mfaOf && s.mfaOf[i.login] == m)
    && (forall m :: m in s.mfaSpent ==>
          m in s.mfaIssued && s.mfaIssued[m].at <= s.mfaSpent[m].at < s.mfaIssued[m].at + MFA_SESSION_TTL)
    && (forall p :: p in s.roots ==> HowOk(s, p))
  }

  ghost predicate Inv(s: State) {
    WellTyped(s.store) && OneHolder(s) && TokensOk(s) && RequestsOk(s) && MfaOk(s)
  }

  lemma InitOk()
    ensures Inv(Init())
  {
  }

  // ----- what one request's step means to the others

  /** History only grows; only the acting request may have gained a root or an MFA session. */
  ghost predicate Grows(s: State, s2: State, actor: nat) {
    && s.store.now <= s2.store.now
    && (forall t :: t in s.lineage ==> t in s2.lineage && s2.lineage[t] == s.lineage[t])
    && s.spent.Keys <= s2.spent.Keys && s.revoked <= s2.revoked
    && (forall p :: p in s.roots ==> p in s2.roots && s2.roots[p] == s.roots[p])
    && s2.roots.Keys <= s.roots.Keys + {actor}
    && (forall p :: p in s.checks ==> p in s2.checks && s2.checks[p] == s.checks[p])
    && (forall m :: m in s.mfaIssued ==> m in s2.mfaIssued && s2.mfaIssued[m] == s.mfaIssued[m])
    && (forall m :: m in s.mfaSpent ==> m in s2.mfaSpent && s2.mfaSpent[m] == s.mfaSpent[m])
    && s2.mfaOf.Keys <= s.mfaOf.Keys + {actor}
  }

  lemma LineageGrows(s: State, s2: State, actor: nat, lin: Lineage)
    requires Grows(s, s2, actor) && LineageOk(s, lin)
    ensures LineageOk(s2, lin)
  {
    forall i: nat | i < |lin.chain| ensures LinkOk(s2, lin, i) {
      assert LinkOk(s, lin, i);
    }
  }

  lemma FrameGrows(s: State, s2: State, actor: nat, p: nat, f: Frame)
    requires Grows(s, s2, actor) && FrameOk(s, p, f) && p != actor
    ensures FrameOk(s2, p, f)
  {
    if FrameLineage(f).Some? {
      LineageGrows(s, s2, actor, FrameLineage(f).value);
    }
  }

  ghost predicate OnlyActorMoved(s: State, s2: State, actor: nat) {
    && s2.started == s.started + {actor}
    && forall p :: p != actor ==> (p in s2.flight <==> p in s.flight) && (p in s.flight ==> s2.flight[p] == s.flight[p])
  }

  lemma RequestsGrow(s: State, s2: State, actor: nat)
    requires RequestsOk(s) && Grows(s, s2, actor) && OnlyActorMoved(s, s2, actor)
    requires actor in s2.flight ==> FrameOk(s2, actor, s2.flight[actor])
    requires s2.checks.Keys <= s2.started
    ensures RequestsOk(s2)
  {
    forall p | p in s2.flight ensures p in s2.started && FrameOk(s2, p, s2.flight[p]) {
      if p != actor {
        FrameGrows(s, s2, actor, p, s.flight[p]);
      }
    }
  }

  lemma HeldIsOk(s: State, h: Holder)
    requires TokensOk(s) && RequestsOk(s) && Held(s, h).Some?
    ensures LineageOk(s, Held(s, h).value)
  {
  }

  /** Holders may let go of their chains. */
  lemma HoldersOnlyLeave(s: State, s2: State)
    requires OneHolder(s) && s2.custody == s.custody
    requires forall h :: Held(s2, h).Some? ==> Held(s2, h) == Held(s, h)
    ensures OneHolder(s2)
  {
  }

  /** A chain passes to a new holder; nobody else has it. */
  lemma HolderTakesOver(s: State, s2: State, root: nat, taker: Holder)
    requires OneHolder(s) && s2.custody == s.custody[root := taker]
    requires forall h :: Held(s2, h).Some? && h != taker ==> Held(s2, h) == Held(s, h) && Held(s, h).value.root != root
    requires Held(s2, taker).Some? ==> Held(s2, taker).value.root == root
    ensures OneHolder(s2)
  {
  }

  /** The keys the machine is about are the same. */
  ghost predicate SameSessionKeys(s: Store<Key>, s2: Store<Key>) {
    forall k :: !IsForeign(k) ==> (k in s2.data <==> k in s.data) && (k in s.data ==> s2.data[k] == s.data[k])
  }

  ghost predicate SameTokenKeys(s: Store<Key>, s2: Store<Key>) {
    forall k: Key :: k.Refresh? || k.UserSessions? ==>
      (k in s2.data <==> k in s.data) && (k in s.data ==> s2.data[k] == s.data[k])
  }

  lemma SameIndexes(s: Store<Key>, s2: Store<Key>)
    requires WellTyped(s) && SameTokenKeys(s, s2)
    ensures forall u :: IndexedTokens(s2, u) == IndexedTokens(s, u)
  {
  }

  lemma TokensSame(s: State, s2: State, actor: nat)
    requires WellTyped(s.store) && TokensOk(s) && Grows(s, s2, actor) && SameTokenKeys(s.store, s2.store)
    requires s2.lineage == s.lineage && s2.spent == s.spent && s2.revoked == s.revoked && s.drawn <= s2.drawn
    ensures TokensOk(s2)
  {
    SameIndexes(s.store, s2.store);
    forall t | t in s2.lineage ensures LineageOk(s2, s2.lineage[t]) {
      LineageGrows(s, s2, actor, s.lineage[t]);
    }
    forall t | Refresh(t) in s2.store.data
      ensures s2.store.data[Refresh(t)].value == Text(ToString(s2.lineage[t].user)) && Refresh(t) in s.store.data
    {
      assert Refresh(t).Refresh?;
    }
  }

  predicate HowOk(s: State, p: nat)
    requires p in s.roots
  {
    match s.roots[p].how
    case TwoFactor(m, _) => MfaRoot(s, p, m, s.roots[p].user)
    case _ => true
  }

  ghost predicate SameMfaKeys(s: Store<Key>, s2: Store<Key>) {
    forall m :: (MfaSession(m) in s2.data <==> MfaSession(m) in s.data)
                && (MfaSession(m) in s.data ==> s2.data[MfaSession(m)] == s.data[MfaSession(m)])
  }

  lemma RootsSame(s: State, s2: State, actor: nat)
    requires MfaOk(s) && Grows(s, s2, actor)
    requires s2.mfaIssued == s.mfaIssued && s2.mfaSpent == s.mfaSpent && s2.mfaOf == s.mfaOf
    requires actor in s2.roots && actor !in s.roots ==> HowOk(s2, actor)
    ensures forall p :: p in s2.roots ==> HowOk(s2, p)
  {
    forall p | p in s2.roots ensures HowOk(s2, p) {
      if p in s.roots {
        assert HowOk(s, p);
      }
    }
  }

  lemma MfaSame(s: State, s2: State, actor: nat)
    requires MfaOk(s) && Grows(s, s2, actor) && SameMfaKeys(s.store, s2.store)
    requires s2.mfaIssued == s.mfaIssued && s2.mfaSpent == s.mfaSpent && s2.mfaOf == s.mfaOf && s.drawn <= s2.drawn
    requires actor in s2.roots && actor !in s.roots ==> HowOk(s2, actor)
    ensures MfaOk(s2)
  {
    RootsSame(s, s2, actor);
    hide HowOk;
  }

  // ----- steps that leave the session keys alone

  lemma TickOk(s: State, d: Time)
    requires Inv(s)
    ensures Inv(s.(store := Advance(s.store, d)))
  {
    var s2 := s.(store := Advance(s.store, d));
    assert Grows(s, s2, 0);
    TokensSame(s, s2, 0);
    MfaSame(s, s2, 0);
    HoldersOnlyLeave(s, s2);
    RequestsSame(s, s2);
  }

  lemma ForeignStore(s: Store<Key>, c: Command<Key>)
    requires WellTyped(s) && IsForeign(c.key) && CommandFits(c)
    ensures var s2 := Exec(s, c).0; WellTyped(s2) && s2.now == s.now && SameSessionKeys(s, s2)
  {
  }

  lemma RequestsSame(s: State, s2: State)
    requires RequestsOk(s) && s2 == s.(store := s2.store) && s.store.now <= s2.store.now
    ensures RequestsOk(s2)
  {
    forall p | p in s2.flight ensures FrameOk(s2, p, s2.flight[p]) {
      assert FrameOk(s, p, s.flight[p]);
      if FrameLineage(s.flight[p]).Some? {
        LineageGrows(s, s2, 0, FrameLineage(s.flight[p]).value);
      }
    }
  }

  lemma HeldSame(s: State, s2: State)
    requires s2 == s.(store := s2.store) && SameSessionKeys(s.store, s2.store)
    ensures forall h :: Held(s2, h) == Held(s, h)
  {
  }

  lemma ForeignOk(s: State, c: Command<Key>)
    requires Inv(s) && IsForeign(c.key) && CommandFits(c)
    ensures Inv(Do(s, c))
  {
    hide Exec, FrameOk, LineageOk, MfaOk, OneHolder, RequestsOk;
    var s2 := Do(s, c);
    ForeignStore(s.store, c);
    assert Grows(s, s2, 0);
    TokensSame(s, s2, 0);
    MfaSame(s, s2, 0);
    HeldSame(s, s2);
    HoldersOnlyLeave(s, s2);
    RequestsSame(s, s2);
  }

  /** A request that authenticates someone starts a chain nobody else holds. */
  lemma AuthenticatedOk(s: State, pid: nat, user: Uuid, how: How)
    requires Inv(s) && pid !in s.roots
    requires match how
             case TwoFactor(m, _) => MfaRoot(s, pid, m, user)
             case _ => true
    ensures Inv(Authenticated(s, pid, user, how))
  {
    var s2 := Authenticated(s, pid, user, how);
    AuthenticatedGrows(s, pid, user, how);
    AuthenticatedHolder(s, pid, user, how);
    hide OneHolder, Grows, LineageOk, Held, WellTyped;
    TokensSame(s, s2, pid);
    MfaSame(s, s2, pid);
    RequestsGrow(s, s2, pid);
  }

  lemma AuthenticatedGrows(s: State, pid: nat, user: Uuid, how: How)
    requires pid !in s.roots
    ensures var s2 := Authenticated(s, pid, user, how);
            Grows(s, s2, pid) && SameSessionKeys(s.store, s2.store) && LineageOk(s2, Lineage(pid, user, []))
  {
  }

  lemma AuthenticatedHolder(s: State, pid: nat, user: Uuid, how: How)
    requires OneHolder(s) && TokensOk(s) && RequestsOk(s) && pid !in s.roots
    ensures OneHolder(Authenticated(s, pid, user, how))
  {
    var s2 := Authenticated(s, pid, user, how);
    forall h | Held(s2, h).Some? && h != Req(pid)
      ensures Held(s2, h) == Held(s, h) && Held(s, h).value.root != pid
    {
      assert Held(s2, h) == Held(s, h);
      HeldIsOk(s, h);
    }
    hide TokensOk, RequestsOk;
    HolderTakesOver(s, s2, pid, Req(pid));
  }

  /** Nothing but the acting request, the password checks and the custody of chains may have changed. */
  ghost predicate QuietMove(s: State, s2: State, pid: nat) {
    && s2 == s.(flight := s2.flight, started := s2.started, checks := s2.checks, custody := s2.custody)
    && OnlyActorMoved(s, s2, pid) && s2.checks.Keys <= s2.started
    && forall p :: p in s.checks ==> p in s2.checks && s2.checks[p] == s.checks[p]
  }

  lemma QuietGrows(s: State, s2: State, pid: nat)
    requires QuietMove(s, s2, pid)
    ensures Grows(s, s2, pid) && SameTokenKeys(s.store, s2.store) && SameMfaKeys(s.store, s2.store)
  {
  }

  lemma QuietOk(s: State, s2: State, pid: nat)
    requires Inv(s) && QuietMove(s, s2, pid) && OneHolder(s2)
    requires pid in s2.flight ==> FrameOk(s2, pid, s2.flight[pid])
    ensures Inv(s2)
  {
    hide WellTyped, OneHolder, TokensOk, RequestsOk, MfaOk, FrameOk, Grows, SameTokenKeys, SameMfaKeys, OnlyActorMoved;
    QuietGrows(s, s2, pid);
    TokensSame(s, s2, pid);
    MfaSame(s, s2, pid);
    RequestsGrow(s, s2, pid);
  }

  lemma ReleasedHolder(s: State, s2: State, pid: nat)
    requires OneHolder(s) && QuietMove(s, s2, pid) && s2.custody == s.custody
    requires pid in s2.flight ==> FrameLineage(s2.flight[pid]).None?
    ensures OneHolder(s2)
  {
    forall h | Held(s2, h).Some? ensures Held(s2, h) == Held(s, h) {
    }
    HoldersOnlyLeave(s, s2);
  }

  lemma LoginTotpOk(s: State, pid: nat, user: Uuid, row: User, password: string)
    requires Inv(s) && pid !in s.started
    ensures Inv(Move(s.(checks := s.checks[pid := Check(user, row, password, s.store.now)]), pid, PasswordOk(user)))
  {
    hide WellTyped, OneHolder, TokensOk, MfaOk, LineageOk;
    var s2 := Move(s.(checks := s.checks[pid := Check(user, row, password, s.store.now)]), pid, PasswordOk(user));
    ReleasedHolder(s, s2, pid);
    QuietOk(s, s2, pid);
  }

  /** A request that is done, failed or died. */
  lemma EndOk(s: State, pid: nat)
    requires Inv(s)
    ensures Inv(End(s, pid))
  {
    hide WellTyped, OneHolder, TokensOk, MfaOk, FrameOk;
    var s2 := End(s, pid);
    assert QuietMove(s, s2, pid);
    ReleasedHolder(s, s2, pid);
    QuietOk(s, s2, pid);
  }

  lemma RevokeListOk(s: State, pid: nat, text: string)
    requires Inv(s)
    ensures Inv(RevokeListStep(s, pid, text))
  {
    if pid !in s.started {
      StartOk(s, pid, Revoking(text, IndexedTokens(s.store, text), IndexedTokens(s.store, text)));
    }
    hide Inv;
  }

  lemma ChainExtends(s: State, token: string, lin: Lineage)
    requires LineageOk(s, lin) && token in s.lineage && s.lineage[token] == lin && token in s.spent
    ensures LineageOk(s, Lineage(lin.root, lin.user, lin.chain + [token]))
  {
    var longer := Lineage(lin.root, lin.user, lin.chain + [token]);
    forall i: nat | i < |longer.chain| ensures LinkOk(s, longer, i) {
      if i < |lin.chain| {
        assert LinkOk(s, lin, i);
        assert longer.chain[..i] == lin.chain[..i];
      } else {
        assert longer.chain[..i] == lin.chain;
      }
    }
  }

  /** Moving a request from one point to another that holds the same chain, or none, and changes no store. */
  lemma MoveOk(s: State, pid: nat, f: Frame)
    requires Inv(s) && pid in s.flight && FrameOk(s, pid, f)
    requires FrameLineage(f).Some? ==>
               FrameLineage(s.flight[pid]).Some? && FrameLineage(f).value.root == FrameLineage(s.flight[pid]).value.root
    ensures Inv(Move(s, pid, f))
  {
    hide WellTyped, OneHolder, TokensOk, MfaOk, FrameOk;
    var s2 := Move(s, pid, f);
    assert QuietMove(s, s2, pid);
    FrameGrowsSelf(s, s2, pid, f);
    MovedHolder(s, s2, pid, f);
    QuietOk(s, s2, pid);
  }

  lemma FrameGrowsSelf(s: State, s2: State, pid: nat, f: Frame)
    requires FrameOk(s, pid, f) && s2 == s.(flight := s2.flight, started := s2.started)
    ensures FrameOk(s2, pid, f)
  {
    if FrameLineage(f).Some? {
      LineageGrows(s, s2, pid, FrameLineage(f).value);
    }
  }

  lemma MovedHolder(s: State, s2: State, pid: nat, f: Frame)
    requires OneHolder(s) && pid in s.flight && s2 == Move(s, pid, f)
    requires FrameLineage(f).Some? ==>
               FrameLineage(s.flight[pid]).Some? && FrameLineage(f).value.root == FrameLineage(s.flight[pid]).value.root
    ensures OneHolder(s2)
  {
    forall h | Held(s2, h).Some?
      ensures Held(s2, h).value.root in s2.custody && s2.custody[Held(s2, h).value.root] == h
    {
      if h == Req(pid) {
        assert Held(s, Req(pid)).Some?;
      } else {
        assert Held(s2, h) == Held(s, h);
      }
    }
  }

  /** The text read from Redis names the user of the chain, so the chain goes on for the same user. */
  lemma LookUpOk(s: State, pid: nat)
    requires Inv(s) && pid in s.flight && s.flight[pid].LookingUp?
    ensures var f := s.flight[pid];
            Parse(f.text) == Some(f.lin.user)
            && Inv(Move(s, pid, Minting(Lineage(f.lin.root, f.lin.user, f.lin.chain + [f.token]))))
  {
    var f := s.flight[pid];
    assert FrameOk(s, pid, f);
    ParseToString(f.lin.user);
    hide Parse, ToString, Inv;
    ChainExtends(s, f.token, f.lin);
    MoveOk(s, pid, Minting(Lineage(f.lin.root, f.lin.user, f.lin.chain + [f.token])));
  }

  // ----- steps on refresh tokens and their index

  /** Commands on an index set; only tokens that were minted may be added. */
  lemma IndexCommandOk(s: State, c: Command<Key>)
    requires Inv(s) && c.key.UserSessions? && (c.SAdd? || c.SRem? || c.Del?)
    requires c.SAdd? ==> c.member in s.lineage
    ensures Inv(Do(s, c))
  {
    assert WellTyped(s.store) && TokensOk(s);
    hide Inv, WellTyped, TokensOk, Shrinks;
    IndexCommandFrame(s, c);
    StoreShrinks(s, Do(s, c));
  }

  lemma IndexCommandFrame(s: State, c: Command<Key>)
    requires WellTyped(s.store) && TokensOk(s) && c.key.UserSessions? && (c.SAdd? || c.SRem? || c.Del?)
    requires c.SAdd? ==> c.member in s.lineage
    ensures WellTyped(Do(s, c).store) && Shrinks(s, Do(s, c))
  {
    var s2 := Do(s, c);
    forall u, t | t in IndexedTokens(s2.store, u) ensures t in s.lineage {
      if UserSessions(u) != c.key {
        ExecFrame(s.store, c, UserSessions(u));
      }
      assert t in IndexedTokens(s.store, u) || (c.SAdd? && t == c.member);
    }
    IndexCommandSame(s.store, c);
    hide Exec, IndexedTokens;
  }

  lemma IndexCommandSame(s: Store<Key>, c: Command<Key>)
    requires WellTyped(s) && c.key.UserSessions? && (c.SAdd? || c.SRem? || c.Del?)
    ensures var s2 := Exec(s, c).0;
            && WellTyped(s2) && s2.now == s.now && SameMfaKeys(s, s2)
            && forall t :: Refresh(t) in s2.data ==> Refresh(t) in s.data && s2.data[Refresh(t)] == s.data[Refresh(t)]
  {
  }

  /** Only the store changed, no session entry is new, and the indexes still list minted tokens only. */
  ghost predicate Shrinks(s: State, s2: State) {
    && s2 == s.(store := s2.store) && s2.store.now == s.store.now && SameMfaKeys(s.store, s2.store)
    && (forall t :: Refresh(t) in s2.store.data ==>
          Refresh(t) in s.store.data && s2.store.data[Refresh(t)] == s.store.data[Refresh(t)])
    && (forall u, t :: t in IndexedTokens(s2.store, u) ==> t in s.lineage)
  }

  lemma ShrinkTokens(s: State, s2: State)
    requires TokensOk(s) && Shrinks(s, s2)
    ensures TokensOk(s2)
  {
    hide IndexedTokens;
    assert Grows(s, s2, 0);
    forall t | t in s2.lineage ensures LineageOk(s2, s2.lineage[t]) {
      LineageGrows(s, s2, 0, s.lineage[t]);
    }
  }

  lemma ShrinkHolders(s: State, s2: State)
    requires OneHolder(s) && Shrinks(s, s2)
    ensures OneHolder(s2)
  {
    hide IndexedTokens, OneHolder;
    forall h | Held(s2, h).Some? ensures Held(s2, h) == Held(s, h) {
    }
    HoldersOnlyLeave(s, s2);
  }

  lemma ShrinkMfa(s: State, s2: State)
    requires MfaOk(s) && Shrinks(s, s2)
    ensures MfaOk(s2)
  {
    hide IndexedTokens;
    assert Grows(s, s2, 0);
    hide MfaOk;
    MfaSame(s, s2, 0);
  }

  lemma StoreShrinks(s: State, s2: State)
    requires Inv(s) && WellTyped(s2.store) && Shrinks(s, s2)
    ensures Inv(s2)
  {
    ShrinkTokens(s, s2);
    ShrinkHolders(s, s2);
    ShrinkMfa(s, s2);
    RequestsSame(s, s2);
    hide OneHolder, TokensOk, RequestsOk, MfaOk, WellTyped;
  }

  /** Deleting a refresh token, whoever does it and for whatever reason. */
  lemma DropTokenOk(s: State, token: string)
    requires Inv(s)
    ensures Inv(s.(store := Drop(s.store, Refresh(token))))
  {
    var s2 := s.(store := Drop(s.store, Refresh(token)));
    forall u ensures IndexedTokens(s2.store, u) == IndexedTokens(s.store, u) {
    }
    assert WellTyped(s2.store);
    hide IndexedTokens, RequestsOk, MfaOk, OneHolder, WellTyped;
    StoreShrinks(s, s2);
  }

  /** A token that is out of the store may be recorded as consumed or revoked; it will never be stored again. */
  lemma RecordGoneOk(s: State, s2: State, token: string)
    requires Inv(s) && token in s.lineage && Refresh(token) !in s.store.data
    requires s2 == s.(spent := s2.spent, revoked := s2.revoked)
    requires s.spent.Keys <= s2.spent.Keys <= s.spent.Keys + {token} && s.revoked <= s2.revoked <= s.revoked + {token}
    ensures Inv(s2)
  {
    hide WellTyped, TokensOk, OneHolder, RequestsOk, MfaOk;
    RecordedTokens(s, s2, token);
    RecordedHolders(s, s2);
    RecordedRequests(s, s2);
    RecordedMfa(s, s2);
  }

  lemma RecordedMfa(s: State, s2: State)
    requires MfaOk(s) && s2 == s.(spent := s2.spent, revoked := s2.revoked)
    requires s.spent.Keys <= s2.spent.Keys && s.revoked <= s2.revoked
    ensures MfaOk(s2)
  {
    hide MfaOk;
    assert Grows(s, s2, 0);
    MfaSame(s, s2, 0);
  }

  lemma RecordedTokens(s: State, s2: State, token: string)
    requires TokensOk(s) && token in s.lineage && Refresh(token) !in s.store.data
    requires s2 == s.(spent := s2.spent, revoked := s2.revoked)
    requires s.spent.Keys <= s2.spent.Keys <= s.spent.Keys + {token} && s.revoked <= s2.revoked <= s.revoked + {token}
    ensures TokensOk(s2)
  {
    hide IndexedTokens;
    assert Grows(s, s2, 0);
    forall t | t in s2.lineage ensures LineageOk(s2, s2.lineage[t]) {
      LineageGrows(s, s2, 0, s.lineage[t]);
    }
  }

  lemma RecordedHolders(s: State, s2: State)
    requires OneHolder(s) && s2 == s.(spent := s2.spent, revoked := s2.revoked)
    ensures OneHolder(s2)
  {
    forall h ensures Held(s2, h) == Held(s, h) {
    }
    HoldersOnlyLeave(s, s2);
  }

  lemma RecordedRequests(s: State, s2: State)
    requires RequestsOk(s) && s2 == s.(spent := s2.spent, revoked := s2.revoked)
    requires s.spent.Keys <= s2.spent.Keys && s.revoked <= s2.revoked
    ensures RequestsOk(s2)
  {
    forall p | p in s2.flight ensures FrameOk(s2, p, s2.flight[p]) {
      assert FrameOk(s, p, s.flight[p]);
      if FrameLineage(s.flight[p]).Some? {
        LineageGrows(s, s2, 0, FrameLineage(s.flight[p]).value);
      }
    }
  }

  lemma ConsumeIsDrop(s: State, token: string)
    requires Inv(s)
    ensures var (after, text) := Consume(s.store, Refresh(token));
            && after == Drop(s.store, Refresh(token))
            && (text.Some? ==> token in s.lineage && token !in s.spent && Refresh(token) in s.store.data
                               && text == Some(ToString(s.lineage[token].user)))
  {
  }

  /** A fresh request picks up the chain of the token it consumed. */
  lemma PickUpOk(s: State, pid: nat, token: string, text: string)
    requires Inv(s) && pid !in s.started && token in s.lineage && token in s.spent && Refresh(token) !in s.store.data
    requires text == ToString(s.lineage[token].user)
    requires forall h :: Held(s, h).Some? ==> Held(s, h).value.root != s.lineage[token].root
    ensures Inv(PickedUp(s, pid, token, text))
  {
    hide ToString, OneHolder, LineageOk, Held, WellTyped, MfaOk, FrameOk;
    var s2 := PickedUp(s, pid, token, text);
    assert LineageOk(s, s.lineage[token]) && pid !in s.flight;
    PickUpHolder(s, pid, token, text);
    assert QuietMove(s, s2, pid);
    PickUpFrame(s, pid, token, text);
    QuietOk(s, s2, pid);
  }

  lemma PickUpFrame(s: State, pid: nat, token: string, text: string)
    requires token in s.lineage && token in s.spent && LineageOk(s, s.lineage[token])
    requires text == ToString(s.lineage[token].user)
    ensures var s2 := PickedUp(s, pid, token, text); pid in s2.flight && FrameOk(s2, pid, s2.flight[pid])
  {
    hide ToString;
    var s2 := PickedUp(s, pid, token, text);
    assert Grows(s, s2, pid);
    LineageGrows(s, s2, pid, s.lineage[token]);
    hide LineageOk, IndexedTokens;
  }

  lemma PickUpHolder(s: State, pid: nat, token: string, text: string)
    requires OneHolder(s) && token in s.lineage && pid !in s.flight
    requires forall h :: Held(s, h).Some? ==> Held(s, h).value.root != s.lineage[token].root
    ensures OneHolder(PickedUp(s, pid, token, text))
  {
    var s2 := PickedUp(s, pid, token, text);
    forall h | h != Req(pid) ensures Held(s2, h) == Held(s, h) {
    }
    HolderTakesOver(s, s2, s.lineage[token].root, Req(pid));
  }

  lemma RotateOk(s: State, pid: nat, token: string)
    requires Inv(s)
    ensures Inv(RotateStep(s, pid, token))
  {
    assert OneHolder(s);
    hide Inv, Consume, ToString, Held, OneHolder, Drop, PickedUp, End;
    if pid !in s.started {
      var (after, text) := Consume(s.store, Refresh(token));
      ConsumeIsDrop(s, token);
      DropTokenOk(s, token);
      var s1 := s.(store := after);
      if text.None? || token !in s.lineage {
        EndOk(s1, pid);
      } else {
        ConsumedOk(s, s1, pid, token, text.value);
      }
    }
  }

  lemma ConsumedOk(s: State, s1: State, pid: nat, token: string, text: string)
    requires Inv(s1) && OneHolder(s) && s1 == s.(store := Drop(s.store, Refresh(token))) && pid !in s.started
    requires Refresh(token) in s.store.data && token in s.lineage && text == ToString(s.lineage[token].user)
    ensures Inv(PickedUp(s1.(spent := s1.spent[token := pid]), pid, token, text))
  {
    hide Inv, ToString, OneHolder, PickedUp;
    NobodyElseHolds(s, s1, token);
    var s2 := s1.(spent := s1.spent[token := pid]);
    RecordGoneOk(s1, s2, token);
    forall h ensures Held(s2, h) == Held(s1, h) {
    }
    hide Held;
    PickUpOk(s2, pid, token, text);
  }

  /** Once a stored token is gone, its chain has no holder. */
  lemma NobodyElseHolds(s: State, s1: State, token: string)
    requires OneHolder(s) && Refresh(token) in s.store.data && token in s.lineage
    requires s1 == s.(store := Drop(s.store, Refresh(token)))
    ensures forall h :: Held(s1, h).Some? ==> Held(s1, h).value.root != s.lineage[token].root
  {
    assert Held(s, Tok(token)).Some?;
    forall h | Held(s1, h).Some? ensures Held(s1, h).value.root != s.lineage[token].root {
      assert Held(s, h) == Held(s1, h) && h != Tok(token);
    }
  }

  lemma LogoutSpendOk(s: State, pid: nat, token: string)
    requires Inv(s)
    ensures Inv(LogoutSpendStep(s, pid, token))
  {
    hide Inv, Consume, ToString, Held, Move, End;
    if pid !in s.started {
      var (after, text) := Consume(s.store, Refresh(token));
      ConsumeIsDrop(s, token);
      DropTokenOk(s, token);
      var s1 := s.(store := after);
      if text.None? {
        EndOk(s1, pid);
      } else {
        var s2 := s1.(spent := s1.spent[token := pid]);
        RecordGoneOk(s1, s2, token);
        StartOk(s2, pid, LoggingOut(token, text.value));
      }
    }
  }

  /** A fresh request that holds no chain. */
  lemma StartOk(s: State, pid: nat, f: Frame)
    requires Inv(s) && pid !in s.started && FrameLineage(f).None? && FrameOk(s, pid, f)
    ensures Inv(Move(s, pid, f))
  {
    hide WellTyped, OneHolder, TokensOk, MfaOk, FrameOk;
    var s2 := Move(s, pid, f);
    assert QuietMove(s, s2, pid);
    FrameGrowsSelf(s, s2, pid, f);
    ReleasedHolder(s, s2, pid);
    QuietOk(s, s2, pid);
  }

  lemma RevokeOneIsMove(s: State, pid: nat, token: string)
    requires pid in s.flight && s.flight[pid].Revoking? && token in s.flight[pid].todo
    ensures var f := s.flight[pid];
            RevokeOneStep(s, pid, token) == Move(RevokedToken(s, token), pid, f.(todo := f.todo - {token}))
  {
    hide Move;
  }

  lemma RevokeOneFrame(s: State, pid: nat, token: string)
    requires Inv(s) && pid in s.flight && s.flight[pid].Revoking? && token in s.flight[pid].todo
    ensures var f := s.flight[pid];
            token in s.lineage && FrameOk(RevokedToken(s, token), pid, f.(todo := f.todo - {token}))
  {
    assert FrameOk(s, pid, s.flight[pid]);
    hide Inv, Drop, ToString;
  }

  lemma RevokeOneOk(s: State, pid: nat, token: string)
    requires Inv(s)
    ensures Inv(RevokeOneStep(s, pid, token))
  {
    hide Inv, Move, FrameOk;
    if pid in s.flight && s.flight[pid].Revoking? && token in s.flight[pid].todo {
      var f := s.flight[pid];
      RevokeOneFrame(s, pid, token);
      RevokedTokenOk(s, token);
      RevokeOneIsMove(s, pid, token);
      hide RevokeOneStep;
      MoveOk(RevokedToken(s, token), pid, f.(todo := f.todo - {token}));
    }
  }

  function RevokedToken(s: State, token: string): State {
    s.(store := Drop(s.store, Refresh(token)), revoked := s.revoked + {token})
  }

  lemma RevokedTokenOk(s: State, token: string)
    requires Inv(s) && token in s.lineage
    ensures Inv(RevokedToken(s, token))
  {
    hide Inv;
    DropTokenOk(s, token);
    RecordGoneOk(s.(store := Drop(s.store, Refresh(token))), RevokedToken(s, token), token);
  }

  /** Minting hands the chain from the request to the new token. */
  lemma MintOk(s: State, pid: nat, token: string)
    requires Inv(s)
    ensures Inv(MintStep(s, pid, token))
  {
    hide ToString;
    if token !in s.drawn && pid in s.flight && s.flight[pid].Minting? {
      assert FrameOk(s, pid, s.flight[pid]);
      hide Inv;
      MintedOk(s, pid, token);
      MintStepIsMinted(s, pid, token);
    }
    hide *;
  }

  lemma MintStepIsMinted(s: State, pid: nat, token: string)
    requires token !in s.drawn && pid in s.flight && s.flight[pid].Minting?
    ensures MintStep(s, pid, token) == MintedState(s, pid, token)
  {
  }

  function MintedState(s: State, pid: nat, token: string): State
    requires pid in s.flight && s.flight[pid].Minting?
  {
    var lin := s.flight[pid].lin;
    var text := ToString(lin.user);
    Move(s.(store := Put(s.store, Refresh(token), Text(text), At(s.store.now + REFRESH_TOKEN_TTL)),
            drawn := s.drawn + {token}, lineage := s.lineage[token := lin],
            custody := s.custody[lin.root := Tok(token)]), pid, Indexing(text, token))
  }

  lemma MintedOk(s: State, pid: nat, token: string)
    requires Inv(s) && token !in s.drawn && pid in s.flight && s.flight[pid].Minting? && LineageOk(s, s.flight[pid].lin)
    ensures Inv(MintedState(s, pid, token))
  {
    var s2 := MintedState(s, pid, token);
    MintedStore(s, pid, token);
    MintedGrows(s, pid, token);
    MintedFrame(s, pid, token);
    MintedHolder(s, pid, token);
    MintedTokens(s, pid, token);
    hide TokensOk, OneHolder, LineageOk, Held, MintedState, WellTyped, Grows;
    MfaSame(s, s2, pid);
    RequestsGrow(s, s2, pid);
  }

  lemma MintedStore(s: State, pid: nat, token: string)
    requires WellTyped(s.store) && pid in s.flight && s.flight[pid].Minting?
    ensures var s2 := MintedState(s, pid, token);
            && WellTyped(s2.store) && SameMfaKeys(s.store, s2.store) && s2.checks == s.checks
            && s2.mfaIssued == s.mfaIssued && s2.mfaSpent == s.mfaSpent && s2.mfaOf == s.mfaOf && s.drawn <= s2.drawn
            && s2.roots == s.roots && s2.started == s.started + {pid}
  {
    hide ToString;
  }

  lemma MintedFrame(s: State, pid: nat, token: string)
    requires pid in s.flight && s.flight[pid].Minting?
    ensures var s2 := MintedState(s, pid, token);
            OnlyActorMoved(s, s2, pid) && pid in s2.flight && FrameOk(s2, pid, s2.flight[pid])
  {
    hide ToString, IndexedTokens, LineageOk;
  }

  lemma MintedHolder(s: State, pid: nat, token: string)
    requires OneHolder(s) && pid in s.flight && s.flight[pid].Minting?
    ensures OneHolder(MintedState(s, pid, token))
  {
    hide ToString;
    var s2, lin := MintedState(s, pid, token), s.flight[pid].lin;
    assert Held(s, Req(pid)) == Some(lin);
    forall h | Held(s2, h).Some? && h != Tok(token)
      ensures Held(s2, h) == Held(s, h) && Held(s, h).value.root != lin.root
    {
      assert Held(s2, h) == Held(s, h) && h != Req(pid);
    }
    HolderTakesOver(s, s2, lin.root, Tok(token));
  }

  lemma MintedTokens(s: State, pid: nat, token: string)
    requires TokensOk(s) && token !in s.drawn && pid in s.flight && s.flight[pid].Minting?
    requires LineageOk(s, s.flight[pid].lin)
    ensures TokensOk(MintedState(s, pid, token))
  {
    hide ToString;
    var s2, lin := MintedState(s, pid, token), s.flight[pid].lin;
    MintedGrows(s, pid, token);
    MintedLineages(s, s2, pid, token);
    hide LineageOk, IndexedTokens, Grows;
  }

  lemma MintedGrows(s: State, pid: nat, token: string)
    requires TokensOk(s) && token !in s.drawn && pid in s.flight && s.flight[pid].Minting?
    ensures Grows(s, MintedState(s, pid, token), pid)
    ensures forall u :: IndexedTokens(MintedState(s, pid, token).store, u) == IndexedTokens(s.store, u)
  {
    hide ToString, LineageOk;
    forall u ensures IndexedTokens(MintedState(s, pid, token).store, u) == IndexedTokens(s.store, u) {
    }
  }

  lemma MintedLineages(s: State, s2: State, pid: nat, token: string)
    requires TokensOk(s) && Grows(s, s2, pid) && pid in s.flight && s.flight[pid].Minting?
    requires LineageOk(s, s.flight[pid].lin) && s2.lineage == s.lineage[token := s.flight[pid].lin]
    ensures forall t :: t in s2.lineage ==> LineageOk(s2, s2.lineage[t])
  {
    hide LineageOk, ToString, IndexedTokens, Grows;
    forall t | t in s2.lineage ensures LineageOk(s2, s2.lineage[t]) {
      LineageGrows(s, s2, pid, s2.lineage[t]);
    }
  }

  // ----- steps on second-factor sessions

  lemma TokensApart(s: State, s2: State)
    requires WellTyped(s.store) && TokensOk(s) && OneHolder(s) && SameTokenKeys(s.store, s2.store)
    requires Grows(s, s2, 0) && s.drawn <= s2.drawn && s2.flight == s.flight && s2.custody == s.custody
    requires s2.lineage == s.lineage && s2.spent == s.spent && s2.revoked == s.revoked
    ensures TokensOk(s2) && OneHolder(s2)
  {
    TokensSame(s, s2, 0);
    forall h ensures Held(s2, h) == Held(s, h) {
      if h.Tok? {
        assert Refresh(h.token).Refresh?;
      }
    }
    hide TokensOk;
    HoldersOnlyLeave(s, s2);
  }

  lemma MfaRequests(s: State, s2: State)
    requires RequestsOk(s) && Grows(s, s2, 0) && s2.flight == s.flight && s2.started == s.started
    requires s2.roots == s.roots && s2.checks == s.checks && s2.mfaOf == s.mfaOf
    ensures RequestsOk(s2)
  {
    forall p | p in s2.flight ensures FrameOk(s2, p, s2.flight[p]) {
      assert FrameOk(s, p, s.flight[p]);
      if FrameLineage(s.flight[p]).Some? {
        LineageGrows(s, s2, 0, FrameLineage(s.flight[p]).value);
      }
    }
  }

  /** A second-factor session that is consumed or expires. */
  lemma DropMfaOk(s: State, m: string)
    requires Inv(s)
    ensures Inv(s.(store := Drop(s.store, MfaSession(m))))
  {
    var s2 := s.(store := Drop(s.store, MfaSession(m)));
    DropMfaParts(s, m);
    hide WellTyped, MfaOk, SameTokenKeys, Grows, Drop;
    TokensApart(s, s2);
    MfaRequests(s, s2);
    hide *;
  }

  lemma DropMfaParts(s: State, m: string)
    requires WellTyped(s.store) && MfaOk(s)
    ensures var s2 := s.(store := Drop(s.store, MfaSession(m)));
            WellTyped(s2.store) && Grows(s, s2, 0) && SameTokenKeys(s.store, s2.store) && MfaOk(s2)
  {
    hide ToString;
    var s2 := s.(store := Drop(s.store, MfaSession(m)));
    DropMfaRoots(s, s2);
    assert MfaOk(s2) by {
      hide WellTyped, Grows, SameTokenKeys, HowOk;
    }
    hide MfaOk;
  }

  lemma DropMfaRoots(s: State, s2: State)
    requires MfaOk(s) && s2 == s.(store := s2.store)
    ensures forall p :: p in s2.roots ==> HowOk(s2, p)
  {
    forall p | p in s2.roots ensures HowOk(s2, p) {
      assert HowOk(s, p);
    }
  }

  /** A session that was in the store a moment ago goes down as spent. */
  lemma RecordMfaOk(s: State, pid: nat, m: string)
    requires Inv(s) && m in s.mfaIssued && m !in s.mfaSpent && MfaSession(m) !in s.store.data
    requires s.store.now < s.mfaIssued[m].at + MFA_SESSION_TTL
    ensures Inv(s.(mfaSpent := s.mfaSpent[m := Spend(pid, s.store.now)]))
  {
    var s2 := s.(mfaSpent := s.mfaSpent[m := Spend(pid, s.store.now)]);
    RecordMfaParts(s, pid, m);
    hide WellTyped, MfaOk, SameTokenKeys, Grows;
    TokensApart(s, s2);
    MfaRequests(s, s2);
    hide *;
  }

  lemma RecordMfaParts(s: State, pid: nat, m: string)
    requires MfaOk(s) && m in s.mfaIssued && m !in s.mfaSpent && MfaSession(m) !in s.store.data
    requires s.store.now < s.mfaIssued[m].at + MFA_SESSION_TTL
    ensures var s2 := s.(mfaSpent := s.mfaSpent[m := Spend(pid, s.store.now)]);
            Grows(s, s2, 0) && SameTokenKeys(s.store, s2.store) && MfaOk(s2)
  {
    hide ToString;
    var s2 := s.(mfaSpent := s.mfaSpent[m := Spend(pid, s.store.now)]);
    forall p | p in s2.roots ensures HowOk(s2, p) {
      assert HowOk(s, p);
    }
  }

  lemma ConsumeMfa(s: State, m: string)
    requires Inv(s)
    ensures var (after, text) := Consume(s.store, MfaSession(m));
            && after == Drop(s.store, MfaSession(m))
            && (text.Some? ==>
                  && m in s.mfaIssued && m !in s.mfaSpent && text == Some(ToString(s.mfaIssued[m].user))
                  && s.store.now < s.mfaIssued[m].at + MFA_SESSION_TTL)
  {
    if MfaSession(m) !in s.store.data {
      assert Drop(s.store, MfaSession(m)) == s.store;
    }
  }

  lemma SpendMfaOk(s: State, pid: nat, token: string)
    requires Inv(s)
    ensures Inv(SpendMfaStep(s, pid, token))
  {
    hide Consume, Parse, ToString;
    if pid !in s.started {
      var (after, text) := Consume(s.store, MfaSession(token));
      ConsumeMfa(s, token);
      DropMfaOk(s, token);
      var s1 := s.(store := after);
      if text.None? {
        EndOk(s1, pid);
      } else {
        RecordMfaOk(s1, pid, token);
        var user := s.mfaIssued[token].user;
        ParseToString(user);
        StartOk(s1.(mfaSpent := s1.mfaSpent[token := Spend(pid, s.store.now)]), pid, SecondFactor(user, token));
      }
    }
    hide Inv;
  }

  /** Login hands out a session; the request is done with. */
  lemma StoreMfaOk(s: State, pid: nat, token: string)
    requires Inv(s)
    ensures Inv(StoreMfaStep(s, pid, token))
  {
    hide ToString, WellTyped, OneHolder, TokensOk, MfaOk;
    if token !in s.drawn && pid in s.flight && s.flight[pid].PasswordOk? {
      assert FrameOk(s, pid, s.flight[pid]);
      hide Inv;
      EndOk(s, pid);
      StoreMfaIsIssued(s, pid, token);
      hide StoreMfaStep, Issued;
      IssuedOk(End(s, pid), pid, s.flight[pid].user, token);
    }
    hide Inv;
  }

  lemma StoreMfaIsIssued(s: State, pid: nat, token: string)
    requires token !in s.drawn && pid in s.flight && s.flight[pid].PasswordOk?
    ensures StoreMfaStep(s, pid, token) == Issued(End(s, pid), pid, s.flight[pid].user, token)
  {
    hide ToString;
  }

  function Issued(s: State, pid: nat, user: Uuid, token: string): State {
    s.(store := Put(s.store, MfaSession(token), Text(ToString(user)), At(s.store.now + MFA_SESSION_TTL)),
       drawn := s.drawn + {token}, mfaOf := s.mfaOf[pid := token],
       mfaIssued := s.mfaIssued[token := MfaIssue(pid, user, s.store.now)])
  }

  lemma IssuedOk(s: State, pid: nat, user: Uuid, token: string)
    requires Inv(s) && token !in s.drawn && pid in s.started && pid !in s.flight
    requires pid in s.checks && s.checks[pid].user == user && s.checks[pid].at <= s.store.now && pid !in s.mfaOf
    ensures Inv(Issued(s, pid, user, token))
  {
    var s2 := Issued(s, pid, user, token);
    IssuedMfa(s, pid, user, token);
    IssuedFrame(s, pid, user, token);
    hide MfaOk, Issued, ToString, Grows, SameTokenKeys, WellTyped;
    IssuedTokens(s, s2, pid);
    IssuedRequests(s, s2, pid);
  }

  lemma IssuedRoots(s: State, pid: nat, user: Uuid, token: string)
    requires MfaOk(s) && token !in s.drawn && pid !in s.mfaOf
    ensures forall p :: p in s.roots ==> HowOk(Issued(s, pid, user, token), p)
  {
    hide ToString, Put;
    forall p | p in s.roots ensures HowOk(Issued(s, pid, user, token), p) {
      assert HowOk(s, p);
    }
  }

  lemma IssuedMfa(s: State, pid: nat, user: Uuid, token: string)
    requires MfaOk(s) && token !in s.drawn
    requires pid in s.checks && s.checks[pid].user == user && s.checks[pid].at <= s.store.now && pid !in s.mfaOf
    ensures MfaOk(Issued(s, pid, user, token))
  {
    hide ToString;
    IssuedRoots(s, pid, user, token);
    hide HowOk;
  }

  lemma IssuedFrame(s: State, pid: nat, user: Uuid, token: string)
    requires WellTyped(s.store) && MfaOk(s) && token !in s.drawn && pid !in s.mfaOf
    ensures var s2 := Issued(s, pid, user, token);
            && WellTyped(s2.store) && Grows(s, s2, pid) && SameTokenKeys(s.store, s2.store)
            && s2.flight == s.flight && s2.started == s.started && s2.roots == s.roots && s2.checks == s.checks
            && s2.custody == s.custody && s2.lineage == s.lineage && s2.spent == s.spent && s2.revoked == s.revoked
            && s.drawn <= s2.drawn
  {
    hide ToString;
  }

  lemma IssuedTokens(s: State, s2: State, pid: nat)
    requires WellTyped(s.store) && TokensOk(s) && OneHolder(s) && SameTokenKeys(s.store, s2.store)
    requires Grows(s, s2, pid) && s.drawn <= s2.drawn && s2.flight == s.flight && s2.custody == s.custody
    requires s2.lineage == s.lineage && s2.spent == s.spent && s2.revoked == s.revoked
    ensures TokensOk(s2) && OneHolder(s2)
  {
    TokensSame(s, s2, pid);
    forall h ensures Held(s2, h) == Held(s, h) {
      if h.Tok? {
        assert Refresh(h.token).Refresh?;
      }
    }
    hide TokensOk;
    HoldersOnlyLeave(s, s2);
  }

  lemma IssuedRequests(s: State, s2: State, pid: nat)
    requires RequestsOk(s) && Grows(s, s2, pid) && s2.flight == s.flight && s2.started == s.started
    requires s2.roots == s.roots && s2.checks == s.checks && pid !in s.flight && pid in s.started
    ensures RequestsOk(s2)
  {
    assert s2.started == s.started + {pid};
    RequestsGrow(s, s2, pid);
  }

  // ----- every step, and so every run

  lemma NextOk(s: State, crypto: Crypto, a: Action)
    requires Inv(s)
    ensures Inv(Next(s, crypto, a))
  {
    hide Inv, LoginPlainStep, LoginTotpStep, StoreMfaStep, SpendMfaStep, FactorStep, GoogleStep, MintStep, IndexStep;
    hide RotateStep, UnindexStep, LookUpStep, LogoutSpendStep, LogoutUnindexStep, RevokeListStep, RevokeOneStep;
    hide RevokeIndexStep, Exec, CommandFits;
    match a
    case Tick(d) => TickOk(s, d);
    case Foreign(c) => if IsForeign(c.key) && CommandFits(c) { ForeignOk(s, c); }
    case LoginPlain(pid, user, row, password) => SignInOk(s, crypto, a);
    case LoginTotp(pid, user, row, password) => SignInOk(s, crypto, a);
    case StoreMfa(pid, token) => StoreMfaOk(s, pid, token);
    case SpendMfa(pid, token) => SpendMfaOk(s, pid, token);
    case TotpOk(pid, row, code) => FactorOk(s, crypto, pid, TotpCode(row, code));
    case RecoveryOk(pid, hash, code) => FactorOk(s, crypto, pid, BackupCode(hash, code));
    case GoogleOk(pid, user) => SignInOk(s, crypto, a);
    case Mint(pid, token) => MintOk(s, pid, token);
    case Index(pid) => IndexOk(s, pid);
    case Rotate(pid, token) => RotateOk(s, pid, token);
    case Unindex(pid, delivered) => UnindexOk(s, pid, delivered);
    case LookUp(pid, found) => LookedUpOk(s, pid, found);
    case LogoutSpend(pid, token) => LogoutSpendOk(s, pid, token);
    case LogoutUnindex(pid) => LogoutUnindexOk(s, pid);
    case RevokeList(pid, text) => RevokeListOk(s, pid, text);
    case RevokeOne(pid, token) => RevokeOneOk(s, pid, token);
    case RevokeIndex(pid) => RevokeIndexOk(s, pid);
    case Abandon(pid) => EndOk(s, pid);
  }

  lemma SignInOk(s: State, crypto: Crypto, a: Action)
    requires Inv(s) && (a.LoginPlain? || a.LoginTotp? || a.GoogleOk?)
    ensures Inv(Next(s, crypto, a))
  {
    assert s.roots.Keys <= s.started;
    hide Inv, PasswordPasses, Authenticated;
    if a.pid !in s.started {
      match a
      case LoginPlain(pid, user, row, password) =>
        AuthenticatedOk(s, pid, user, PasswordOnly(Check(user, row, password, s.store.now)));
      case LoginTotp(pid, user, row, password) => LoginTotpOk(s, pid, user, row, password);
      case GoogleOk(pid, user) => AuthenticatedOk(s, pid, user, Google);
    }
  }

  lemma FactorOk(s: State, crypto: Crypto, pid: nat, factor: Factor)
    requires Inv(s)
    ensures Inv(FactorStep(s, crypto, pid, factor))
  {
    hide FactorRight;
    if pid in s.flight && s.flight[pid].SecondFactor? {
      assert FrameOk(s, pid, s.flight[pid]);
      hide Inv, Authenticated;
      AuthenticatedOk(s, pid, s.flight[pid].user, TwoFactor(s.flight[pid].mfa, factor));
    }
    hide *;
  }

  lemma LookedUpOk(s: State, pid: nat, found: bool)
    requires Inv(s)
    ensures Inv(LookUpStep(s, pid, found))
  {
    hide Inv, Parse;
    if pid in s.flight && s.flight[pid].LookingUp? {
      LookUpOk(s, pid);
      EndOk(s, pid);
    }
  }

  lemma IndexOk(s: State, pid: nat)
    requires Inv(s)
    ensures Inv(IndexStep(s, pid))
  {
    if pid in s.flight && s.flight[pid].Indexing? {
      assert FrameOk(s, pid, s.flight[pid]);
      hide Inv, Do;
      IndexCommandOk(s, SAdd(UserSessions(s.flight[pid].text), s.flight[pid].token));
      EndOk(Do(s, SAdd(UserSessions(s.flight[pid].text), s.flight[pid].token)), pid);
    }
  }

  lemma UnindexOk(s: State, pid: nat, delivered: bool)
    requires Inv(s)
    ensures Inv(UnindexStep(s, pid, delivered))
  {
    if pid in s.flight && s.flight[pid].Rotating? {
      var f := s.flight[pid];
      var s1 := if delivered then Do(s, SRem(UserSessions(f.text), f.token)) else s;
      IndexCommandOk(s, SRem(UserSessions(f.text), f.token));
      assert FrameOk(s1, pid, f);
      hide Inv, Do;
      MoveOk(s1, pid, LookingUp(f.token, f.text, f.lin));
    }
  }

  lemma LogoutUnindexOk(s: State, pid: nat)
    requires Inv(s)
    ensures Inv(LogoutUnindexStep(s, pid))
  {
    hide Inv, Do;
    if pid in s.flight && s.flight[pid].LoggingOut? {
      IndexCommandOk(s, SRem(UserSessions(s.flight[pid].text), s.flight[pid].token));
      EndOk(Do(s, SRem(UserSessions(s.flight[pid].text), s.flight[pid].token)), pid);
    }
  }

  lemma RevokeIndexOk(s: State, pid: nat)
    requires Inv(s)
    ensures Inv(RevokeIndexStep(s, pid))
  {
    hide Inv, Do;
    if pid in s.flight && s.flight[pid].Revoking? {
      IndexCommandOk(s, Del(UserSessions(s.flight[pid].text)));
      EndOk(Do(s, Del(UserSessions(s.flight[pid].text))), pid);
    }
  }

  lemma {:induction false} RunOk(s: State, crypto: Crypto, actions: seq<Action>)
    requires Inv(s)
    ensures Inv(Run(s, crypto, actions))
    decreases |actions|
  {
    hide Inv, Next;
    if actions != [] {
      NextOk(s, crypto, actions[0]);
      RunOk(Next(s, crypto, actions[0]), crypto, actions[1..]);
    }
  }
}
