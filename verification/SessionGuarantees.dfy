/** What the interleaved session machine guarantees over every run. */
module SessionGuarantees {
  import opened Common
  import opened Uuids
  import opened Keyspace
  import opened Keys
  import opened Tokens
  import opened UserTables
  import opened Worlds
  import opened Sessions
  import Login

  ghost predicate Reachable(s: State, crypto: Crypto) {
    exists actions :: s == Run(Init(), crypto, actions)
  }

  lemma ReachableOk(s: State, crypto: Crypto)
    requires Reachable(s, crypto)
    ensures Inv(s)
  {
    hide Inv, Run, Init;
    var actions :| s == Run(Init(), crypto, actions);
    InitOk();
    RunOk(Init(), crypto, actions);
  }

  // ----- sessions are not multiplied

  /** Live refresh tokens of the user, and requests that hold a chain of theirs and have yet to store its next token. */
  function SessionsOf(s: State, user: Uuid): set<Holder> {
    (set k | k in s.store.data && k.Refresh? && Lookup(s.store, k) == Some(Text(ToString(user))) :: Tok(k.token))
    + (set p | p in s.flight && FrameLineage(s.flight[p]).Some?
               && FrameLineage(s.flight[p]).value.user == user :: Req(p))
  }

  function SignIns(s: State, user: Uuid): set<nat> {
    set r | r in s.roots && s.roots[r].user == user
  }

  ghost predicate Covers<R, H>(rs: set<R>, m: map<R, H>, hs: set<H>) {
    forall h :: h in hs ==> exists r :: r in rs && r in m && m[r] == h
  }

  lemma {:induction false} CoverIsLarger<R, H>(rs: set<R>, m: map<R, H>, hs: set<H>)
    requires Covers(rs, m, hs)
    ensures |hs| <= |rs|
    decreases |hs|
  {
    if hs != {} {
      var h :| h in hs;
      var r :| r in rs && r in m && m[r] == h;
      forall h2 | h2 in hs - {h} ensures exists r2 :: r2 in rs - {r} && r2 in m && m[r2] == h2 {
        var r2 :| r2 in rs && r2 in m && m[r2] == h2;
        assert r2 in rs - {r};
      }
      CoverIsLarger(rs - {r}, m, hs - {h});
    }
  }

  lemma SessionHasSignIn(s: State, user: Uuid, h: Holder)
    requires Inv(s) && h in SessionsOf(s, user)
    ensures Held(s, h).Some?
    ensures var r := Held(s, h).value.root; r in SignIns(s, user) && r in s.custody && s.custody[r] == h
  {
    hide ToString, Parse;
    if h.Tok? {
      assert Lookup(s.store, Refresh(h.token)) == Some(Text(ToString(user)));
      ParseToString(user);
      ParseToString(s.lineage[h.token].user);
    }
    HeldIsOk(s, h);
  }

  /**
   Rotation never multiplies sessions: in every interleaving, the live refresh tokens of a user together with the
   requests on their way to storing one are no more than the sign-ins of that user.
   */
  lemma SessionsNeverMultiply(s: State, crypto: Crypto, user: Uuid)
    requires Reachable(s, crypto)
    ensures |SessionsOf(s, user)| <= |SignIns(s, user)|
  {
    ReachableOk(s, crypto);
    hide Reachable, Inv, Held, SessionsOf, SignIns;
    forall h | h in SessionsOf(s, user)
      ensures exists r :: r in SignIns(s, user) && r in s.custody && s.custody[r] == h
    {
      SessionHasSignIn(s, user, h);
      assert Held(s, h).value.root in SignIns(s, user);
    }
    CoverIsLarger(SignIns(s, user), s.custody, SessionsOf(s, user));
  }

  // ----- where tokens come from

  /** Every stored refresh token descends from one sign-in of the user it names, through tokens that were consumed. */
  lemma Provenance(s: State, crypto: Crypto, token: string)
    requires Reachable(s, crypto) && Refresh(token) in s.store.data
    ensures token in s.lineage
    ensures var lin := s.lineage[token];
            && s.store.data[Refresh(token)].value == Text(ToString(lin.user))
            && lin.root in s.roots && s.roots[lin.root].user == lin.user
            && token !in lin.chain && token !in s.spent
            && (forall i :: 0 <= i < |lin.chain| ==>
                  lin.chain[i] in s.spent && lin.chain[i] in s.lineage
                  && s.lineage[lin.chain[i]] == Lineage(lin.root, lin.user, lin.chain[..i]))
            && (forall i, j :: 0 <= i < j < |lin.chain| ==> lin.chain[i] != lin.chain[j])
  {
    ReachableOk(s, crypto);
    hide Reachable, ToString, OneHolder, RequestsOk, MfaOk, WellTyped;
    var lin := s.lineage[token];
    assert LineageOk(s, lin);
    forall i | 0 <= i < |lin.chain|
      ensures lin.chain[i] in s.spent && lin.chain[i] in s.lineage
              && s.lineage[lin.chain[i]] == Lineage(lin.root, lin.user, lin.chain[..i])
    {
      assert LinkOk(s, lin, i);
    }
    hide Inv;
    forall i, j | 0 <= i < j < |lin.chain| ensures lin.chain[i] != lin.chain[j] {
      assert |s.lineage[lin.chain[i]].chain| == i && |s.lineage[lin.chain[j]].chain| == j;
    }
  }

  // ----- what is over stays over

  /** Consumed and revoked tokens and consumed second-factor sessions keep their record, and are in no store. */
  ghost predicate Kept(s: State, s2: State) {
    && (forall t :: t in s.spent ==> t in s2.spent && s2.spent[t] == s.spent[t])
    && s.revoked <= s2.revoked
    && (forall m :: m in s.mfaSpent ==> m in s2.mfaSpent && s2.mfaSpent[m] == s.mfaSpent[m])
  }

  lemma NextKeeps(s: State, crypto: Crypto, a: Action)
    requires Inv(s)
    ensures Kept(s, Next(s, crypto, a))
  {
    hide *;
    match a
    case Rotate(_, _) => SpendsOnce(s, crypto, a);
    case LogoutSpend(_, _) => SpendsOnce(s, crypto, a);
    case SpendMfa(_, _) => SpendsOnce(s, crypto, a);
    case _ =>
      RecordsStay(s, crypto, a);
      RecordsAreKept(s, Next(s, crypto, a));
  }

  lemma RecordsAreKept(s: State, s2: State)
    requires SameRecords(s, s2)
    ensures Kept(s, s2)
  {
  }

  lemma SpendsOnce(s: State, crypto: Crypto, a: Action)
    requires Inv(s) && (a.Rotate? || a.LogoutSpend? || a.SpendMfa?)
    ensures Kept(s, Next(s, crypto, a))
  {
    hide Inv, Kept, LoginPlainStep, LoginTotpStep, StoreMfaStep, SpendMfaStep, FactorStep, GoogleStep;
    hide MintStep, IndexStep, RotateStep, UnindexStep, LookUpStep, LogoutSpendStep, LogoutUnindexStep, RevokeListStep;
    hide RevokeOneStep, RevokeIndexStep, Do, CommandFits;
    match a
    case Rotate(pid, token) => RotateKeeps(s, pid, token);
    case LogoutSpend(pid, token) => LogoutSpendKeeps(s, pid, token);
    case SpendMfa(pid, token) => SpendMfaKeeps(s, pid, token);
  }

  lemma RecordsStay(s: State, crypto: Crypto, a: Action)
    requires !a.Rotate? && !a.LogoutSpend? && !a.SpendMfa?
    ensures SameRecords(s, Next(s, crypto, a))
  {
    hide LoginPlainStep, LoginTotpStep, StoreMfaStep, SpendMfaStep, FactorStep, GoogleStep;
    hide MintStep, IndexStep, RotateStep, UnindexStep, LookUpStep, LogoutSpendStep, LogoutUnindexStep, RevokeListStep;
    hide RevokeOneStep, RevokeIndexStep, Do, End, CommandFits;
  }

  lemma OneMoreSpent(s: State, s2: State, pid: nat, token: string)
    requires s2.mfaSpent == s.mfaSpent && s.revoked <= s2.revoked
    requires s2.spent == s.spent || (s2.spent == s.spent[token := pid] && token !in s.spent)
    ensures Kept(s, s2)
  {
  }

  lemma RotateKeeps(s: State, pid: nat, token: string)
    requires Inv(s)
    ensures Kept(s, RotateStep(s, pid, token))
  {
    hide Inv, Kept, Consume, Drop;
    ConsumeIsDrop(s, token);
    if pid in s.started || Consume(s.store, Refresh(token)).1.None? {
      RotateMisses(s, pid, token);
      hide RotateStep;
      OneMoreSpent(s, RotateStep(s, pid, token), pid, token);
    } else {
      RotateFinds(s, pid, token);
      hide RotateStep;
      OneMoreSpent(s, RotateStep(s, pid, token), pid, token);
    }
  }

  lemma RotateMisses(s: State, pid: nat, token: string)
    requires pid in s.started || Consume(s.store, Refresh(token)).1.None?
    ensures SameRecords(s, RotateStep(s, pid, token))
  {
    hide Consume, Drop;
  }

  lemma RotateFinds(s: State, pid: nat, token: string)
    requires pid !in s.started && Consume(s.store, Refresh(token)).1.Some? && token in s.lineage
    ensures var s2 := RotateStep(s, pid, token);
            s2.mfaSpent == s.mfaSpent && s.revoked <= s2.revoked && s2.spent == s.spent[token := pid]
  {
    hide Consume, Drop, Move, PickedUp;
  }

  lemma LogoutSpendKeeps(s: State, pid: nat, token: string)
    requires Inv(s)
    ensures Kept(s, LogoutSpendStep(s, pid, token))
  {
    hide Inv, Kept, Consume, Drop;
    ConsumeIsDrop(s, token);
    if pid in s.started || Consume(s.store, Refresh(token)).1.None? {
      LogoutMisses(s, pid, token);
      hide LogoutSpendStep;
      OneMoreSpent(s, LogoutSpendStep(s, pid, token), pid, token);
    } else {
      LogoutFinds(s, pid, token);
      hide LogoutSpendStep;
      OneMoreSpent(s, LogoutSpendStep(s, pid, token), pid, token);
    }
  }

  lemma LogoutMisses(s: State, pid: nat, token: string)
    requires pid in s.started || Consume(s.store, Refresh(token)).1.None?
    ensures SameRecords(s, LogoutSpendStep(s, pid, token))
  {
    hide Consume, Drop;
  }

  lemma LogoutFinds(s: State, pid: nat, token: string)
    requires pid !in s.started && Consume(s.store, Refresh(token)).1.Some?
    ensures var s2 := LogoutSpendStep(s, pid, token);
            s2.mfaSpent == s.mfaSpent && s.revoked <= s2.revoked && s2.spent == s.spent[token := pid]
  {
    hide Consume, Drop, Move;
  }

  lemma OneMoreMfaSpent(s: State, s2: State, spend: Spend, m: string)
    requires s2.spent == s.spent && s.revoked <= s2.revoked
    requires s2.mfaSpent == s.mfaSpent || (s2.mfaSpent == s.mfaSpent[m := spend] && m !in s.mfaSpent)
    ensures Kept(s, s2)
  {
  }

  lemma SpendMfaKeeps(s: State, pid: nat, m: string)
    requires Inv(s)
    ensures Kept(s, SpendMfaStep(s, pid, m))
  {
    hide Inv, Kept, Consume, Drop;
    ConsumeMfa(s, m);
    if pid in s.started || Consume(s.store, MfaSession(m)).1.None? {
      MfaMisses(s, pid, m);
      hide SpendMfaStep;
      OneMoreMfaSpent(s, SpendMfaStep(s, pid, m), Spend(pid, s.store.now), m);
    } else {
      MfaFinds(s, pid, m);
      hide SpendMfaStep;
      OneMoreMfaSpent(s, SpendMfaStep(s, pid, m), Spend(pid, s.store.now), m);
    }
  }

  lemma MfaMisses(s: State, pid: nat, m: string)
    requires pid in s.started || Consume(s.store, MfaSession(m)).1.None?
    ensures SameRecords(s, SpendMfaStep(s, pid, m))
  {
    hide Consume, Parse;
  }

  lemma MfaFinds(s: State, pid: nat, m: string)
    requires pid !in s.started && Consume(s.store, MfaSession(m)).1.Some?
    ensures var s2 := SpendMfaStep(s, pid, m);
            && s2.spent == s.spent && s2.revoked == s.revoked
            && s2.mfaSpent == s.mfaSpent[m := Spend(pid, s.store.now)]
  {
    hide Consume, Parse, SpendMfaStep;
    if Parse(Consume(s.store, MfaSession(m)).1.value).None? {
      MfaFindsNobody(s, pid, m);
    } else {
      MfaFindsUser(s, pid, m);
    }
  }

  lemma MfaFindsNobody(s: State, pid: nat, m: string)
    requires pid !in s.started && Consume(s.store, MfaSession(m)).1.Some?
    requires Parse(Consume(s.store, MfaSession(m)).1.value).None?
    ensures var s2 := SpendMfaStep(s, pid, m);
            && s2.spent == s.spent && s2.revoked == s.revoked
            && s2.mfaSpent == s.mfaSpent[m := Spend(pid, s.store.now)]
  {
    hide Consume, Parse;
  }

  lemma MfaFindsUser(s: State, pid: nat, m: string)
    requires pid !in s.started && Consume(s.store, MfaSession(m)).1.Some?
    requires Parse(Consume(s.store, MfaSession(m)).1.value).Some?
    ensures var s2 := SpendMfaStep(s, pid, m);
            && s2.spent == s.spent && s2.revoked == s.revoked
            && s2.mfaSpent == s.mfaSpent[m := Spend(pid, s.store.now)]
  {
    hide Consume, Parse;
  }

  lemma {:induction false} RunKeeps(s: State, crypto: Crypto, actions: seq<Action>)
    requires Inv(s)
    ensures Kept(s, Run(s, crypto, actions)) && Inv(Run(s, crypto, actions))
    decreases |actions|
  {
    hide Inv, Next;
    if actions != [] {
      NextKeeps(s, crypto, actions[0]);
      NextOk(s, crypto, actions[0]);
      RunKeeps(Next(s, crypto, actions[0]), crypto, actions[1..]);
    }
  }

  /** A refresh token is consumed once: whoever did it stays on record and the token is never stored again. */
  lemma ConsumedStaysConsumed(s: State, crypto: Crypto, token: string, actions: seq<Action>)
    requires Reachable(s, crypto) && token in s.spent
    ensures var s2 := Run(s, crypto, actions);
            Refresh(token) !in s2.store.data && token in s2.spent && s2.spent[token] == s.spent[token]
  {
    hide Run, Reachable;
    ReachableOk(s, crypto);
    RunKeeps(s, crypto, actions);
  }

  /** Once the DEL of every listed token has been sent, each of them is dead for good, whatever else is in flight. */
  lemma RevokedStaysRevoked(s: State, crypto: Crypto, pid: nat, actions: seq<Action>)
    requires Reachable(s, crypto) && pid in s.flight && s.flight[pid].Revoking? && s.flight[pid].todo == {}
    ensures forall t :: t in s.flight[pid].seen ==> Refresh(t) !in Run(s, crypto, actions).store.data
  {
    hide Run, Reachable;
    ReachableOk(s, crypto);
    RunKeeps(s, crypto, actions);
    assert FrameOk(s, pid, s.flight[pid]);
  }

  lemma NextStores(s: State, crypto: Crypto, pid: nat, token: string, found: bool)
    ensures Next(s, crypto, LookUp(pid, found)) == LookUpStep(s, pid, found)
    ensures Next(s, crypto, Mint(pid, token)) == MintStep(s, pid, token)
    ensures Next(s, crypto, Index(pid)) == IndexStep(s, pid)
  {
  }

  lemma NextRotates(s: State, crypto: Crypto, pid: nat, token: string)
    ensures Next(s, crypto, Rotate(pid, token)) == RotateStep(s, pid, token)
    ensures Next(s, crypto, Unindex(pid, true)) == UnindexStep(s, pid, true)
  {
    hide RotateStep, UnindexStep;
  }

  lemma NextRevokes(s: State, crypto: Crypto, pid: nat, text: string)
    ensures Next(s, crypto, RevokeList(pid, text)) == RevokeListStep(s, pid, text)
    ensures Next(s, crypto, RevokeIndex(pid)) == RevokeIndexStep(s, pid)
  {
    hide RevokeListStep, RevokeIndexStep;
  }

  const SOMEONE: Uuid :=
    [0, 0, 0, 0, 0, 0, 0, 0, 0, 0, 0, 0, 0, 0, 0, 0, 0, 0, 0, 0, 0, 0, 0, 0, 0, 0, 0, 0, 0, 0, 0, 0]

  function Race(): seq<Action> {
    [GoogleOk(0, SOMEONE), Mint(0, "t"), RevokeList(1, ToString(SOMEONE)), Index(0), RevokeIndex(1)]
  }

  /**
   The listing and the deletions are not isolated from a sign-in: when the index entry is added in between, the
   revocation deletes the index with it. The token stays live, and no later revocation can find it.
   */
  lemma SignInEscapesRevocation(crypto: Crypto)
    ensures var s := Run(Init(), crypto, Race());
            && Live(s.store, Refresh("t")) && s.store.data[Refresh("t")].value == Text(ToString(SOMEONE))
            && IndexedTokens(s.store, ToString(SOMEONE)) == {} && 0 !in s.flight && 1 !in s.flight
            && Refresh("t") in RevokeAll(s.store, ToString(SOMEONE)).data
  {
    hide *;
    var s2 := SignInBegins(crypto);
    AfterMint(s2, crypto, ToString(SOMEONE));
    Escaped(crypto, s2);
  }

  lemma SignInBegins(crypto: Crypto) returns (s2: State)
    ensures s2 == Next(Next(Init(), crypto, GoogleOk(0, SOMEONE)), crypto, Mint(0, "t"))
    ensures 0 in s2.flight && s2.flight[0] == Indexing(ToString(SOMEONE), "t") && 1 !in s2.started
    ensures s2.store == Store(0, map[Refresh("t") := Entry(Text(ToString(SOMEONE)), At(REFRESH_TOKEN_TTL))])
  {
    hide ToString, Next, SOMEONE;
    var s1 := GoogleStep(Init(), 0, SOMEONE);
    GoogleIs(Init(), crypto, 0, SOMEONE);
    NextStores(s1, crypto, 0, "t", true);
    s2 := MintStep(s1, 0, "t");
  }

  lemma GoogleIs(s: State, crypto: Crypto, pid: nat, user: Uuid)
    ensures Next(s, crypto, GoogleOk(pid, user)) == GoogleStep(s, pid, user)
  {
  }

  lemma Escaped(crypto: Crypto, s2: State)
    requires s2 == Next(Next(Init(), crypto, GoogleOk(0, SOMEONE)), crypto, Mint(0, "t"))
    requires s2.store == Store(0, map[Refresh("t") := Entry(Text(ToString(SOMEONE)), At(REFRESH_TOKEN_TTL))])
    requires var text := ToString(SOMEONE);
             var s5 := Next(Next(Next(s2, crypto, RevokeList(1, text)), crypto, Index(0)), crypto, RevokeIndex(1));
             0 !in s5.flight && 1 !in s5.flight && s5.store == s2.store
    ensures var s := Run(Init(), crypto, Race());
            && Live(s.store, Refresh("t")) && s.store.data[Refresh("t")].value == Text(ToString(SOMEONE))
            && IndexedTokens(s.store, ToString(SOMEONE)) == {} && 0 !in s.flight && 1 !in s.flight
            && Refresh("t") in RevokeAll(s.store, ToString(SOMEONE)).data
  {
    hide ToString, Next, SOMEONE, Init, Run;
    UnrollFive(Init(), crypto, Race());
  }

  /** The revocation lists nothing, the sign-in adds its entry, the revocation drops the index. */
  lemma AfterMint(s: State, crypto: Crypto, text: string)
    requires 0 in s.flight && s.flight[0] == Indexing(text, "t") && 1 !in s.started
    requires UserSessions(text) !in s.store.data
    ensures var s5 := Next(Next(Next(s, crypto, RevokeList(1, text)), crypto, Index(0)), crypto, RevokeIndex(1));
            0 !in s5.flight && 1 !in s5.flight && s5.store == s.store
  {
    hide *;
    var s3 := ListsNothing(s, crypto, text);
    var s4 := IndexesOne(s3, crypto, text);
    DropsIndex(s.store, s4, crypto, text);
  }

  lemma ListsNothing(s: State, crypto: Crypto, text: string) returns (s3: State)
    requires 1 !in s.started && UserSessions(text) !in s.store.data
    ensures s3 == Next(s, crypto, RevokeList(1, text))
    ensures 1 in s3.flight && s3.flight[1] == Revoking(text, {}, {}) && s3.store == s.store
    ensures 0 in s.flight ==> 0 in s3.flight && s3.flight[0] == s.flight[0]
  {
    hide Next;
    NextRevokes(s, crypto, 1, text);
    s3 := RevokeListStep(s, 1, text);
  }

  lemma IndexesOne(s: State, crypto: Crypto, text: string) returns (s4: State)
    requires 0 in s.flight && s.flight[0] == Indexing(text, "t") && UserSessions(text) !in s.store.data && 1 in s.flight
    ensures s4 == Next(s, crypto, Index(0))
    ensures 0 !in s4.flight && 1 in s4.flight && s4.flight[1] == s.flight[1]
    ensures s4.store == Put(s.store, UserSessions(text), Members({"t"}), Never)
  {
    hide Next;
    NextStores(s, crypto, 0, text, true);
    s4 := IndexStep(s, 0);
  }

  lemma DropsIndex(before: Store<Key>, s: State, crypto: Crypto, text: string)
    requires 0 !in s.flight && 1 in s.flight && s.flight[1] == Revoking(text, {}, {})
    requires UserSessions(text) !in before.data && s.store == Put(before, UserSessions(text), Members({"t"}), Never)
    ensures var s5 := Next(s, crypto, RevokeIndex(1));
            0 !in s5.flight && 1 !in s5.flight && s5.store == before
  {
    hide Next;
    NextRevokes(s, crypto, 1, text);
    var s5 := RevokeIndexStep(s, 1);
    assert s5.store.data == before.data;
  }

  lemma UnrollFive(s: State, crypto: Crypto, actions: seq<Action>)
    requires |actions| == 5
    ensures Run(s, crypto, actions)
         == Next(Next(Next(Next(Next(s, crypto, actions[0]), crypto, actions[1]), crypto, actions[2]),
                      crypto, actions[3]), crypto, actions[4])
  {
    hide Next;
    var s1 := Next(s, crypto, actions[0]);
    var s2 := Next(s1, crypto, actions[1]);
    var s3 := Next(s2, crypto, actions[2]);
    var s4 := Next(s3, crypto, actions[3]);
    var s5 := Next(s4, crypto, actions[4]);
    assert Run(s5, crypto, []) == s5;
    assert Run(s4, crypto, actions[4..]) == s5 by {
      assert actions[4..][1..] == [];
    }
    assert Run(s3, crypto, actions[3..]) == s5 by {
      assert actions[3..][1..] == actions[4..];
    }
    assert Run(s2, crypto, actions[2..]) == s5 by {
      assert actions[2..][1..] == actions[3..];
    }
    assert Run(s1, crypto, actions[1..]) == s5 by {
      assert actions[1..][1..] == actions[2..];
    }
  }

  // ----- the second factor

  /** The password recorded fitted the hash of the row, and the row was not locked. */
  predicate PasswordRight(crypto: Crypto, c: Check) {
    && crypto.Accepts(c.password, c.row.passwordHash)
    && !(c.row.lockedUntil.Some? && c.at < c.row.lockedUntil.value)
  }

  predicate RootRight(crypto: Crypto, r: Root) {
    match r.how
    case PasswordOnly(c) => PasswordRight(crypto, c) && !c.row.totpEnabled && c.user == r.user
    case TwoFactor(_, factor) => FactorRight(crypto, factor)
    case Google => true
  }

  /** Every sign-in and every password check on record was a right one. */
  ghost predicate AllRight(s: State, crypto: Crypto) {
    && (forall p :: p in s.checks ==> PasswordRight(crypto, s.checks[p]) && s.checks[p].row.totpEnabled)
    && (forall p :: p in s.roots ==> RootRight(crypto, s.roots[p]))
  }

  lemma SignInsAreRight(s: State, crypto: Crypto, a: Action)
    requires AllRight(s, crypto) && (a.LoginPlain? || a.LoginTotp? || a.GoogleOk?)
    ensures AllRight(Next(s, crypto, a), crypto)
  {
    hide StoreMfaStep, SpendMfaStep, FactorStep, MintStep, IndexStep, RotateStep, UnindexStep;
    hide LookUpStep, LogoutSpendStep;
    hide LogoutUnindexStep, RevokeListStep, RevokeOneStep, RevokeIndexStep, Do, CommandFits;
    hide FactorRight, Crypto.Accepts;
  }

  lemma FactorsAreRight(s: State, crypto: Crypto, pid: nat, factor: Factor)
    requires AllRight(s, crypto)
    ensures AllRight(FactorStep(s, crypto, pid, factor), crypto)
  {
    hide PasswordRight, FactorRight;
  }

  lemma OthersAreRight(s: State, crypto: Crypto, a: Action)
    requires !a.LoginPlain? && !a.LoginTotp? && !a.GoogleOk? && !a.TotpOk? && !a.RecoveryOk?
    ensures SameSignIns(s, Next(s, crypto, a))
  {
    hide LoginPlainStep, LoginTotpStep, StoreMfaStep, SpendMfaStep, FactorStep, GoogleStep;
    hide MintStep, IndexStep, RotateStep, UnindexStep, LookUpStep, LogoutSpendStep, LogoutUnindexStep, RevokeListStep;
    hide RevokeOneStep, RevokeIndexStep, Do, End, CommandFits;
  }

  lemma NextIsRight(s: State, crypto: Crypto, a: Action)
    requires AllRight(s, crypto)
    ensures AllRight(Next(s, crypto, a), crypto)
  {
    if a.LoginPlain? || a.LoginTotp? || a.GoogleOk? {
      hide Next, AllRight;
      SignInsAreRight(s, crypto, a);
    } else if a.TotpOk? || a.RecoveryOk? {
      hide AllRight, FactorStep;
      FactorsAreRight(s, crypto, a.pid, if a.TotpOk? then TotpCode(a.row, a.code) else BackupCode(a.hash, a.code));
      NextTriesFactor(s, crypto, a);
      hide Next;
    } else {
      hide Next, PasswordRight, RootRight;
      OthersAreRight(s, crypto, a);
    }
  }

  lemma NextTriesFactor(s: State, crypto: Crypto, a: Action)
    requires a.TotpOk? || a.RecoveryOk?
    ensures Next(s, crypto, a)
         == FactorStep(s, crypto, a.pid, if a.TotpOk? then TotpCode(a.row, a.code) else BackupCode(a.hash, a.code))
  {
    hide LoginPlainStep, LoginTotpStep, StoreMfaStep, SpendMfaStep, FactorStep, GoogleStep;
    hide MintStep, IndexStep, RotateStep, UnindexStep, LookUpStep, LogoutSpendStep, LogoutUnindexStep, RevokeListStep;
    hide RevokeOneStep, RevokeIndexStep, Do, End, CommandFits;
  }

  lemma {:induction false} RunIsRight(s: State, crypto: Crypto, actions: seq<Action>)
    requires AllRight(s, crypto)
    ensures AllRight(Run(s, crypto, actions), crypto)
    decreases |actions|
  {
    hide AllRight, Next;
    if actions != [] {
      NextIsRight(s, crypto, actions[0]);
      RunIsRight(Next(s, crypto, actions[0]), crypto, actions[1..]);
    }
  }

  lemma ReachableIsRight(s: State, crypto: Crypto)
    requires Reachable(s, crypto)
    ensures AllRight(s, crypto)
  {
    assert AllRight(Init(), crypto);
    hide AllRight, Run, Init;
    var actions :| s == Run(Init(), crypto, actions);
    RunIsRight(Init(), crypto, actions);
  }

  /**
   The login behind a second-factor session: it had the right password of the session's user, whose second factor was
   on and whose account was not locked, and it came less than five minutes before the session was consumed.
   */
  ghost predicate ChecksOut(s: State, crypto: Crypto, m: string) {
    && m in s.mfaSpent && m in s.mfaIssued
    && var issue, spend := s.mfaIssued[m], s.mfaSpent[m];
       && issue.login in s.checks
       && var c := s.checks[issue.login];
          && c.user == issue.user && crypto.Accepts(c.password, c.row.passwordHash) && c.row.totpEnabled
          && (c.row.lockedUntil.Some? ==> c.row.lockedUntil.value <= c.at)
          && c.at <= issue.at <= spend.at < issue.at + MFA_SESSION_TTL
  }

  /**
   Every second-factor session that was consumed, successfully or not, goes back to its own earlier login that had
   the user's password right, less than five minutes before; no two sessions share a login.
   */
  lemma SecondFactorFollowsPassword(s: State, crypto: Crypto)
    requires Reachable(s, crypto)
    ensures forall m :: m in s.mfaSpent ==> ChecksOut(s, crypto, m)
    ensures forall m, n :: m in s.mfaIssued && n in s.mfaIssued && m != n ==>
              s.mfaIssued[m].login != s.mfaIssued[n].login
  {
    ReachableOk(s, crypto);
    ReachableIsRight(s, crypto);
    hide Reachable, WellTyped, TokensOk, RequestsOk, OneHolder, RootRight, Crypto.Accepts;
    forall m, n | m in s.mfaIssued && n in s.mfaIssued && m != n ensures s.mfaIssued[m].login != s.mfaIssued[n].login {
      assert s.mfaOf[s.mfaIssued[m].login] == m && s.mfaOf[s.mfaIssued[n].login] == n;
    }
  }

  /** A sign-in by TOTP or recovery code had the right one, and consumed a session issued to that very user. */
  lemma SignInSpentItsSession(s: State, crypto: Crypto, p: nat)
    requires Reachable(s, crypto) && p in s.roots && s.roots[p].how.TwoFactor?
    ensures var m := s.roots[p].how.mfa;
            && ChecksOut(s, crypto, m) && s.mfaIssued[m].user == s.roots[p].user && s.mfaSpent[m].request == p
            && (match s.roots[p].how.factor
                case TotpCode(row, code) => crypto.totpValid(code, row.totpSecret)
                case BackupCode(hash, code) => crypto.Accepts(code, hash))
  {
    ReachableOk(s, crypto);
    ReachableIsRight(s, crypto);
    SecondFactorFollowsPassword(s, crypto);
    assert HowOk(s, p) && RootRight(crypto, s.roots[p]);
    hide Reachable, Inv, ChecksOut, Crypto.Accepts, AllRight, PasswordRight;
  }

  /** No two such sign-ins share a session, and so no two share a login. */
  lemma TwoSignInsTwoSessions(s: State, crypto: Crypto, p: nat, q: nat)
    requires Reachable(s, crypto) && p in s.roots && q in s.roots && p != q
    requires s.roots[p].how.TwoFactor? && s.roots[q].how.TwoFactor?
    ensures var m, n := s.roots[p].how.mfa, s.roots[q].how.mfa;
            m != n && m in s.mfaIssued && n in s.mfaIssued && s.mfaIssued[m].login != s.mfaIssued[n].login
  {
    hide Reachable;
    SignInSpentItsSession(s, crypto, p);
    SignInSpentItsSession(s, crypto, q);
    SecondFactorFollowsPassword(s, crypto);
  }

  /** A sign-in by password alone had the right password of its user, with the second factor off and no lock. */
  lemma PasswordSignInWasRight(s: State, crypto: Crypto, p: nat)
    requires Reachable(s, crypto) && p in s.roots && s.roots[p].how.PasswordOnly?
    ensures var c := s.roots[p].how.check;
            && c.user == s.roots[p].user && crypto.Accepts(c.password, c.row.passwordHash) && !c.row.totpEnabled
            && (c.row.lockedUntil.Some? ==> c.row.lockedUntil.value <= c.at)
  {
    hide Reachable, Crypto.Accepts;
    ReachableIsRight(s, crypto);
  }

  /** Presenting a session spends it, whether or not the factor is right: from then on it gets nobody any further. */
  lemma SpentSessionIsUseless(s: State, crypto: Crypto, m: string, actions: seq<Action>, pid: nat)
    requires Reachable(s, crypto) && m in s.mfaSpent && pid !in Run(s, crypto, actions).started
    ensures var s2 := Run(s, crypto, actions);
            MfaSession(m) !in s2.store.data && pid !in SpendMfaStep(s2, pid, m).flight
  {
    hide Run, Reachable;
    ReachableOk(s, crypto);
    RunKeeps(s, crypto, actions);
    var s2 := Run(s, crypto, actions);
    assert MfaSession(m) !in s2.store.data;
  }

  /** A live session is read as its user's; any other gets the request nowhere. */
  lemma PresentingSpends(s: State, crypto: Crypto, m: string, pid: nat)
    requires Reachable(s, crypto) && pid !in s.started
    ensures pid in SpendMfaStep(s, pid, m).flight <==> Live(s.store, MfaSession(m))
    ensures Live(s.store, MfaSession(m)) ==>
              m in SpendMfaStep(s, pid, m).mfaSpent && m in s.mfaIssued
              && SpendMfaStep(s, pid, m).flight[pid] == SecondFactor(s.mfaIssued[m].user, m)
  {
    ReachableOk(s, crypto);
    hide Inv, Reachable, Parse, ToString, Consume, Live, Drop, SpendMfaStep;
    ConsumeMfa(s, m);
    ConsumeFindsLive(s, m);
    if Live(s.store, MfaSession(m)) {
      ParseToString(s.mfaIssued[m].user);
      SpendFinds(s, pid, m, s.mfaIssued[m].user);
    } else {
      SpendMisses(s, pid, m);
    }
  }

  lemma SpendMisses(s: State, pid: nat, m: string)
    requires pid !in s.started && Consume(s.store, MfaSession(m)).1.None?
    ensures pid !in SpendMfaStep(s, pid, m).flight
  {
  }

  lemma SpendFinds(s: State, pid: nat, m: string, user: Uuid)
    requires pid !in s.started && Consume(s.store, MfaSession(m)).1.Some?
    requires Parse(Consume(s.store, MfaSession(m)).1.value) == Some(user)
    ensures var s1 := SpendMfaStep(s, pid, m);
            m in s1.mfaSpent && pid in s1.flight && s1.flight[pid] == SecondFactor(user, m)
  {
  }

  lemma ConsumeFindsLive(s: State, m: string)
    requires Inv(s)
    ensures Consume(s.store, MfaSession(m)).1.Some? <==> Live(s.store, MfaSession(m))
  {
  }

  // ----- without interruption, the machine does what the handlers do

  /** SET and SADD back to back are StoreRefreshToken. */
  lemma MintAndIndexIsStoreRefresh(s: State, crypto: Crypto, pid: nat, token: string)
    requires pid in s.flight && s.flight[pid].Minting? && token !in s.drawn
    ensures Next(Next(s, crypto, Mint(pid, token)), crypto, Index(pid)).store
         == StoreRefresh(s.store, token, ToString(s.flight[pid].lin.user), REFRESH_TOKEN_TTL)
  {
    hide ToString, Exec, Next;
    NextStores(s, crypto, pid, token, true);
    NextStores(MintStep(s, pid, token), crypto, pid, token, true);
    var text := ToString(s.flight[pid].lin.user);
    ExecAllShort(s.store, Set(Refresh(token), Text(text), REFRESH_TOKEN_TTL), SAdd(UserSessions(text), token));
    hide ExecAll;
  }

  /** Rotation without interruption, from consuming the old token to listing the next one. */
  function RefreshActions(pid: nat, token: string, next: string, found: bool): seq<Action> {
    [Rotate(pid, token), Unindex(pid, true), LookUp(pid, found), Mint(pid, next), Index(pid)]
  }

  lemma RotateAndUnindexIsConsumeRefresh(s: State, crypto: Crypto, pid: nat, token: string)
    requires Inv(s) && pid !in s.started
    ensures var s2 := Next(Next(s, crypto, Rotate(pid, token)), crypto, Unindex(pid, true));
            var (store, text) := ConsumeRefresh(s.store, token);
            && s2.store == store && s2.drawn == s.drawn && s2.started == s.started + {pid}
            && (if text.None? then pid !in s2.flight
                else token in s.lineage && pid in s2.flight && text.value == ToString(s.lineage[token].user)
                     && s2.flight[pid] == LookingUp(token, text.value, s.lineage[token]))
  {
    hide ToString, Inv, Exec, Consume, ConsumeRefresh;
    ConsumeIsDrop(s, token);
    TwoCommands(s.store, token);
    var s1 := Rotated(s, crypto, pid, token);
    if pid in s1.flight {
      Unindexed(s1, crypto, pid);
    } else {
      hide Next;
      NextRotates(s1, crypto, pid, token);
    }
    hide *;
  }

  lemma Rotated(s: State, crypto: Crypto, pid: nat, token: string) returns (s1: State)
    requires Inv(s) && pid !in s.started
    ensures s1 == Next(s, crypto, Rotate(pid, token)) && s1.started == s.started + {pid} && s1.drawn == s.drawn
    ensures s1.store == Consume(s.store, Refresh(token)).0
    ensures var text := Consume(s.store, Refresh(token)).1;
            if text.None? then pid !in s1.flight
            else token in s.lineage && pid in s1.flight
                 && s1.flight[pid] == Rotating(token, text.value, s.lineage[token])
  {
    hide ToString, Inv, Consume, Next;
    NextRotates(s, crypto, pid, token);
    ConsumeIsDrop(s, token);
    s1 := RotateStep(s, pid, token);
    hide Drop, RotateStep;
    RotateResult(s, pid, token);
  }

  lemma RotateResult(s: State, pid: nat, token: string)
    requires pid !in s.started && (Consume(s.store, Refresh(token)).1.Some? ==> token in s.lineage)
    ensures var s1, (store, text) := RotateStep(s, pid, token), Consume(s.store, Refresh(token));
            && s1.started == s.started + {pid} && s1.drawn == s.drawn && s1.store == store
            && if text.None? then pid !in s1.flight
               else pid in s1.flight && s1.flight[pid] == Rotating(token, text.value, s.lineage[token])
  {
    hide Consume;
    var (store, text) := Consume(s.store, Refresh(token));
    var s1 := RotateStep(s, pid, token);
    if text.None? {
      assert s1.flight == s.flight - {pid} && s1.started == s.started + {pid} && s1.store == store;
    } else {
      assert s1.flight == s.flight[pid := Rotating(token, text.value, s.lineage[token])];
      assert s1.started == s.started + {pid} && s1.store == store;
    }
    hide RotateStep;
  }

  lemma Unindexed(s: State, crypto: Crypto, pid: nat)
    requires pid in s.flight && s.flight[pid].Rotating? && pid in s.started
    ensures var s2, f := Next(s, crypto, Unindex(pid, true)), s.flight[pid];
            && s2.store == Exec(s.store, SRem(UserSessions(f.text), f.token)).0 && s2.drawn == s.drawn
            && s2.started == s.started && pid in s2.flight && s2.flight[pid] == LookingUp(f.token, f.text, f.lin)
  {
  }

  lemma TwoCommands(s: Store<Key>, token: string)
    ensures var (after, text) := Consume(s, Refresh(token));
            && ConsumeRefresh(s, token).1 == text
            && ConsumeRefresh(s, token).0
               == if text.None? then after else Exec(after, SRem(UserSessions(text.value), token)).0
  {
    hide Exec;
    var text := Consume(s, Refresh(token)).1;
    ExecAllShort(s, GetDel(Refresh(token)), SRem(UserSessions(text.GetOr("")), token));
    hide ExecAll;
  }

  /** The rest of a rotation, once the old token is gone. */
  lemma LooksUpAndStores(s: State, crypto: Crypto, pid: nat, next: string, found: bool)
    requires next !in s.drawn
    requires pid in s.flight ==>
               s.flight[pid].LookingUp? && s.flight[pid].text == ToString(s.flight[pid].lin.user)
    ensures var s5 := Next(Next(Next(s, crypto, LookUp(pid, found)), crypto, Mint(pid, next)), crypto, Index(pid));
            s5.store
            == if pid in s.flight && found then StoreRefresh(s.store, next, s.flight[pid].text, REFRESH_TOKEN_TTL)
               else s.store
  {
    hide ToString, Parse, Next, StoreRefresh;
    NextStores(s, crypto, pid, next, found);
    var s3 := LookUpStep(s, pid, found);
    if pid in s.flight {
      ParseToString(s.flight[pid].lin.user);
    }
    if pid in s.flight && found {
      MintAndIndexIsStoreRefresh(s3, crypto, pid, next);
    } else {
      Stuck(s3, crypto, pid, next);
    }
  }

  lemma Stuck(s: State, crypto: Crypto, pid: nat, next: string)
    requires pid !in s.flight
    ensures Next(Next(s, crypto, Mint(pid, next)), crypto, Index(pid)) == s
  {
  }

  lemma RefreshSucceedsIff(s: State, db: Db, token: string, draw: Draw)
    requires Inv(s)
    ensures var response := Login.Refresh(World(s.store, db), token, draw).1;
            if Live(s.store, Refresh(token)) && token in s.lineage && s.lineage[token].user in db.users
            then response == SignedIn(s.lineage[token].user, draw.token) else response == Unauthorized
  {
    hide ToString, Parse, StoreRefresh, SetText, ExecAll;
    if Live(s.store, Refresh(token)) {
      assert s.store.data[Refresh(token)].value == Text(ToString(s.lineage[token].user));
      ParseToString(s.lineage[token].user);
    }
    hide Inv;
  }

  /**
   Run in one go, the steps of a rotation leave the keyspace exactly as the handler's specification says; it succeeds
   if and only if the token is live and its user is still there.
   */
  lemma RefreshWithoutInterruption(s: State, crypto: Crypto, db: Db, pid: nat, token: string, draw: Draw)
    requires Inv(s) && pid !in s.started && draw.token !in s.drawn
    ensures var found := token in s.lineage && s.lineage[token].user in db.users;
            var (w, response) := Login.Refresh(World(s.store, db), token, draw);
            var s2 := Run(s, crypto, RefreshActions(pid, token, draw.token, found));
            if Live(s.store, Refresh(token)) && found then
              && found && response == SignedIn(s.lineage[token].user, draw.token)
              && w.redis == SetText(s2.store, SsoSession(draw.session), ToString(response.user), SESSION_TOKEN_TTL)
            else response == Unauthorized && w.redis == s2.store
  {
    hide ToString, Parse, Exec, Inv, ConsumeRefresh, StoreRefresh, SetText, Next, Run, Live;
    RefreshSucceedsIff(s, db, token, draw);
    var found := token in s.lineage && s.lineage[token].user in db.users;
    UnrollFive(s, crypto, RefreshActions(pid, token, draw.token, found));
    RotateAndUnindexIsConsumeRefresh(s, crypto, pid, token);
    var s2 := Next(Next(s, crypto, Rotate(pid, token)), crypto, Unindex(pid, true));
    LooksUpAndStores(s2, crypto, pid, draw.token, found);
    if pid in s2.flight {
      ParseToString(s.lineage[token].user);
    }
  }
}
