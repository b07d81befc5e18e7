/** Run in one go, the interleaved steps of Sessions are the handlers: sign-in, second factor, both logouts. */
module SessionHandlers {
  import opened Common
  import opened Uuids
  import opened Keyspace
  import opened Keys
  import opened Tokens
  import opened UserTables
  import opened Worlds
  import opened Sessions
  import opened SessionGuarantees
  import L = Login
  import F = SecondFactor

  // ----- who holds a chain, step by step

  /** Consuming a live token hands its chain to the request, and to nobody else. */
  lemma RotateMovesChain(s: State, pid: nat, token: string)
    requires Inv(s) && pid !in s.started && Live(s.store, Refresh(token))
    ensures token in s.lineage && Held(s, Tok(token)) == Some(s.lineage[token])
    ensures var s2, lin := RotateStep(s, pid, token), s.lineage[token];
            && Held(s2, Req(pid)) == Some(lin) && Held(s2, Tok(token)) == None
            && lin.root in s2.custody && s2.custody[lin.root] == Req(pid)
    ensures forall h :: h != Req(pid) && h != Tok(token) ==> Held(RotateStep(s, pid, token), h) == Held(s, h)
  {
    ConsumeFindsLiveToken(s, token);
    hide Inv, Consume, ToString;
    ConsumeIsDrop(s, token);
    RotatedChain(s, pid, token);
  }

  lemma ConsumeFindsLiveToken(s: State, token: string)
    requires Inv(s)
    ensures Live(s.store, Refresh(token)) ==> Consume(s.store, Refresh(token)).1.Some?
  {
  }

  lemma RotatedChain(s: State, pid: nat, token: string)
    requires pid !in s.started && token in s.lineage
    requires Consume(s.store, Refresh(token)).1.Some?
    requires Consume(s.store, Refresh(token)).0 == Drop(s.store, Refresh(token))
    ensures var s2, lin := RotateStep(s, pid, token), s.lineage[token];
            && Held(s2, Req(pid)) == Some(lin) && Held(s2, Tok(token)) == None
            && lin.root in s2.custody && s2.custody[lin.root] == Req(pid)
    ensures forall h :: h != Req(pid) && h != Tok(token) ==> Held(RotateStep(s, pid, token), h) == Held(s, h)
  {
    hide Consume;
  }

  /** Storing a fresh token hands the chain from the request to the token. */
  lemma MintMovesChain(s: State, pid: nat, token: string)
    requires token !in s.drawn && pid in s.flight && s.flight[pid].Minting?
    ensures var s2, lin := MintStep(s, pid, token), s.flight[pid].lin;
            && Held(s, Req(pid)) == Some(lin) && Held(s2, Tok(token)) == Some(lin) && Held(s2, Req(pid)) == None
            && lin.root in s2.custody && s2.custody[lin.root] == Tok(token)
    ensures forall h :: h != Req(pid) && h != Tok(token) ==> Held(MintStep(s, pid, token), h) == Held(s, h)
  {
    MintStepIsMinted(s, pid, token);
    hide MintStep, ToString;
  }

  // ----- sign-in by password

  /** DEL of the counter, then the steps that end with a second-factor session. */
  function LoginTotpInOneGo(s: State, crypto: Crypto, pid: nat, user: Uuid, row: User, password: string, m: string)
    : State
  {
    StoreMfaStep(LoginTotpStep(Do(s, Del(LoginAttempts(ToString(user)))), crypto, pid, user, row, password), pid, m)
  }

  function LoginPlainInOneGo(s: State, crypto: Crypto, pid: nat, user: Uuid, row: User, password: string, next: string)
    : State
  {
    StoreInOneGo(LoginPlainStep(Do(s, Del(LoginAttempts(ToString(user)))), crypto, pid, user, row, password), pid, next)
  }

  /** SET and SADD of the next token. */
  function StoreInOneGo(s: State, pid: nat, next: string): State {
    IndexStep(MintStep(s, pid, next), pid)
  }

  lemma StoreInOneGoStores(s: State, pid: nat, next: string)
    requires pid in s.flight && s.flight[pid].Minting? && next !in s.drawn
    ensures StoreInOneGo(s, pid, next).store
         == StoreRefresh(s.store, next, ToString(s.flight[pid].lin.user), REFRESH_TOKEN_TTL)
  {
    hide ToString, Exec;
    var text := ToString(s.flight[pid].lin.user);
    ExecAllShort(s.store, Set(Refresh(next), Text(text), REFRESH_TOKEN_TTL), SAdd(UserSessions(text), next));
    hide ExecAll;
  }

  lemma LoginTotpStores(s: State, crypto: Crypto, pid: nat, user: Uuid, row: User, password: string, m: string)
    requires pid !in s.started && m !in s.drawn && PasswordPasses(s, crypto, row, password) && row.totpEnabled
    ensures LoginTotpInOneGo(s, crypto, pid, user, row, password, m).store
         == SetText(Drop(s.store, LoginAttempts(ToString(user))), MfaSession(m), ToString(user), MFA_SESSION_TTL)
  {
    hide ToString, Crypto.Accepts;
    var s1 := LoginTotpStep(Do(s, Del(LoginAttempts(ToString(user)))), crypto, pid, user, row, password);
    assert s1.flight[pid] == PasswordOk(user) && s1.drawn == s.drawn;
    assert s1.store == Drop(s.store, LoginAttempts(ToString(user)));
    hide LoginTotpStep;
  }

  lemma LoginPlainStores(s: State, crypto: Crypto, pid: nat, user: Uuid, row: User, password: string, next: string)
    requires pid !in s.started && next !in s.drawn && PasswordPasses(s, crypto, row, password) && !row.totpEnabled
    ensures LoginPlainInOneGo(s, crypto, pid, user, row, password, next).store
         == StoreRefresh(Drop(s.store, LoginAttempts(ToString(user))), next, ToString(user), REFRESH_TOKEN_TTL)
  {
    hide ToString, Crypto.Accepts, StoreRefresh;
    var s1 := LoginPlainStep(Do(s, Del(LoginAttempts(ToString(user)))), crypto, pid, user, row, password);
    assert s1.flight[pid] == Minting(Lineage(pid, user, [])) && s1.drawn == s.drawn;
    assert s1.store == Drop(s.store, LoginAttempts(ToString(user)));
    hide LoginPlainStep, StoreInOneGo;
    StoreInOneGoStores(s1, pid, next);
  }

  /** A login with the right password on an account that is not locked. */
  lemma LoginWithoutInterruption(s: State, crypto: Crypto, db: Db, pid: nat, email: string, password: string,
                                 draw: Draw)
    requires pid !in s.started && draw.token !in s.drawn
    requires email != "" && password != "" && FindByEmail(db, email).Some?
    requires var row := FindByEmail(db, email).value.1;
             crypto.Accepts(password, row.passwordHash)
             && (row.lockedUntil.Some? ==> row.lockedUntil.value <= s.store.now)
    ensures var (user, row) := FindByEmail(db, email).value;
            var (w, response) := L.Login(World(s.store, db), crypto, email, password, draw);
            if row.totpEnabled then
              && response == MfaRequired(draw.token)
              && w.redis == LoginTotpInOneGo(s, crypto, pid, user, row, password, draw.token).store
            else
              && response == SignedIn(user, draw.token)
              && w.redis == SetText(LoginPlainInOneGo(s, crypto, pid, user, row, password, draw.token).store,
                                    SsoSession(draw.session), ToString(user), SESSION_TOKEN_TTL)
  {
    hide LoginTotpInOneGo, LoginPlainInOneGo, ToString, Crypto.Accepts, SetText;
    hide StoreRefresh, UpdateFailedAttemptsReset;
    var (user, row) := FindByEmail(db, email).value;
    if row.totpEnabled {
      LoginTotpStores(s, crypto, pid, user, row, password, draw.token);
    } else {
      LoginPlainStores(s, crypto, pid, user, row, password, draw.token);
    }
  }

  // ----- the second factor

  function VerifyInOneGo(s: State, crypto: Crypto, pid: nat, m: string, row: User, code: string, next: string): State {
    StoreInOneGo(FactorStep(SpendMfaStep(s, pid, m), crypto, pid, TotpCode(row, code)), pid, next)
  }

  lemma SpentMfa(s: State, pid: nat, m: string)
    requires Inv(s) && pid !in s.started
    ensures var s1, text := SpendMfaStep(s, pid, m), Consume(s.store, MfaSession(m)).1;
            && s1.store == Consume(s.store, MfaSession(m)).0 && s1.drawn == s.drawn
            && (text.Some? <==> pid in s1.flight)
            && (text.Some? ==> m in s.mfaIssued && text == Some(ToString(s.mfaIssued[m].user))
                               && s1.flight[pid] == SecondFactor(s.mfaIssued[m].user, m))
  {
    hide Inv, Consume, Parse, ToString, SpendMfaStep;
    ConsumeMfa(s, m);
    hide Drop;
    if Consume(s.store, MfaSession(m)).1.Some? {
      ParseToString(s.mfaIssued[m].user);
      MfaRead(s, pid, m, s.mfaIssued[m].user);
    } else {
      MfaUnread(s, pid, m);
    }
  }

  lemma MfaUnread(s: State, pid: nat, m: string)
    requires pid !in s.started && Consume(s.store, MfaSession(m)).1.None?
    ensures var s1 := SpendMfaStep(s, pid, m);
            s1.store == Consume(s.store, MfaSession(m)).0 && s1.drawn == s.drawn && pid !in s1.flight
  {
    hide Consume, Parse;
  }

  lemma MfaRead(s: State, pid: nat, m: string, user: Uuid)
    requires pid !in s.started && Consume(s.store, MfaSession(m)).1.Some?
    requires Parse(Consume(s.store, MfaSession(m)).1.value) == Some(user)
    ensures var s1 := SpendMfaStep(s, pid, m);
            && s1.store == Consume(s.store, MfaSession(m)).0 && s1.drawn == s.drawn
            && pid in s1.flight && s1.flight[pid] == SecondFactor(user, m)
  {
    hide Consume, Parse;
  }

  /** A second factor for a user who is still there. */
  lemma VerifyWithoutInterruption(s: State, crypto: Crypto, db: Db, pid: nat, m: string, code: string, draw: Draw)
    requires Inv(s) && pid !in s.started && draw.token !in s.drawn && m != "" && code != ""
    requires m in s.mfaIssued ==> s.mfaIssued[m].user in db.users
    ensures var row := if m in s.mfaIssued then db.users[s.mfaIssued[m].user] else NULL_ROW;
            F.Verify(World(s.store, db), crypto, m, code, draw).0.redis
            == VerifyInOneGo(s, crypto, pid, m, row, code, draw.token).store
  {
    hide Inv, Consume, Parse, ToString, SpendMfaStep, StoreInOneGo, StoreRefresh, FactorStep;
    SpentMfa(s, pid, m);
    var s1 := SpendMfaStep(s, pid, m);
    var row := if m in s.mfaIssued then db.users[s.mfaIssued[m].user] else NULL_ROW;
    if pid in s1.flight {
      ParseToString(s.mfaIssued[m].user);
      FactorThenStore(s1, crypto, pid, TotpCode(row, code), draw.token);
    } else {
      NothingToStore(s1, crypto, pid, TotpCode(row, code), draw.token);
    }
  }

  lemma FactorThenStore(s: State, crypto: Crypto, pid: nat, factor: Factor, next: string)
    requires pid in s.flight && s.flight[pid].SecondFactor? && next !in s.drawn
    ensures StoreInOneGo(FactorStep(s, crypto, pid, factor), pid, next).store
         == if FactorRight(crypto, factor)
            then StoreRefresh(s.store, next, ToString(s.flight[pid].user), REFRESH_TOKEN_TTL) else s.store
  {
    hide StoreInOneGo, StoreRefresh, ToString, FactorRight;
    var s1 := FactorStep(s, crypto, pid, factor);
    if FactorRight(crypto, factor) {
      StoreInOneGoStores(s1, pid, next);
    } else {
      StillNothing(s1, pid, next);
    }
  }

  lemma StillNothing(s: State, pid: nat, next: string)
    requires pid in s.flight ==> !s.flight[pid].Minting? && !s.flight[pid].Indexing?
    ensures StoreInOneGo(s, pid, next) == s
  {
    hide ToString, Do;
  }

  lemma NothingToStore(s: State, crypto: Crypto, pid: nat, factor: Factor, next: string)
    requires pid !in s.flight
    ensures StoreInOneGo(FactorStep(s, crypto, pid, factor), pid, next) == s
  {
    hide StoreInOneGo, FactorRight;
    StillNothing(s, pid, next);
  }

  // ----- logout

  lemma LogoutWithoutInterruption(s: State, pid: nat, token: string)
    requires Inv(s) && pid !in s.started
    ensures LogoutUnindexStep(LogoutSpendStep(s, pid, token), pid).store == ConsumeRefresh(s.store, token).0
    ensures token != "" ==> forall db: Db ::
              L.Logout(World(s.store, db), token, "").0
              == World(LogoutUnindexStep(LogoutSpendStep(s, pid, token), pid).store, db)
  {
    assert pid !in s.flight;
    hide Inv, Consume, ConsumeRefresh, ToString, Exec;
    TwoCommands(s.store, token);
    LoggedOut(s, pid, token);
  }

  lemma LoggedOut(s: State, pid: nat, token: string)
    requires pid !in s.started && pid !in s.flight
    ensures var (after, text) := Consume(s.store, Refresh(token));
            LogoutUnindexStep(LogoutSpendStep(s, pid, token), pid).store
            == if text.None? then after else Exec(after, SRem(UserSessions(text.value), token)).0
  {
    hide Consume, Exec;
    var text := Consume(s.store, Refresh(token)).1;
    var s1 := LogoutSpendStep(s, pid, token);
    if text.Some? {
      assert s1.flight[pid] == LoggingOut(token, text.value) && s1.store == Consume(s.store, Refresh(token)).0;
    } else {
      assert pid !in s1.flight && s1.store == Consume(s.store, Refresh(token)).0;
    }
    hide LogoutSpendStep;
  }

  /** The DELs of a pipeline, one after the other. */
  function RevokeEach(s: State, pid: nat, order: seq<string>): State
    decreases |order|
  {
    if order == [] then s else RevokeEach(RevokeOneStep(s, pid, order[0]), pid, order[1..])
  }

  lemma {:induction false} RevokeEachDeletes(s: State, pid: nat, order: seq<string>)
    requires pid in s.flight && s.flight[pid].Revoking? && Lists(order, s.flight[pid].todo)
    requires forall i, j :: 0 <= i < j < |order| ==> order[i] != order[j]
    ensures var s2, f := RevokeEach(s, pid, order), s.flight[pid];
            && s2.store == s.store.(data := s.store.data - RefreshKeys(f.todo))
            && pid in s2.flight && s2.flight[pid] == f.(todo := {})
    decreases |order|
  {
    var f := s.flight[pid];
    if order == [] {
      assert f.todo == {};
      assert s.store.data - RefreshKeys({}) == s.store.data;
    } else {
      var s1 := RevokeOneStep(s, pid, order[0]);
      assert order[0] in f.todo;
      assert s1.flight[pid] == f.(todo := f.todo - {order[0]}) && s1.store == Drop(s.store, Refresh(order[0]));
      hide RevokeOneStep;
      RestIsListed(order, f.todo);
      RevokeEachDeletes(s1, pid, order[1..]);
      assert RefreshKeys(f.todo) == {Refresh(order[0])} + RefreshKeys(f.todo - {order[0]});
      var rest := RefreshKeys(f.todo - {order[0]});
      assert s.store.data - {Refresh(order[0])} - rest == s.store.data - RefreshKeys(f.todo);
    }
  }

  lemma RestIsListed(order: seq<string>, todo: set<string>)
    requires order != [] && Lists(order, todo) && forall i, j :: 0 <= i < j < |order| ==> order[i] != order[j]
    ensures Lists(order[1..], todo - {order[0]})
  {
    forall t ensures t in order[1..] <==> t in todo - {order[0]} {
      assert order == [order[0]] + order[1..];
    }
  }

  /** Whatever order the members were listed in, the steps of a revocation in one go are the atomic revocation. */
  lemma LogoutAllWithoutInterruption(s: State, pid: nat, text: string, order: seq<string>)
    requires pid !in s.started && Lists(order, IndexedTokens(s.store, text))
    requires forall i, j :: 0 <= i < j < |order| ==> order[i] != order[j]
    ensures RevokeIndexStep(RevokeEach(RevokeListStep(s, pid, text), pid, order), pid).store == RevokeAll(s.store, text)
  {
    var s1, seen := RevokeListStep(s, pid, text), IndexedTokens(s.store, text);
    assert s1.flight[pid] == Revoking(text, seen, seen) && s1.store == s.store;
    hide RevokeListStep, IndexedTokens, RevokeEach, Lists;
    RevokeEachDeletes(s1, pid, order);
    hide RefreshKeys;
    assert s.store.data - RefreshKeys(seen) - {UserSessions(text)}
        == s.store.data - (RefreshKeys(seen) + {UserSessions(text)});
  }
}
