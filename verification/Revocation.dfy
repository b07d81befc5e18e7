/**
 Granularity: interleaved, on the machine of Sessions. Exactly when a stored refresh token is safe from escaping
 revocation: it is listed, and every revocation of its owner that is under way has seen it.
 */
module Revocation {
  import opened Common
  import opened Uuids
  import opened Keyspace
  import opened Keys
  import opened Tokens
  import opened UserTables
  import opened Worlds
  import opened Sessions
  import opened SessionGuarantees

  function Owner(s: State, t: string): string
    requires t in s.lineage
  {
    ToString(s.lineage[t].user)
  }

  /** As long as the token is stored, its owner's index lists it. */
  ghost predicate ListedWhileStored(s: State, t: string) {
    t in s.lineage && (Refresh(t) in s.store.data ==> t in IndexedTokens(s.store, Owner(s, t)))
  }

  /** And every revocation of its owner that has taken its list has it on the list. */
  ghost predicate Protected(s: State, t: string) {
    && ListedWhileStored(s, t)
    && (Refresh(t) in s.store.data ==>
          forall p :: p in s.flight && s.flight[p].Revoking? && s.flight[p].text == Owner(s, t) ==>
            t in s.flight[p].seen)
  }

  /** No index lists the token and nobody is about to list it. */
  ghost predicate Lost(s: State, t: string) {
    && t in s.lineage && (forall u :: t !in IndexedTokens(s.store, u))
    && (forall p :: p in s.flight && s.flight[p].Indexing? ==> s.flight[p].token != t)
  }

  // ----- steps that do not take the token off its index

  /** No revocation started, and the token was neither stored nor taken off an index while it is stored. */
  ghost predicate Undisturbed(s: State, s2: State, t: string) {
    && (t in s.lineage ==> t in s2.lineage && s2.lineage[t] == s.lineage[t])
    && (Refresh(t) in s2.store.data ==> Refresh(t) in s.store.data)
    && (forall u :: t in IndexedTokens(s.store, u) && Refresh(t) in s2.store.data ==> t in IndexedTokens(s2.store, u))
    && (forall p :: p in s2.flight && s2.flight[p].Revoking? ==>
          p in s.flight && s.flight[p].Revoking? && s.flight[p].text == s2.flight[p].text
          && s.flight[p].seen == s2.flight[p].seen)
  }

  lemma UndisturbedProtects(s: State, s2: State, t: string)
    requires Protected(s, t) && Undisturbed(s, s2, t)
    ensures Protected(s2, t)
  {
    hide IndexedTokens, ToString;
  }

  /** No index gained the token, and nobody new is about to list it. */
  ghost predicate Unlisted(s: State, s2: State, t: string) {
    && (t in s.lineage ==> t in s2.lineage)
    && (forall u :: t in IndexedTokens(s2.store, u) ==> t in IndexedTokens(s.store, u))
    && (forall p :: p in s2.flight && s2.flight[p].Indexing? && s2.flight[p].token == t ==>
          p in s.flight && s.flight[p].Indexing? && s.flight[p].token == t)
  }

  lemma UnlistedStaysLost(s: State, s2: State, t: string)
    requires Lost(s, t) && Unlisted(s, s2, t)
    ensures Lost(s2, t)
  {
    hide IndexedTokens;
  }

  /** Only the acting request moved, and neither into a revocation nor towards an index. */
  predicate Aside(s: State, s2: State, pid: nat) {
    s2.lineage == s.lineage
    && (|| s2.flight == s.flight
        || s2.flight == s.flight - {pid}
        || (pid in s2.flight && !s2.flight[pid].Revoking? && !s2.flight[pid].Indexing?
            && s2.flight == s.flight[pid := s2.flight[pid]]))
  }

  /** The indexes lost that one token at most, and no refresh token was stored. */
  ghost predicate Shrank(a: Store<Key>, b: Store<Key>, gone: string) {
    && (forall u :: IndexedTokens(b, u) <= IndexedTokens(a, u) && IndexedTokens(a, u) <= IndexedTokens(b, u) + {gone})
    && (forall t :: Refresh(t) in b.data ==> Refresh(t) in a.data)
  }

  lemma AsideShrinks(s: State, s2: State, pid: nat, gone: string, t: string)
    requires Aside(s, s2, pid) && Shrank(s.store, s2.store, gone) && (Refresh(t) in s2.store.data ==> t != gone)
    ensures Undisturbed(s, s2, t) && Unlisted(s, s2, t)
  {
    hide IndexedTokens;
  }

  lemma SameKeysShrank(a: Store<Key>, b: Store<Key>, gone: string)
    requires WellTyped(a) && SameTokenKeys(a, b)
    ensures Shrank(a, b, gone)
  {
    SameIndexes(a, b);
    hide IndexedTokens, WellTyped;
    forall t | Refresh(t) in b.data ensures Refresh(t) in a.data {
      assert Refresh(t).Refresh?;
    }
  }

  lemma AddedToIndex(a: Store<Key>, u: string, member: string)
    requires WellTyped(a)
    ensures var b := Exec(a, SAdd(UserSessions(u), member)).0;
            && (forall t :: Refresh(t) in b.data <==> Refresh(t) in a.data)
            && forall v :: IndexedTokens(b, v) == IndexedTokens(a, v) + if v == u then {member} else {}
  {
    var b := Exec(a, SAdd(UserSessions(u), member)).0;
    forall v ensures IndexedTokens(b, v) == IndexedTokens(a, v) + if v == u then {member} else {} {
    }
  }

  lemma RemovedFromIndex(a: Store<Key>, u: string, member: string)
    requires WellTyped(a)
    ensures Shrank(a, Exec(a, SRem(UserSessions(u), member)).0, member)
  {
    var b := Exec(a, SRem(UserSessions(u), member)).0;
    forall v ensures IndexedTokens(b, v) == IndexedTokens(a, v) - if v == u then {member} else {} {
    }
    hide IndexedTokens;
  }

  lemma DroppedToken(a: Store<Key>, token: string)
    ensures forall u :: IndexedTokens(Drop(a, Refresh(token)), u) == IndexedTokens(a, u)
    ensures Shrank(a, Drop(a, Refresh(token)), token)
  {
    forall u ensures IndexedTokens(Drop(a, Refresh(token)), u) == IndexedTokens(a, u) {
    }
    hide IndexedTokens;
  }

  // ----- where each request stands after its step

  lemma AuthenticatedStandsAside(s: State, pid: nat, user: Uuid, how: How)
    ensures var s2 := Authenticated(s, pid, user, how); Aside(s, s2, pid) && s2.store == s.store
  {
  }

  lemma SignInsStandAside(s: State, crypto: Crypto, a: Action)
    requires a.LoginPlain? || a.GoogleOk?
    ensures var s2 := Next(s, crypto, a); Aside(s, s2, a.pid) && s2.store == s.store
  {
    hide LoginTotpStep, StoreMfaStep, SpendMfaStep, FactorStep, MintStep, IndexStep, RotateStep;
    hide UnindexStep, LookUpStep;
    hide LogoutUnindexStep, RevokeListStep, RevokeOneStep, RevokeIndexStep, LogoutSpendStep, Do, End, CommandFits;
    hide PasswordPasses, Authenticated;
    match a
    case LoginPlain(pid, user, row, password) =>
      AuthenticatedStandsAside(s, pid, user, PasswordOnly(Check(user, row, password, s.store.now)));
    case GoogleOk(pid, user) => AuthenticatedStandsAside(s, pid, user, Google);
  }

  lemma LoginTotpStandsAside(s: State, crypto: Crypto, pid: nat, user: Uuid, row: User, password: string)
    ensures var s2 := LoginTotpStep(s, crypto, pid, user, row, password); Aside(s, s2, pid) && s2.store == s.store
  {
    hide PasswordPasses;
    if pid in s.started || !PasswordPasses(s, crypto, row, password) || !row.totpEnabled {
    } else {
    }
  }

  lemma FactorStandsAside(s: State, crypto: Crypto, pid: nat, factor: Factor)
    ensures var s2 := FactorStep(s, crypto, pid, factor); Aside(s, s2, pid) && s2.store == s.store
  {
    hide FactorRight;
  }

  lemma LookUpStandsAside(s: State, pid: nat, found: bool)
    ensures var s2 := LookUpStep(s, pid, found); Aside(s, s2, pid) && s2.store == s.store
  {
    hide Parse, Aside, LookUpStep;
    if pid !in s.flight || !s.flight[pid].LookingUp? {
      LookUpWaits(s, pid, found);
      StayedAside(s, pid);
    } else if Parse(s.flight[pid].text).Some? && found {
      LookUpGoesOn(s, pid);
      MovedAside(s, LookUpStep(s, pid, found), pid);
    } else {
      LookUpEnds(s, pid, found);
      EndedAside(s, LookUpStep(s, pid, found), pid);
    }
  }

  lemma LookUpWaits(s: State, pid: nat, found: bool)
    requires pid !in s.flight || !s.flight[pid].LookingUp?
    ensures LookUpStep(s, pid, found) == s
  {
    hide Parse;
  }

  lemma LookUpGoesOn(s: State, pid: nat)
    requires pid in s.flight && s.flight[pid].LookingUp? && Parse(s.flight[pid].text).Some?
    ensures var s2 := LookUpStep(s, pid, true);
            && s2.lineage == s.lineage && s2.store == s.store
            && pid in s2.flight && s2.flight[pid].Minting? && s2.flight == s.flight[pid := s2.flight[pid]]
  {
    hide Parse;
  }

  lemma LookUpEnds(s: State, pid: nat, found: bool)
    requires pid in s.flight && s.flight[pid].LookingUp? && (Parse(s.flight[pid].text).None? || !found)
    ensures var s2 := LookUpStep(s, pid, found);
            s2.lineage == s.lineage && s2.store == s.store && s2.flight == s.flight - {pid}
  {
    hide Parse;
  }

  lemma EndStandsAside(s: State, pid: nat)
    ensures var s2 := End(s, pid); Aside(s, s2, pid) && s2.store == s.store
  {
  }

  lemma StoreMfaStandsAside(s: State, pid: nat, m: string)
    requires WellTyped(s.store)
    ensures var s2 := StoreMfaStep(s, pid, m); Aside(s, s2, pid) && SameTokenKeys(s.store, s2.store)
  {
    hide ToString;
  }

  lemma SpendMfaStandsAside(s: State, pid: nat, m: string)
    requires Inv(s)
    ensures var s2 := SpendMfaStep(s, pid, m); Aside(s, s2, pid) && SameTokenKeys(s.store, s2.store)
  {
    hide Inv, Consume, Parse, ToString, Aside, SameTokenKeys;
    ConsumeMfa(s, m);
    DroppedMfa(s.store, m);
    hide Drop;
    if pid in s.started {
      StayedAside(s, pid);
    } else if Consume(s.store, MfaSession(m)).1.None? || Parse(Consume(s.store, MfaSession(m)).1.value).None? {
      MfaEnds(s, pid, m);
      hide SpendMfaStep;
      EndedAside(s, SpendMfaStep(s, pid, m), pid);
    } else {
      MfaGoesOn(s, pid, m);
      hide SpendMfaStep;
      MovedAside(s, SpendMfaStep(s, pid, m), pid);
    }
  }

  lemma MfaEnds(s: State, pid: nat, m: string)
    requires pid !in s.started
    requires var text := Consume(s.store, MfaSession(m)).1; text.None? || Parse(text.value).None?
    ensures var s2 := SpendMfaStep(s, pid, m);
            s2.lineage == s.lineage && s2.flight == s.flight - {pid} && s2.store == Consume(s.store, MfaSession(m)).0
  {
    hide Consume, Parse;
  }

  lemma MfaGoesOn(s: State, pid: nat, m: string)
    requires pid !in s.started
    requires var text := Consume(s.store, MfaSession(m)).1; text.Some? && Parse(text.value).Some?
    ensures var s2 := SpendMfaStep(s, pid, m);
            && s2.lineage == s.lineage && s2.store == Consume(s.store, MfaSession(m)).0
            && pid in s2.flight && s2.flight[pid].SecondFactor? && s2.flight == s.flight[pid := s2.flight[pid]]
  {
    hide Consume, Parse;
  }

  lemma DroppedMfa(a: Store<Key>, m: string)
    ensures SameTokenKeys(a, Drop(a, MfaSession(m))) && SameTokenKeys(a, a)
  {
  }

  lemma StayedAside(s: State, pid: nat)
    ensures Aside(s, s, pid)
  {
  }

  lemma EndedAside(s: State, s2: State, pid: nat)
    requires s2.lineage == s.lineage && s2.flight == s.flight - {pid}
    ensures Aside(s, s2, pid)
  {
  }

  lemma MovedAside(s: State, s2: State, pid: nat)
    requires s2.lineage == s.lineage && pid in s2.flight && !s2.flight[pid].Revoking? && !s2.flight[pid].Indexing?
    requires s2.flight == s.flight[pid := s2.flight[pid]]
    ensures Aside(s, s2, pid)
  {
  }

  lemma RotateStandsAside(s: State, pid: nat, token: string)
    requires Inv(s)
    ensures var s2 := RotateStep(s, pid, token); Aside(s, s2, pid) && Shrank(s.store, s2.store, token)
    ensures pid !in s.started ==> Refresh(token) !in RotateStep(s, pid, token).store.data
  {
    hide Inv, Consume, ToString, Held, Aside, Shrank;
    ConsumeIsDrop(s, token);
    DroppedToken(s.store, token);
    assert Refresh(token) !in Drop(s.store, Refresh(token)).data;
    SameShrank(s.store, token);
    hide Drop;
    if pid in s.started {
      StayedAside(s, pid);
    } else if Consume(s.store, Refresh(token)).1.None? {
      EndedAside(s, RotateStep(s, pid, token), pid);
    } else {
      MovedAside(s, RotateStep(s, pid, token), pid);
    }
  }

  lemma SameShrank(a: Store<Key>, gone: string)
    ensures Shrank(a, a, gone)
  {
    hide IndexedTokens;
  }

  lemma LogoutSpendStandsAside(s: State, pid: nat, token: string)
    requires Inv(s)
    ensures var s2 := LogoutSpendStep(s, pid, token); Aside(s, s2, pid) && Shrank(s.store, s2.store, token)
    ensures pid !in s.started ==> Refresh(token) !in LogoutSpendStep(s, pid, token).store.data
  {
    hide Inv, Consume, ToString, Aside, Shrank;
    ConsumeIsDrop(s, token);
    DroppedToken(s.store, token);
    assert Refresh(token) !in Drop(s.store, Refresh(token)).data;
    SameShrank(s.store, token);
    hide Drop;
    if pid in s.started {
      StayedAside(s, pid);
    } else if Consume(s.store, Refresh(token)).1.None? {
      LogoutEnds(s, pid, token);
      hide LogoutSpendStep;
      EndedAside(s, LogoutSpendStep(s, pid, token), pid);
    } else {
      LogoutGoesOn(s, pid, token);
      hide LogoutSpendStep;
      MovedAside(s, LogoutSpendStep(s, pid, token), pid);
    }
  }

  lemma LogoutEnds(s: State, pid: nat, token: string)
    requires pid !in s.started && Consume(s.store, Refresh(token)).1.None?
    ensures var s2 := LogoutSpendStep(s, pid, token);
            s2.lineage == s.lineage && s2.flight == s.flight - {pid} && s2.store == Consume(s.store, Refresh(token)).0
  {
    hide Consume;
  }

  lemma LogoutGoesOn(s: State, pid: nat, token: string)
    requires pid !in s.started && Consume(s.store, Refresh(token)).1.Some?
    ensures var s2 := LogoutSpendStep(s, pid, token);
            && s2.lineage == s.lineage && s2.store == Consume(s.store, Refresh(token)).0
            && pid in s2.flight && s2.flight[pid].LoggingOut? && s2.flight == s.flight[pid := s2.flight[pid]]
  {
    hide Consume;
  }

  // ----- the token through each step on refresh tokens and their index

  lemma RotateKeepsListed(s: State, pid: nat, token: string, t: string)
    requires Inv(s)
    ensures var s2 := RotateStep(s, pid, token); Undisturbed(s, s2, t) && Unlisted(s, s2, t)
  {
    hide Inv, Aside, Shrank, Undisturbed, Unlisted;
    if pid in s.started {
      SameIsUndisturbed(s, t);
    } else {
      RotateStandsAside(s, pid, token);
      hide RotateStep;
      AsideShrinks(s, RotateStep(s, pid, token), pid, token, t);
    }
  }

  lemma SameIsUndisturbed(s: State, t: string)
    ensures Undisturbed(s, s, t) && Unlisted(s, s, t)
  {
    hide IndexedTokens;
  }

  lemma LogoutSpendKeepsListed(s: State, pid: nat, token: string, t: string)
    requires Inv(s)
    ensures var s2 := LogoutSpendStep(s, pid, token); Undisturbed(s, s2, t) && Unlisted(s, s2, t)
  {
    hide Inv, Aside, Shrank, Undisturbed, Unlisted;
    if pid in s.started {
      SameIsUndisturbed(s, t);
    } else {
      LogoutSpendStandsAside(s, pid, token);
      hide LogoutSpendStep;
      AsideShrinks(s, LogoutSpendStep(s, pid, token), pid, token, t);
    }
  }

  /** Only tokens that were consumed are taken off one at a time, and those are no longer stored. */
  lemma UnindexKeepsListed(s: State, pid: nat, delivered: bool, t: string)
    requires Inv(s)
    ensures var s2 := UnindexStep(s, pid, delivered); Undisturbed(s, s2, t) && Unlisted(s, s2, t)
  {
    if pid in s.flight && s.flight[pid].Rotating? {
      var f := s.flight[pid];
      assert FrameOk(s, pid, f) && Refresh(f.token) !in s.store.data && WellTyped(s.store);
      hide Inv, FrameOk, IndexedTokens, Shrank, Undisturbed, Unlisted, WellTyped;
      RemovedFromIndex(s.store, f.text, f.token);
      SameShrank(s.store, f.token);
      StillNoToken(s.store, f.text, f.token);
      hide Exec;
      AsideShrinks(s, UnindexStep(s, pid, delivered), pid, f.token, t);
    } else {
      hide Inv, Undisturbed, Unlisted;
      SameIsUndisturbed(s, t);
    }
  }

  lemma StillNoToken(a: Store<Key>, u: string, token: string)
    ensures Refresh(token) in Exec(a, SRem(UserSessions(u), token)).0.data <==> Refresh(token) in a.data
  {
    ExecFrame(a, SRem(UserSessions(u), token), Refresh(token));
  }

  lemma LogoutUnindexKeepsListed(s: State, pid: nat, t: string)
    requires Inv(s)
    ensures var s2 := LogoutUnindexStep(s, pid); Undisturbed(s, s2, t) && Unlisted(s, s2, t)
  {
    if pid in s.flight && s.flight[pid].LoggingOut? {
      var f := s.flight[pid];
      assert FrameOk(s, pid, f) && Refresh(f.token) !in s.store.data && WellTyped(s.store);
      hide Inv, FrameOk, IndexedTokens, Shrank, Undisturbed, Unlisted, WellTyped;
      RemovedFromIndex(s.store, f.text, f.token);
      StillNoToken(s.store, f.text, f.token);
      hide Exec;
      AsideShrinks(s, LogoutUnindexStep(s, pid), pid, f.token, t);
    } else {
      hide Inv, Undisturbed, Unlisted;
      SameIsUndisturbed(s, t);
    }
  }

  lemma MintKeepsListed(s: State, pid: nat, token: string, t: string)
    requires Inv(s) && t in s.lineage
    ensures var s2 := MintStep(s, pid, token); Undisturbed(s, s2, t) && Unlisted(s, s2, t)
  {
    assert TokensOk(s) && t in s.drawn;
    hide Inv, ToString;
    if token !in s.drawn && pid in s.flight && s.flight[pid].Minting? {
      MintStepIsMinted(s, pid, token);
      MintedGrows(s, pid, token);
      MintedKeepsListed(s, pid, token, t);
    } else {
      SameIsUndisturbed(s, t);
    }
    hide *;
  }

  lemma MintedKeepsListed(s: State, pid: nat, token: string, t: string)
    requires pid in s.flight && s.flight[pid].Minting? && t != token
    requires forall u :: IndexedTokens(MintedState(s, pid, token).store, u) == IndexedTokens(s.store, u)
    ensures var s2 := MintedState(s, pid, token); Undisturbed(s, s2, t) && Unlisted(s, s2, t)
  {
    hide IndexedTokens, ToString;
  }

  lemma IndexKeepsListed(s: State, pid: nat, t: string)
    requires WellTyped(s.store)
    ensures Undisturbed(s, IndexStep(s, pid), t)
    ensures Lost(s, t) ==> Unlisted(s, IndexStep(s, pid), t)
  {
    hide WellTyped;
    if pid in s.flight && s.flight[pid].Indexing? {
      AddedToIndex(s.store, s.flight[pid].text, s.flight[pid].token);
      hide IndexedTokens, Exec;
    }
  }

  lemma RevokeOneKeepsListed(s: State, pid: nat, token: string, t: string)
    ensures var s2 := RevokeOneStep(s, pid, token); Undisturbed(s, s2, t) && Unlisted(s, s2, t)
  {
    DroppedToken(s.store, token);
    hide IndexedTokens;
  }

  // ----- the two steps that could disturb it

  /** A revocation that takes its list now has the token on it. */
  lemma RevokeListProtects(s: State, pid: nat, text: string, t: string)
    requires Protected(s, t)
    ensures Protected(RevokeListStep(s, pid, text), t)
  {
    hide IndexedTokens, ToString;
  }

  /** A revocation that is over deleted what was on its list. */
  lemma RevokeIndexProtects(s: State, pid: nat, t: string)
    requires Inv(s) && Protected(s, t)
    ensures Protected(RevokeIndexStep(s, pid), t)
  {
    if pid in s.flight && s.flight[pid].Revoking? && s.flight[pid].todo == {} {
      SeenIsDead(s, pid, t);
      hide Inv, ToString;
      DroppedIndex(s.store, s.flight[pid].text, t);
      hide IndexedTokens;
    }
  }

  lemma SeenIsDead(s: State, pid: nat, t: string)
    requires Inv(s) && pid in s.flight && s.flight[pid].Revoking? && s.flight[pid].todo == {}
    ensures t in s.flight[pid].seen ==> Refresh(t) !in s.store.data
  {
    hide WellTyped, OneHolder, MfaOk, LineageOk, ToString, IndexedTokens;
    assert FrameOk(s, pid, s.flight[pid]);
  }

  lemma DroppedIndex(store: Store<Key>, u: string, t: string)
    ensures var s2 := Drop(store, UserSessions(u));
            && (Refresh(t) in s2.data <==> Refresh(t) in store.data)
            && IndexedTokens(s2, u) == {} && forall v :: v != u ==> IndexedTokens(s2, v) == IndexedTokens(store, v)
  {
    var s2 := Drop(store, UserSessions(u));
    forall v | v != u ensures IndexedTokens(s2, v) == IndexedTokens(store, v) {
    }
  }

  // ----- every step, and so every run

  lemma FlightOnly(s: State, s2: State, pid: nat, t: string)
    requires WellTyped(s.store) && Aside(s, s2, pid) && SameTokenKeys(s.store, s2.store)
    ensures Undisturbed(s, s2, t) && Unlisted(s, s2, t)
  {
    hide WellTyped, Aside, Undisturbed, Unlisted, SameTokenKeys, Shrank;
    SameKeysShrank(s.store, s2.store, t + "x");
    TextsDiffer(t);
    AsideShrinks(s, s2, pid, t + "x", t);
  }

  lemma TextsDiffer(t: string)
    ensures t + "x" != t
  {
    assert |t + "x"| == |t| + 1;
  }

  lemma ClockKeepsListed(s: State, d: Time, t: string)
    requires WellTyped(s.store)
    ensures var s2 := s.(store := Advance(s.store, d)); Undisturbed(s, s2, t) && Unlisted(s, s2, t)
  {
    hide WellTyped, Undisturbed, Unlisted;
    FlightOnly(s, s.(store := Advance(s.store, d)), 0, t);
  }

  lemma ForeignKeepsListed(s: State, c: Command<Key>, t: string)
    requires WellTyped(s.store) && IsForeign(c.key) && CommandFits(c)
    ensures Undisturbed(s, Do(s, c), t) && Unlisted(s, Do(s, c), t)
  {
    ForeignStore(s.store, c);
    hide Exec, WellTyped, Undisturbed, Unlisted, CommandFits;
    FlightOnly(s, Do(s, c), 0, t);
  }

  lemma SignInKeepsListed(s: State, crypto: Crypto, a: Action, t: string)
    requires WellTyped(s.store)
    requires a.LoginPlain? || a.LoginTotp? || a.GoogleOk? || a.TotpOk? || a.RecoveryOk? || a.LookUp? || a.Abandon?
    ensures var s2 := Next(s, crypto, a); Undisturbed(s, s2, t) && Unlisted(s, s2, t)
  {
    hide Undisturbed, Unlisted, Aside, WellTyped;
    StandsAside(s, crypto, a);
    hide Next;
    FlightOnly(s, Next(s, crypto, a), a.pid, t);
  }

  lemma StandsAside(s: State, crypto: Crypto, a: Action)
    requires a.LoginPlain? || a.LoginTotp? || a.GoogleOk? || a.TotpOk? || a.RecoveryOk? || a.LookUp? || a.Abandon?
    ensures var s2 := Next(s, crypto, a); Aside(s, s2, a.pid) && s2.store == s.store
  {
    hide Aside, Inv, LoginTotpStep, StoreMfaStep, SpendMfaStep, FactorStep, MintStep, LoginPlainStep, GoogleStep;
    hide IndexStep, RotateStep, UnindexStep, LookUpStep, LogoutSpendStep, LogoutUnindexStep, RevokeListStep;
    hide RevokeOneStep, RevokeIndexStep, Do, End, CommandFits;
    match a
    case LoginPlain(_, _, _, _) => SignInsStandAside(s, crypto, a);
    case GoogleOk(_, _) => SignInsStandAside(s, crypto, a);
    case LoginTotp(pid, user, row, password) => LoginTotpStandsAside(s, crypto, pid, user, row, password);
    case TotpOk(pid, row, code) => FactorStandsAside(s, crypto, pid, TotpCode(row, code));
    case RecoveryOk(pid, hash, code) => FactorStandsAside(s, crypto, pid, BackupCode(hash, code));
    case LookUp(pid, found) => LookUpStandsAside(s, pid, found);
    case Abandon(pid) =>
      EndStandsAside(s, pid);
      StayedAside(s, pid);
  }

  lemma MfaKeepsListed(s: State, crypto: Crypto, a: Action, t: string)
    requires Inv(s) && (a.StoreMfa? || a.SpendMfa?)
    ensures var s2 := Next(s, crypto, a); Undisturbed(s, s2, t) && Unlisted(s, s2, t)
  {
    assert WellTyped(s.store);
    hide Inv, WellTyped, Undisturbed, Unlisted, Aside, SameTokenKeys;
    NextMfa(s, crypto, a);
    if a.StoreMfa? {
      StoreMfaStandsAside(s, a.pid, a.token);
    } else {
      SpendMfaStandsAside(s, a.pid, a.token);
    }
    hide Next, StoreMfaStep, SpendMfaStep;
    FlightOnly(s, Next(s, crypto, a), a.pid, t);
  }

  lemma NextMfa(s: State, crypto: Crypto, a: Action)
    requires a.StoreMfa? || a.SpendMfa?
    ensures Next(s, crypto, a)
            == if a.StoreMfa? then StoreMfaStep(s, a.pid, a.token) else SpendMfaStep(s, a.pid, a.token)
  {
    hide LoginPlainStep, LoginTotpStep, StoreMfaStep, SpendMfaStep, FactorStep, GoogleStep, MintStep;
    hide IndexStep, RotateStep, UnindexStep, LookUpStep, LogoutSpendStep, LogoutUnindexStep, RevokeListStep;
    hide RevokeOneStep, RevokeIndexStep, Do, End, CommandFits;
  }

  lemma StoringKeepsListed(s: State, crypto: Crypto, a: Action, t: string)
    requires Inv(s) && t in s.lineage && (a.Mint? || a.Index? || a.RevokeOne?)
    ensures Undisturbed(s, Next(s, crypto, a), t)
    ensures Lost(s, t) ==> Unlisted(s, Next(s, crypto, a), t)
  {
    assert WellTyped(s.store);
    hide Inv, LoginPlainStep, LoginTotpStep, StoreMfaStep, SpendMfaStep, FactorStep, GoogleStep, MintStep;
    hide IndexStep, RotateStep, UnindexStep, LookUpStep, LogoutSpendStep, LogoutUnindexStep, RevokeListStep;
    hide RevokeOneStep, RevokeIndexStep, Do, End, CommandFits, WellTyped, Undisturbed, Unlisted, Lost, IsForeign;
    if a.Mint? {
      MintKeepsListed(s, a.pid, a.token, t);
    } else if a.Index? {
      IndexKeepsListed(s, a.pid, t);
    } else {
      RevokeOneKeepsListed(s, a.pid, a.token, t);
    }
  }

  lemma ConsumingKeepsListed(s: State, crypto: Crypto, a: Action, t: string)
    requires Inv(s) && (a.Rotate? || a.Unindex? || a.LogoutSpend? || a.LogoutUnindex?)
    ensures var s2 := Next(s, crypto, a); Undisturbed(s, s2, t) && Unlisted(s, s2, t)
  {
    assert WellTyped(s.store);
    hide Inv, LoginPlainStep, LoginTotpStep, StoreMfaStep, SpendMfaStep, FactorStep, GoogleStep, MintStep;
    hide IndexStep, RotateStep, UnindexStep, LookUpStep, LogoutSpendStep, LogoutUnindexStep, RevokeListStep;
    hide RevokeOneStep, RevokeIndexStep, Do, End, CommandFits, WellTyped, Undisturbed, Unlisted, Lost, IsForeign;
    if a.Rotate? {
      RotateKeepsListed(s, a.pid, a.token, t);
    } else if a.Unindex? {
      UnindexKeepsListed(s, a.pid, a.delivered, t);
    } else if a.LogoutSpend? {
      LogoutSpendKeepsListed(s, a.pid, a.token, t);
    } else {
      LogoutUnindexKeepsListed(s, a.pid, t);
    }
  }

  lemma EnvironmentKeepsListed(s: State, crypto: Crypto, a: Action, t: string)
    requires WellTyped(s.store) && (a.Tick? || a.Foreign?)
    ensures var s2 := Next(s, crypto, a); Undisturbed(s, s2, t) && Unlisted(s, s2, t)
  {
    hide WellTyped, Undisturbed, Unlisted, IsForeign, Do, CommandFits;
    match a
    case Tick(d) => ClockKeepsListed(s, d, t);
    case Foreign(c) =>
      if IsForeign(c.key) && CommandFits(c) {
        ForeignKeepsListed(s, c, t);
      } else {
        SameIsUndisturbed(s, t);
      }
  }

  /** Every step but the start and the end of a revocation. */
  lemma StepKeepsListed(s: State, crypto: Crypto, a: Action, t: string)
    requires Inv(s) && t in s.lineage && !a.RevokeList? && !a.RevokeIndex?
    ensures Undisturbed(s, Next(s, crypto, a), t)
    ensures Lost(s, t) ==> Unlisted(s, Next(s, crypto, a), t)
  {
    assert WellTyped(s.store);
    hide Inv, Next, WellTyped, Undisturbed, Unlisted, Lost;
    if a.Tick? || a.Foreign? {
      EnvironmentKeepsListed(s, crypto, a, t);
    } else if a.StoreMfa? || a.SpendMfa? {
      MfaKeepsListed(s, crypto, a, t);
    } else if a.LoginPlain? || a.LoginTotp? || a.GoogleOk? || a.TotpOk? || a.RecoveryOk? || a.LookUp? || a.Abandon? {
      SignInKeepsListed(s, crypto, a, t);
    } else if a.Mint? || a.Index? || a.RevokeOne? {
      StoringKeepsListed(s, crypto, a, t);
    } else {
      ConsumingKeepsListed(s, crypto, a, t);
    }
  }

  lemma NextProtects(s: State, crypto: Crypto, a: Action, t: string)
    requires Inv(s) && Protected(s, t)
    ensures Protected(Next(s, crypto, a), t)
  {
    assert t in s.lineage;
    hide Inv, Protected, Next, RevokeListStep, RevokeIndexStep, Undisturbed;
    if a.RevokeList? {
      RevokeListProtects(s, a.pid, a.text, t);
      NextRevokes(s, crypto, a.pid, a.text);
    } else if a.RevokeIndex? {
      RevokeIndexProtects(s, a.pid, t);
      NextRevokes(s, crypto, a.pid, "");
    } else {
      StepKeepsListed(s, crypto, a, t);
      UndisturbedProtects(s, Next(s, crypto, a), t);
    }
  }

  lemma {:induction false} RunProtects(s: State, crypto: Crypto, actions: seq<Action>, t: string)
    requires Inv(s) && Protected(s, t)
    ensures Protected(Run(s, crypto, actions), t)
    decreases |actions|
  {
    hide Inv, Next, Protected;
    if actions != [] {
      NextOk(s, crypto, actions[0]);
      NextProtects(s, crypto, actions[0], t);
      RunProtects(Next(s, crypto, actions[0]), crypto, actions[1..], t);
    }
  }

  // ----- a revocation that has not seen the token loses it

  lemma EndLosesIt(s: State, crypto: Crypto, pid: nat, t: string)
    requires Inv(s) && pid in s.flight && s.flight[pid].Revoking? && s.flight[pid].todo == {}
    requires t in s.lineage && s.flight[pid].text == Owner(s, t)
    ensures var s2 := Next(s, crypto, RevokeIndex(pid));
            && (Refresh(t) in s2.store.data <==> Refresh(t) in s.store.data)
            && (Refresh(t) in s.store.data ==> t !in s.flight[pid].seen)
            && s2.lineage == s.lineage && t !in IndexedTokens(s2.store, Owner(s, t))
  {
    hide Inv, ToString, Next;
    SeenIsDead(s, pid, t);
    NextRevokes(s, crypto, pid, "");
    DroppedIndex(s.store, s.flight[pid].text, t);
    hide IndexedTokens;
  }

  lemma OneDeletionSpares(s: State, crypto: Crypto, pid: nat, token: string, t: string)
    requires pid in s.flight && s.flight[pid].Revoking? && token in s.flight[pid].todo && token != t
    requires Refresh(t) in s.store.data
    ensures var s2, f := Next(s, crypto, RevokeOne(pid, token)), s.flight[pid];
            && Refresh(t) in s2.store.data && s2.lineage == s.lineage
            && pid in s2.flight && s2.flight[pid] == f.(todo := f.todo - {token})
  {
    hide LoginPlainStep, LoginTotpStep, StoreMfaStep, SpendMfaStep, FactorStep, GoogleStep, MintStep;
    hide IndexStep, RotateStep, UnindexStep, LookUpStep, LogoutSpendStep, LogoutUnindexStep, RevokeListStep;
    hide RevokeIndexStep, End, CommandFits;
  }

  /** The revocation runs to its end: the token is still stored, and its index is gone. */
  lemma {:induction false} RevocationEnds(s: State, crypto: Crypto, pid: nat, t: string) returns (actions: seq<Action>)
    requires Inv(s) && pid in s.flight && s.flight[pid].Revoking? && t !in s.flight[pid].seen
    requires Refresh(t) in s.store.data && s.flight[pid].text == Owner(s, t)
    ensures !ListedWhileStored(Run(s, crypto, actions), t)
    decreases |s.flight[pid].todo|
  {
    assert FrameOk(s, pid, s.flight[pid]) && t in s.lineage;
    hide Inv, ToString, Next, IndexedTokens;
    if s.flight[pid].todo == {} {
      EndLosesIt(s, crypto, pid, t);
      actions := [RevokeIndex(pid)];
      assert Run(s, crypto, actions) == Run(Next(s, crypto, actions[0]), crypto, []);
    } else {
      var token :| token in s.flight[pid].todo;
      OneDeletionSpares(s, crypto, pid, token, t);
      NextOk(s, crypto, RevokeOne(pid, token));
      var rest := RevocationEnds(Next(s, crypto, RevokeOne(pid, token)), crypto, pid, t);
      actions := [RevokeOne(pid, token)] + rest;
      assert actions[1..] == rest;
    }
  }

  /**
   Exactly when a stored token can be relied on to be found: it stays in its owner's index, in every continuation and
   for as long as it is stored, if and only if it is there now and every revocation of its owner that is under way has
   seen it.
   */
  lemma StaysListedIff(s: State, crypto: Crypto, t: string)
    requires Reachable(s, crypto) && Refresh(t) in s.store.data
    ensures (forall actions :: ListedWhileStored(Run(s, crypto, actions), t)) <==> Protected(s, t)
  {
    ReachableOk(s, crypto);
    assert t in s.lineage;
    hide Reachable, Inv, IndexedTokens, ToString;
    assert Run(s, crypto, []) == s;
    hide Run;
    if Protected(s, t) {
      forall actions ensures ListedWhileStored(Run(s, crypto, actions), t) {
        RunProtects(s, crypto, actions, t);
      }
    } else if ListedWhileStored(s, t) {
      var p :| p in s.flight && s.flight[p].Revoking? && s.flight[p].text == Owner(s, t) && t !in s.flight[p].seen;
      var actions := RevocationEnds(s, crypto, p, t);
    }
  }

  /** When a revocation sends its last DEL, the user's stored tokens are exactly those it had not seen, now unlisted. */
  lemma RevocationLeavesTheUnseen(s: State, crypto: Crypto, pid: nat, t: string)
    requires Reachable(s, crypto) && pid in s.flight && s.flight[pid].Revoking? && s.flight[pid].todo == {}
    requires t in s.lineage && Owner(s, t) == s.flight[pid].text
    ensures var s2 := Next(s, crypto, RevokeIndex(pid));
            && (Refresh(t) in s2.store.data <==> Refresh(t) in s.store.data && t !in s.flight[pid].seen)
            && t !in IndexedTokens(s2.store, Owner(s, t))
  {
    hide Reachable, Inv, ToString, Next, IndexedTokens;
    ReachableOk(s, crypto);
    EndLosesIt(s, crypto, pid, t);
  }

  // ----- a lost token stays lost

  lemma RevokeListStaysLost(s: State, pid: nat, text: string, t: string)
    requires Lost(s, t)
    ensures Lost(RevokeListStep(s, pid, text), t)
  {
    hide IndexedTokens;
  }

  lemma RevokeIndexStaysLost(s: State, pid: nat, t: string)
    requires Lost(s, t)
    ensures Lost(RevokeIndexStep(s, pid), t)
  {
    if pid in s.flight && s.flight[pid].Revoking? {
      DroppedIndex(s.store, s.flight[pid].text, t);
    }
    hide IndexedTokens;
  }

  lemma NextStaysLost(s: State, crypto: Crypto, a: Action, t: string)
    requires Inv(s) && Lost(s, t)
    ensures Lost(Next(s, crypto, a), t)
  {
    assert t in s.lineage;
    hide Inv, Lost, Next, RevokeListStep, RevokeIndexStep, Undisturbed, Unlisted;
    if a.RevokeList? {
      RevokeListStaysLost(s, a.pid, a.text, t);
      NextRevokes(s, crypto, a.pid, a.text);
    } else if a.RevokeIndex? {
      RevokeIndexStaysLost(s, a.pid, t);
      NextRevokes(s, crypto, a.pid, "");
    } else {
      StepKeepsListed(s, crypto, a, t);
      UnlistedStaysLost(s, Next(s, crypto, a), t);
    }
  }

  /** Once no index lists a token and nobody is about to, no revocation that starts later ever sees it. */
  lemma {:induction false} LostForGood(s: State, crypto: Crypto, actions: seq<Action>, t: string)
    requires Inv(s) && Lost(s, t)
    ensures Lost(Run(s, crypto, actions), t)
    ensures forall u :: t !in IndexedTokens(Run(s, crypto, actions).store, u)
    decreases |actions|
  {
    if actions == [] {
      hide Inv;
    } else {
      hide Inv, Next, IndexedTokens;
      NextOk(s, crypto, actions[0]);
      NextStaysLost(s, crypto, actions[0], t);
      hide Lost;
      LostForGood(Next(s, crypto, actions[0]), crypto, actions[1..], t);
    }
  }
}
