/**
 Granularity: handler atomic. Recovery codes over whole runs: between two enrolments the eight codes are only ever
 moved, one by one, from unused to accepted.
 */
module RecoveryCodes {
  import opened Common
  import opened Uuids
  import opened Keyspace
  import opened Keys
  import opened Tokens
  import opened UserTables
  import opened Worlds
  import opened Server
  import F = SecondFactor
  import A = Authorization

  /** For every user who has enrolled: the codes of the last enrolment, and those accepted since. */
  datatype Audit = Audit(issued: map<Uuid, set<Uuid>>, accepted: map<Uuid, set<Uuid>>)

  /** The user and code row of an accepted recovery. */
  function AcceptedCode(w: World, crypto: Crypto, r: Request): Option<(Uuid, Uuid)> {
    if !r.Recovery? || !F.Recovery(w, crypto, r.mfaSession, r.code, r.listing, r.draw).1.SignedIn? then None
    else
      var user := F.Recovery(w, crypto, r.mfaSession, r.code, r.listing, r.draw).1.user;
      match F.FirstMatch(crypto, CodesOf(w.db, user), r.code, r.listing)
      case Some(code) => Some((user, code))
      case None => None
  }

  function EnrolledUser(w: World, r: Request): Option<Uuid> {
    if r.Enroll? && r.subject.Some? && Parse(r.subject.value).Some? && Parse(r.subject.value).value in w.db.users
    then Parse(r.subject.value) else None
  }

  function CodesAccepted(a: Audit, user: Uuid): set<Uuid> {
    if user in a.accepted then a.accepted[user] else {}
  }

  ghost function AuditStep(a: Audit, s: State, crypto: Crypto, r: Request): Audit {
    if !Allowed(s, r) then a
    else
      match EnrolledUser(s.world, r)
      case Some(user) => Audit(a.issued[user := set c | c in r.enrolment.ids], a.accepted[user := {}])
      case None =>
        match AcceptedCode(s.world, crypto, r)
        case Some((user, code)) => a.(accepted := a.accepted[user := CodesAccepted(a, user) + {code}])
        case None => a
  }

  ghost function AuditRun(a: Audit, s: State, crypto: Crypto, rs: seq<Request>): Audit
    decreases |rs|
  {
    if rs == [] then a else AuditRun(AuditStep(a, s, crypto, rs[0]), Step(s, crypto, rs[0]), crypto, rs[1..])
  }

  /** The issued codes split into the unused and the accepted ones; whoever has not enrolled has none. */
  predicate Conserved(a: Audit, db: Db, user: Uuid) {
    var unused, accepted := Unused(CodesOf(db, user)), CodesAccepted(a, user);
    var issued := if user in a.issued then a.issued[user] else {};
    && unused !! accepted && unused + accepted == issued
    && (if user in a.issued then |issued| == RECOVERY_CODE_COUNT else accepted == {})
  }

  ghost predicate AllConserved(a: Audit, db: Db) {
    forall user: Uuid :: Conserved(a, db, user)
  }

  lemma SignUpsKeepCodes(w: World, crypto: Crypto, r: Request)
    requires r.Register? || r.VerifyEmail? || r.GoogleCallback?
    ensures Serve(w, crypto, r).0.db.recoveryCodes == w.db.recoveryCodes
  {
    hide ToString, Parse, StoreRefresh, Consume, Exec, SetText, Crypto.Hash;
  }

  lemma PasswordsKeepCodes(w: World, crypto: Crypto, r: Request)
    requires r.Login? || r.Reset? || r.Confirm?
    ensures Serve(w, crypto, r).0.db.recoveryCodes == w.db.recoveryCodes
  {
    hide ToString, Parse, StoreRefresh, Consume, Exec, RevokeAll, SetText, HitCounter, Crypto.Accepts, Crypto.Hash;
  }

  lemma OtherRequestsKeepCodes(w: World, crypto: Crypto, r: Request)
    requires !r.Enroll? && !r.Recovery?
    ensures Serve(w, crypto, r).0.db.recoveryCodes == w.db.recoveryCodes
  {
    hide U.Register, U.GoogleCallback, U.VerifyEmail, L.Login, L.Reset, F.Confirm;
    hide ToString, Parse, StoreRefresh, ConsumeRefresh, Consume, Exec, Drop, RevokeAll, Advance, SetText, HitCounter;
    hide Crypto.Accepts, Crypto.Hash, HasConsent, A.ValidRedirectURI, A.VerifyPKCE, A.SessionUser;
    if r.Register? || r.VerifyEmail? || r.GoogleCallback? {
      SignUpsKeepCodes(w, crypto, r);
    } else if r.Login? || r.Reset? || r.Confirm? {
      PasswordsKeepCodes(w, crypto, r);
    }
  }

  lemma ListedMatchUnused(db: Db, crypto: Crypto, id: Uuid, code: string, listing: seq<Uuid>)
    requires F.ListsUnused(db, id, listing)
    ensures var m := F.FirstMatch(crypto, CodesOf(db, id), code, listing);
            m.Some? ==> m.value in Unused(CodesOf(db, id))
  {
    F.FirstMatchIsListed(crypto, CodesOf(db, id), code, listing);
  }

  /** The session an allowed recovery presents names a row, and its listing is one of that user's unused codes. */
  lemma RecoverySession(s: State, r: Request)
    requires Inv(s) && Allowed(s, r) && r.Recovery?
    ensures var user := Consume(s.world.redis, MfaSession(r.mfaSession)).1;
            user.Some? ==> Parse(user.value).Some? && Parse(user.value).value in s.world.db.users
                           && F.ListsUnused(s.world.db, Parse(user.value).value, r.listing)
  {
    ConsumeOk(s.world, MfaSession(r.mfaSession), s.drawn, s.ids);
    hide WorldOk, Consume, Parse, ToString, F.ListsUnused;
  }

  lemma NoSessionNoRecovery(w: World, crypto: Crypto, r: Request)
    requires r.Recovery? && Consume(w.redis, MfaSession(r.mfaSession)).1.None?
    ensures !Serve(w, crypto, r).1.SignedIn? && Serve(w, crypto, r).0.db == w.db
  {
    hide Consume;
  }

  lemma RecoveryEffect(s: State, crypto: Crypto, r: Request)
    requires Inv(s) && Allowed(s, r) && r.Recovery?
    ensures var after := Serve(s.world, crypto, r).0.db;
            match AcceptedCode(s.world, crypto, r)
            case Some((user, code)) =>
              after.recoveryCodes == MarkUsed(s.world.db, user, code).recoveryCodes
              && code in Unused(CodesOf(s.world.db, user))
            case None => after.recoveryCodes == s.world.db.recoveryCodes
  {
    hide Inv, Allowed, F.Recovery, F.FirstMatch, F.ListsUnused, Consume, Parse, Unused;
    var w := s.world;
    RecoverySession(s, r);
    var user := Consume(w.redis, MfaSession(r.mfaSession)).1;
    if user.Some? {
      var id := Parse(user.value).value;
      ListedMatchUnused(w.db, crypto, id, r.code, r.listing);
      RecoveryShape(w, crypto, r, id);
    } else {
      NoSessionNoRecovery(w, crypto, r);
    }
  }

  lemma RecoveryShape(w: World, crypto: Crypto, r: Request, id: Uuid)
    requires r.Recovery? && id in w.db.users
    requires var user := Consume(w.redis, MfaSession(r.mfaSession)).1; user.Some? && Parse(user.value) == Some(id)
    ensures var (after, resp) := Serve(w, crypto, r);
            var matched := F.FirstMatch(crypto, CodesOf(w.db, id), r.code, r.listing);
            if r.mfaSession != "" && r.code != "" && matched.Some? then
              resp == SignedIn(id, r.draw.token)
              && after.db.recoveryCodes == MarkUsed(w.db, id, matched.value).recoveryCodes
            else !resp.SignedIn? && after.db.recoveryCodes == w.db.recoveryCodes
  {
    hide ToString, StoreRefresh, Consume, Parse, F.FirstMatch;
  }

  lemma EnrollEffect(w: World, crypto: Crypto, r: Request)
    requires r.Enroll? && r.enrolment.Complete()
    ensures var after := Serve(w, crypto, r).0.db;
            after.recoveryCodes
            == match EnrolledUser(w, r)
               case Some(user) => ReplaceAll(w.db, user, r.enrolment.ids, F.HashAll(crypto, r.enrolment)).recoveryCodes
               case None => w.db.recoveryCodes
  {
    hide Parse, F.HashAll, FreshCodes;
  }

  lemma StepConserves(a: Audit, s: State, crypto: Crypto, r: Request)
    requires Inv(s) && AllConserved(a, s.world.db)
    ensures AllConserved(AuditStep(a, s, crypto, r), Step(s, crypto, r).world.db)
  {
    assert Allowed(s, r) && r.Enroll? ==> r.enrolment.Complete();
    hide Serve, Inv, Conserved, Allowed, AuditStep;
    if Allowed(s, r) {
      var a2 := AuditStep(a, s, crypto, r);
      forall user: Uuid ensures Conserved(a2, Serve(s.world, crypto, r).0.db, user) {
        if r.Enroll? {
          EnrollStepConserves(a, s, crypto, r, user);
        } else if r.Recovery? {
          RecoveryStepConserves(a, s, crypto, r, user);
        } else {
          OtherStepConserves(a, s, crypto, r, user);
        }
      }
    } else {
      RefusedAuditsNothing(a, s, crypto, r);
    }
  }

  lemma RefusedAuditsNothing(a: Audit, s: State, crypto: Crypto, r: Request)
    requires !Allowed(s, r)
    ensures AuditStep(a, s, crypto, r) == a
  {
    hide Allowed;
  }

  lemma EnrollStepConserves(a: Audit, s: State, crypto: Crypto, r: Request, user: Uuid)
    requires Allowed(s, r) && r.Enroll? && Conserved(a, s.world.db, user)
    ensures Conserved(AuditStep(a, s, crypto, r), Serve(s.world, crypto, r).0.db, user)
  {
    assert r.enrolment.Complete();
    EnrollEffect(s.world, crypto, r);
    FreshCodesUnused(r.enrolment.ids, F.HashAll(crypto, r.enrolment));
    hide Serve, Conserved, EnrolledUser, FreshCodes, F.HashAll, AcceptedCode;
    EnrollConserves(a, s.world, crypto, r, Serve(s.world, crypto, r).0.db, user);
    NothingAccepted(s.world, crypto, r);
    hide Allowed;
  }

  lemma NothingAccepted(w: World, crypto: Crypto, r: Request)
    requires !r.Recovery?
    ensures AcceptedCode(w, crypto, r).None?
  {
  }

  lemma RecoveryStepConserves(a: Audit, s: State, crypto: Crypto, r: Request, user: Uuid)
    requires Inv(s) && Allowed(s, r) && r.Recovery? && Conserved(a, s.world.db, user)
    ensures Conserved(AuditStep(a, s, crypto, r), Serve(s.world, crypto, r).0.db, user)
  {
    hide Serve, Inv, Conserved, AcceptedCode, Allowed, Unused, CodesOf, MarkUsed;
    RecoveryEffect(s, crypto, r);
    RecoveryConserves(a, s.world, crypto, r, Serve(s.world, crypto, r).0.db, user);
  }

  lemma OtherStepConserves(a: Audit, s: State, crypto: Crypto, r: Request, user: Uuid)
    requires Allowed(s, r) && !r.Enroll? && !r.Recovery? && Conserved(a, s.world.db, user)
    ensures Conserved(AuditStep(a, s, crypto, r), Serve(s.world, crypto, r).0.db, user)
  {
    hide Serve, Conserved, AcceptedCode, Allowed;
    OtherRequestsKeepCodes(s.world, crypto, r);
    NothingAccepted(s.world, crypto, r);
    KeepConserves(a, a, s.world.db, Serve(s.world, crypto, r).0.db, user);
  }

  lemma EnrollConserves(a: Audit, w: World, crypto: Crypto, r: Request, after: Db, user: Uuid)
    requires r.Enroll? && r.enrolment.Complete() && Conserved(a, w.db, user)
    requires var codes := FreshCodes(r.enrolment.ids, F.HashAll(crypto, r.enrolment));
             && Unused(codes) == (set c | c in r.enrolment.ids)
             && |set c | c in r.enrolment.ids| == |r.enrolment.ids|
             && after.recoveryCodes == match EnrolledUser(w, r)
                                       case Some(id) => w.db.recoveryCodes[id := codes]
                                       case None => w.db.recoveryCodes
    ensures var a2 := match EnrolledUser(w, r)
                      case Some(id) => Audit(a.issued[id := set c | c in r.enrolment.ids], a.accepted[id := {}])
                      case None => a;
            Conserved(a2, after, user)
  {
    hide FreshCodes, F.HashAll, EnrolledUser, Conserved;
    match EnrolledUser(w, r)
    case Some(id) =>
      var ids := set c | c in r.enrolment.ids;
      var a2 := Audit(a.issued[id := ids], a.accepted[id := {}]);
      if id == user {
        FreshConserves(a2, after, user, ids);
      } else {
        KeepConserves(a, a2, w.db, after, user);
      }
    case None => KeepConserves(a, a, w.db, after, user);
  }

  lemma FreshConserves(a: Audit, db: Db, user: Uuid, ids: set<Uuid>)
    requires user in a.issued && a.issued[user] == ids && CodesAccepted(a, user) == {}
    requires Unused(CodesOf(db, user)) == ids && |ids| == RECOVERY_CODE_COUNT
    ensures Conserved(a, db, user)
  {
    hide Unused, CodesOf;
  }

  lemma AcceptConserves(a: Audit, db: Db, after: Db, user: Uuid, code: Uuid)
    requires Conserved(a, db, user) && code in Unused(CodesOf(db, user))
    requires Unused(CodesOf(after, user)) == Unused(CodesOf(db, user)) - {code}
    ensures Conserved(a.(accepted := a.accepted[user := CodesAccepted(a, user) + {code}]), after, user)
  {
    hide CodesOf, Unused;
  }

  lemma KeepConserves(a: Audit, a2: Audit, db: Db, after: Db, user: Uuid)
    requires Conserved(a, db, user) && CodesOf(after, user) == CodesOf(db, user)
    requires CodesAccepted(a2, user) == CodesAccepted(a, user) && (user in a2.issued <==> user in a.issued)
    requires user in a.issued ==> a2.issued[user] == a.issued[user]
    ensures Conserved(a2, after, user)
  {
  }

  lemma RecoveryConserves(a: Audit, w: World, crypto: Crypto, r: Request, after: Db, user: Uuid)
    requires Conserved(a, w.db, user)
    requires match AcceptedCode(w, crypto, r)
             case Some((id, code)) =>
               after.recoveryCodes == MarkUsed(w.db, id, code).recoveryCodes && code in Unused(CodesOf(w.db, id))
             case None => after.recoveryCodes == w.db.recoveryCodes
    ensures var a2 := match AcceptedCode(w, crypto, r)
                      case Some((id, code)) => a.(accepted := a.accepted[id := CodesAccepted(a, id) + {code}])
                      case None => a;
            Conserved(a2, after, user)
  {
    hide AcceptedCode, Conserved, MarkUsed, Unused;
    match AcceptedCode(w, crypto, r)
    case Some((id, code)) =>
      MarkUsedTakesOne(w.db, id, code);
      assert CodesOf(after, user) == CodesOf(MarkUsed(w.db, id, code), user);
      hide CodesOf;
      if user == id {
        AcceptConserves(a, w.db, after, user, code);
      } else {
        KeepConserves(a, a.(accepted := a.accepted[id := CodesAccepted(a, id) + {code}]), w.db, after, user);
      }
    case None =>
      assert CodesOf(after, user) == CodesOf(w.db, user);
      KeepConserves(a, a, w.db, after, user);
  }

  lemma {:induction false} ConservedFrom(a: Audit, s: State, crypto: Crypto, rs: seq<Request>)
    requires Inv(s) && AllConserved(a, s.world.db)
    ensures AllConserved(AuditRun(a, s, crypto, rs), Run(s, crypto, rs).world.db) && Inv(Run(s, crypto, rs))
    decreases |rs|
  {
    hide Inv, AllConserved, Step, AuditStep;
    if rs != [] {
      StepConserves(a, s, crypto, rs[0]);
      StepKeeps(s, crypto, rs[0]);
      ConservedFrom(AuditStep(a, s, crypto, rs[0]), Step(s, crypto, rs[0]), crypto, rs[1..]);
    }
  }

  /**
   Conservation, over every run from the empty server: for every enrolled user unused and accepted codes together are
   the eight issued ones and disjoint, so |unused| + |accepted| == 8.
   */
  lemma CodesConserved(crypto: Crypto, rs: seq<Request>, user: Uuid)
    ensures var a := AuditRun(Audit(map[], map[]), Init(), crypto, rs);
            var db := Run(Init(), crypto, rs).world.db;
            && Conserved(a, db, user)
            && (user in a.issued ==> |Unused(CodesOf(db, user))| + |CodesAccepted(a, user)| == RECOVERY_CODE_COUNT)
  {
    hide Inv, Run, AuditRun;
    InitOk();
    forall u: Uuid ensures Conserved(Audit(map[], map[]), Init().world.db, u) {
    }
    ConservedFrom(Audit(map[], map[]), Init(), crypto, rs);
  }

  /** No code is accepted twice, and once eight have been accepted no recovery succeeds until the next enrolment. */
  lemma AcceptedOnlyOnce(crypto: Crypto, rs: seq<Request>, r: Request)
    requires Allowed(Run(Init(), crypto, rs), r) && AcceptedCode(Run(Init(), crypto, rs).world, crypto, r).Some?
    ensures var a := AuditRun(Audit(map[], map[]), Init(), crypto, rs);
            var (user, code) := AcceptedCode(Run(Init(), crypto, rs).world, crypto, r).value;
            code !in CodesAccepted(a, user) && |CodesAccepted(a, user)| < RECOVERY_CODE_COUNT
  {
    hide Run, AuditRun, Inv, Allowed, AcceptedCode;
    InitOk();
    RunKeeps(Init(), crypto, rs);
    var s := Run(Init(), crypto, rs);
    AcceptedIsRecovery(s.world, crypto, r);
    RecoveryEffect(s, crypto, r);
    var (user, code) := AcceptedCode(s.world, crypto, r).value;
    CodesConserved(crypto, rs, user);
  }

  lemma AcceptedIsRecovery(w: World, crypto: Crypto, r: Request)
    requires AcceptedCode(w, crypto, r).Some?
    ensures r.Recovery?
  {
  }
}
