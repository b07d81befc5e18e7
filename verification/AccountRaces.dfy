/**
 Granularity: interleaved. Registrations, Google sign-ins, TOTP requests and any other updates of user rows run at
 once, each stopped between any two of its Cassandra statements; any of them may be abandoned anywhere.
 */
module AccountRaces {
  import opened Common
  import opened Uuids
  import opened UserTables
  import opened Worlds
  import U = SignUp
  import F = SecondFactor

  datatype Frame =
    /** findOrCreateUser: the index named a row, which is about to be read. */
    | FindingRow(found: Uuid, id: Uuid, u: User)
    /** Create is about to read the index, then the row it named. */
    | Creating(id: Uuid, u: User)
    | CheckingRow(found: Uuid, id: Uuid, u: User)
    /** Create found nothing and is about to write the row, then the index. */
    | Inserting(id: Uuid, u: User)
    | Indexing(id: Uuid, email: string)
    /** About to write the TOTP columns. */
    | Enrolling(user: Uuid, secret: string)
    | Confirming(user: Uuid, secret: string)
    | Disabling(user: Uuid, secret: string)

  datatype Outcome = Existing | Created | Refused

  /** The id a request goes on with. After a refusal, Register stops; findOrCreateUser goes on with the id it drew. */
  datatype Result = Result(id: Uuid, email: string, outcome: Outcome)

  /** The history says who drew which id, which rows Create wrote, and which code confirmed which secret. */
  datatype State =
    State(db: Db, flight: map<nat, Frame>, started: set<nat>,
          owner: map<Uuid, nat>, inserted: map<Uuid, string>, results: map<nat, Result>,
          confirmed: map<(Uuid, string), string>)

  datatype Action =
    | Register(pid: nat, id: Uuid, email: string, hash: string)
    | Federate(pid: nat, id: Uuid, email: string, verified: bool)
    | FindRow(pid: nat)
    | CheckIndex(pid: nat)
    | CheckRow(pid: nat)
    | InsertRow(pid: nat)
    | InsertIndex(pid: nat)
    | Touch(user: Uuid, hash: string, verified: bool, lockedUntil: Option<Time>, attempts: int)
    | ReadForEnroll(pid: nat, user: Uuid, secret: string)
    | ReadForConfirm(pid: nat, user: Uuid, code: string)
    | ReadForRecovery(pid: nat, user: Uuid)
    | WriteTotp(pid: nat)
    | Abandon(pid: nat)

  function Init(): State {
    State(Db(map[], map[], map[], map[], map[], map[]), map[], {}, map[], map[], map[], map[])
  }

  function Move(s: State, pid: nat, f: Frame): State {
    s.(flight := s.flight[pid := f], started := s.started + {pid})
  }

  function End(s: State, pid: nat): State {
    s.(flight := s.flight - {pid}, started := s.started + {pid})
  }

  function Finish(s: State, pid: nat, r: Result): State {
    End(s.(results := s.results[pid := r]), pid)
  }

  predicate Fresh(s: State, pid: nat, id: Uuid) {
    pid !in s.started && id !in s.owner
  }

  function Draw(s: State, pid: nat, id: Uuid, f: Frame): State {
    Move(s.(owner := s.owner[id := pid]), pid, f)
  }

  function RegisterStep(s: State, pid: nat, id: Uuid, email: string, hash: string): State {
    if !Fresh(s, pid, id) then s else Draw(s, pid, id, Creating(id, NULL_ROW.(email := email, passwordHash := hash)))
  }

  /** The first lookup of findOrCreateUser: a hit leads to the row, a miss to Create. */
  function FederateStep(s: State, pid: nat, id: Uuid, email: string, verified: bool): State {
    if !Fresh(s, pid, id) then s
    else
      var u := NULL_ROW.(email := email, emailVerified := verified);
      if email in s.db.usersByEmail then Draw(s, pid, id, FindingRow(s.db.usersByEmail[email], id, u))
      else Draw(s, pid, id, Creating(id, u))
  }

  function FindRowStep(s: State, pid: nat): State {
    if pid !in s.flight || !s.flight[pid].FindingRow? then s
    else
      var f := s.flight[pid];
      if f.found in s.db.users then Finish(s, pid, Result(f.found, f.u.email, Existing))
      else Move(s, pid, Creating(f.id, f.u))
  }

  function CheckIndexStep(s: State, pid: nat): State {
    if pid !in s.flight || !s.flight[pid].Creating? then s
    else
      var f := s.flight[pid];
      if f.u.email in s.db.usersByEmail then Move(s, pid, CheckingRow(s.db.usersByEmail[f.u.email], f.id, f.u))
      else Move(s, pid, Inserting(f.id, f.u))
  }

  function CheckRowStep(s: State, pid: nat): State {
    if pid !in s.flight || !s.flight[pid].CheckingRow? then s
    else
      var f := s.flight[pid];
      if f.found in s.db.users then Finish(s, pid, Result(f.id, f.u.email, Refused))
      else Move(s, pid, Inserting(f.id, f.u))
  }

  function InsertRowStep(s: State, pid: nat): State {
    if pid !in s.flight || !s.flight[pid].Inserting? then s
    else
      var f := s.flight[pid];
      Move(s.(db := Upsert(s.db, f.id, f.u), inserted := s.inserted[f.id := f.u.email]), pid, Indexing(f.id, f.u.email))
  }

  function InsertIndexStep(s: State, pid: nat): State {
    if pid !in s.flight || !s.flight[pid].Indexing? then s
    else
      var f := s.flight[pid];
      Finish(s.(db := s.db.(usersByEmail := s.db.usersByEmail[f.email := f.id])), pid, Result(f.id, f.email, Created))
  }

  /** Any update of the other columns, aimed at any id, whether or not it has a row. */
  function TouchStep(s: State, user: Uuid, hash: string, verified: bool, lockedUntil: Option<Time>, attempts: int)
    : State
  {
    s.(db := Upsert(s.db, user, Row(s.db, user).(passwordHash := hash, emailVerified := verified,
                                                 lockedUntil := lockedUntil, failedAttempts := attempts)))
  }

  function EnrollStep(s: State, pid: nat, user: Uuid, secret: string): State {
    if pid in s.started || user !in s.db.users then s else Move(s, pid, Enrolling(user, secret))
  }

  function ConfirmStep(s: State, crypto: Crypto, pid: nat, user: Uuid, code: string): State {
    if pid in s.started || user !in s.db.users || !crypto.totpValid(code, s.db.users[user].totpSecret) then s
    else
      var secret := s.db.users[user].totpSecret;
      Move(s.(confirmed := s.confirmed[(user, secret) := code]), pid, Confirming(user, secret))
  }

  function RecoverStep(s: State, pid: nat, user: Uuid): State {
    if pid in s.started || user !in s.db.users then s
    else Move(s, pid, Disabling(user, s.db.users[user].totpSecret))
  }

  /** The secret read earlier is written back, whatever the row says by now. */
  function WriteTotpStep(s: State, pid: nat): State {
    if pid !in s.flight then s
    else
      match s.flight[pid]
      case Enrolling(user, secret) => End(s.(db := UpdateTOTP(s.db, user, secret, false)), pid)
      case Confirming(user, secret) => End(s.(db := UpdateTOTP(s.db, user, secret, true)), pid)
      case Disabling(user, secret) => End(s.(db := UpdateTOTP(s.db, user, secret, false)), pid)
      case _ => s
  }

  function Next(s: State, crypto: Crypto, a: Action): State {
    match a
    case Register(pid, id, email, hash) => RegisterStep(s, pid, id, email, hash)
    case Federate(pid, id, email, verified) => FederateStep(s, pid, id, email, verified)
    case FindRow(pid) => FindRowStep(s, pid)
    case CheckIndex(pid) => CheckIndexStep(s, pid)
    case CheckRow(pid) => CheckRowStep(s, pid)
    case InsertRow(pid) => InsertRowStep(s, pid)
    case InsertIndex(pid) => InsertIndexStep(s, pid)
    case Touch(user, hash, verified, lockedUntil, attempts) =>
      TouchStep(s, user, hash, verified, lockedUntil, attempts)
    case ReadForEnroll(pid, user, secret) => EnrollStep(s, pid, user, secret)
    case ReadForConfirm(pid, user, code) => ConfirmStep(s, crypto, pid, user, code)
    case ReadForRecovery(pid, user) => RecoverStep(s, pid, user)
    case WriteTotp(pid) => WriteTotpStep(s, pid)
    case Abandon(pid) => End(s, pid)
  }

  function Run(s: State, crypto: Crypto, actions: seq<Action>): State
    decreases |actions|
  {
    if actions == [] then s else Run(Next(s, crypto, actions[0]), crypto, actions[1..])
  }

  // ----- the invariant

  ghost predicate TablesOk(s: State) {
    && (forall e :: e in s.db.usersByEmail ==>
          s.db.usersByEmail[e] in s.inserted && s.inserted[s.db.usersByEmail[e]] == e)
    && (forall id :: id in s.inserted ==> id in s.owner && id in s.db.users && s.db.users[id].email == s.inserted[id])
  }

  ghost predicate TotpOk(s: State, crypto: Crypto) {
    && (forall id :: id in s.db.users && s.db.users[id].totpEnabled ==> (id, s.db.users[id].totpSecret) in s.confirmed)
    && (forall k :: k in s.confirmed ==> crypto.totpValid(s.confirmed[k], k.1))
  }

  /** The id is the request's own and has no row yet; the row to be is without a second factor. */
  predicate Drew(s: State, pid: nat, id: Uuid, u: User) {
    id in s.owner && s.owner[id] == pid && id !in s.inserted && !u.totpEnabled
  }

  predicate FrameOk(s: State, pid: nat, f: Frame) {
    match f
    case FindingRow(found, id, u) => Drew(s, pid, id, u) && found in s.inserted && s.inserted[found] == u.email
    case Creating(id, u) => Drew(s, pid, id, u)
    case CheckingRow(found, id, u) => Drew(s, pid, id, u) && found in s.inserted && s.inserted[found] == u.email
    case Inserting(id, u) => Drew(s, pid, id, u)
    case Indexing(id, email) => id in s.inserted && s.inserted[id] == email
    case Confirming(user, secret) => (user, secret) in s.confirmed
    case _ => true
  }

  predicate ResultOk(s: State, pid: nat, r: Result) {
    match r.outcome
    case Refused => r.id in s.owner && s.owner[r.id] == pid && r.id !in s.inserted
    case _ => r.id in s.inserted && s.inserted[r.id] == r.email
  }

  ghost predicate RequestsOk(s: State) {
    && (forall p :: p in s.flight ==> p in s.started && p !in s.results && FrameOk(s, p, s.flight[p]))
    && (forall p :: p in s.results ==> p in s.started && ResultOk(s, p, s.results[p]))
  }

  ghost predicate Inv(s: State, crypto: Crypto) {
    TablesOk(s) && TotpOk(s, crypto) && RequestsOk(s)
  }

  /** What the other requests rely on: rows, drawn ids and confirmations are never taken back. */
  ghost predicate Grows(s: State, s2: State, pid: nat) {
    && (forall id :: id in s.owner ==> id in s2.owner && s2.owner[id] == s.owner[id])
    && (forall id :: id in s.inserted ==> id in s2.inserted && s2.inserted[id] == s.inserted[id])
    && (forall id :: id in s2.inserted && id !in s.inserted ==> id in s2.owner && s2.owner[id] == pid)
    && (forall k :: k in s.confirmed ==> k in s2.confirmed)
    && s2.started == s.started + {pid}
    && (forall p :: p != pid ==> (p in s2.flight <==> p in s.flight) && (p in s.flight ==> s2.flight[p] == s.flight[p]))
    && (forall p :: p != pid ==>
          (p in s2.results <==> p in s.results) && (p in s.results ==> s2.results[p] == s.results[p]))
  }

  lemma OthersOk(s: State, s2: State, pid: nat)
    requires RequestsOk(s) && Grows(s, s2, pid)
    requires pid in s2.flight ==> pid !in s2.results && FrameOk(s2, pid, s2.flight[pid])
    requires pid in s2.results ==> ResultOk(s2, pid, s2.results[pid])
    ensures RequestsOk(s2)
  {
    forall p | p in s2.flight ensures p in s2.started && p !in s2.results && FrameOk(s2, p, s2.flight[p]) {
      if p != pid {
        assert FrameOk(s, p, s.flight[p]);
      }
    }
    forall p | p in s2.results ensures p in s2.started && ResultOk(s2, p, s2.results[p]) {
      if p != pid {
        assert ResultOk(s, p, s.results[p]);
      }
    }
  }

  // ----- each kind of step

  /** The tables and the set of created rows are as they were. */
  lemma QuietOk(s: State, s2: State, crypto: Crypto, pid: nat)
    requires Inv(s, crypto) && Grows(s, s2, pid) && s2.db == s.db && s2.inserted == s.inserted
    requires forall k :: k in s2.confirmed ==> crypto.totpValid(s2.confirmed[k], k.1)
    requires pid in s2.flight ==> pid !in s2.results && FrameOk(s2, pid, s2.flight[pid])
    requires pid in s2.results ==> ResultOk(s2, pid, s2.results[pid])
    ensures Inv(s2, crypto)
  {
    assert TablesOk(s2) && TotpOk(s2, crypto);
    hide TablesOk, TotpOk, FrameOk, ResultOk;
    OthersOk(s, s2, pid);
  }

  lemma MoveOk(s: State, crypto: Crypto, pid: nat, f: Frame)
    requires Inv(s, crypto) && pid !in s.results && FrameOk(s, pid, f)
    ensures Inv(Move(s, pid, f), crypto)
  {
    var s2 := Move(s, pid, f);
    assert Grows(s, s2, pid) && FrameOk(s2, pid, f);
    hide Inv, FrameOk, ResultOk, Grows;
    QuietOk(s, s2, crypto, pid);
  }

  lemma EndOk(s: State, crypto: Crypto, pid: nat)
    requires Inv(s, crypto)
    ensures Inv(End(s, pid), crypto)
  {
    var s2 := End(s, pid);
    assert Grows(s, s2, pid);
    hide FrameOk, ResultOk, Grows;
    QuietOk(s, s2, crypto, pid);
    hide Inv;
  }

  lemma FinishOk(s: State, crypto: Crypto, pid: nat, r: Result)
    requires Inv(s, crypto) && ResultOk(s, pid, r)
    ensures Inv(Finish(s, pid, r), crypto)
  {
    var s2 := Finish(s, pid, r);
    assert Grows(s, s2, pid) && ResultOk(s2, pid, r);
    hide FrameOk, ResultOk, Grows;
    QuietOk(s, s2, crypto, pid);
    hide Inv;
  }

  /** A request that starts with an id of its own. */
  lemma DrawGrows(s: State, pid: nat, id: Uuid, f: Frame)
    requires id !in s.owner
    ensures Grows(s, Draw(s, pid, id, f), pid)
  {
  }

  lemma DrawOk(s: State, crypto: Crypto, pid: nat, id: Uuid, f: Frame)
    requires Inv(s, crypto) && Fresh(s, pid, id) && FrameOk(s.(owner := s.owner[id := pid]), pid, f)
    ensures Inv(Draw(s, pid, id, f), crypto)
  {
    assert pid !in s.results;
    var s2 := Draw(s, pid, id, f);
    assert FrameOk(s2, pid, f);
    assert forall k :: k in s.confirmed ==> crypto.totpValid(s.confirmed[k], k.1);
    hide Inv, FrameOk, ResultOk;
    DrawGrows(s, pid, id, f);
    hide Grows;
    QuietOk(s, s2, crypto, pid);
  }

  lemma RegisterOk(s: State, crypto: Crypto, pid: nat, id: Uuid, email: string, hash: string)
    requires Inv(s, crypto)
    ensures Inv(RegisterStep(s, pid, id, email, hash), crypto)
  {
    if Fresh(s, pid, id) {
      assert id !in s.inserted;
      hide Inv, Draw;
      DrawOk(s, crypto, pid, id, Creating(id, NULL_ROW.(email := email, passwordHash := hash)));
    }
    hide Inv;
  }

  lemma FederateOk(s: State, crypto: Crypto, pid: nat, id: Uuid, email: string, verified: bool)
    requires Inv(s, crypto)
    ensures Inv(FederateStep(s, pid, id, email, verified), crypto)
  {
    if Fresh(s, pid, id) {
      assert id !in s.inserted;
      var u := NULL_ROW.(email := email, emailVerified := verified);
      if email in s.db.usersByEmail {
        assert s.inserted[s.db.usersByEmail[email]] == email;
        hide Inv, Draw;
        DrawOk(s, crypto, pid, id, FindingRow(s.db.usersByEmail[email], id, u));
      } else {
        hide Inv, Draw;
        DrawOk(s, crypto, pid, id, Creating(id, u));
      }
    }
    hide Inv;
  }

  /** The row an index entry named is there: this read always hits. */
  lemma FindRowOk(s: State, crypto: Crypto, pid: nat)
    requires Inv(s, crypto)
    ensures Inv(FindRowStep(s, pid), crypto)
  {
    if pid in s.flight && s.flight[pid].FindingRow? {
      var f := s.flight[pid];
      assert FrameOk(s, pid, f);
      assert f.found in s.db.users;
      hide Inv, Finish;
      FinishOk(s, crypto, pid, Result(f.found, f.u.email, Existing));
    }
    hide Inv;
  }

  lemma CheckIndexOk(s: State, crypto: Crypto, pid: nat)
    requires Inv(s, crypto)
    ensures Inv(CheckIndexStep(s, pid), crypto)
  {
    if pid in s.flight && s.flight[pid].Creating? {
      var f := s.flight[pid];
      assert FrameOk(s, pid, f) && pid !in s.results;
      if f.u.email in s.db.usersByEmail {
        assert s.inserted[s.db.usersByEmail[f.u.email]] == f.u.email;
        hide Inv, Move;
        MoveOk(s, crypto, pid, CheckingRow(s.db.usersByEmail[f.u.email], f.id, f.u));
      } else {
        hide Inv, Move;
        MoveOk(s, crypto, pid, Inserting(f.id, f.u));
      }
    }
    hide Inv;
  }

  /** And this one always refuses. */
  lemma CheckRowOk(s: State, crypto: Crypto, pid: nat)
    requires Inv(s, crypto)
    ensures Inv(CheckRowStep(s, pid), crypto)
  {
    if pid in s.flight && s.flight[pid].CheckingRow? {
      var f := s.flight[pid];
      assert FrameOk(s, pid, f);
      assert f.found in s.db.users;
      hide Inv, Finish;
      FinishOk(s, crypto, pid, Result(f.id, f.u.email, Refused));
    }
    hide Inv;
  }

  lemma InsertRowOk(s: State, crypto: Crypto, pid: nat)
    requires Inv(s, crypto)
    ensures Inv(InsertRowStep(s, pid), crypto)
  {
    if pid in s.flight && s.flight[pid].Inserting? {
      assert FrameOk(s, pid, s.flight[pid]);
      InsertedTables(s, crypto, pid);
      InsertedRequests(s, pid);
    }
    hide TablesOk, TotpOk, RequestsOk;
  }

  lemma InsertedTables(s: State, crypto: Crypto, pid: nat)
    requires TablesOk(s) && TotpOk(s, crypto) && pid in s.flight && s.flight[pid].Inserting?
    requires FrameOk(s, pid, s.flight[pid])
    ensures TablesOk(InsertRowStep(s, pid)) && TotpOk(InsertRowStep(s, pid), crypto)
  {
  }

  lemma InsertedRequests(s: State, pid: nat)
    requires RequestsOk(s) && pid in s.flight && s.flight[pid].Inserting? && FrameOk(s, pid, s.flight[pid])
    ensures RequestsOk(InsertRowStep(s, pid))
  {
    var s2 := InsertRowStep(s, pid);
    assert Grows(s, s2, pid) && FrameOk(s2, pid, s2.flight[pid]);
    hide FrameOk, ResultOk, InsertRowStep, Grows;
    OthersOk(s, s2, pid);
  }

  lemma InsertIndexOk(s: State, crypto: Crypto, pid: nat)
    requires Inv(s, crypto)
    ensures Inv(InsertIndexStep(s, pid), crypto)
  {
    if pid in s.flight && s.flight[pid].Indexing? {
      assert FrameOk(s, pid, s.flight[pid]);
      var s2 := InsertIndexStep(s, pid);
      assert TablesOk(s2) && TotpOk(s2, crypto) && Grows(s, s2, pid);
      OthersOk(s, s2, pid);
    }
  }

  lemma TouchOk(s: State, crypto: Crypto, a: Action)
    requires Inv(s, crypto) && a.Touch?
    ensures Inv(Next(s, crypto, a), crypto)
  {
    var s2 := Next(s, crypto, a);
    assert TablesOk(s2) && TotpOk(s2, crypto);
    RequestsSame(s, s2);
  }

  lemma ConfirmOk(s: State, crypto: Crypto, pid: nat, user: Uuid, code: string)
    requires Inv(s, crypto)
    ensures Inv(ConfirmStep(s, crypto, pid, user, code), crypto)
  {
    var s2 := ConfirmStep(s, crypto, pid, user, code);
    if pid !in s.started && user in s.db.users && crypto.totpValid(code, s.db.users[user].totpSecret) {
      assert Grows(s, s2, pid);
      QuietOk(s, s2, crypto, pid);
    }
    hide Inv;
  }

  lemma PlainReadOk(s: State, crypto: Crypto, pid: nat, user: Uuid, secret: string)
    requires Inv(s, crypto)
    ensures Inv(EnrollStep(s, pid, user, secret), crypto) && Inv(RecoverStep(s, pid, user), crypto)
  {
    assert pid !in s.started ==> pid !in s.results;
    hide Inv, Move;
    if pid !in s.started && user in s.db.users {
      MoveOk(s, crypto, pid, Enrolling(user, secret));
      MoveOk(s, crypto, pid, Disabling(user, s.db.users[user].totpSecret));
    }
  }

  /** Both columns are written at once, so an enabled row always holds the secret that was confirmed. */
  lemma WriteOk(s: State, crypto: Crypto, pid: nat)
    requires Inv(s, crypto)
    ensures Inv(WriteTotpStep(s, pid), crypto)
  {
    if pid in s.flight {
      var f := s.flight[pid];
      assert FrameOk(s, pid, f);
      hide Inv, UpdateTOTP, End;
      if f.Enrolling? || f.Confirming? || f.Disabling? {
        WrittenOk(s, crypto, f.user, f.secret, f.Confirming?);
        EndOk(s.(db := UpdateTOTP(s.db, f.user, f.secret, f.Confirming?)), crypto, pid);
      }
    }
  }

  lemma WrittenOk(s: State, crypto: Crypto, user: Uuid, secret: string, enabled: bool)
    requires Inv(s, crypto) && (enabled ==> (user, secret) in s.confirmed)
    ensures Inv(s.(db := UpdateTOTP(s.db, user, secret, enabled)), crypto)
  {
    var s2 := s.(db := UpdateTOTP(s.db, user, secret, enabled));
    assert TablesOk(s2) && TotpOk(s2, crypto);
    RequestsSame(s, s2);
    hide TablesOk, TotpOk, RequestsOk;
  }

  lemma RequestsSame(s: State, s2: State)
    requires RequestsOk(s) && s2 == s.(db := s2.db)
    ensures RequestsOk(s2)
  {
  }

  lemma NextOk(s: State, crypto: Crypto, a: Action)
    requires Inv(s, crypto)
    ensures Inv(Next(s, crypto, a), crypto)
  {
    hide Inv, RegisterStep, FederateStep, FindRowStep, CheckIndexStep, CheckRowStep, InsertRowStep, InsertIndexStep;
    hide TouchStep, EnrollStep, ConfirmStep, RecoverStep, WriteTotpStep, End;
    match a
    case Register(pid, id, email, hash) => RegisterOk(s, crypto, pid, id, email, hash);
    case Federate(pid, id, email, verified) => FederateOk(s, crypto, pid, id, email, verified);
    case FindRow(pid) => FindRowOk(s, crypto, pid);
    case CheckIndex(pid) => CheckIndexOk(s, crypto, pid);
    case CheckRow(pid) => CheckRowOk(s, crypto, pid);
    case InsertRow(pid) => InsertRowOk(s, crypto, pid);
    case InsertIndex(pid) => InsertIndexOk(s, crypto, pid);
    case Touch(_, _, _, _, _) => TouchOk(s, crypto, a);
    case WriteTotp(pid) => WriteOk(s, crypto, pid);
    case ReadForConfirm(pid, user, code) => ConfirmOk(s, crypto, pid, user, code);
    case ReadForEnroll(pid, user, secret) => PlainReadOk(s, crypto, pid, user, secret);
    case ReadForRecovery(pid, user) => PlainReadOk(s, crypto, pid, user, "");
    case Abandon(pid) => EndOk(s, crypto, pid);
  }

  lemma {:induction false} RunOk(s: State, crypto: Crypto, actions: seq<Action>)
    requires Inv(s, crypto)
    ensures Inv(Run(s, crypto, actions), crypto)
    decreases |actions|
  {
    hide Inv, Next;
    if actions != [] {
      NextOk(s, crypto, actions[0]);
      RunOk(Next(s, crypto, actions[0]), crypto, actions[1..]);
    }
  }

  ghost predicate Reachable(s: State, crypto: Crypto) {
    exists actions :: s == Run(Init(), crypto, actions)
  }

  lemma ReachableOk(s: State, crypto: Crypto)
    requires Reachable(s, crypto)
    ensures Inv(s, crypto)
  {
    hide Run;
    var actions :| s == Run(Init(), crypto, actions);
    RunOk(Init(), crypto, actions);
  }

  // ----- what survives the races

  /** Every entry of the lookup table points to a row that carries that very email: a hit is never a dangling one. */
  lemma IndexEntriesHaveTheirRow(s: State, crypto: Crypto, email: string)
    requires Reachable(s, crypto) && email in s.db.usersByEmail
    ensures var id := s.db.usersByEmail[email];
            id in s.db.users && s.db.users[id].email == email && FindByEmail(s.db, email) == Some((id, s.db.users[id]))
  {
    hide Reachable;
    ReachableOk(s, crypto);
  }

  /** Whenever the second factor is on, some code was right for the stored secret when it was confirmed. */
  lemma EnabledSecretsWereConfirmed(s: State, crypto: Crypto, user: Uuid)
    requires Reachable(s, crypto) && user in s.db.users && s.db.users[user].totpEnabled
    ensures var k := (user, s.db.users[user].totpSecret);
            k in s.confirmed && crypto.totpValid(s.confirmed[k], s.db.users[user].totpSecret)
  {
    hide Reachable;
    ReachableOk(s, crypto);
  }

  /** Create wrote a row for the id that registration and Google sign-in end up with, unless it refused. */
  lemma IdsHaveRowsUnlessRefused(s: State, crypto: Crypto, pid: nat)
    requires Reachable(s, crypto) && pid in s.results
    ensures var r := s.results[pid];
            && (r.id in s.inserted <==> r.outcome != Refused)
            && (r.outcome != Refused ==> r.id in s.db.users && s.db.users[r.id].email == r.email)
  {
    hide Reachable;
    ReachableOk(s, crypto);
    assert ResultOk(s, pid, s.results[pid]);
  }

  /** What became of a Create whose first read found the email taken, or not. */
  ghost predicate Decided(s: State, pid: nat, id: Uuid, taken: bool) {
    && pid in s.started && id in s.owner && s.owner[id] == pid
    && (if taken then
          && (pid in s.flight ==> s.flight[pid].CheckingRow?)
          && (pid in s.results ==> s.results[pid].outcome == Refused)
          && id !in s.inserted
        else
          && (pid in s.flight ==> s.flight[pid].Inserting? || s.flight[pid].Indexing?)
          && (pid in s.results ==> s.results[pid].outcome == Created))
  }

  lemma StartsDecide(s: State, crypto: Crypto, a: Action, pid: nat, id: Uuid, taken: bool)
    requires Decided(s, pid, id, taken) && (a.Register? || a.Federate?)
    ensures Decided(Next(s, crypto, a), pid, id, taken)
  {
    hide FindRowStep, CheckIndexStep, CheckRowStep, InsertRowStep, InsertIndexStep, TouchStep, EnrollStep, ConfirmStep;
    hide RecoverStep, WriteTotpStep, End;
  }

  lemma ChecksDecide(s: State, crypto: Crypto, a: Action, pid: nat, id: Uuid, taken: bool)
    requires RequestsOk(s) && TablesOk(s) && Decided(s, pid, id, taken) && (a.FindRow? || a.CheckIndex? || a.CheckRow?)
    ensures Decided(Next(s, crypto, a), pid, id, taken)
  {
    hide RegisterStep, FederateStep, InsertRowStep, InsertIndexStep, TouchStep, EnrollStep, ConfirmStep;
    hide RecoverStep, WriteTotpStep;
    if a.pid in s.flight {
      assert FrameOk(s, a.pid, s.flight[a.pid]);
    }
  }

  lemma InsertsDecide(s: State, crypto: Crypto, a: Action, pid: nat, id: Uuid, taken: bool)
    requires RequestsOk(s) && Decided(s, pid, id, taken) && (a.InsertRow? || a.InsertIndex?)
    ensures Decided(Next(s, crypto, a), pid, id, taken)
  {
  }

  lemma OthersDecide(s: State, crypto: Crypto, a: Action, pid: nat, id: Uuid, taken: bool)
    requires Decided(s, pid, id, taken)
    requires a.Touch? || a.ReadForEnroll? || a.ReadForConfirm? || a.ReadForRecovery? || a.WriteTotp? || a.Abandon?
    ensures Decided(Next(s, crypto, a), pid, id, taken)
  {
    hide RegisterStep, FederateStep, FindRowStep, CheckIndexStep, CheckRowStep, InsertRowStep, InsertIndexStep;
    hide UpdateTOTP, Upsert, Row;
  }

  lemma NextDecides(s: State, crypto: Crypto, a: Action, pid: nat, id: Uuid, taken: bool)
    requires Inv(s, crypto) && Decided(s, pid, id, taken)
    ensures Decided(Next(s, crypto, a), pid, id, taken)
  {
    hide Next, Decided, RequestsOk, TablesOk;
    if a.Register? || a.Federate? {
      StartsDecide(s, crypto, a, pid, id, taken);
    } else if a.FindRow? || a.CheckIndex? || a.CheckRow? {
      ChecksDecide(s, crypto, a, pid, id, taken);
    } else if a.InsertRow? || a.InsertIndex? {
      InsertsDecide(s, crypto, a, pid, id, taken);
    } else {
      OthersDecide(s, crypto, a, pid, id, taken);
    }
  }

  lemma {:induction false} RunDecides(s: State, crypto: Crypto, actions: seq<Action>, pid: nat, id: Uuid, taken: bool)
    requires Inv(s, crypto) && Decided(s, pid, id, taken)
    ensures Decided(Run(s, crypto, actions), pid, id, taken)
    decreases |actions|
  {
    hide Next, Decided, Inv;
    if actions != [] {
      NextOk(s, crypto, actions[0]);
      NextDecides(s, crypto, actions[0], pid, id, taken);
      RunDecides(Next(s, crypto, actions[0]), crypto, actions[1..], pid, id, taken);
    }
  }

  /**
   The first read decides: whatever runs in between, Create refuses if and only if that read found the email in the
   lookup table, and then it never writes a row.
   */
  lemma FirstReadDecides(s: State, crypto: Crypto, pid: nat, actions: seq<Action>)
    requires Reachable(s, crypto) && pid in s.flight && s.flight[pid].Creating?
    ensures var f, s2 := s.flight[pid], Run(CheckIndexStep(s, pid), crypto, actions);
            && (pid in s2.results ==> (s2.results[pid].outcome == Refused <==> f.u.email in s.db.usersByEmail))
            && (f.id in s2.inserted ==> f.u.email !in s.db.usersByEmail)
  {
    ReachableOk(s, crypto);
    var f := s.flight[pid];
    assert FrameOk(s, pid, f);
    var taken := f.u.email in s.db.usersByEmail;
    var s1 := CheckIndexStep(s, pid);
    assert Decided(s1, pid, f.id, taken);
    hide Reachable, Inv, Run, CheckIndexStep, FrameOk;
    CheckIndexOk(s, crypto, pid);
    RunDecides(s1, crypto, actions, pid, f.id, taken);
  }

  // ----- what the races break

  lemma {:induction false} RunAppend(s: State, crypto: Crypto, actions: seq<Action>, a: Action)
    ensures Run(s, crypto, actions + [a]) == Next(Run(s, crypto, actions), crypto, a)
    decreases |actions|
  {
    hide Next;
    if actions == [] {
      assert ([] + [a])[1..] == [];
      assert Run(Next(s, crypto, a), crypto, []) == Next(s, crypto, a);
    } else {
      assert (actions + [a])[1..] == actions[1..] + [a];
      RunAppend(Next(s, crypto, actions[0]), crypto, actions[1..], a);
    }
  }

  lemma Take(s: State, crypto: Crypto, a: Action) returns (s2: State)
    requires Reachable(s, crypto)
    ensures Reachable(s2, crypto) && s2 == Next(s, crypto, a)
  {
    hide Next, Run;
    var actions :| s == Run(Init(), crypto, actions);
    RunAppend(Init(), crypto, actions, a);
    s2 := Next(s, crypto, a);
  }

  const A: Uuid := [0, 0, 0, 0, 0, 0, 0, 0, 0, 0, 0, 0, 0, 0, 0, 0, 0, 0, 0, 0, 0, 0, 0, 0, 0, 0, 0, 0, 0, 0, 0, 0]
  const B: Uuid := [1, 1, 1, 1, 1, 1, 1, 1, 1, 1, 1, 1, 1, 1, 1, 1, 1, 1, 1, 1, 1, 1, 1, 1, 1, 1, 1, 1, 1, 1, 1, 1]

  lemma InitReachable(crypto: Crypto)
    ensures Reachable(Init(), crypto)
  {
    assert Run(Init(), crypto, []) == Init();
  }

  lemma RegisterChecks(s: State, crypto: Crypto, pid: nat, id: Uuid) returns (s2: State)
    requires Reachable(s, crypto) && Fresh(s, pid, id) && "e" !in s.db.usersByEmail
    ensures Reachable(s2, crypto) && s2.db == s.db && s2.started == s.started + {pid} && s2.owner == s.owner[id := pid]
    ensures s2.flight == s.flight[pid := Inserting(id, NULL_ROW.(email := "e"))]
  {
    hide Reachable;
    s2 := Take(s, crypto, Register(pid, id, "e", ""));
    s2 := Take(s2, crypto, CheckIndex(pid));
  }

  lemma Inserts(s: State, crypto: Crypto, pid: nat, id: Uuid) returns (s2: State)
    requires Reachable(s, crypto) && pid in s.flight && s.flight[pid] == Inserting(id, NULL_ROW.(email := "e"))
    ensures Reachable(s2, crypto) && s2.flight == s.flight - {pid}
    ensures s2.db == Insert(s.db, id, NULL_ROW.(email := "e"))
    ensures s2.results == s.results[pid := Result(id, "e", Created)]
  {
    hide Reachable;
    s2 := Take(s, crypto, InsertRow(pid));
    s2 := Take(s2, crypto, InsertIndex(pid));
  }

  /** Two registrations of one email that both check first leave two rows, one of which no lookup by email finds. */
  lemma RacingCreatesDuplicate(crypto: Crypto) returns (s: State)
    ensures Reachable(s, crypto) && A != B && 0 in s.results && 1 in s.results
    ensures A in s.db.users && B in s.db.users && s.db.users[A].email == s.db.users[B].email == "e"
    ensures FindByEmail(s.db, "e") == Some((B, s.db.users[B]))
  {
    InitReachable(crypto);
    assert A[0] != B[0];
    hide A, B, Reachable, Next;
    s := RegisterChecks(Init(), crypto, 0, A);
    s := RegisterChecks(s, crypto, 1, B);
    s := Inserts(s, crypto, 0, A);
    s := Inserts(s, crypto, 1, B);
  }

  lemma GoogleMisses(crypto: Crypto) returns (s: State)
    ensures Reachable(s, crypto) && s.db == Init().db && s.started == {0} && s.owner == map[A := 0]
    ensures s.flight == map[0 := Creating(A, NULL_ROW.(email := "e", emailVerified := true))]
  {
    InitReachable(crypto);
    hide A, Reachable;
    s := Take(Init(), crypto, Federate(0, A, "e", true));
  }

  lemma GoogleIsRefused(s: State, crypto: Crypto, id: Uuid) returns (s2: State)
    requires Reachable(s, crypto) && 0 in s.flight && s.flight[0].Creating? && s.flight[0].id == id
    requires s.flight[0].u.email == "e" && FindByEmail(s.db, "e").Some?
    ensures Reachable(s2, crypto) && s2.db == s.db && 0 in s2.results && s2.results[0] == Result(id, "e", Refused)
  {
    hide Reachable;
    s2 := Take(s, crypto, CheckIndex(0));
    s2 := Take(s2, crypto, CheckRow(0));
  }

  /** A Google sign-in that loses the race never gets to the winner's account: it goes on with an id without a row. */
  lemma LosingSignInHasNoAccount(crypto: Crypto) returns (s: State)
    ensures Reachable(s, crypto) && s.db.usersByEmail == map["e" := B]
    ensures 0 in s.results && s.results[0] == Result(A, "e", Refused) && A !in s.db.users
  {
    assert A[0] != B[0];
    hide A, B, Reachable, Next;
    s := GoogleMisses(crypto);
    s := RegisterChecks(s, crypto, 1, B);
    s := Inserts(s, crypto, 1, B);
    s := GoogleIsRefused(s, crypto, A);
  }

  /** A confirmation that overlaps a new enrolment turns the old secret back on: the new one is lost. */
  lemma LateConfirmRestoresOldSecret(s: State, crypto: Crypto, p: nat, q: nat, user: Uuid, code: string, secret: string)
    requires Reachable(s, crypto) && p != q && p !in s.started && q !in s.started && user in s.db.users
    requires crypto.totpValid(code, s.db.users[user].totpSecret)
    ensures var s1 := EnrollStep(ConfirmStep(s, crypto, p, user, code), q, user, secret);
            var s2 := WriteTotpStep(WriteTotpStep(s1, q), p);
            && Row(s2.db, user) == s.db.users[user].(totpEnabled := true)
            && (forall other :: other != user ==> Row(s2.db, other) == Row(s.db, other))
  {
    hide Reachable;
  }

  /** So does a recovery, which writes back, disabled, the secret it read. */
  lemma LateRecoveryRestoresOldSecret(s: State, crypto: Crypto, p: nat, q: nat, user: Uuid, secret: string)
    requires Reachable(s, crypto) && p != q && p !in s.started && q !in s.started && user in s.db.users
    ensures var s1 := EnrollStep(RecoverStep(s, p, user), q, user, secret);
            var s2 := WriteTotpStep(WriteTotpStep(s1, q), p);
            && Row(s2.db, user) == s.db.users[user].(totpEnabled := false)
            && (forall other :: other != user ==> Row(s2.db, other) == Row(s.db, other))
  {
    hide Reachable;
  }

  function Written(s: State, pid: nat, u: Uuid, secret: string, enabled: bool): State {
    End(s.(db := UpdateTOTP(s.db, u, secret, enabled)), pid)
  }

  lemma WriteIs(s: State, pid: nat)
    requires pid in s.flight
    ensures match s.flight[pid]
            case Enrolling(u, x) => WriteTotpStep(s, pid) == Written(s, pid, u, x, false)
            case Confirming(u, x) => WriteTotpStep(s, pid) == Written(s, pid, u, x, true)
            case Disabling(u, x) => WriteTotpStep(s, pid) == Written(s, pid, u, x, false)
            case _ => WriteTotpStep(s, pid) == s
  {
    hide UpdateTOTP, End;
  }

  lemma NothingToWrite(s: State, pid: nat)
    requires pid !in s.flight
    ensures WriteTotpStep(s, pid) == s
  {
  }

  lemma NextWrites(s: State, crypto: Crypto, pid: nat)
    ensures Next(s, crypto, WriteTotp(pid)) == WriteTotpStep(s, pid)
  {
    hide WriteTotpStep;
  }

  // ----- exactly when an email gets no second row

  /** The rows that Create wrote for an email. */
  function RowsFor(s: State, email: string): set<Uuid> {
    set id | id in s.inserted && s.inserted[id] == email
  }

  /** The email is in the lookup table, and no Create for it is past its checks and short of its row. */
  ghost predicate Taken(s: State, email: string) {
    email in s.db.usersByEmail
    && forall p :: p in s.flight && s.flight[p].Inserting? ==> s.flight[p].u.email != email
  }

  lemma StartsKeepTaken(s: State, crypto: Crypto, a: Action, email: string)
    requires Taken(s, email) && (a.Register? || a.Federate?)
    ensures Taken(Next(s, crypto, a), email) && RowsFor(Next(s, crypto, a), email) == RowsFor(s, email)
  {
    hide FindRowStep, CheckIndexStep, CheckRowStep, InsertRowStep, InsertIndexStep, TouchStep, EnrollStep, ConfirmStep;
    hide RecoverStep, WriteTotpStep, End;
  }

  lemma ChecksKeepTaken(s: State, crypto: Crypto, a: Action, email: string)
    requires Taken(s, email) && TablesOk(s) && RequestsOk(s) && (a.FindRow? || a.CheckRow?)
    ensures Taken(Next(s, crypto, a), email) && RowsFor(Next(s, crypto, a), email) == RowsFor(s, email)
  {
    hide RegisterStep, FederateStep, InsertRowStep, InsertIndexStep, TouchStep, EnrollStep, ConfirmStep, RecoverStep;
    hide WriteTotpStep, CheckIndexStep;
    if a.pid in s.flight {
      assert FrameOk(s, a.pid, s.flight[a.pid]);
      hide RequestsOk, RowsFor;
    }
  }

  lemma CheckIndexKeepsTaken(s: State, crypto: Crypto, a: Action, email: string)
    requires Taken(s, email) && a.CheckIndex?
    ensures Taken(Next(s, crypto, a), email) && RowsFor(Next(s, crypto, a), email) == RowsFor(s, email)
  {
    hide RegisterStep, FederateStep, InsertRowStep, InsertIndexStep, TouchStep, EnrollStep, ConfirmStep, RecoverStep;
    hide WriteTotpStep, FindRowStep, CheckRowStep;
    assert Next(s, crypto, a).inserted == s.inserted;
  }

  lemma InsertsKeepTaken(s: State, crypto: Crypto, a: Action, email: string)
    requires Taken(s, email) && (a.InsertRow? || a.InsertIndex?) && RequestsOk(s)
    ensures Taken(Next(s, crypto, a), email) && RowsFor(Next(s, crypto, a), email) == RowsFor(s, email)
  {
    hide RegisterStep, FederateStep, FindRowStep, CheckIndexStep, CheckRowStep, TouchStep, EnrollStep, ConfirmStep;
    hide RecoverStep, WriteTotpStep;
    if a.pid in s.flight {
      assert FrameOk(s, a.pid, s.flight[a.pid]);
    }
    hide RequestsOk;
  }

  lemma ReadsKeepTaken(s: State, crypto: Crypto, a: Action, email: string)
    requires Taken(s, email) && (a.ReadForEnroll? || a.ReadForConfirm? || a.ReadForRecovery? || a.Abandon?)
    ensures Taken(Next(s, crypto, a), email) && RowsFor(Next(s, crypto, a), email) == RowsFor(s, email)
  {
    hide RegisterStep, FederateStep, FindRowStep, CheckIndexStep, CheckRowStep, InsertRowStep, InsertIndexStep;
    hide TouchStep, WriteTotpStep;
  }

  lemma TouchKeepsTaken(s: State, crypto: Crypto, a: Action, email: string)
    requires Taken(s, email) && a.Touch?
    ensures Taken(Next(s, crypto, a), email) && RowsFor(Next(s, crypto, a), email) == RowsFor(s, email)
  {
    hide RegisterStep, FederateStep, FindRowStep, CheckIndexStep, CheckRowStep, InsertRowStep, InsertIndexStep;
    hide EnrollStep, ConfirmStep, RecoverStep, WriteTotpStep, Row;
    assert Next(s, crypto, a).inserted == s.inserted;
  }

  lemma WrittenKeepsTaken(s: State, pid: nat, u: Uuid, secret: string, enabled: bool, email: string)
    requires Taken(s, email)
    ensures var s2 := Written(s, pid, u, secret, enabled); Taken(s2, email) && RowsFor(s2, email) == RowsFor(s, email)
  {
  }

  lemma WriteKeepsTaken(s: State, pid: nat, email: string)
    requires Taken(s, email)
    ensures var s2 := WriteTotpStep(s, pid); Taken(s2, email) && RowsFor(s2, email) == RowsFor(s, email)
  {
    hide Written, WriteTotpStep, Taken, RowsFor;
    if pid in s.flight {
      WriteIs(s, pid);
      match s.flight[pid]
      case Enrolling(u, x) => WrittenKeepsTaken(s, pid, u, x, false, email);
      case Confirming(u, x) => WrittenKeepsTaken(s, pid, u, x, true, email);
      case Disabling(u, x) => WrittenKeepsTaken(s, pid, u, x, false, email);
      case _ =>
    } else {
      NothingToWrite(s, pid);
    }
  }

  lemma {:induction false} RunKeepsTaken(s: State, crypto: Crypto, actions: seq<Action>, email: string)
    requires Inv(s, crypto) && Taken(s, email)
    ensures Taken(Run(s, crypto, actions), email) && RowsFor(Run(s, crypto, actions), email) == RowsFor(s, email)
    decreases |actions|
  {
    hide Next, Taken, TablesOk, TotpOk, RequestsOk, RowsFor;
    if actions != [] {
      var a := actions[0];
      NextOk(s, crypto, a);
      if a.Register? || a.Federate? {
        StartsKeepTaken(s, crypto, a, email);
      } else if a.FindRow? || a.CheckRow? {
        ChecksKeepTaken(s, crypto, a, email);
      } else if a.CheckIndex? {
        CheckIndexKeepsTaken(s, crypto, a, email);
      } else if a.InsertRow? || a.InsertIndex? {
        InsertsKeepTaken(s, crypto, a, email);
      } else if a.Touch? {
        TouchKeepsTaken(s, crypto, a, email);
      } else if a.WriteTotp? {
        WriteKeepsTaken(s, a.pid, email);
        NextWrites(s, crypto, a.pid);
      } else {
        ReadsKeepTaken(s, crypto, a, email);
      }
      RunKeepsTaken(Next(s, crypto, a), crypto, actions[1..], email);
    }
  }

  lemma InsertAddsRow(s: State, crypto: Crypto, pid: nat)
    requires Inv(s, crypto) && pid in s.flight && s.flight[pid].Inserting?
    ensures var f := s.flight[pid];
            f.id !in RowsFor(s, f.u.email) && f.id in RowsFor(Run(s, crypto, [InsertRow(pid)]), f.u.email)
  {
    assert FrameOk(s, pid, s.flight[pid]);
    hide Inv;
    assert Run(s, crypto, [InsertRow(pid)]) == Run(Next(s, crypto, InsertRow(pid)), crypto, []);
    hide RegisterStep, FederateStep, FindRowStep, CheckIndexStep, CheckRowStep, TouchStep, EnrollStep, ConfirmStep;
    hide RecoverStep, WriteTotpStep, InsertIndexStep;
  }

  /**
   Once an email is in the lookup table, no continuation creates another row for it if and only if no Create for it is
   already past its checks.
   */
  lemma NoSecondRowIff(s: State, crypto: Crypto, email: string)
    requires Reachable(s, crypto) && email in s.db.usersByEmail
    ensures (forall actions :: RowsFor(Run(s, crypto, actions), email) == RowsFor(s, email)) <==> Taken(s, email)
  {
    ReachableOk(s, crypto);
    hide Reachable, Run, Inv, RowsFor;
    if Taken(s, email) {
      forall actions ensures RowsFor(Run(s, crypto, actions), email) == RowsFor(s, email) {
        RunKeepsTaken(s, crypto, actions, email);
      }
    } else {
      var p :| p in s.flight && s.flight[p].Inserting? && s.flight[p].u.email == email;
      InsertAddsRow(s, crypto, p);
    }
  }

  // ----- exactly when a secret stays

  /** The secret a request is about to write for a user, if it is about to write one. */
  function PendingSecret(f: Frame, user: Uuid): Option<string> {
    match f
    case Enrolling(u, secret) => if u == user then Some(secret) else None
    case Confirming(u, secret) => if u == user then Some(secret) else None
    case Disabling(u, secret) => if u == user then Some(secret) else None
    case _ => None
  }

  /** The row holds the secret, and whoever is about to write one holds the same. */
  ghost predicate Settled(s: State, user: Uuid, secret: string) {
    && user in s.inserted && user in s.db.users && s.db.users[user].totpSecret == secret
    && forall p :: p in s.flight && PendingSecret(s.flight[p], user).Some? ==>
         PendingSecret(s.flight[p], user).value == secret
  }

  ghost predicate NoEnrolment(actions: seq<Action>, user: Uuid) {
    forall i :: 0 <= i < |actions| && actions[i].ReadForEnroll? ==> actions[i].user != user
  }

  lemma SignUpsSettle(s: State, crypto: Crypto, a: Action, user: Uuid, secret: string)
    requires Settled(s, user, secret) && TablesOk(s) && RequestsOk(s)
    requires a.Register? || a.Federate? || a.FindRow? || a.CheckIndex? || a.CheckRow?
    ensures Settled(Next(s, crypto, a), user, secret)
  {
    hide InsertRowStep, InsertIndexStep, TouchStep, EnrollStep, ConfirmStep, RecoverStep, WriteTotpStep, TablesOk;
    hide RequestsOk;
  }

  lemma InsertsSettle(s: State, crypto: Crypto, a: Action, user: Uuid, secret: string)
    requires Settled(s, user, secret) && RequestsOk(s)
    requires a.InsertRow? || a.InsertIndex? || a.Touch? || a.Abandon?
    ensures Settled(Next(s, crypto, a), user, secret)
  {
    hide RegisterStep, FederateStep, FindRowStep, CheckIndexStep, CheckRowStep, EnrollStep, ConfirmStep, RecoverStep;
    hide WriteTotpStep;
    if !a.Touch? && a.pid in s.flight {
      assert FrameOk(s, a.pid, s.flight[a.pid]);
    }
  }

  lemma ReadsSettle(s: State, crypto: Crypto, a: Action, user: Uuid, secret: string)
    requires Settled(s, user, secret) && (a.ReadForEnroll? || a.ReadForConfirm? || a.ReadForRecovery?)
    requires a.ReadForEnroll? ==> a.user != user
    ensures Settled(Next(s, crypto, a), user, secret)
  {
    hide RegisterStep, FederateStep, FindRowStep, CheckIndexStep, CheckRowStep, InsertRowStep;
    hide InsertIndexStep, TouchStep;
    hide WriteTotpStep;
  }

  lemma WrittenSettles(s: State, pid: nat, u: Uuid, x: string, enabled: bool, user: Uuid, secret: string)
    requires Settled(s, user, secret) && (u == user ==> x == secret)
    ensures Settled(Written(s, pid, u, x, enabled), user, secret)
  {
    hide PendingSecret;
  }

  lemma WriteSettles(s: State, pid: nat, user: Uuid, secret: string)
    requires Settled(s, user, secret)
    ensures Settled(WriteTotpStep(s, pid), user, secret)
  {
    hide Written, WriteTotpStep;
    if pid in s.flight {
      WriteIs(s, pid);
      match s.flight[pid]
      case Enrolling(u, x) => WrittenSettles(s, pid, u, x, false, user, secret);
      case Confirming(u, x) => WrittenSettles(s, pid, u, x, true, user, secret);
      case Disabling(u, x) => WrittenSettles(s, pid, u, x, false, user, secret);
      case _ =>
    } else {
      NothingToWrite(s, pid);
    }
  }

  lemma WriteLandsPending(s: State, pid: nat, user: Uuid)
    requires pid in s.flight && PendingSecret(s.flight[pid], user).Some?
    ensures Row(WriteTotpStep(s, pid).db, user).totpSecret == PendingSecret(s.flight[pid], user).value
  {
    hide WriteTotpStep;
    WriteIs(s, pid);
  }

  lemma {:induction false} RunSettles(s: State, crypto: Crypto, actions: seq<Action>, user: Uuid, secret: string)
    requires Inv(s, crypto) && Settled(s, user, secret) && NoEnrolment(actions, user)
    ensures Settled(Run(s, crypto, actions), user, secret)
    decreases |actions|
  {
    hide Next, Settled, TablesOk, TotpOk, RequestsOk;
    if actions != [] {
      var a := actions[0];
      NextOk(s, crypto, a);
      if a.Register? || a.Federate? || a.FindRow? || a.CheckIndex? || a.CheckRow? {
        SignUpsSettle(s, crypto, a, user, secret);
      } else if a.InsertRow? || a.InsertIndex? || a.Touch? || a.Abandon? {
        InsertsSettle(s, crypto, a, user, secret);
      } else if a.WriteTotp? {
        WriteSettles(s, a.pid, user, secret);
        NextWrites(s, crypto, a.pid);
      } else {
        ReadsSettle(s, crypto, a, user, secret);
      }
      RunSettles(Next(s, crypto, a), crypto, actions[1..], user, secret);
    }
  }

  /** One write is enough to lose an unsettled secret. */
  lemma UnsettledIsLost(s: State, crypto: Crypto, user: Uuid, secret: string) returns (actions: seq<Action>)
    requires !Settled(s, user, secret) && user in s.inserted && user in s.db.users
    ensures NoEnrolment(actions, user) && Row(Run(s, crypto, actions).db, user).totpSecret != secret
  {
    if s.db.users[user].totpSecret != secret {
      actions := [];
    } else {
      var p :| p in s.flight && PendingSecret(s.flight[p], user).Some?
               && PendingSecret(s.flight[p], user).value != secret;
      WriteLandsPending(s, p, user);
      NextWrites(s, crypto, p);
      hide PendingSecret, Settled, Next, WriteTotpStep;
      actions := [WriteTotp(p)];
      assert Run(s, crypto, actions) == Run(Next(s, crypto, actions[0]), crypto, []);
    }
  }

  /**
   Short of a new enrolment, a user's secret stays in every continuation if and only if it is stored and every request
   that is about to write a secret for the user, to confirm, recover or enrol, holds that very secret.
   */
  lemma SecretStaysIff(s: State, crypto: Crypto, user: Uuid, secret: string)
    requires Reachable(s, crypto) && user in s.inserted
    ensures (forall actions :: NoEnrolment(actions, user) ==>
               Row(Run(s, crypto, actions).db, user).totpSecret == secret)
            <==> Settled(s, user, secret)
  {
    ReachableOk(s, crypto);
    hide Reachable, Run, TotpOk, RequestsOk;
    if Settled(s, user, secret) {
      forall actions | NoEnrolment(actions, user)
        ensures Row(Run(s, crypto, actions).db, user).totpSecret == secret
      {
        RunSettles(s, crypto, actions, user, secret);
      }
    } else {
      var actions := UnsettledIsLost(s, crypto, user, secret);
    }
  }

  // ----- without interruption, the steps are the operations

  /** The statements of Create, from its first read on; those that do not apply do nothing. */
  function CreateInOneGo(s: State, pid: nat): State {
    InsertIndexStep(InsertRowStep(CheckRowStep(CheckIndexStep(s, pid), pid), pid), pid)
  }

  lemma CreateWithoutInterruption(s: State, crypto: Crypto, pid: nat)
    requires Inv(s, crypto) && pid in s.flight && s.flight[pid].Creating?
    ensures var f, s2 := s.flight[pid], CreateInOneGo(s, pid);
            var (db, err) := Create(s.db, f.id, f.u);
            && s2.db == db && pid !in s2.flight && pid in s2.results
            && s2.results[pid] == Result(f.id, f.u.email, if err.Some? then Refused else Created)
  {
    var f := s.flight[pid];
    hide TotpOk, RequestsOk;
    var s1 := CheckIndexStep(s, pid);
    if f.u.email in s.db.usersByEmail {
      assert s1.flight[pid] == CheckingRow(s.db.usersByEmail[f.u.email], f.id, f.u);
    } else {
      assert s1.flight[pid] == Inserting(f.id, f.u);
      assert CheckRowStep(s1, pid) == s1;
    }
  }

  lemma FindOrCreateWithoutInterruption(s: State, crypto: Crypto, pid: nat, email: string, verified: bool, draw: Draw)
    requires Inv(s, crypto) && Fresh(s, pid, draw.id)
    ensures var s2 := CreateInOneGo(FindRowStep(FederateStep(s, pid, draw.id, email, verified), pid), pid);
            var (db, id) := U.FindOrCreateUser(s.db, email, verified, draw);
            s2.db == db && pid in s2.results && s2.results[pid].id == id && s2.results[pid].outcome != Refused
  {
    var s1 := FederateStep(s, pid, draw.id, email, verified);
    FederateOk(s, crypto, pid, draw.id, email, verified);
    FindRowOk(s1, crypto, pid);
    assert pid !in s.results;
    if email in s.db.usersByEmail {
      assert s.db.usersByEmail[email] in s.db.users;
      FoundInOneGo(s, pid, email, verified, draw.id);
    } else {
      MissedInOneGo(s, crypto, pid, email, verified, draw.id);
    }
    hide *;
  }

  lemma FoundInOneGo(s: State, pid: nat, email: string, verified: bool, id: Uuid)
    requires Fresh(s, pid, id) && email in s.db.usersByEmail && s.db.usersByEmail[email] in s.db.users
    ensures var s2 := CreateInOneGo(FindRowStep(FederateStep(s, pid, id, email, verified), pid), pid);
            s2.db == s.db && pid in s2.results && s2.results[pid] == Result(s.db.usersByEmail[email], email, Existing)
  {
    var s1 := FindRowStep(FederateStep(s, pid, id, email, verified), pid);
    assert pid !in s1.flight;
    hide FindRowStep, FederateStep;
  }

  lemma MissedInOneGo(s: State, crypto: Crypto, pid: nat, email: string, verified: bool, id: Uuid)
    requires Inv(s, crypto) && Fresh(s, pid, id) && email !in s.db.usersByEmail
    ensures var s2 := CreateInOneGo(FindRowStep(FederateStep(s, pid, id, email, verified), pid), pid);
            && s2.db == Insert(s.db, id, NULL_ROW.(email := email, emailVerified := verified))
            && pid in s2.results && s2.results[pid] == Result(id, email, Created)
  {
    hide Inv;
    var s1 := FederateStep(s, pid, id, email, verified);
    FederateOk(s, crypto, pid, id, email, verified);
    assert s1.flight[pid] == Creating(id, NULL_ROW.(email := email, emailVerified := verified));
    assert s1.db == s.db && FindRowStep(s1, pid) == s1;
    hide FederateStep, CreateInOneGo;
    CreateWithoutInterruption(s1, crypto, pid);
  }

  lemma ConfirmWithoutInterruption(s: State, w: World, crypto: Crypto, pid: nat, user: Uuid, code: string)
    requires pid !in s.started && pid !in s.flight && code != "" && w.db == s.db
    ensures WriteTotpStep(ConfirmStep(s, crypto, pid, user, code), pid).db
         == F.Confirm(w, crypto, Some(ToString(user)), code).0.db
  {
    ParseToString(user);
    hide ToString, Parse;
    var s1 := ConfirmStep(s, crypto, pid, user, code);
    if s1 == s {
      assert WriteTotpStep(s1, pid) == s1;
    }
  }

  /** For an enrolment, apart from the recovery codes, which this machine leaves out. */
  lemma EnrollWithoutInterruption(s: State, w: World, crypto: Crypto, pid: nat, user: Uuid, e: F.Enrolment)
    requires pid !in s.started && pid !in s.flight && e.Complete() && w.db == s.db
    ensures WriteTotpStep(EnrollStep(s, pid, user, e.secret), pid).db
         == F.Enroll(w, crypto, Some(ToString(user)), e).0.db.(recoveryCodes := s.db.recoveryCodes)
  {
    ParseToString(user);
    hide ToString, Parse, FreshCodes, F.HashAll;
    var s1 := EnrollStep(s, pid, user, e.secret);
    if s1 == s {
      assert WriteTotpStep(s1, pid) == s1;
    }
  }

  /** For an accepted recovery, apart from the code it marks. */
  lemma RecoveryWithoutInterruption(s: State, w: World, crypto: Crypto, pid: nat, user: Uuid, m: string, code: string,
                                    listing: seq<Uuid>, draw: Draw)
    requires pid !in s.started && pid !in s.flight && w.db == s.db
    requires F.Recovery(w, crypto, m, code, listing, draw).1 == SignedIn(user, draw.token)
    ensures WriteTotpStep(RecoverStep(s, pid, user), pid).db
         == F.Recovery(w, crypto, m, code, listing, draw).0.db.(recoveryCodes := s.db.recoveryCodes)
  {
    hide ToString, Parse, F.FirstMatch;
  }
}
