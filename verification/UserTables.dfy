/**
 The Cassandra tables: users, the users_by_email lookup table, recovery codes, consents and OAuth clients.
 An UPDATE is an upsert: aimed at a missing key it creates a row with null columns.
 */
module UserTables {
  import opened Common
  import opened Uuids

  datatype User =
    User(email: string, passwordHash: string, emailVerified: bool, totpEnabled: bool, totpSecret: string,
         lockedUntil: Option<Time>, failedAttempts: int)

  datatype RecoveryCode = RecoveryCode(hash: string, used: bool)

  datatype Client = Client(secretHash: string, redirectURIs: seq<string>)

  datatype Identity = Identity(providerUserID: string, email: string)

  datatype Db =
    Db(users: map<Uuid, User>, usersByEmail: map<string, Uuid>, recoveryCodes: map<Uuid, map<Uuid, RecoveryCode>>,
       consents: map<(Uuid, string), seq<string>>, clients: map<string, Client>,
       identities: map<(Uuid, string), Identity>)

  /** How a row of nulls reads back into Go values. */
  const NULL_ROW := User("", "", false, false, "", None, 0)

  datatype CreateError = EmailTaken

  // ----- users

  function Row(db: Db, id: Uuid): User {
    if id in db.users then db.users[id] else NULL_ROW
  }

  function Upsert(db: Db, id: Uuid, u: User): Db {
    db.(users := db.users[id := u])
  }

  function FindByID(db: Db, id: Uuid): Option<User> {
    if id in db.users then Some(db.users[id]) else None
  }

  function FindByEmail(db: Db, email: string): Option<(Uuid, User)> {
    if email in db.usersByEmail && db.usersByEmail[email] in db.users
    then Some((db.usersByEmail[email], db.users[db.usersByEmail[email]])) else None
  }

  /** The row first, the lookup entry second. */
  function Insert(db: Db, id: Uuid, u: User): Db {
    db.(users := db.users[id := u], usersByEmail := db.usersByEmail[u.email := id])
  }

  function Create(db: Db, id: Uuid, u: User): (Db, Option<CreateError>) {
    if FindByEmail(db, u.email).Some? then (db, Some(EmailTaken)) else (Insert(db, id, u), None)
  }

  function SetEmailVerified(db: Db, id: Uuid): Db {
    Upsert(db, id, Row(db, id).(emailVerified := true))
  }

  function UpdateFailedAttempts(db: Db, id: Uuid, attempts: int, lockedUntil: Option<Time>): Db {
    Upsert(db, id, Row(db, id).(failedAttempts := attempts, lockedUntil := lockedUntil))
  }

  function UpdateFailedAttemptsReset(db: Db, id: Uuid): Db {
    Upsert(db, id, Row(db, id).(failedAttempts := 0, lockedUntil := None))
  }

  function UpdatePassword(db: Db, id: Uuid, hash: string): Db {
    Upsert(db, id, Row(db, id).(passwordHash := hash, failedAttempts := 0, lockedUntil := None))
  }

  function UpdateTOTP(db: Db, id: Uuid, secret: string, enabled: bool): Db {
    Upsert(db, id, Row(db, id).(totpSecret := secret, totpEnabled := enabled))
  }

  /** The lookup table and a scan of the users table tell the same story. */
  ghost predicate IndexAgrees(db: Db) {
    && (forall e :: e in db.usersByEmail ==>
          db.usersByEmail[e] in db.users && db.users[db.usersByEmail[e]].email == e)
    && (forall id :: id in db.users ==>
          db.users[id].email in db.usersByEmail && db.usersByEmail[db.users[id].email] == id)
  }

  /** Looking up an email finds exactly the row a scan would find; at most one row carries it. */
  lemma FindByEmailIsScan(db: Db, email: string, id: Uuid, u: User)
    requires IndexAgrees(db)
    ensures FindByEmail(db, email) == Some((id, u)) <==> FindByID(db, id) == Some(u) && u.email == email
  {
  }

  lemma CreateKeepsIndex(db: Db, id: Uuid, u: User)
    requires IndexAgrees(db) && id !in db.users
    ensures IndexAgrees(Create(db, id, u).0)
    ensures Create(db, id, u).1.Some? <==> exists other :: other in db.users && db.users[other].email == u.email
  {
  }

  /** An UPDATE of an existing row that leaves the email alone cannot disturb the lookup table. */
  lemma UpsertKeepsIndex(db: Db, id: Uuid, u: User)
    requires IndexAgrees(db) && id in db.users && u.email == db.users[id].email
    ensures IndexAgrees(Upsert(db, id, u))
  {
  }

  /** An UPDATE aimed at a missing id breaks the agreement at once: it leaves a row nobody can look up by email. */
  lemma PhantomRowBreaksIndex(db: Db, id: Uuid)
    requires IndexAgrees(db) && id !in db.users
    ensures !IndexAgrees(SetEmailVerified(db, id))
  {
    var after := SetEmailVerified(db, id);
    assert after.users[id].email == "";
    if "" in db.usersByEmail {
      assert db.usersByEmail[""] in db.users;
    }
  }

  // ----- recovery codes

  function CodesOf(db: Db, user: Uuid): map<Uuid, RecoveryCode> {
    if user in db.recoveryCodes then db.recoveryCodes[user] else map[]
  }

  function WithCodes(db: Db, user: Uuid, codes: map<Uuid, RecoveryCode>): Db {
    db.(recoveryCodes := db.recoveryCodes[user := codes])
  }

  function FreshCodes(ids: seq<Uuid>, hashes: seq<string>): map<Uuid, RecoveryCode>
    requires |ids| == |hashes|
  {
    if ids == [] then map[]
    else FreshCodes(ids[..|ids| - 1], hashes[..|ids| - 1])[ids[|ids| - 1] := RecoveryCode(hashes[|ids| - 1], false)]
  }

  lemma FreshCodesGrow(ids: seq<Uuid>, hashes: seq<string>, n: nat)
    requires n < |ids| == |hashes|
    ensures FreshCodes(ids[..n + 1], hashes[..n + 1])
            == FreshCodes(ids[..n], hashes[..n])[ids[n] := RecoveryCode(hashes[n], false)]
  {
    assert ids[..n + 1][..n] == ids[..n] && hashes[..n + 1][..n] == hashes[..n];
  }

  function ReplaceAll(db: Db, user: Uuid, ids: seq<Uuid>, hashes: seq<string>): Db
    requires |ids| == |hashes|
  {
    WithCodes(db, user, FreshCodes(ids, hashes))
  }

  function Unused(codes: map<Uuid, RecoveryCode>): set<Uuid> {
    set c | c in codes && !codes[c].used
  }

  function MarkUsed(db: Db, user: Uuid, code: Uuid): Db {
    var codes := CodesOf(db, user);
    var row := if code in codes then codes[code] else RecoveryCode("", false);
    WithCodes(db, user, codes[code := row.(used := true)])
  }

  lemma UnusedGrows(codes: map<Uuid, RecoveryCode>, id: Uuid, hash: string)
    ensures Unused(codes[id := RecoveryCode(hash, false)]) == Unused(codes) + {id}
  {
  }

  lemma IdsGrow(ids: seq<Uuid>)
    requires ids != []
    ensures var n := |ids| - 1; (set c | c in ids) == (set c | c in ids[..n]) + {ids[n]}
  {
    var n := |ids| - 1;
    assert ids == ids[..n] + [ids[n]];
  }

  /** Distinct ids give as many unused codes as there are hashes. */
  lemma {:induction false} FreshCodesUnused(ids: seq<Uuid>, hashes: seq<string>)
    requires |ids| == |hashes| && forall i, j :: 0 <= i < j < |ids| ==> ids[i] != ids[j]
    ensures Unused(FreshCodes(ids, hashes)) == (set c | c in ids)
    ensures FreshCodes(ids, hashes).Keys == (set c | c in ids) && |set c | c in ids| == |ids|
  {
    if ids != [] {
      var n := |ids| - 1;
      FreshCodesUnused(ids[..n], hashes[..n]);
      UnusedGrows(FreshCodes(ids[..n], hashes[..n]), ids[n], hashes[n]);
      IdsGrow(ids);
      assert ids[n] !in ids[..n];
      assert ids[..n + 1] == ids && hashes[..n + 1] == hashes;
      FreshCodesGrow(ids, hashes, n);
      hide Unused;
    }
  }

  /** Each id is stored with its own hash. */
  lemma {:induction false} FreshCodesAt(ids: seq<Uuid>, hashes: seq<string>, i: nat)
    requires i < |ids| == |hashes| && forall a, b :: 0 <= a < b < |ids| ==> ids[a] != ids[b]
    ensures ids[i] in FreshCodes(ids, hashes) && FreshCodes(ids, hashes)[ids[i]] == RecoveryCode(hashes[i], false)
  {
    var n := |ids| - 1;
    if i < n {
      FreshCodesAt(ids[..n], hashes[..n], i);
    }
  }

  /** Marking an unused code takes exactly that one out of the unused set. */
  lemma MarkUsedTakesOne(db: Db, user: Uuid, code: Uuid)
    requires code in Unused(CodesOf(db, user))
    ensures Unused(CodesOf(MarkUsed(db, user, code), user)) == Unused(CodesOf(db, user)) - {code}
    ensures forall other :: other != user ==> CodesOf(MarkUsed(db, user, code), other) == CodesOf(db, other)
  {
  }

  // ----- federated identities

  function UpsertIdentity(db: Db, user: Uuid, provider: string, providerUserID: string, email: string): Db {
    db.(identities := db.identities[(user, provider) := Identity(providerUserID, email)])
  }

  // ----- consents

  predicate HasConsent(db: Db, user: Uuid, client: string, scopes: seq<string>) {
    (user, client) in db.consents && forall s :: s in scopes ==> s in db.consents[(user, client)]
  }

  function StoreConsent(db: Db, user: Uuid, client: string, scopes: seq<string>): Db {
    db.(consents := db.consents[(user, client) := scopes])
  }
}
