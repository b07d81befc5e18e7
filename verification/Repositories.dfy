/**
 The repositories: the Cassandra session holds the tables, and every method is one or two statements against them.
 */
module Repositories {
  import opened Common
  import opened Uuids
  import opened UserTables
  import T = UserTables

  class Session {
    var users: map<Uuid, User>
    var usersByEmail: map<string, Uuid>
    var recoveryCodes: map<Uuid, map<Uuid, RecoveryCode>>
    var consents: map<(Uuid, string), seq<string>>
    var clients: map<string, Client>
    var identities: map<(Uuid, string), Identity>

    constructor ()
      ensures Tables() == Db(map[], map[], map[], map[], map[], map[])
    {
      users, usersByEmail, recoveryCodes, consents, clients, identities := map[], map[], map[], map[], map[], map[];
    }

    function Tables(): Db
      reads this
    {
      Db(users, usersByEmail, recoveryCodes, consents, clients, identities)
    }
  }

  class Repository {
    const session: Session

    constructor (session: Session)
      ensures this.session == session
    {
      this.session := session;
    }

    method FindByID(id: Uuid) returns (u: Option<User>)
      ensures u == T.FindByID(session.Tables(), id)
    {
      u := if id in session.users then Some(session.users[id]) else None;
    }

    method FindByEmail(email: string) returns (r: Option<(Uuid, User)>)
      ensures r == T.FindByEmail(session.Tables(), email)
    {
      if email !in session.usersByEmail {
        return None;
      }
      var id := session.usersByEmail[email];
      var u := FindByID(id);
      r := if u.Some? then Some((id, u.value)) else None;
    }

    method Create(id: Uuid, u: User) returns (err: Option<CreateError>)
      modifies session
      ensures (session.Tables(), err) == T.Create(old(session.Tables()), id, u)
    {
      var existing := FindByEmail(u.email);
      if existing.Some? {
        return Some(EmailTaken);
      }
      session.users := session.users[id := u];
      session.usersByEmail := session.usersByEmail[u.email := id];
      err := None;
    }

    method SetEmailVerified(id: Uuid)
      modifies session
      ensures session.Tables() == T.SetEmailVerified(old(session.Tables()), id)
    {
      session.users := session.users[id := Row(session.Tables(), id).(emailVerified := true)];
    }

    method UpdateFailedAttempts(id: Uuid, attempts: int, lockedUntil: Option<Time>)
      modifies session
      ensures session.Tables() == T.UpdateFailedAttempts(old(session.Tables()), id, attempts, lockedUntil)
    {
      var row := Row(session.Tables(), id);
      session.users := session.users[id := row.(failedAttempts := attempts, lockedUntil := lockedUntil)];
    }

    method UpdateFailedAttemptsReset(id: Uuid)
      modifies session
      ensures session.Tables() == T.UpdateFailedAttemptsReset(old(session.Tables()), id)
    {
      session.users := session.users[id := Row(session.Tables(), id).(failedAttempts := 0, lockedUntil := None)];
    }

    method UpdatePassword(id: Uuid, hash: string)
      modifies session
      ensures session.Tables() == T.UpdatePassword(old(session.Tables()), id, hash)
    {
      var row := Row(session.Tables(), id);
      session.users := session.users[id := row.(passwordHash := hash, failedAttempts := 0, lockedUntil := None)];
    }

    method UpdateTOTP(id: Uuid, secret: string, enabled: bool)
      modifies session
      ensures session.Tables() == T.UpdateTOTP(old(session.Tables()), id, secret, enabled)
    {
      session.users := session.users[id := Row(session.Tables(), id).(totpSecret := secret, totpEnabled := enabled)];
    }
  }

  datatype UnusedCode = UnusedCode(id: Uuid, hash: string)

  function Ids(listed: seq<UnusedCode>): (ids: seq<Uuid>)
    ensures |ids| == |listed|
  {
    seq(|listed|, i requires 0 <= i < |listed| => listed[i].id)
  }

  lemma IdsAppend(listed: seq<UnusedCode>, c: UnusedCode)
    ensures Ids(listed + [c]) == Ids(listed) + [c.id]
  {
  }

  /** Exactly the unused codes, each once and with the hash it is stored under. */
  ghost predicate ListsWithHashes(listed: seq<UnusedCode>, codes: map<Uuid, RecoveryCode>) {
    && (forall c :: c in Ids(listed) <==> c in Unused(codes))
    && (forall i :: 0 <= i < |listed| ==> listed[i].id in codes && listed[i].hash == codes[listed[i].id].hash)
    && (forall i, j :: 0 <= i < j < |listed| ==> listed[i].id != listed[j].id)
  }

  class RecoveryCodeRepository {
    const session: Session

    constructor (session: Session)
      ensures this.session == session
    {
      this.session := session;
    }

    /** Deletes the old rows, then inserts the new ones one at a time. */
    method ReplaceAll(user: Uuid, ids: seq<Uuid>, hashes: seq<string>)
      requires |ids| == |hashes|
      modifies session
      ensures session.Tables() == T.ReplaceAll(old(session.Tables()), user, ids, hashes)
    {
      session.recoveryCodes := session.recoveryCodes[user := map[]];
      assert ids[..0] == [] && hashes[..0] == [];
      for i := 0 to |hashes|
        modifies session`recoveryCodes
        invariant session.recoveryCodes == old(session.recoveryCodes)[user := FreshCodes(ids[..i], hashes[..i])]
      {
        FreshCodesGrow(ids, hashes, i);
        hide FreshCodes;
        var codes := session.recoveryCodes[user][ids[i] := RecoveryCode(hashes[i], false)];
        session.recoveryCodes := session.recoveryCodes[user := codes];
      }
      assert ids[..|hashes|] == ids && hashes[..|hashes|] == hashes;
    }

    /** Every unused code once with its hash, in no particular order. */
    method ListUnused(user: Uuid) returns (results: seq<UnusedCode>)
      ensures ListsWithHashes(results, CodesOf(session.Tables(), user))
    {
      results := [];
      var codes := CodesOf(session.Tables(), user);
      var rows := codes.Keys;
      while rows != {}
        invariant rows <= codes.Keys
        invariant forall c :: c in Ids(results) <==> c in codes.Keys - rows && !codes[c].used
        invariant forall i :: 0 <= i < |results| ==>
                    results[i].id in codes && results[i].hash == codes[results[i].id].hash
        invariant forall i, j :: 0 <= i < j < |results| ==> results[i].id != results[j].id
      {
        var c :| c in rows;
        rows := rows - {c};
        if !codes[c].used {
          assert c !in Ids(results);
          assert forall i :: 0 <= i < |results| ==> results[i].id == Ids(results)[i];
          IdsAppend(results, UnusedCode(c, codes[c].hash));
          results := results + [UnusedCode(c, codes[c].hash)];
        }
      }
    }

    method MarkUsed(user: Uuid, code: Uuid)
      modifies session
      ensures session.Tables() == T.MarkUsed(old(session.Tables()), user, code)
    {
      var codes := CodesOf(session.Tables(), user);
      var row := if code in codes then codes[code] else RecoveryCode("", false);
      var updated: map<Uuid, RecoveryCode> := codes[code := row.(used := true)];
      session.recoveryCodes := session.recoveryCodes[user := updated];
    }
  }

  class FederatedIdentityRepository {
    const session: Session

    constructor (session: Session)
      ensures this.session == session
    {
      this.session := session;
    }

    method Upsert(user: Uuid, provider: string, providerUserID: string, email: string)
      modifies session
      ensures session.Tables() == T.UpsertIdentity(old(session.Tables()), user, provider, providerUserID, email)
    {
      session.identities := session.identities[(user, provider) := Identity(providerUserID, email)];
    }
  }

  class ConsentRepository {
    const session: Session

    constructor (session: Session)
      ensures this.session == session
    {
      this.session := session;
    }

    /** Builds the granted set from the stored row, then looks for a requested scope outside it. */
    method HasConsent(user: Uuid, client: string, scopes: seq<string>) returns (ok: bool)
      ensures ok == T.HasConsent(session.Tables(), user, client, scopes)
    {
      if (user, client) !in session.consents {
        return false;
      }
      var grantedScopes := session.consents[(user, client)];
      var granted: map<string, bool> := map[];
      for i := 0 to |grantedScopes|
        invariant forall s :: s in granted <==> s in grantedScopes[..i]
      {
        granted := granted[grantedScopes[i] := true];
      }
      assert grantedScopes[..|grantedScopes|] == grantedScopes;
      for i := 0 to |scopes|
        invariant forall j :: 0 <= j < i ==> scopes[j] in granted
      {
        if scopes[i] !in granted {
          return false;
        }
      }
      return true;
    }

    method StoreConsent(user: Uuid, client: string, scopes: seq<string>)
      modifies session
      ensures session.Tables() == T.StoreConsent(old(session.Tables()), user, client, scopes)
    {
      session.consents := session.consents[(user, client) := scopes];
    }
  }

  /** The registered clients among the ids, in the order asked for. */
  function KnownClients(clients: map<string, Client>, ids: seq<string>): seq<Client> {
    if ids == [] then []
    else
      var n := |ids| - 1;
      KnownClients(clients, ids[..n]) + if ids[n] in clients then [clients[ids[n]]] else []
  }

  class ClientRepository {
    const session: Session

    constructor (session: Session)
      ensures this.session == session
    {
      this.session := session;
    }

    method Create(id: string, client: Client)
      modifies session
      ensures session.Tables() == old(session.Tables()).(clients := old(session.clients)[id := client])
    {
      session.clients := session.clients[id := client];
    }

    method FindByID(id: string) returns (c: Option<Client>)
      ensures c == if id in session.clients then Some(session.clients[id]) else None
    {
      c := if id in session.clients then Some(session.clients[id]) else None;
    }

    /** Unknown ids are skipped; known ones keep their order. */
    method FindByIDs(ids: seq<string>) returns (found: seq<Client>)
      ensures found == KnownClients(session.clients, ids)
    {
      found := [];
      for i := 0 to |ids|
        invariant found == KnownClients(session.clients, ids[..i])
      {
        assert ids[..i + 1][..i] == ids[..i];
        var c := FindByID(ids[i]);
        if c.Some? {
          found := found + [c.value];
        }
      }
      assert ids[..|ids|] == ids;
    }
  }
}
