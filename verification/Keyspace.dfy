/**
 The Redis commands the server issues, over one map from keys to values with an optional expiry.
 The key type is a parameter: the server sees strings, the proofs see structured keys, and one definition of the
 commands serves both. An entry is live strictly before its expiry instant.
 */
module Keyspace {
  import opened Common

  /** What an authorization code stands for while it waits to be redeemed. */
  datatype Grant =
    Grant(userID: string, clientID: string, redirectURI: string, scopes: seq<string>, codeChallenge: string)

  datatype Value =
    | Text(text: string)
    | Count(count: int)
    | Code(grant: Grant)
    | Members(members: set<string>)

  datatype Expiry = Never | At(time: Time)

  datatype Entry = Entry(value: Value, expiry: Expiry)

  datatype Store<!K(==)> = Store(now: Time, data: map<K, Entry>)

  /** Hit is the INCR and EXPIRE pipeline, which the server always sends together. */
  datatype Command<K> =
    | Get(key: K)
    | Set(key: K, value: Value, ttl: Time)
    | GetDel(key: K)
    | Del(key: K)
    | Hit(key: K, window: Time)
    | SAdd(key: K, member: string)
    | SRem(key: K, member: string)
    | SMembers(key: K)

  datatype Reply =
    | Nil
    | Done
    | Bulk(value: Value)
    | Integer(n: int)
    | Listing(members: set<string>)
    | WrongType

  predicate Live<K(==)>(s: Store<K>, k: K) {
    k in s.data && (s.data[k].expiry.At? ==> s.now < s.data[k].expiry.time)
  }

  function Lookup<K(==)>(s: Store<K>, k: K): Option<Value> {
    if Live(s, k) then Some(s.data[k].value) else None
  }

  function Put<K(==)>(s: Store<K>, k: K, v: Value, e: Expiry): Store<K> {
    s.(data := s.data[k := Entry(v, e)])
  }

  function Drop<K(==)>(s: Store<K>, k: K): Store<K> {
    s.(data := s.data - {k})
  }

  function Advance<K(==)>(s: Store<K>, d: Time): Store<K> {
    s.(now := s.now + d)
  }

  function SetOf(v: Option<Value>): set<string> {
    if v.Some? && v.value.Members? then v.value.members else {}
  }

  function Exec<K(==)>(s: Store<K>, c: Command<K>): (Store<K>, Reply) {
    var found := Lookup(s, c.key);
    match c
    case Get(k) => (s, if found.None? then Nil else if found.value.Members? then WrongType else Bulk(found.value))
    case Set(k, v, ttl) => (Put(s, k, v, At(s.now + ttl)), Done)
    case GetDel(k) =>
      if found.None? then (Drop(s, k), Nil)
      else if found.value.Members? then (s, WrongType)
      else (Drop(s, k), Bulk(found.value))
    case Del(k) => (Drop(s, k), Done)
    case Hit(k, window) =>
      if found.None? then (Put(s, k, Count(1), At(s.now + window)), Integer(1))
      else if found.value.Count? then
        (Put(s, k, Count(found.value.count + 1), At(s.now + window)), Integer(found.value.count + 1))
      else (Put(s, k, found.value, At(s.now + window)), WrongType)
    case SAdd(k, m) =>
      if found.None? then (Put(s, k, Members({m}), Never), Done)
      else if found.value.Members? then (Put(s, k, Members(found.value.members + {m}), s.data[k].expiry), Done)
      else (s, WrongType)
    case SRem(k, m) =>
      if found.None? then (s, Done)
      else if !found.value.Members? then (s, WrongType)
      else if found.value.members - {m} == {} then (Drop(s, k), Done)
      else (Put(s, k, Members(found.value.members - {m}), s.data[k].expiry), Done)
    case SMembers(k) =>
      if found.Some? && !found.value.Members? then (s, WrongType) else (s, Listing(SetOf(found)))
  }

  function ExecAll<K(==)>(s: Store<K>, cs: seq<Command<K>>): Store<K>
    decreases |cs|
  {
    if cs == [] then s else ExecAll(Exec(s, cs[0]).0, cs[1..])
  }

  lemma {:induction false} ExecAllAppend<K>(s: Store<K>, cs: seq<Command<K>>, c: Command<K>)
    ensures ExecAll(s, cs + [c]) == Exec(ExecAll(s, cs), c).0
    decreases |cs|
  {
    if cs != [] {
      assert (cs + [c])[1..] == cs[1..] + [c];
      ExecAllAppend(Exec(s, cs[0]).0, cs[1..], c);
    } else {
      assert ExecAll(Exec(s, c).0, []) == Exec(s, c).0;
      assert (cs + [c])[1..] == [];
    }
  }

  lemma ExecAllShort<K>(s: Store<K>, a: Command<K>, b: Command<K>)
    ensures ExecAll(s, [a]) == Exec(s, a).0
    ensures ExecAll(s, [a, b]) == Exec(Exec(s, a).0, b).0
  {
    assert [a, b][1..] == [b] && [b][1..] == [] && [a][1..] == [];
    assert ExecAll(Exec(s, a).0, []) == Exec(s, a).0;
    assert ExecAll(Exec(s, a).0, [b]) == ExecAll(Exec(Exec(s, a).0, b).0, []);
  }

  /** A command leaves every key but its own alone, and does not move the clock. */
  lemma ExecFrame<K>(s: Store<K>, c: Command<K>, k: K)
    requires k != c.key
    ensures Exec(s, c).0.now == s.now
    ensures (k in Exec(s, c).0.data <==> k in s.data)
    ensures k in s.data ==> Exec(s, c).0.data[k] == s.data[k]
  {
  }
}
