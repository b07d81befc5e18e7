/**
 Granularity: crash prefix. Operations run one after another, but each may stop after any number of its Redis
 commands (process death, lost connection). What survives is the promise that revocation relies on: every refresh
 token whose store call returned success is still listed in its owner's index for as long as it exists.
 */
module CrashSafety {
  import opened Common
  import opened Keyspace
  import opened Keys
  import opened Tokens

  datatype Op =
    | StoreToken(token: string, user: string, ttl: Time)
    | ConsumeToken(token: string)
    | Revoke(user: string, order: seq<string>)
    | Wait(d: Time)
    | Elsewhere(c: Command<Key>)

  /** used: every token ever offered to the store; acknowledged: those whose store call returned success. */
  datatype State = State(store: Store<Key>, used: set<string>, acknowledged: set<string>)

  function Init(): State {
    State(Store(0, map[]), {}, {})
  }

  /** New tokens are fresh; SMEMBERS lists what is there; other handlers use other kinds of keys. */
  ghost predicate Allowed(s: State, op: Op) {
    match op
    case StoreToken(t, _, _) => t !in s.used
    case Revoke(u, order) => Lists(order, IndexedTokens(s.store, u))
    case Elsewhere(c) => !c.key.Refresh? && !c.key.UserSessions? && CommandFits(c)
    case _ => true
  }

  function Commands(s: Store<Key>, op: Op): seq<Command<Key>> {
    match op
    case StoreToken(t, u, ttl) => StoreRefreshCommands(t, u, ttl)
    case ConsumeToken(t) => ConsumeRefreshCommands(s, t)
    case Revoke(u, order) => RevokeCommands(u, order)
    case Wait(_) => []
    case Elsewhere(c) => [c]
  }

  /** The operation stops after `stop` commands; past the end of its list means it completed. */
  ghost function Attempt(s: State, op: Op, stop: nat): State {
    if !Allowed(s, op) then s
    else
      var cs := Commands(s.store, op);
      var after := ExecAll(s.store, if stop < |cs| then cs[..stop] else cs);
      State(if op.Wait? then Advance(after, op.d) else after,
            if op.StoreToken? then s.used + {op.token} else s.used,
            if op.StoreToken? && stop >= |cs| then s.acknowledged + {op.token} else s.acknowledged)
  }

  ghost function Run(s: State, steps: seq<(Op, nat)>): State
    decreases |steps|
  {
    if steps == [] then s else Run(Attempt(s, steps[0].0, steps[0].1), steps[1..])
  }

  predicate Listed(s: Store<Key>, t: string) {
    Refresh(t) in s.data ==> s.data[Refresh(t)].value.Text? && t in IndexedTokens(s, s.data[Refresh(t)].value.text)
  }

  /** Tokens that were never offered to the store appear nowhere in it. */
  ghost predicate KnownTokens(s: State) {
    && (forall t :: Refresh(t) in s.store.data ==> t in s.used)
    && (forall u, t :: t in IndexedTokens(s.store, u) ==> t in s.used)
    && s.acknowledged <= s.used
  }

  ghost predicate Inv(s: State) {
    WellTyped(s.store) && KnownTokens(s) && forall t :: t in s.acknowledged ==> Listed(s.store, t)
  }

  lemma IndexFrame(s: Store<Key>, c: Command<Key>, u: string)
    requires c.key != UserSessions(u)
    ensures IndexedTokens(Exec(s, c).0, u) == IndexedTokens(s, u)
  {
  }

  /** Each single command keeps every listed token listed, unless it stores that token or drops that token's index. */
  lemma CommandKeepsListed(s: Store<Key>, c: Command<Key>, t: string)
    requires WellTyped(s) && CommandFits(c) && Listed(s, t)
    requires c.Set? ==> c.key != Refresh(t)
    requires c.SRem? && c.member == t ==> Refresh(t) !in s.data
    requires c.Del? && c.key.UserSessions? ==> Refresh(t) in s.data ==> s.data[Refresh(t)].value != Text(c.key.user)
    ensures Listed(Exec(s, c).0, t) && WellTyped(Exec(s, c).0)
  {
    if Refresh(t) in s.data {
      var u := s.data[Refresh(t)].value.text;
      if c.key != UserSessions(u) {
        IndexFrame(s, c, u);
      }
      if c.key != Refresh(t) {
        ExecFrame(s, c, Refresh(t));
      }
    } else if c.key != Refresh(t) {
      ExecFrame(s, c, Refresh(t));
    }
  }

  lemma StorePrefix(s: State, t: string, u: string, ttl: Time, stop: nat)
    requires Inv(s) && t !in s.used
    ensures Inv(Attempt(s, StoreToken(t, u, ttl), stop))
  {
    var set1 := Set(Refresh(t), Text(u), ttl);
    var add := SAdd(UserSessions(u), t);
    var s1 := Exec(s.store, set1).0;
    var s2 := Exec(s1, add).0;
    var cs := StoreRefreshCommands(t, u, ttl);
    ExecAllShort(s.store, set1, add);
    assert cs[..0] == [] && cs[..1] == [set1];
    assert ExecAll(s.store, []) == s.store;
    forall v ensures IndexedTokens(s1, v) == IndexedTokens(s.store, v) {
      IndexFrame(s.store, set1, v);
    }
    forall v | v != u ensures IndexedTokens(s2, v) == IndexedTokens(s1, v) {
      IndexFrame(s1, add, v);
    }
    assert IndexedTokens(s2, u) == IndexedTokens(s1, u) + {t};
    assert WellTyped(s1) && WellTyped(s2);
    forall x | x in s.acknowledged ensures Listed(s1, x) && Listed(s2, x) {
      CommandKeepsListed(s.store, set1, x);
      CommandKeepsListed(s1, add, x);
    }
  }

  lemma ConsumePrefix(s: State, t: string, stop: nat)
    requires Inv(s)
    ensures Inv(Attempt(s, ConsumeToken(t), stop))
  {
    var get := GetDel(Refresh(t));
    var s1 := Exec(s.store, get).0;
    var cs := ConsumeRefreshCommands(s.store, t);
    assert ExecAll(s.store, []) == s.store && cs[..0] == [] && cs[..1] == [get];
    var u := Consume(s.store, Refresh(t)).1.GetOr("");
    var rem := SRem(UserSessions(u), t);
    var s2 := Exec(s1, rem).0;
    ExecAllShort(s.store, get, rem);
    forall v ensures IndexedTokens(s1, v) == IndexedTokens(s.store, v) {
      IndexFrame(s.store, get, v);
    }
    forall v | v != u ensures IndexedTokens(s2, v) == IndexedTokens(s1, v) {
      IndexFrame(s1, rem, v);
    }
    assert IndexedTokens(s2, u) <= IndexedTokens(s1, u);
    assert WellTyped(s1) && WellTyped(s2) && Refresh(t) !in s1.data;
    forall x | x in s.acknowledged ensures Listed(s1, x) && Listed(s2, x) {
      CommandKeepsListed(s.store, get, x);
      CommandKeepsListed(s1, rem, x);
    }
  }

  /** A revocation cut short has deleted some tokens; only the very last command touches the index. */
  lemma RevokePrefix(s: State, u: string, order: seq<string>, stop: nat)
    requires Inv(s) && Lists(order, IndexedTokens(s.store, u))
    ensures Inv(Attempt(s, Revoke(u, order), stop))
  {
    var cs := RevokeCommands(u, order);
    if stop >= |cs| {
      RevokeCommandsRevoke(s.store, u, order);
      RevokeKeeps(s, u);
    } else if stop == 0 {
      assert cs[..0] == [] && ExecAll(s.store, []) == s.store;
    } else {
      var ks := RefreshKeySeq(order)[..stop - 1];
      assert cs[..stop][1..] == DelCommands(ks);
      assert cs[..stop][0] == SMembers(UserSessions(u));
      assert Exec(s.store, SMembers(UserSessions(u))).0 == s.store;
      ExecAllDel(s.store, ks);
      var after := ExecAll(s.store, cs[..stop]);
      assert after == s.store.(data := s.store.data - (set k | k in ks));
      forall v ensures IndexedTokens(after, v) == IndexedTokens(s.store, v) {
        assert UserSessions(v) !in ks;
      }
    }
  }

  lemma RevokeKeeps(s: State, u: string)
    requires Inv(s)
    ensures Inv(State(RevokeAll(s.store, u), s.used, s.acknowledged))
  {
    var after := RevokeAll(s.store, u);
    forall v ensures IndexedTokens(after, v) == if v == u then {} else IndexedTokens(s.store, v) {
    }
    forall t | t in s.acknowledged ensures Listed(after, t) {
      if Refresh(t) in after.data {
        assert Listed(s.store, t) && Refresh(t) !in RefreshKeys(IndexedTokens(s.store, u));
      }
    }
  }

  lemma ElsewhereKeeps(s: State, c: Command<Key>, stop: nat)
    requires Inv(s) && Allowed(s, Elsewhere(c))
    ensures Inv(Attempt(s, Elsewhere(c), stop))
  {
    ExecAllShort(s.store, c, c);
    assert [c][..0] == [] && ExecAll(s.store, []) == s.store;
    var s1 := Exec(s.store, c).0;
    assert WellTyped(s1);
    forall v ensures IndexedTokens(s1, v) == IndexedTokens(s.store, v) {
      IndexFrame(s.store, c, v);
    }
    forall t ensures Refresh(t) in s1.data <==> Refresh(t) in s.store.data {
      ExecFrame(s.store, c, Refresh(t));
    }
    forall x | x in s.acknowledged ensures Listed(s1, x) {
      CommandKeepsListed(s.store, c, x);
    }
  }

  lemma AttemptKeeps(s: State, op: Op, stop: nat)
    requires Inv(s)
    ensures Inv(Attempt(s, op, stop))
  {
    if Allowed(s, op) {
      match op
      case StoreToken(t, u, ttl) => StorePrefix(s, t, u, ttl, stop);
      case ConsumeToken(t) => ConsumePrefix(s, t, stop);
      case Revoke(u, order) => RevokePrefix(s, u, order, stop);
      case Elsewhere(c) => ElsewhereKeeps(s, c, stop);
      case Wait(d) =>
        var after := Advance(s.store, d);
        assert Commands(s.store, op) == [] && ExecAll(s.store, []) == s.store;
        forall v ensures IndexedTokens(after, v) == IndexedTokens(s.store, v) {
          assert UserSessions(v) in s.store.data ==> s.store.data[UserSessions(v)].expiry.Never?;
        }
    }
  }

  /** After any run of operations, each complete or cut short anywhere, acknowledged tokens are still listed. */
  lemma {:induction false} CrashesKeepTheIndex(s: State, steps: seq<(Op, nat)>)
    requires Inv(s)
    ensures Inv(Run(s, steps))
    decreases |steps|
  {
    if steps != [] {
      AttemptKeeps(s, steps[0].0, steps[0].1);
      CrashesKeepTheIndex(Attempt(s, steps[0].0, steps[0].1), steps[1..]);
    }
  }

  /** Exactly the tokens outside the user's index outlive a complete revocation. */
  lemma RevocationReaches(s: Store<Key>, u: string, t: string)
    ensures Refresh(t) in RevokeAll(s, u).data <==> Refresh(t) in s.data && t !in IndexedTokens(s, u)
  {
  }

  /** So whatever crashed before, a later complete revocation kills every acknowledged token of the user. */
  lemma LaterRevocationReachesAll(steps: seq<(Op, nat)>, u: string, t: string)
    requires t in Run(Init(), steps).acknowledged
    ensures var after := RevokeAll(Run(Init(), steps).store, u);
            Refresh(t) in after.data ==> after.data[Refresh(t)].value.Text? && after.data[Refresh(t)].value.text != u
  {
    var s := Run(Init(), steps);
    CrashesKeepTheIndex(Init(), steps);
    RevocationReaches(s.store, u, t);
    assert Listed(s.store, t);
  }

  /** The proviso is needed: a store call that died between its two commands leaves a token revocation cannot see. */
  lemma UnacknowledgedTokenEscapes(t: string, u: string)
    ensures var s := Run(Init(), [(StoreToken(t, u, 7 * DAY), 1), (Revoke(u, []), 2)]);
            Live(s.store, Refresh(t)) && t !in s.acknowledged
  {
    var first: (Op, nat) := (StoreToken(t, u, 7 * DAY), 1);
    var second: (Op, nat) := (Revoke(u, []), 2);
    var s1 := Attempt(Init(), first.0, first.1);
    var c := Set(Refresh(t), Text(u), 7 * DAY);
    assert StoreRefreshCommands(t, u, 7 * DAY)[..1] == [c];
    ExecAllShort(Init().store, c, c);
    assert s1.store == Exec(Init().store, c).0;
    assert Lists([], IndexedTokens(s1.store, u));
    RevokeCommandsRevoke(s1.store, u, []);
    assert [first, second][1..] == [second] && |[second][1..]| == 0;
    assert Run(Init(), [first, second]) == Run(s1, [second]) == Run(Attempt(s1, second.0, second.1), []);
  }
}
