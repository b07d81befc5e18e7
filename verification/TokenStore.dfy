/**
 The token store: what each operation does to the keyspace, and the class that does it one Redis command at a time.
 The functions are over structured keys; the class builds the real string keys.
 */
module Tokens {
  import opened Common
  import opened Keyspace
  import opened Keys

  const MAX_LOGIN_ATTEMPTS: nat := 5
  const LOGIN_ATTEMPT_WINDOW: Time := 15 * MINUTE
  const LOCKOUT_DURATION: Time := 30 * MINUTE
  const SESSION_TOKEN_TTL: Time := 7 * DAY
  const STATE_TTL: Time := 10 * MINUTE

  // ----- one-time entries

  function SetText(s: Store<Key>, k: Key, text: string, ttl: Time): Store<Key> {
    Exec(s, Set(k, Text(text), ttl)).0
  }

  function TextReply(r: Reply): Option<string> {
    if r.Bulk? && r.value.Text? then Some(r.value.text) else None
  }

  /** GETDEL: the second reader of a one-time entry finds nothing. */
  function Consume(s: Store<Key>, k: Key): (Store<Key>, Option<string>) {
    var (s1, r) := Exec(s, GetDel(k));
    (s1, TextReply(r))
  }

  // ----- refresh tokens and the per-user index

  function StoreRefreshCommands(token: string, user: string, ttl: Time): seq<Command<Key>> {
    [Set(Refresh(token), Text(user), ttl), SAdd(UserSessions(user), token)]
  }

  function StoreRefresh(s: Store<Key>, token: string, user: string, ttl: Time): Store<Key> {
    ExecAll(s, StoreRefreshCommands(token, user, ttl))
  }

  function ConsumeRefreshCommands(s: Store<Key>, token: string): seq<Command<Key>> {
    match Consume(s, Refresh(token)).1
    case Some(user) => [GetDel(Refresh(token)), SRem(UserSessions(user), token)]
    case None => [GetDel(Refresh(token))]
  }

  function ConsumeRefresh(s: Store<Key>, token: string): (Store<Key>, Option<string>) {
    (ExecAll(s, ConsumeRefreshCommands(s, token)), Consume(s, Refresh(token)).1)
  }

  function IndexedTokens(s: Store<Key>, user: string): set<string> {
    SetOf(Lookup(s, UserSessions(user)))
  }

  function RefreshKeys(tokens: set<string>): set<Key> {
    set t | t in tokens :: Refresh(t)
  }

  /** Everything the index lists for the user disappears, together with the index itself, and nothing else does. */
  function RevokeAll(s: Store<Key>, user: string): Store<Key> {
    s.(data := s.data - (RefreshKeys(IndexedTokens(s, user)) + {UserSessions(user)}))
  }

  function DelCommands(ks: seq<Key>): (cs: seq<Command<Key>>)
    ensures |cs| == |ks| && forall i :: 0 <= i < |ks| ==> cs[i] == Del(ks[i])
  {
    seq(|ks|, i requires 0 <= i < |ks| => Del(ks[i]))
  }

  function RefreshKeySeq(order: seq<string>): (ks: seq<Key>)
    ensures |ks| == |order| && forall i :: 0 <= i < |order| ==> ks[i] == Refresh(order[i])
  {
    seq(|order|, i requires 0 <= i < |order| => Refresh(order[i]))
  }

  /** SMEMBERS, one DEL per member in whatever order they were listed, and the index last. */
  function RevokeCommands(user: string, order: seq<string>): seq<Command<Key>> {
    [SMembers(UserSessions(user))] + DelCommands(RefreshKeySeq(order) + [UserSessions(user)])
  }

  ghost predicate Lists(order: seq<string>, tokens: set<string>) {
    forall t :: t in order <==> t in tokens
  }

  lemma {:induction false} ExecAllDel(s: Store<Key>, ks: seq<Key>)
    ensures ExecAll(s, DelCommands(ks)) == s.(data := s.data - (set k | k in ks))
    decreases |ks|
  {
    if ks == [] {
      assert s.data - (set k | k in ks) == s.data;
    } else {
      assert DelCommands(ks)[1..] == DelCommands(ks[1..]);
      ExecAllDel(Drop(s, ks[0]), ks[1..]);
      assert s.data - {ks[0]} - (set k | k in ks[1..]) == s.data - (set k | k in ks);
    }
  }

  /** The commands of a revocation, run without interruption, amount to RevokeAll. */
  lemma RevokeCommandsRevoke(s: Store<Key>, user: string, order: seq<string>)
    requires WellTyped(s) && Lists(order, IndexedTokens(s, user))
    ensures ExecAll(s, RevokeCommands(user, order)) == RevokeAll(s, user)
  {
    var ks := RefreshKeySeq(order) + [UserSessions(user)];
    var cs := RevokeCommands(user, order);
    assert cs[0] == SMembers(UserSessions(user)) && cs[1..] == DelCommands(ks);
    assert Exec(s, cs[0]).0 == s;
    ExecAllDel(s, ks);
    forall k ensures k in ks <==> k in RefreshKeys(IndexedTokens(s, user)) + {UserSessions(user)} {
      if k in RefreshKeys(IndexedTokens(s, user)) {
        assert k.token in order;
        var i :| 0 <= i < |order| && order[i] == k.token;
        assert ks[i] == k;
      } else if k == UserSessions(user) {
        assert ks[|order|] == k;
      }
    }
    assert (set k | k in ks) == RefreshKeys(IndexedTokens(s, user)) + {UserSessions(user)};
  }

  lemma RevokeFromListing(s: Store<Key>, log: seq<Command<Key>>, user: string, order: seq<string>)
    requires WellTyped(s) && Lists(order, IndexedTokens(s, user))
    ensures ExecAll(s, DelCommands(RefreshKeySeq(order) + [UserSessions(user)])) == RevokeAll(s, user)
    ensures log + [SMembers(UserSessions(user))] + DelCommands(RefreshKeySeq(order) + [UserSessions(user)])
         == log + RevokeCommands(user, order)
  {
    RevokeCommandsRevoke(s, user, order);
    assert RevokeCommands(user, order)[1..] == DelCommands(RefreshKeySeq(order) + [UserSessions(user)]);
    assert Exec(s, RevokeCommands(user, order)[0]).0 == s;
  }

  // ----- counters

  function HitCounter(s: Store<Key>, k: Key, window: Time): (Store<Key>, Reply) {
    Exec(s, Hit(k, window))
  }

  // ----- the Redis connection

  /**
   The connection as the server uses it: strings only. The ghost fields carry the structured view and the history of
   commands; Valid ties them to the real keyspace.
   */
  class RedisClient {
    var now: Time
    var data: map<string, Entry>
    var reachable: bool
    ghost var typed: Store<Key>
    ghost var log: seq<Command<Key>>

    ghost predicate Valid()
      reads this
    {
      Refines(Store(now, data), typed) && WellTyped(typed)
    }

    /** Valid, and store calls succeed. */
    ghost predicate Ready()
      reads this
    {
      Valid() && reachable
    }

    constructor ()
      ensures Ready() && typed == Store(0, map[]) && log == []
    {
      now, data, reachable := 0, map[], true;
      typed, log := Store(0, map[]), [];
    }

    /** Runs one command. An unreachable server changes nothing and answers nothing. */
    method Do(c: Command<string>, ghost tc: Command<Key>) returns (r: Option<Reply>)
      requires Valid() && c == Rename(tc) && CommandFits(tc)
      modifies this
      ensures Valid() && reachable == old(reachable)
      ensures !reachable ==> r == None && typed == old(typed) && log == old(log) && data == old(data)
      ensures reachable ==> r == Some(Exec(old(typed), tc).1) && typed == Exec(old(typed), tc).0
                            && log == old(log) + [tc] && r != Some(WrongType)
    {
      if !reachable {
        return None;
      }
      ExecRefines(Store(now, data), typed, tc);
      FittingCommand(typed, tc);
      hide Refines, WellTyped, CommandFits, Rename;
      var (after, reply) := Exec(Store(now, data), c);
      data := after.data;
      typed, log := Exec(typed, tc).0, log + [tc];
      r := Some(reply);
    }

    /** Sends a pipeline of DELs. The commands are separate: another client may run between any two of them. */
    method ExecPipeline(pipe: seq<string>, ghost ks: seq<Key>)
      requires Ready() && |pipe| == |ks| && forall i :: 0 <= i < |ks| ==> pipe[i] == Render(ks[i])
      modifies this
      ensures Ready() && typed == ExecAll(old(typed), DelCommands(ks)) && log == old(log) + DelCommands(ks)
    {
      hide Refines, WellTyped, Exec;
      ghost var cs := DelCommands(ks);
      for i := 0 to |pipe|
        invariant Ready()
        invariant log == old(log) + cs[..i] && typed == ExecAll(old(typed), cs[..i])
      {
        assert cs[..i + 1] == cs[..i] + [Del(ks[i])];
        ExecAllAppend(old(typed), cs[..i], Del(ks[i]));
        var _ := Do(Del(pipe[i]), Del(ks[i]));
      }
      assert cs[..|pipe|] == cs;
    }
  }

  /** Every method below issues exactly the commands of its function, under the server's own key strings. */
  class TokenStore {
    const redis: RedisClient

    constructor (redis: RedisClient)
      ensures this.redis == redis
    {
      this.redis := redis;
    }

    method SetToken(key: string, ghost k: Key, value: string, ttl: Time)
      requires redis.Ready() && key == Render(k) && ValueFits(k, Text(value))
      modifies redis
      ensures redis.Ready() && redis.typed == SetText(old(redis.typed), k, value, ttl)
      ensures redis.log == old(redis.log) + [Set(k, Text(value), ttl)]
    {
      var _ := redis.Do(Set(key, Text(value), ttl), Set(k, Text(value), ttl));
    }

    method ConsumeToken(key: string, ghost k: Key) returns (value: Option<string>)
      requires redis.Ready() && key == Render(k) && !k.UserSessions?
      modifies redis
      ensures redis.Ready() && (redis.typed, value) == Consume(old(redis.typed), k)
      ensures redis.log == old(redis.log) + [GetDel(k)]
    {
      var r := redis.Do(GetDel(key), GetDel(k));
      value := TextReply(r.value);
    }

    method CreateEmailVerificationToken(token: string, userID: string, ttl: Time)
      requires redis.Ready()
      modifies redis
      ensures redis.Ready() && redis.typed == SetText(old(redis.typed), EmailVerify(token), userID, ttl)
    {
      SetToken(PREFIX_EMAIL_VERIFY + token, EmailVerify(token), userID, ttl);
    }

    method ConsumeEmailVerificationToken(token: string) returns (userID: Option<string>)
      requires redis.Ready()
      modifies redis
      ensures redis.Ready() && (redis.typed, userID) == Consume(old(redis.typed), EmailVerify(token))
    {
      userID := ConsumeToken(PREFIX_EMAIL_VERIFY + token, EmailVerify(token));
    }

    method CreatePasswordResetToken(token: string, userID: string, ttl: Time)
      requires redis.Ready()
      modifies redis
      ensures redis.Ready() && redis.typed == SetText(old(redis.typed), PwdReset(token), userID, ttl)
    {
      SetToken(PREFIX_PASSWORD_RESET + token, PwdReset(token), userID, ttl);
    }

    method ConsumePasswordResetToken(token: string) returns (userID: Option<string>)
      requires redis.Ready()
      modifies redis
      ensures redis.Ready() && (redis.typed, userID) == Consume(old(redis.typed), PwdReset(token))
    {
      userID := ConsumeToken(PREFIX_PASSWORD_RESET + token, PwdReset(token));
    }

    method StoreRefreshToken(token: string, userID: string, ttl: Time)
      requires redis.Ready()
      modifies redis
      ensures redis.Ready() && redis.typed == StoreRefresh(old(redis.typed), token, userID, ttl)
      ensures redis.log == old(redis.log) + StoreRefreshCommands(token, userID, ttl)
    {
      SetToken(PREFIX_REFRESH_TOKEN + token, Refresh(token), userID, ttl);
      ExecAllShort(old(redis.typed), Set(Refresh(token), Text(userID), ttl), SAdd(UserSessions(userID), token));
      var _ := redis.Do(SAdd(PREFIX_USER_SESSIONS + userID, token), SAdd(UserSessions(userID), token));
    }

    method ConsumeRefreshToken(token: string) returns (userID: Option<string>)
      requires redis.Ready()
      modifies redis
      ensures redis.Ready() && (redis.typed, userID) == ConsumeRefresh(old(redis.typed), token)
      ensures redis.log == old(redis.log) + ConsumeRefreshCommands(old(redis.typed), token)
    {
      userID := ConsumeToken(PREFIX_REFRESH_TOKEN + token, Refresh(token));
      ExecAllShort(old(redis.typed), GetDel(Refresh(token)), SRem(UserSessions(userID.GetOr("")), token));
      if userID.Some? {
        var _ := redis.Do(SRem(PREFIX_USER_SESSIONS + userID.value, token), SRem(UserSessions(userID.value), token));
      }
    }

    /** The pipeline is built from the listed members and then sent; the index key goes last. */
    method RevokeAllUserSessions(userID: string) returns (ghost order: seq<string>)
      requires redis.Ready()
      modifies redis
      ensures redis.Ready() && redis.typed == RevokeAll(old(redis.typed), userID)
      ensures Lists(order, IndexedTokens(old(redis.typed), userID))
      ensures redis.log == old(redis.log) + RevokeCommands(userID, order)
    {
      ghost var before, logged := redis.typed, redis.log;
      var setKey := PREFIX_USER_SESSIONS + userID;
      var listed := redis.Do(SMembers(setKey), SMembers(UserSessions(userID)));
      assert redis.typed == before && listed == Some(Listing(IndexedTokens(before, userID)));
      hide *;
      var pipe, listing := DelPipeline(listed.value.members);
      order := listing;
      ghost var ks := RefreshKeySeq(order) + [UserSessions(userID)];
      redis.ExecPipeline(pipe + [setKey], ks);
      RevokeFromListing(before, logged, userID, order);
    }

    /** One DEL key per listed member. */
    method DelPipeline(members: set<string>) returns (pipe: seq<string>, ghost order: seq<string>)
      ensures Lists(order, members) && |pipe| == |order|
      ensures forall i :: 0 <= i < |order| ==> pipe[i] == Render(Refresh(order[i]))
    {
      pipe, order := [], [];
      var tokens := members;
      while tokens != {}
        invariant forall t :: t in order || t in tokens <==> t in members
        invariant |pipe| == |order| && forall i :: 0 <= i < |order| ==> pipe[i] == Render(Refresh(order[i]))
      {
        var t :| t in tokens;
        pipe, order, tokens := pipe + [PREFIX_REFRESH_TOKEN + t], order + [t], tokens - {t};
      }
    }

    method StoreSessionToken(token: string, userID: string)
      requires redis.Ready()
      modifies redis
      ensures redis.Ready() && redis.typed == SetText(old(redis.typed), SsoSession(token), userID, SESSION_TOKEN_TTL)
    {
      SetToken(PREFIX_SESSION_TOKEN + token, SsoSession(token), userID, SESSION_TOKEN_TTL);
    }

    method LookupSessionToken(token: string) returns (userID: Option<string>)
      requires redis.Ready()
      modifies redis
      ensures redis.Ready() && redis.typed == old(redis.typed)
      ensures userID == TextReply(Exec(redis.typed, Get(SsoSession(token))).1)
    {
      var r := redis.Do(Get(PREFIX_SESSION_TOKEN + token), Get(SsoSession(token)));
      userID := TextReply(r.value);
    }

    method RevokeSessionToken(token: string)
      requires redis.Ready()
      modifies redis
      ensures redis.Ready() && redis.typed == Drop(old(redis.typed), SsoSession(token))
    {
      var _ := redis.Do(Del(PREFIX_SESSION_TOKEN + token), Del(SsoSession(token)));
    }

    method StoreMFASession(token: string, userID: string, ttl: Time)
      requires redis.Ready()
      modifies redis
      ensures redis.Ready() && redis.typed == SetText(old(redis.typed), MfaSession(token), userID, ttl)
    {
      SetToken(PREFIX_MFA_SESSION + token, MfaSession(token), userID, ttl);
    }

    method ConsumeMFASession(token: string) returns (userID: Option<string>)
      requires redis.Ready()
      modifies redis
      ensures redis.Ready() && (redis.typed, userID) == Consume(old(redis.typed), MfaSession(token))
    {
      userID := ConsumeToken(PREFIX_MFA_SESSION + token, MfaSession(token));
    }

    method SetState(state: string, returnTo: string)
      requires redis.Ready()
      modifies redis
      ensures redis.Ready() && redis.typed == SetText(old(redis.typed), OAuthState(state), returnTo, STATE_TTL)
    {
      SetToken(PREFIX_OAUTH_STATE + state, OAuthState(state), returnTo, STATE_TTL);
    }

    method ConsumeState(state: string) returns (returnTo: Option<string>)
      requires redis.Ready()
      modifies redis
      ensures redis.Ready() && (redis.typed, returnTo) == Consume(old(redis.typed), OAuthState(state))
    {
      returnTo := ConsumeToken(PREFIX_OAUTH_STATE + state, OAuthState(state));
    }

    method IncrLoginAttempts(userID: string) returns (count: int)
      requires redis.Ready()
      modifies redis
      ensures redis.Ready()
      ensures (redis.typed, Integer(count)) == HitCounter(old(redis.typed), LoginAttempts(userID), LOGIN_ATTEMPT_WINDOW)
    {
      var r := redis.Do(Hit(PREFIX_LOGIN_ATTEMPTS + userID, LOGIN_ATTEMPT_WINDOW),
                        Hit(LoginAttempts(userID), LOGIN_ATTEMPT_WINDOW));
      count := r.value.n;
    }

    method ResetLoginAttempts(userID: string)
      requires redis.Ready()
      modifies redis
      ensures redis.Ready() && redis.typed == Drop(old(redis.typed), LoginAttempts(userID))
    {
      var _ := redis.Do(Del(PREFIX_LOGIN_ATTEMPTS + userID), Del(LoginAttempts(userID)));
    }
  }
}
