/**
 The key names. Every kind of entry lives in the same flat Redis keyspace under its own prefix; the token, user or
 code that follows is caller supplied and unconstrained.
 */
module Keys {
  import opened Common
  import opened Keyspace

  datatype Key =
    | EmailVerify(token: string)
    | PwdReset(token: string)
    | Refresh(token: string)
    | UserSessions(user: string)
    | MfaSession(token: string)
    | OAuthState(state: string)
    | LoginAttempts(user: string)
    | SsoSession(token: string)
    | OAuthCode(code: string)
    | IpRate(tail: string)
    | EmailIpRate(tail: string)

  const PREFIX_EMAIL_VERIFY := "email_verify:"
  const PREFIX_PASSWORD_RESET := "pwd_reset:"
  const PREFIX_REFRESH_TOKEN := "refresh:"
  const PREFIX_USER_SESSIONS := "user_sessions:"
  const PREFIX_MFA_SESSION := "mfa_session:"
  const PREFIX_OAUTH_STATE := "rate:oauth_state:"
  const PREFIX_LOGIN_ATTEMPTS := "login_attempts:"
  const PREFIX_SESSION_TOKEN := "sso_session:"
  const PREFIX_OAUTH_CODE := "oauth_code:"
  const PREFIX_RATE_IP := "rl:ip:"
  const PREFIX_RATE_EMAIL_IP := "rl:email_ip:"

  function Prefix(k: Key): string {
    match k
    case EmailVerify(_) => PREFIX_EMAIL_VERIFY
    case PwdReset(_) => PREFIX_PASSWORD_RESET
    case Refresh(_) => PREFIX_REFRESH_TOKEN
    case UserSessions(_) => PREFIX_USER_SESSIONS
    case MfaSession(_) => PREFIX_MFA_SESSION
    case OAuthState(_) => PREFIX_OAUTH_STATE
    case LoginAttempts(_) => PREFIX_LOGIN_ATTEMPTS
    case SsoSession(_) => PREFIX_SESSION_TOKEN
    case OAuthCode(_) => PREFIX_OAUTH_CODE
    case IpRate(_) => PREFIX_RATE_IP
    case EmailIpRate(_) => PREFIX_RATE_EMAIL_IP
  }

  function Suffix(k: Key): string {
    match k
    case EmailVerify(t) => t
    case PwdReset(t) => t
    case Refresh(t) => t
    case UserSessions(u) => u
    case MfaSession(t) => t
    case OAuthState(t) => t
    case LoginAttempts(u) => u
    case SsoSession(t) => t
    case OAuthCode(c) => c
    case IpRate(t) => t
    case EmailIpRate(t) => t
  }

  function Render(k: Key): string {
    Prefix(k) + Suffix(k)
  }

  /** The first four characters already tell the kinds apart. */
  lemma PrefixesDiffer(a: Key, b: Key)
    requires Prefix(a)[..4] == Prefix(b)[..4]
    ensures Prefix(a) == Prefix(b)
  {
    var p := [PREFIX_EMAIL_VERIFY, PREFIX_PASSWORD_RESET, PREFIX_REFRESH_TOKEN, PREFIX_USER_SESSIONS,
              PREFIX_MFA_SESSION, PREFIX_OAUTH_STATE, PREFIX_LOGIN_ATTEMPTS, PREFIX_SESSION_TOKEN,
              PREFIX_OAUTH_CODE, PREFIX_RATE_IP, PREFIX_RATE_EMAIL_IP];
    assert Prefix(a)[0] == Prefix(b)[0] && Prefix(a)[1] == Prefix(b)[1] && Prefix(a)[3] == Prefix(b)[3] by {
      assert Prefix(a)[0] == Prefix(a)[..4][0] && Prefix(a)[1] == Prefix(a)[..4][1];
      assert Prefix(a)[3] == Prefix(a)[..4][3];
    }
  }

  /** No two entries of any kinds share a Redis key, whatever strings the caller supplies. */
  lemma RenderInjective(a: Key, b: Key)
    requires Render(a) == Render(b)
    ensures a == b
  {
    assert Render(a)[..4] == Prefix(a)[..4] && Render(b)[..4] == Prefix(b)[..4];
    PrefixesDiffer(a, b);
    assert Suffix(a) == Render(a)[|Prefix(a)|..] == Render(b)[|Prefix(b)|..] == Suffix(b);
  }

  /** The limiter builds its key from a path and an address with a colon between them. */
  function RateTail(path: string, ip: string): string {
    path + ":" + ip
  }

  /** Two (path, address) pairs share a counter exactly when one path extends the other by the colon and more. */
  lemma RateTailCollision(path1: string, ip1: string, path2: string, ip2: string)
    requires |path1| <= |path2|
    ensures RateTail(path1, ip1) == RateTail(path2, ip2)
            <==> (path1 == path2 && ip1 == ip2)
                 || (path1 + ":" <= path2 && ip1 == path2[|path1| + 1..] + ":" + ip2)
  {
    var s1, s2 := RateTail(path1, ip1), RateTail(path2, ip2);
    assert s1[..|path1|] == path1 && s2[..|path2|] == path2;
    assert s1[|path1|] == ':' && s1[|path1| + 1..] == ip1;
    assert s2[|path2|] == ':' && s2[|path2| + 1..] == ip2;
    if s1 == s2 {
      assert path1 == path2[..|path1|];
      if |path1| < |path2| {
        assert path2[|path1|] == s2[|path1|] == ':';
        assert path2 == path1 + ":" + path2[|path1| + 1..];
        assert s2[|path1| + 1..] == path2[|path1| + 1..] + ":" + ip2;
      } else {
        assert path1 == path2;
      }
    }
  }

  // ----- the flat keyspace refines the structured one

  ghost predicate Refines(flat: Store<string>, typed: Store<Key>) {
    && flat.now == typed.now
    && forall k: Key :: (Render(k) in flat.data <==> k in typed.data)
                        && (k in typed.data ==> flat.data[Render(k)] == typed.data[k])
  }

  function Rename(c: Command<Key>): (r: Command<string>)
    ensures r.key == Render(c.key)
  {
    match c
    case Get(k) => Get(Render(k))
    case Set(k, v, ttl) => Set(Render(k), v, ttl)
    case GetDel(k) => GetDel(Render(k))
    case Del(k) => Del(Render(k))
    case Hit(k, w) => Hit(Render(k), w)
    case SAdd(k, m) => SAdd(Render(k), m)
    case SRem(k, m) => SRem(Render(k), m)
    case SMembers(k) => SMembers(Render(k))
  }

  /**
   One command on the flat string keyspace has the same reply and the same effect as on the structured keyspace.
   Since a structured command touches one key of one kind only, no token string can reach another kind's entry.
   */
  lemma ExecRefines(flat: Store<string>, typed: Store<Key>, c: Command<Key>)
    requires Refines(flat, typed)
    ensures Exec(flat, Rename(c)).1 == Exec(typed, c).1
    ensures Refines(Exec(flat, Rename(c)).0, Exec(typed, c).0)
  {
    assert Live(flat, Render(c.key)) == Live(typed, c.key);
    var f, t := Exec(flat, Rename(c)).0, Exec(typed, c).0;
    forall k: Key
      ensures (Render(k) in f.data <==> k in t.data) && (k in t.data ==> f.data[Render(k)] == t.data[k])
    {
      if k != c.key {
        if Render(k) == Render(c.key) {
          RenderInjective(k, c.key);
        }
        ExecFrame(typed, c, k);
        ExecFrame(flat, Rename(c), Render(k));
      }
    }
  }

  datatype Event = Tick(d: Time) | Issue(c: Command<Key>)

  function RunTyped(s: Store<Key>, es: seq<Event>): (Store<Key>, seq<Reply>)
    decreases |es|
  {
    if es == [] then (s, [])
    else
      var (s1, r) := if es[0].Tick? then (Advance(s, es[0].d), Done) else Exec(s, es[0].c);
      var (s2, rs) := RunTyped(s1, es[1..]);
      (s2, [r] + rs)
  }

  function RunFlat(s: Store<string>, es: seq<Event>): (Store<string>, seq<Reply>)
    decreases |es|
  {
    if es == [] then (s, [])
    else
      var (s1, r) := if es[0].Tick? then (Advance(s, es[0].d), Done) else Exec(s, Rename(es[0].c));
      var (s2, rs) := RunFlat(s1, es[1..]);
      (s2, [r] + rs)
  }

  /** Over any run, the server cannot tell the shared string keyspace from separate maps, one per kind of entry. */
  lemma {:induction false} FlatRunsLikeTyped(flat: Store<string>, typed: Store<Key>, es: seq<Event>)
    requires Refines(flat, typed)
    ensures RunFlat(flat, es).1 == RunTyped(typed, es).1
    ensures Refines(RunFlat(flat, es).0, RunTyped(typed, es).0)
    decreases |es|
  {
    if es != [] {
      if es[0].Tick? {
        FlatRunsLikeTyped(Advance(flat, es[0].d), Advance(typed, es[0].d), es[1..]);
      } else {
        ExecRefines(flat, typed, es[0].c);
        FlatRunsLikeTyped(Exec(flat, Rename(es[0].c)).0, Exec(typed, es[0].c).0, es[1..]);
      }
    }
  }

  // ----- each kind keeps its own type of value

  predicate ValueFits(k: Key, v: Value) {
    match k
    case UserSessions(_) => v.Members?
    case LoginAttempts(_) => v.Count?
    case IpRate(_) => v.Count?
    case EmailIpRate(_) => v.Count?
    case OAuthCode(_) => v.Code?
    case _ => v.Text?
  }

  /** The commands the server sends to a key of each kind. */
  predicate CommandFits(c: Command<Key>) {
    match c
    case Set(k, v, _) => ValueFits(k, v) && !v.Members? && !v.Count?
    case Hit(k, _) => k.LoginAttempts? || k.IpRate? || k.EmailIpRate?
    case SAdd(k, _) => k.UserSessions?
    case SRem(k, _) => k.UserSessions?
    case SMembers(k) => k.UserSessions?
    case Get(k) => k.SsoSession?
    case GetDel(k) => !k.UserSessions?
    case Del(_) => true
  }

  predicate WellTyped(s: Store<Key>) {
    forall k :: k in s.data ==>
      ValueFits(k, s.data[k].value) && (s.data[k].expiry.Never? <==> k.UserSessions?)
  }

  /** Nothing is ever mistyped: no command meets an entry of the wrong type, and only index sets live without a TTL. */
  lemma FittingCommand(s: Store<Key>, c: Command<Key>)
    requires WellTyped(s) && CommandFits(c)
    ensures WellTyped(Exec(s, c).0) && Exec(s, c).1 != WrongType
  {
  }

  lemma {:induction false} NeverMistyped(s: Store<Key>, es: seq<Event>)
    requires WellTyped(s) && forall i :: 0 <= i < |es| && es[i].Issue? ==> CommandFits(es[i].c)
    ensures WellTyped(RunTyped(s, es).0) && WrongType !in RunTyped(s, es).1
    decreases |es|
  {
    if es != [] {
      var s1 := if es[0].Tick? then Advance(s, es[0].d) else Exec(s, es[0].c).0;
      assert WellTyped(s1);
      NeverMistyped(s1, es[1..]);
    }
  }
}
