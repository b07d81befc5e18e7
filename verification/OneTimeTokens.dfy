/**
 Granularity: interleaved. Email verification tokens, password reset tokens and OAuth states: each is stored once, for
 a time that depends on its kind, and read by GETDEL. Any number of requests issue and present them at once.
 */
module OneTimeTokens {
  import opened Common
  import opened Keyspace
  import opened Keys
  import opened Tokens
  import opened Worlds

  datatype Issuance = Issuance(text: string, at: Time)

  datatype Use = Use(request: nat, at: Time)

  /** answers: what a request was told its token stands for. */
  datatype State =
    State(store: Store<Key>, started: set<nat>, issued: map<Key, Issuance>, used: map<Key, Use>,
          answers: map<nat, (Key, string)>)

  datatype Action =
    | Tick(d: Time)
    | Foreign(c: Command<Key>)
    | IssueToken(k: Key, text: string)
    | Present(pid: nat, k: Key)

  predicate OneTime(k: Key) {
    k.EmailVerify? || k.PwdReset? || k.OAuthState?
  }

  function Ttl(k: Key): Time {
    if k.EmailVerify? then EMAIL_VERIFY_TTL else if k.PwdReset? then PASSWORD_RESET_TTL else STATE_TTL
  }

  function Init(): State {
    State(Store(0, map[]), {}, map[], map[], map[])
  }

  /** SET under a token that was never drawn before. */
  function IssueStep(s: State, k: Key, text: string): State {
    if !OneTime(k) || k in s.issued then s
    else s.(store := SetText(s.store, k, text, Ttl(k)), issued := s.issued[k := Issuance(text, s.store.now)])
  }

  /** GETDEL of whatever token the caller supplies. */
  function PresentStep(s: State, pid: nat, k: Key): State {
    if !OneTime(k) || pid in s.started then s
    else
      var (after, text) := Consume(s.store, k);
      var s1 := s.(store := after, started := s.started + {pid});
      match text
      case None => s1
      case Some(t) => s1.(used := s.used[k := Use(pid, s.store.now)], answers := s.answers[pid := (k, t)])
  }

  function Next(s: State, a: Action): State {
    match a
    case Tick(d) => s.(store := Advance(s.store, d))
    case Foreign(c) => if OneTime(c.key) then s else s.(store := Exec(s.store, c).0)
    case IssueToken(k, text) => IssueStep(s, k, text)
    case Present(pid, k) => PresentStep(s, pid, k)
  }

  function Run(s: State, actions: seq<Action>): State
    decreases |actions|
  {
    if actions == [] then s else Run(Next(s, actions[0]), actions[1..])
  }

  /** A token waits in Redis exactly as issued, from its issue to its use or its expiry. */
  ghost predicate WaitingOk(s: State) {
    && (forall k: Key :: OneTime(k) && k in s.store.data ==>
          && k in s.issued && k !in s.used
          && s.store.data[k] == Entry(Text(s.issued[k].text), At(s.issued[k].at + Ttl(k))))
    && (forall k :: k in s.issued && k !in s.used && s.store.now < s.issued[k].at + Ttl(k) ==> k in s.store.data)
    && (forall k :: k in s.issued ==> OneTime(k) && s.issued[k].at <= s.store.now)
  }

  ghost predicate UsesOk(s: State) {
    && (forall k :: k in s.used ==> k in s.issued && s.issued[k].at <= s.used[k].at < s.issued[k].at + Ttl(k))
    && (forall p :: p in s.answers ==>
          && p in s.started && s.answers[p].0 in s.used && s.used[s.answers[p].0].request == p
          && s.answers[p].0 in s.issued && s.issued[s.answers[p].0].text == s.answers[p].1)
  }

  ghost predicate Inv(s: State) {
    WaitingOk(s) && UsesOk(s)
  }

  /** What was issued and used stays on record. */
  ghost predicate Kept(s: State, s2: State) {
    && (forall k :: k in s.issued ==> k in s2.issued && s2.issued[k] == s.issued[k])
    && (forall k :: k in s.used ==> k in s2.used && s2.used[k] == s.used[k])
  }

  lemma ForeignOk(s: State, c: Command<Key>)
    requires Inv(s) && !OneTime(c.key)
    ensures Inv(s.(store := Exec(s.store, c).0))
  {
    var store := Exec(s.store, c).0;
    forall k: Key | OneTime(k) ensures (k in store.data <==> k in s.store.data)
                                       && (k in s.store.data ==> store.data[k] == s.store.data[k]) {
      ExecFrame(s.store, c, k);
    }
    assert store.now == s.store.now;
    hide Exec;
  }

  /** A token is found exactly when it was issued, has not been used and has not expired. */
  lemma TokenFound(s: State, k: Key)
    requires WaitingOk(s) && OneTime(k)
    ensures var (after, text) := Consume(s.store, k);
            && after == Drop(s.store, k)
            && text == if k in s.issued && k !in s.used && s.store.now < s.issued[k].at + Ttl(k)
                       then Some(s.issued[k].text) else None
  {
    if k !in s.store.data {
      assert Drop(s.store, k) == s.store;
    }
  }

  function Missed(s: State, pid: nat, k: Key): State {
    s.(store := Drop(s.store, k), started := s.started + {pid})
  }

  function Used(s: State, pid: nat, k: Key, text: string): State {
    Missed(s, pid, k).(used := s.used[k := Use(pid, s.store.now)], answers := s.answers[pid := (k, text)])
  }

  lemma MissedOk(s: State, pid: nat, k: Key)
    requires Inv(s) && (k in s.issued && k !in s.used ==> s.issued[k].at + Ttl(k) <= s.store.now)
    ensures Inv(Missed(s, pid, k)) && Kept(s, Missed(s, pid, k))
  {
    assert WaitingOk(Missed(s, pid, k));
    hide WaitingOk, Ttl;
  }

  lemma UsedWaiting(s: State, pid: nat, k: Key, text: string)
    requires WaitingOk(s) && k in s.issued && k !in s.used
    ensures WaitingOk(Used(s, pid, k, text)) && Kept(s, Used(s, pid, k, text))
  {
  }

  lemma UsedUses(s: State, pid: nat, k: Key)
    requires UsesOk(s) && pid !in s.started && k in s.issued && k !in s.used
    requires s.issued[k].at <= s.store.now < s.issued[k].at + Ttl(k)
    ensures UsesOk(Used(s, pid, k, s.issued[k].text))
  {
    hide Ttl;
  }

  lemma PresentOk(s: State, pid: nat, k: Key)
    requires Inv(s)
    ensures Inv(PresentStep(s, pid, k)) && Kept(s, PresentStep(s, pid, k))
  {
    if OneTime(k) && pid !in s.started {
      TokenFound(s, k);
      if Consume(s.store, k).1.Some? {
        assert s.issued[k].at <= s.store.now;
        hide Consume, WaitingOk, UsesOk, Kept, Ttl, OneTime;
        UsedWaiting(s, pid, k, s.issued[k].text);
        UsedUses(s, pid, k);
        assert PresentStep(s, pid, k) == Used(s, pid, k, s.issued[k].text);
      } else {
        hide Consume, Inv, Kept, Ttl, OneTime;
        MissedOk(s, pid, k);
        assert PresentStep(s, pid, k) == Missed(s, pid, k);
      }
    }
    hide WaitingOk, UsesOk, PresentStep;
  }

  lemma IssueOk(s: State, k: Key, text: string)
    requires Inv(s)
    ensures Inv(IssueStep(s, k, text)) && Kept(s, IssueStep(s, k, text))
  {
    assert s.used.Keys <= s.issued.Keys;
    hide WaitingOk, UsesOk;
    IssueWaiting(s, k, text);
    IssueUses(s, k, text);
  }

  lemma IssueWaiting(s: State, k: Key, text: string)
    requires WaitingOk(s) && s.used.Keys <= s.issued.Keys
    ensures WaitingOk(IssueStep(s, k, text))
  {
    hide Ttl;
  }

  lemma IssueUses(s: State, k: Key, text: string)
    requires UsesOk(s)
    ensures UsesOk(IssueStep(s, k, text))
  {
    hide Ttl, SetText, OneTime;
  }

  lemma TickOk(s: State, d: Time)
    requires Inv(s)
    ensures Inv(s.(store := Advance(s.store, d)))
  {
    hide Ttl, OneTime;
  }

  lemma NextOk(s: State, a: Action)
    requires Inv(s)
    ensures Inv(Next(s, a)) && Kept(s, Next(s, a))
  {
    hide PresentStep, IssueStep, Inv, OneTime, Exec;
    match a
    case Tick(d) => TickOk(s, d);
    case Foreign(c) => if !OneTime(c.key) { ForeignOk(s, c); }
    case IssueToken(k, text) => IssueOk(s, k, text);
    case Present(pid, k) => PresentOk(s, pid, k);
  }

  lemma {:induction false} RunOk(s: State, actions: seq<Action>)
    requires Inv(s)
    ensures Inv(Run(s, actions)) && Kept(s, Run(s, actions))
    decreases |actions|
  {
    hide Inv, Next;
    if actions != [] {
      NextOk(s, actions[0]);
      RunOk(Next(s, actions[0]), actions[1..]);
    }
  }

  ghost predicate Reachable(s: State) {
    exists actions :: s == Run(Init(), actions)
  }

  lemma ReachableInv(s: State)
    requires Reachable(s)
    ensures Inv(s)
  {
    hide Run;
    var actions :| s == Run(Init(), actions);
    RunOk(Init(), actions);
  }

  /** Whoever is told what a token stands for is told what it was issued for, in time, and is the only one. */
  lemma AnswersAreUnique(s: State, p: nat, q: nat)
    requires Reachable(s) && p in s.answers && q in s.answers && s.answers[p].0 == s.answers[q].0
    ensures p == q
    ensures var (k, text) := s.answers[p];
            && k in s.issued && k in s.used && text == s.issued[k].text
            && s.issued[k].at <= s.used[k].at < s.issued[k].at + Ttl(k)
  {
    hide Reachable;
    ReachableInv(s);
  }

  /** A request is answered exactly when its token was issued, is unused and has not expired. */
  lemma AnsweredIff(s: State, pid: nat, k: Key)
    requires Reachable(s) && OneTime(k) && pid !in s.started
    ensures pid in PresentStep(s, pid, k).answers
            <==> k in s.issued && k !in s.used && s.store.now < s.issued[k].at + Ttl(k)
  {
    hide Reachable;
    ReachableInv(s);
    TokenFound(s, k);
    hide Consume;
  }

  /** Once used, a token is out of the store for good, whoever presents it and whatever else runs. */
  lemma UsedForGood(s: State, k: Key, actions: seq<Action>, pid: nat)
    requires Reachable(s) && k in s.used && pid !in Run(s, actions).started
    ensures var s2 := Run(s, actions);
            k !in s2.store.data && k in s2.used && s2.used[k] == s.used[k] && pid !in PresentStep(s2, pid, k).answers
  {
    hide Reachable, Run;
    ReachableInv(s);
    RunOk(s, actions);
    var s2 := Run(s, actions);
    TokenFound(s2, k);
    hide Consume;
  }
}
