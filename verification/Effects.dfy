/** What an operation did to the keyspace, said entry by entry and without the commands that did it. */
module Effects {
  import opened Common
  import opened Uuids
  import opened Keyspace
  import opened Keys
  import opened Tokens
  import opened Worlds
  import opened Server
  import L = Login

  predicate SameAt(before: Store<Key>, after: Store<Key>, k: Key) {
    (k in after.data <==> k in before.data) && (k in before.data ==> after.data[k] == before.data[k])
  }

  /** The clock stands, and nothing changed outside these keys. */
  ghost predicate OnlyKeys(before: Store<Key>, after: Store<Key>, keys: set<Key>) {
    after.now == before.now && forall k :: k !in keys ==> SameAt(before, after, k)
  }

  /** The entry was stored just now, for so long. */
  predicate Holds(s: Store<Key>, k: Key, v: Value, ttl: Time) {
    k in s.data && s.data[k] == Entry(v, At(s.now + ttl))
  }

  /** A live entry that stands for this user. */
  predicate StandsFor(s: Store<Key>, k: Key, id: Uuid) {
    Live(s, k) && s.data[k].value == Text(ToString(id))
  }

  /** A new refresh token for the user: stored for seven days, and listed in the user's index. */
  ghost predicate NewRefreshToken(before: Store<Key>, after: Store<Key>, token: string, u: string, spent: set<string>) {
    && Holds(after, Refresh(token), Text(u), 7 * DAY)
    && IndexedTokens(after, u) == IndexedTokens(before, u) - spent + {token}
  }

  /** A new pair: besides the refresh token, a session stored for seven days. */
  ghost predicate NewPair(before: Store<Key>, after: Store<Key>, d: Draw, u: string, spent: set<string>) {
    NewRefreshToken(before, after, d.token, u, spent) && Holds(after, SsoSession(d.session), Text(u), 7 * DAY)
  }

  lemma OnlyKeysAdd(a: Store<Key>, b: Store<Key>, c: Store<Key>, ks1: set<Key>, ks2: set<Key>)
    requires OnlyKeys(a, b, ks1) && OnlyKeys(b, c, ks2)
    ensures OnlyKeys(a, c, ks1 + ks2)
  {
    forall k | k !in ks1 + ks2 ensures SameAt(a, c, k) {
      assert SameAt(a, b, k) && SameAt(b, c, k);
    }
  }

  lemma OnlyKeysMore(a: Store<Key>, b: Store<Key>, ks: set<Key>, more: set<Key>)
    requires OnlyKeys(a, b, ks) && ks <= more
    ensures OnlyKeys(a, b, more)
  {
  }

  lemma SameIndex(a: Store<Key>, b: Store<Key>, u: string)
    requires a.now == b.now && SameAt(a, b, UserSessions(u))
    ensures IndexedTokens(b, u) == IndexedTokens(a, u)
  {
  }

  lemma CommandTouches(s: Store<Key>, c: Command<Key>)
    ensures OnlyKeys(s, Exec(s, c).0, {c.key})
  {
    forall k | k !in {c.key} ensures SameAt(s, Exec(s, c).0, k) {
      ExecFrame(s, c, k);
    }
    hide SameAt;
  }

  lemma SetTextStores(s: Store<Key>, k: Key, text: string, ttl: Time)
    ensures Holds(SetText(s, k, text, ttl), k, Text(text), ttl) && OnlyKeys(s, SetText(s, k, text, ttl), {k})
  {
    CommandTouches(s, Set(k, Text(text), ttl));
    hide OnlyKeys;
  }

  lemma DropRemoves(s: Store<Key>, k: Key)
    ensures k !in Drop(s, k).data && OnlyKeys(s, Drop(s, k), {k})
  {
  }

  /** A one-time entry is read if it is live, and is gone either way. */
  lemma ConsumeTakes(s: Store<Key>, k: Key)
    requires WellTyped(s) && ValueFits(k, Text(""))
    ensures var (s2, text) := Consume(s, k);
            && text == (if Live(s, k) then Some(s.data[k].value.text) else None)
            && k !in s2.data && OnlyKeys(s, s2, {k}) && WellTyped(s2)
  {
    CommandTouches(s, GetDel(k));
    FittingCommand(s, GetDel(k));
    hide OnlyKeys;
  }

  lemma StoreRefreshStores(s: Store<Key>, token: string, u: string)
    requires WellTyped(s)
    ensures var s2 := StoreRefresh(s, token, u, REFRESH_TOKEN_TTL);
            && NewRefreshToken(s, s2, token, u, {})
            && OnlyKeys(s, s2, {Refresh(token), UserSessions(u)})
  {
    StoreRefreshShape(s, token, u, REFRESH_TOKEN_TTL);
    hide StoreRefresh, WellTyped;
    assert IndexedTokens(s, u) - {} == IndexedTokens(s, u);
  }

  lemma IssuePairStores(w: World, id: Uuid, d: Draw)
    requires WellTyped(w.redis)
    ensures var w2, u := L.IssueTokenPair(w, id, d), ToString(id);
            && w2.db == w.db && NewPair(w.redis, w2.redis, d, u, {})
            && OnlyKeys(w.redis, w2.redis, {Refresh(d.token), UserSessions(u), SsoSession(d.session)})
  {
    var u := ToString(id);
    var stored := StoreRefresh(w.redis, d.token, u, REFRESH_TOKEN_TTL);
    StoreRefreshStores(w.redis, d.token, u);
    SetTextStores(stored, SsoSession(d.session), u, SESSION_TOKEN_TTL);
    hide ToString, StoreRefresh, SetText, WellTyped, Holds, IndexedTokens;
    var after := L.IssueTokenPair(w, id, d).redis;
    OnlyKeysAdd(w.redis, stored, after, {Refresh(d.token), UserSessions(u)}, {SsoSession(d.session)});
    SameIndex(stored, after, u);
    assert SameAt(stored, after, Refresh(d.token));
    assert {Refresh(d.token), UserSessions(u)} + {SsoSession(d.session)}
        == {Refresh(d.token), UserSessions(u), SsoSession(d.session)};
    HoldsStays(stored, after, Refresh(d.token), Text(u), 7 * DAY);
    hide OnlyKeys;
  }

  lemma HoldsStays(a: Store<Key>, b: Store<Key>, k: Key, v: Value, ttl: Time)
    requires Holds(a, k, v, ttl) && SameAt(a, b, k) && a.now == b.now
    ensures Holds(b, k, v, ttl)
  {
  }

  /** Consuming a refresh token: a live one also leaves its owner's index. */
  lemma ConsumeRefreshTakes(s: Store<Key>, token: string)
    requires WellTyped(s)
    ensures var (s2, user) := ConsumeRefresh(s, token);
            && user == (if Live(s, Refresh(token)) then Some(s.data[Refresh(token)].value.text) else None)
            && Refresh(token) !in s2.data && WellTyped(s2)
            && (user.None? ==> OnlyKeys(s, s2, {Refresh(token)}))
            && (user.Some? ==> OnlyKeys(s, s2, {Refresh(token), UserSessions(user.value)})
                               && IndexedTokens(s2, user.value) == IndexedTokens(s, user.value) - {token})
  {
    ConsumeRefreshShape(s, token);
    hide ConsumeRefresh, WellTyped, IndexedTokens;
  }
}
