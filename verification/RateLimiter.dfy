/**
 Granularity: handler atomic. The limiter keeps one counter per key and renews its expiry on every request. Its
 meaning is stated on the bare list of request times: the counter is the length of the current run of requests whose
 consecutive gaps are all shorter than the window.
 */
module RateLimiter {
  import opened Common
  import opened Keyspace
  import opened Keys
  import opened Tokens

  class SlidingWindowLimiter {
    const redis: RedisClient

    constructor (redis: RedisClient)
      ensures this.redis == redis
    {
      this.redis := redis;
    }

    /** Fails open: when Redis cannot be reached the request is let through with count 0. */
    method Allow(key: string, ghost k: Key, limit: int, window: Time) returns (ok: bool, count: int, failed: bool)
      requires redis.Valid() && key == Render(k) && (k.IpRate? || k.EmailIpRate?)
      modifies redis
      ensures redis.Valid() && redis.reachable == old(redis.reachable)
      ensures !redis.reachable ==> ok && count == 0 && failed && redis.typed == old(redis.typed)
      ensures redis.reachable ==> (redis.typed, Integer(count)) == HitCounter(old(redis.typed), k, window)
      ensures redis.reachable ==> ok == (count <= limit) && !failed
    {
      var r := redis.Do(Hit(key, window), Hit(k, window));
      if r.None? {
        return true, 0, true;
      }
      count := r.value.n;
      return count <= limit, count, false;
    }

    /** Answers whether the request reaches the handler; a refused one gets 429. Fails open. */
    method PerIP(limit: int, window: Time, path: string, ip: string) returns (served: bool)
      requires redis.Valid()
      modifies redis
      ensures redis.Valid() && redis.reachable == old(redis.reachable)
      ensures !redis.reachable ==> served && redis.typed == old(redis.typed)
      ensures var (after, reply) := HitCounter(old(redis.typed), IpRate(RateTail(path, ip)), window);
              redis.reachable ==> redis.typed == after && served == (reply.Integer? && reply.n <= limit)
    {
      var ok, _, _ := Allow(PREFIX_RATE_IP + path + ":" + ip, IpRate(RateTail(path, ip)), limit, window);
      served := ok;
    }

    /** As PerIP under its own prefix; a refused request is answered 200 without reaching the handler. */
    method PerEmailSilent(limit: int, window: Time, path: string, ip: string) returns (served: bool)
      requires redis.Valid()
      modifies redis
      ensures redis.Valid() && redis.reachable == old(redis.reachable)
      ensures !redis.reachable ==> served && redis.typed == old(redis.typed)
      ensures var (after, reply) := HitCounter(old(redis.typed), EmailIpRate(RateTail(path, ip)), window);
              redis.reachable ==> redis.typed == after && served == (reply.Integer? && reply.n <= limit)
    {
      var ok, _, _ := Allow(PREFIX_RATE_EMAIL_IP + path + ":" + ip, EmailIpRate(RateTail(path, ip)), limit, window);
      served := ok;
    }
  }

  // ----- timed runs on one key

  /** Other is any command of any handler on any other key. */
  datatype Event = Request | Wait(d: Time) | Other(c: Command<Key>)

  function Step(s: Store<Key>, k: Key, window: Time, e: Event): Store<Key> {
    match e
    case Request => HitCounter(s, k, window).0
    case Wait(d) => Advance(s, d)
    case Other(c) => if c.key == k then s else Exec(s, c).0
  }

  function Replay(s: Store<Key>, k: Key, window: Time, es: seq<Event>): Store<Key> {
    if es == [] then s else Step(Replay(s, k, window, es[..|es| - 1]), k, window, es[|es| - 1])
  }

  /** The instants at which the requests on the key were made. */
  function Times(s: Store<Key>, k: Key, window: Time, es: seq<Event>): seq<Time> {
    if es == [] then []
    else
      var before := es[..|es| - 1];
      Times(s, k, window, before)
      + if es[|es| - 1].Request? then [Replay(s, k, window, before).now] else []
  }

  // ----- the meaning of the counter

  function RunLength(ts: seq<Time>, window: Time): nat {
    var n := |ts|;
    if n <= 1 then n
    else if ts[n - 1] - ts[n - 2] < window then 1 + RunLength(ts[..n - 1], window)
    else 1
  }

  /** A whole window passed without a request before this one. */
  predicate Idle(ts: seq<Time>, window: Time, i: nat)
    requires 0 < i < |ts|
  {
    ts[i] - ts[i - 1] >= window
  }

  /** The last n requests follow each other with gaps shorter than the window. */
  predicate IsRun(ts: seq<Time>, window: Time, n: nat) {
    n <= |ts| && forall i :: |ts| - n < i < |ts| ==> !Idle(ts, window, i)
  }

  lemma IdleInPrefix(ts: seq<Time>, window: Time, n: nat)
    requires n <= |ts|
    ensures forall i :: 0 < i < n ==> Idle(ts[..n], window, i) == Idle(ts, window, i)
  {
  }

  lemma {:induction false} RunLengthIsLongest(ts: seq<Time>, window: Time, n: nat)
    ensures IsRun(ts, window, RunLength(ts, window))
    ensures IsRun(ts, window, n) ==> n <= RunLength(ts, window)
  {
    if |ts| > 1 && !Idle(ts, window, |ts| - 1) {
      var init := ts[..|ts| - 1];
      RunLengthIsLongest(init, window, if n == 0 then 0 else n - 1);
      IdleInPrefix(ts, window, |ts| - 1);
    }
  }

  ghost predicate Sorted(ts: seq<Time>) {
    forall i, j :: 0 <= i <= j < |ts| ==> ts[i] <= ts[j]
  }

  /** What the stored counter says about the requests so far. */
  ghost predicate Meaning(s: Store<Key>, k: Key, window: Time, ts: seq<Time>) {
    && Sorted(ts)
    && (ts == [] ==> !Live(s, k))
    && (ts != [] ==>
          && ts[|ts| - 1] <= s.now
          && k in s.data && s.data[k] == Entry(Count(RunLength(ts, window)), At(ts[|ts| - 1] + window)))
  }

  lemma HitMeans(s: Store<Key>, k: Key, window: Time, ts: seq<Time>)
    requires Meaning(s, k, window, ts)
    ensures Meaning(HitCounter(s, k, window).0, k, window, ts + [s.now])
  {
  }

  lemma {:induction false} ReplayMeaning(s: Store<Key>, k: Key, window: Time, es: seq<Event>)
    requires !Live(s, k)
    ensures Meaning(Replay(s, k, window, es), k, window, Times(s, k, window, es))
  {
    if es != [] {
      var before, e := es[..|es| - 1], es[|es| - 1];
      ReplayMeaning(s, k, window, before);
      var mid, ts := Replay(s, k, window, before), Times(s, k, window, before);
      match e
      case Request =>
        HitMeans(mid, k, window, ts);
      case Wait(d) =>
        assert ts + [] == ts;
      case Other(c) =>
        assert ts + [] == ts;
        if c.key != k {
          ExecFrame(mid, c, k);
        }
    }
  }

  /** The count the limiter returns is the length of the longest run of requests ending with this one. */
  lemma CountIsRunLength(s: Store<Key>, k: Key, window: Time, es: seq<Event>)
    requires !Live(s, k)
    ensures var before := Replay(s, k, window, es);
            HitCounter(before, k, window).1 == Integer(RunLength(Times(s, k, window, es) + [before.now], window))
  {
    ReplayMeaning(s, k, window, es);
    var ts := Times(s, k, window, es);
    assert (ts + [Replay(s, k, window, es).now])[..|ts|] == ts;
  }

  // ----- what the limit guarantees

  predicate Admitted(ts: seq<Time>, window: Time, limit: int, i: nat)
    requires i < |ts|
  {
    RunLength(ts[..i + 1], window) <= limit
  }

  /** Exactly the requests with an idle gap of a whole window among their last `limit` gaps are admitted. */
  lemma AdmittedIff(ts: seq<Time>, window: Time, limit: nat, i: nat)
    requires i < |ts|
    ensures Admitted(ts, window, limit, i)
            <==> limit > 0 && (i < limit || exists j :: i - limit < j <= i && Idle(ts, window, j))
  {
    var p := ts[..i + 1];
    RunLengthIsLongest(p, window, limit + 1);
    IdleInPrefix(ts, window, i + 1);
    hide Idle;
    if i >= limit && Admitted(ts, window, limit, i) {
      assert !IsRun(p, window, limit + 1);
      var j :| |p| - (limit + 1) < j < |p| && Idle(p, window, j);
      assert Idle(ts, window, j);
    }
  }

  lemma WindowIsRun(ts: seq<Time>, window: Time, a: Time, i: nat, j: nat)
    requires Sorted(ts) && i <= j < |ts| && a <= ts[i] && ts[j] < a + window
    ensures RunLength(ts[..j + 1], window) >= j - i + 1
  {
    var p := ts[..j + 1];
    RunLengthIsLongest(p, window, j - i + 1);
    forall m | |p| - (j - i + 1) < m < |p| ensures !Idle(p, window, m) {
      assert ts[i] <= ts[m - 1] <= ts[m] <= ts[j];
    }
  }

  function AdmittedIn(ts: seq<Time>, window: Time, limit: int, a: Time): set<nat> {
    set i: nat | i < |ts| && a <= ts[i] < a + window && Admitted(ts, window, limit, i)
  }

  lemma {:induction false} IntervalSize(s: set<nat>, lo: nat, n: nat)
    requires forall i :: i in s ==> lo <= i < lo + n
    ensures |s| <= n
  {
    if n == 0 {
      assert s == {};
    } else {
      IntervalSize(s - {lo + n - 1}, lo, n - 1);
    }
  }

  lemma {:induction false} LeastOf(s: set<nat>) returns (m: nat)
    requires s != {}
    ensures m in s && forall i :: i in s ==> m <= i
    decreases |s|
  {
    var x :| x in s;
    m := x;
    if s != {x} {
      var r := LeastOf(s - {x});
      m := if r < x then r else x;
      assert forall i :: i in s ==> i == x || i in s - {x};
    }
  }

  /** Any half-open window admits at most `limit` requests. */
  lemma WindowBound(ts: seq<Time>, window: Time, limit: nat, a: Time)
    requires Sorted(ts)
    ensures |AdmittedIn(ts, window, limit, a)| <= limit
  {
    var s := AdmittedIn(ts, window, limit, a);
    if s != {} {
      var lo := LeastOf(s);
      forall i | i in s ensures lo <= i < lo + limit {
        WindowIsRun(ts, window, a, lo, i);
      }
      IntervalSize(s, lo, limit);
    }
  }

  /** The same on the machine: whatever else the server does, no window of any run admits more than the limit. */
  lemma LimiterBound(s: Store<Key>, k: Key, window: Time, limit: nat, es: seq<Event>, a: Time)
    requires !Live(s, k)
    ensures |AdmittedIn(Times(s, k, window, es), window, limit, a)| <= limit
  {
    ReplayMeaning(s, k, window, es);
    WindowBound(Times(s, k, window, es), window, limit, a);
  }
}
