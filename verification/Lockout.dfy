/**
 Granularity: handler atomic. What lockout means for one account, as a timed machine of its own: the Redis counter
 with its renewed expiry, and the two row columns that copy it. LockoutOnServer ties it to the whole server.
 */
module Lockout {
  import opened Common
  import opened Keyspace
  import opened Tokens

  datatype Counter = Counter(count: int, expiry: Time)

  datatype Account = Account(now: Time, counter: Option<Counter>, failed: int, lockedUntil: Option<Time>)

  /** Guess is a wrong password, Succeed the right one; both are refused unseen while the account is locked. */
  datatype Event = Guess | Succeed | ResetPassword | Wait(d: Time) | Nothing

  const WINDOW: Time := LOGIN_ATTEMPT_WINDOW

  predicate IsLocked(a: Account) {
    a.lockedUntil.Some? && a.now < a.lockedUntil.value
  }

  /** The value the counter will show after one more failure. */
  function NextCount(a: Account): int {
    if a.counter.Some? && a.now < a.counter.value.expiry then a.counter.value.count + 1 else 1
  }

  function Step(a: Account, e: Event): Account {
    match e
    case Guess =>
      if IsLocked(a) then a
      else
        var n := NextCount(a);
        Account(a.now, Some(Counter(n, a.now + WINDOW)), n,
                if n >= MAX_LOGIN_ATTEMPTS then Some(a.now + LOCKOUT_DURATION) else None)
    case Succeed =>
      if IsLocked(a) then a
      else if a.failed > 0 then Account(a.now, None, 0, None)
      else a.(counter := None)
    case ResetPassword => a.(failed := 0, lockedUntil := None)
    case Wait(d) => a.(now := a.now + d)
    case Nothing => a
  }

  function Run(a: Account, es: seq<Event>): Account
    decreases |es|
  {
    if es == [] then a else Run(Step(a, es[0]), es[1..])
  }

  // ----- coupling of the counter, the failure count and the lock

  function Resets(es: seq<Event>): nat {
    if es == [] then 0 else (if es[0].ResetPassword? then 1 else 0) + Resets(es[1..])
  }

  /**
   With r password resets so far: the live counter never passes 5 + r, and unless it is below that bound the account
   stays locked at least until the counter expires. A lock always comes with a positive failure count.
   */
  predicate Coupled(a: Account, r: nat) {
    && a.failed >= 0 && (a.lockedUntil.Some? ==> a.failed > 0)
    && (a.counter.Some? && a.now < a.counter.value.expiry ==>
          && 1 <= a.counter.value.count <= MAX_LOGIN_ATTEMPTS + r
          && (a.counter.value.count == MAX_LOGIN_ATTEMPTS + r ==>
                a.lockedUntil.Some? && a.lockedUntil.value >= a.counter.value.expiry))
  }

  lemma StepCouples(a: Account, r: nat, e: Event)
    requires Coupled(a, r)
    ensures Coupled(Step(a, e), r + if e.ResetPassword? then 1 else 0)
  {
  }

  lemma {:induction false} CouplingHolds(a: Account, r: nat, es: seq<Event>)
    requires Coupled(a, r)
    ensures Coupled(Run(a, es), r + Resets(es))
    decreases |es|
  {
    if es != [] {
      StepCouples(a, r, es[0]);
      CouplingHolds(Step(a, es[0]), r + if es[0].ResetPassword? then 1 else 0, es[1..]);
    }
  }

  /** After a lock has run out without password resets, the next failure counts as the first. */
  lemma LapsedLockCountsFromOne(a: Account)
    requires Coupled(a, 0) && a.counter.Some? && a.counter.value.count == MAX_LOGIN_ATTEMPTS && !IsLocked(a)
    ensures NextCount(a) == 1
  {
  }

  /** A right password that is looked at clears counter, failure count and lock together. */
  lemma SuccessClearsAll(a: Account, r: nat)
    requires Coupled(a, r) && !IsLocked(a)
    ensures Step(a, Succeed) == Account(a.now, None, 0, None)
  {
  }

  /** The bound needs the number of resets: each reset can let the counter grow by one more. */
  lemma ResetLetsCounterGrow()
    ensures Run(Account(0, None, 0, None), [Guess, Guess, Guess, Guess, Guess, ResetPassword, Guess]).counter
         == Some(Counter(6, WINDOW))
  {
  }

  // ----- how often a password is looked at

  /** The instants at which a password was compared with the stored hash. */
  function Evaluations(a: Account, es: seq<Event>): seq<Time>
    decreases |es|
  {
    if es == [] then []
    else
      (if (es[0].Guess? || es[0].Succeed?) && !IsLocked(a) then [a.now] else [])
      + Evaluations(Step(a, es[0]), es[1..])
  }

  predicate OnlyFailures(es: seq<Event>) {
    forall e :: e in es ==> !e.Succeed? && !e.ResetPassword?
  }

  predicate Sorted(ts: seq<Time>) {
    forall i, j :: 0 <= i <= j < |ts| ==> ts[i] <= ts[j]
  }

  lemma {:induction false} EvaluationsSorted(a: Account, es: seq<Event>)
    ensures Sorted(Evaluations(a, es))
    ensures forall i :: 0 <= i < |Evaluations(a, es)| ==> a.now <= Evaluations(a, es)[i]
    decreases |es|
  {
    if es != [] {
      EvaluationsSorted(Step(a, es[0]), es[1..]);
    }
  }

  /**
   c failures counted so far, the latest at `last`: once five have come within windows of each other the sixth must
   wait out the lock.
   */
  lemma {:induction false} Countdown(a: Account, es: seq<Event>, c: nat, last: Time)
    requires OnlyFailures(es) && 1 <= c <= MAX_LOGIN_ATTEMPTS && last <= a.now
    requires a.counter.Some? && a.counter.value.count >= c && a.counter.value.expiry == last + WINDOW
    requires c == MAX_LOGIN_ATTEMPTS ==> a.lockedUntil.Some? && a.lockedUntil.value >= last + LOCKOUT_DURATION
    ensures var ts := Evaluations(a, es);
            if c == MAX_LOGIN_ATTEMPTS then |ts| > 0 ==> ts[0] >= last + LOCKOUT_DURATION
            else |ts| > 5 - c && ts[4 - c] - last < WINDOW ==> ts[5 - c] >= ts[4 - c] + LOCKOUT_DURATION
    decreases |es|
  {
    if es != [] {
      var next, rest := Step(a, es[0]), es[1..];
      assert OnlyFailures(rest);
      if es[0].Guess? && !IsLocked(a) {
        var ts := Evaluations(a, es);
        assert ts[0] == a.now && ts[1..] == Evaluations(next, rest);
        if c < MAX_LOGIN_ATTEMPTS && a.now < last + WINDOW {
          Countdown(next, rest, c + 1, a.now);
        } else if c < MAX_LOGIN_ATTEMPTS {
          EvaluationsSorted(a, es);
        }
      } else {
        Countdown(next, rest, c, last);
      }
    }
  }

  /** Five evaluations inside one window force the sixth to come a full lock duration after the fifth. */
  predicate Spaced(ts: seq<Time>, i: nat)
    requires i + 5 < |ts|
  {
    ts[i + 4] - ts[i] >= WINDOW || ts[i + 5] - ts[i + 4] >= LOCKOUT_DURATION
  }

  /** Holds from any state at all, so from any moment of any run onwards. */
  lemma {:induction false} EvaluationsSpaced(a: Account, es: seq<Event>, i: nat)
    requires OnlyFailures(es) && i + 5 < |Evaluations(a, es)|
    requires a.counter.Some? ==> a.counter.value.count >= 0
    ensures Spaced(Evaluations(a, es), i)
    decreases |es|
  {
    var next, rest := Step(a, es[0]), es[1..];
    var ts := Evaluations(a, es);
    assert OnlyFailures(rest);
    if es[0].Guess? && !IsLocked(a) {
      assert ts[0] == a.now && ts[1..] == Evaluations(next, rest);
      if i == 0 {
        Countdown(next, rest, 1, a.now);
      } else {
        EvaluationsSpaced(next, rest, i - 1);
      }
    } else {
      EvaluationsSpaced(next, rest, i);
    }
  }

  ghost predicate AllSpaced(ts: seq<Time>) {
    Sorted(ts) && forall i: nat :: i + 5 < |ts| ==> Spaced(ts, i)
  }

  lemma FailuresAllSpaced(a: Account, es: seq<Event>)
    requires OnlyFailures(es) && (a.counter.Some? ==> a.counter.value.count >= 0)
    ensures AllSpaced(Evaluations(a, es))
  {
    EvaluationsSorted(a, es);
    forall i: nat | i + 5 < |Evaluations(a, es)| ensures Spaced(Evaluations(a, es), i) {
      EvaluationsSpaced(a, es, i);
    }
  }

  lemma SixSpanAWindow(ts: seq<Time>, i: nat)
    requires AllSpaced(ts) && i + 5 < |ts|
    ensures ts[i + 5] >= ts[i] + WINDOW
  {
    assert Spaced(ts, i);
    assert ts[i] <= ts[i + 4] <= ts[i + 5];
  }

  /** No half-open window of fifteen minutes sees a sixth evaluation. */
  lemma AtMostFivePerWindow(ts: seq<Time>, i: nat, j: nat, start: Time)
    requires AllSpaced(ts) && i <= j < |ts| && start <= ts[i] && ts[j] < start + WINDOW
    ensures j - i + 1 <= MAX_LOGIN_ATTEMPTS
  {
    if i + 5 < |ts| {
      SixSpanAWindow(ts, i);
    }
  }

  /** Over any span, at most four evaluations per full window it contains, and five more. */
  lemma {:induction false} SpanBound(ts: seq<Time>, span: Time)
    requires AllSpaced(ts) && ts != [] && ts[|ts| - 1] - ts[0] <= span
    ensures |ts| <= 4 * (span / WINDOW) + 5
    decreases |ts|
  {
    if |ts| > 5 {
      assert Spaced(ts, 0);
      if ts[4] - ts[0] >= WINDOW {
        SpaceSuffix(ts, 4);
        SpanBound(ts[4..], span - WINDOW);
      } else {
        SpaceSuffix(ts, 5);
        SpanBound(ts[5..], span - 2 * WINDOW);
      }
    }
  }

  lemma FirstBeforeLast(ts: seq<Time>)
    requires AllSpaced(ts) && ts != []
    ensures ts[0] <= ts[|ts| - 1]
  {
  }

  lemma SpaceSuffix(ts: seq<Time>, n: nat)
    requires AllSpaced(ts) && n <= |ts|
    ensures AllSpaced(ts[n..])
  {
    forall i: nat | i + 5 < |ts[n..]| ensures Spaced(ts[n..], i) {
      assert Spaced(ts, n + i);
    }
  }

  /** Both bounds, with the span measured from the first evaluation to the last. */
  lemma SpacedMeans(ts: seq<Time>)
    requires AllSpaced(ts)
    ensures forall i, j :: 0 <= i && i + 5 <= j < |ts| ==> ts[j] >= ts[i] + WINDOW
    ensures ts != [] ==> |ts| <= 4 * ((ts[|ts| - 1] - ts[0]) / WINDOW) + 5
  {
    forall i, j | 0 <= i && i + 5 <= j < |ts| ensures ts[j] >= ts[i] + WINDOW {
      SixSpanAWindow(ts, i);
    }
    if ts != [] {
      FirstBeforeLast(ts);
      SpanBound(ts, ts[|ts| - 1] - ts[0]);
    }
  }

  // ----- the span bound is the best possible

  /** q rounds of four quick guesses, each round a window after the one before, then five. */
  function PacedGuesses(q: nat): seq<Event> {
    if q == 0 then [Guess, Guess, Guess, Guess, Guess]
    else [Guess, Guess, Guess, Guess, Wait(WINDOW)] + PacedGuesses(q - 1)
  }

  lemma OneGuess(a: Account, rest: seq<Event>)
    requires !IsLocked(a)
    ensures Evaluations(a, [Guess] + rest) == [a.now] + Evaluations(Step(a, Guess), rest)
  {
  }

  lemma FourGuesses(a: Account, rest: seq<Event>)
    requires !IsLocked(a) && NextCount(a) == 1
    ensures var after := Account(a.now, Some(Counter(4, a.now + WINDOW)), 4, None);
            Evaluations(a, [Guess, Guess, Guess, Guess] + rest)
            == [a.now, a.now, a.now, a.now] + Evaluations(after, rest)
  {
    var a1 := Account(a.now, Some(Counter(1, a.now + WINDOW)), 1, None);
    var a2 := Account(a.now, Some(Counter(2, a.now + WINDOW)), 2, None);
    var a3 := Account(a.now, Some(Counter(3, a.now + WINDOW)), 3, None);
    var r1 := [Guess] + rest;
    var r2 := [Guess] + r1;
    var r3 := [Guess] + r2;
    assert [Guess, Guess, Guess, Guess] + rest == [Guess] + r3;
    OneGuess(a, r3);
    OneGuess(a1, r2);
    OneGuess(a2, r1);
    OneGuess(a3, rest);
  }

  /** These guesses make 4q + 5 evaluations in a span of exactly q windows. */
  lemma {:induction false} SpanBoundIsTight(a: Account, q: nat)
    requires !IsLocked(a) && NextCount(a) == 1
    ensures var ts := Evaluations(a, PacedGuesses(q));
            |ts| == 4 * q + 5 && ts[0] == a.now && ts[|ts| - 1] == a.now + q * WINDOW
    decreases q
  {
    var after := Account(a.now, Some(Counter(4, a.now + WINDOW)), 4, None);
    if q == 0 {
      assert PacedGuesses(0) == [Guess, Guess, Guess, Guess] + [Guess];
      FourGuesses(a, [Guess]);
      assert [Guess][1..] == [];
      assert Evaluations(after, [Guess]) == [a.now] + [];
    } else {
      var rest := [Wait(WINDOW)] + PacedGuesses(q - 1);
      assert PacedGuesses(q) == [Guess, Guess, Guess, Guess] + rest;
      FourGuesses(a, rest);
      assert rest[1..] == PacedGuesses(q - 1);
      var later := after.(now := a.now + WINDOW);
      assert Evaluations(after, rest) == [] + Evaluations(later, PacedGuesses(q - 1));
      SpanBoundIsTight(later, q - 1);
      assert a.now + WINDOW + (q - 1) * WINDOW == a.now + q * WINDOW;
    }
  }
}
