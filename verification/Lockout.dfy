/** The bound the login counter puts on password guessing, over whole runs. Requests for one
    address are taken one at a time; addresses are compared after `strip` and `lower`. */
module Lockout {
  import opened Prelude
  import opened AuthModel

  // Fifteen minutes, in microseconds.
  const WINDOW := 900000000

  /** One counter lifetime: one to ten failures, all before its expiry. */
  predicate LifetimeFits(w: seq<int>, now: int) {
    && 1 <= |w| <= MAX_LOGIN_ATTEMPTS
    && forall i :: 0 <= i < |w| ==> w[0] <= w[i] < w[0] + WINDOW && w[i] <= now
  }

  /** Counter lifetimes start at least a window apart. */
  ghost predicate Spaced(ws: seq<seq<int>>) {
    && (forall i :: 0 <= i < |ws| ==> |ws[i]| >= 1)
    && (forall i, j :: 0 <= i < j < |ws| ==> ws[j][0] >= ws[i][0] + WINDOW)
  }

  ghost predicate LifetimesFit(ws: seq<seq<int>>, now: int) {
    (forall i :: 0 <= i < |ws| ==> LifetimeFits(ws[i], now)) && Spaced(ws)
  }

  /** The stored counter is the last lifetime. */
  predicate CounterFits(attempts: Option<Attempts>, ws: seq<seq<int>>) {
    match attempts
    case None => ws == []
    case Some(a) =>
      ws != [] && |ws[|ws| - 1]| >= 1
      && a.count == |ws[|ws| - 1]| && a.expires == ws[|ws| - 1][0] + WINDOW
  }

  function CounterOf(s: State, key: string): Option<Attempts> {
    if key in s.attempts then Some(s.attempts[key]) else None
  }

  ghost predicate KeyFits(s: State, key: string) {
    LifetimesFit(FailuresOf(s, key), s.now) && CounterFits(CounterOf(s, key), FailuresOf(s, key))
  }

  ghost predicate Counted(s: State) {
    forall key :: KeyFits(s, key)
  }

  // ---- Steps ----

  lemma AppendFailure(ws: seq<seq<int>>, now: int)
    requires LifetimesFit(ws, now) && ws != []
    requires |ws[|ws| - 1]| < MAX_LOGIN_ATTEMPTS && now < ws[|ws| - 1][0] + WINDOW
    ensures LifetimesFit(ws[..|ws| - 1] + [ws[|ws| - 1] + [now]], now)
  {
    var last := ws[|ws| - 1];
    var ws' := ws[..|ws| - 1] + [last + [now]];
    assert LifetimeFits(last, now);
    forall i | 0 <= i < |ws'| ensures LifetimeFits(ws'[i], now) && ws'[i][0] == ws[i][0] {
      assert LifetimeFits(ws[i], now);
    }
  }

  lemma NewLifetime(ws: seq<seq<int>>, now: int)
    requires LifetimesFit(ws, now)
    requires ws != [] ==> now >= ws[|ws| - 1][0] + WINDOW
    ensures LifetimesFit(ws + [[now]], now)
  {
    var ws' := ws + [[now]];
    forall i, j | 0 <= i < j < |ws'| ensures ws'[j][0] >= ws'[i][0] + WINDOW {
      if j == |ws| && i < |ws| - 1 {
        assert ws[|ws| - 1][0] >= ws[i][0] + WINDOW;
      }
    }
  }

  lemma FailureKeepsKey(s: State, key: string)
    requires KeyFits(s, key) && GetAttempts(s, key) < MAX_LOGIN_ATTEMPTS
    ensures KeyFits(RecordFailure(s, key), key)
  {
    var past := FailuresOf(s, key);
    if CounterAlive(s, key) {
      AppendFailure(past, s.now);
    } else {
      NewLifetime(past, s.now);
    }
  }

  lemma FailureKeepsCounted(s: State, key: string)
    requires Counted(s) && GetAttempts(s, key) < MAX_LOGIN_ATTEMPTS
    ensures Counted(RecordFailure(s, key))
  {
    var s' := RecordFailure(s, key);
    assert KeyFits(s, key);
    FailureKeepsKey(s, key);
    forall k ensures KeyFits(s', k) {
      assert KeyFits(s, k);
      if k != key {
        FailureLeavesOthers(s, key, k);
      }
    }
  }

  lemma FailureLeavesOthers(s: State, key: string, k: string)
    requires k != key
    ensures var s' := RecordFailure(s, key);
      FailuresOf(s', k) == FailuresOf(s, k) && CounterOf(s', k) == CounterOf(s, k) && s'.now == s.now
  {
  }

  lemma ResetKeepsCounted(s: State, key: string)
    requires Counted(s)
    ensures Counted(ResetAttempts(s, key))
  {
    var s' := ResetAttempts(s, key);
    forall k ensures KeyFits(s', k) {
      assert KeyFits(s, k);
      if k != key {
        assert FailuresOf(s', k) == FailuresOf(s, k) && CounterOf(s', k) == CounterOf(s, k);
      }
    }
  }

  /** Requests other than logins leave counters and clock alone. */
  predicate SameCounters(s: State, s': State) {
    s'.attempts == s.attempts && s'.failures == s.failures && s'.now == s.now
  }

  lemma SameKeepsCounted(s: State, s': State)
    requires Counted(s) && SameCounters(s, s')
    ensures Counted(s')
  {
    forall k ensures KeyFits(s', k) {
      assert KeyFits(s, k);
    }
  }

  lemma TickKeepsCounted(s: State, to: int)
    requires Counted(s) && to >= s.now
    ensures Counted(s.(now := to))
  {
    var s' := s.(now := to);
    forall k ensures KeyFits(s', k) {
      assert KeyFits(s, k);
      var ws := FailuresOf(s, k);
      forall i | 0 <= i < |ws| ensures LifetimeFits(ws[i], to) {
        assert LifetimeFits(ws[i], s.now);
      }
    }
  }

  lemma LoginKeepsCounted(cfg: Config, s: State, email: string, password: string)
    requires Counted(s)
    ensures Counted(Login(cfg, s, email, password).0)
  {
    var key := AttemptsKey(cfg, email);
    var (s', r) := Login(cfg, s, email, password);
    if GetAttempts(s, key) < MAX_LOGIN_ATTEMPTS {
      FailureKeepsCounted(s, key);
      var found := FindByEmail(s.users, email);
      if found.Some? {
        var s1 := MintPair(s, found.value, s.users[found.value].version).0;
        SameKeepsCounted(s, s1);
        ResetKeepsCounted(s1, key);
      }
    }
  }

  lemma OthersKeepCounters(cfg: Config, s: State, e: Event)
    requires !e.Tick? && !e.DoLogin?
    ensures SameCounters(s, Step(cfg, s, e))
  {
  }

  lemma StepKeepsCounted(cfg: Config, s: State, e: Event)
    requires Counted(s)
    ensures Counted(Step(cfg, s, e))
  {
    match e
    case Tick(to) => if to > s.now { TickKeepsCounted(s, to); }
    case DoLogin(email, password) => LoginKeepsCounted(cfg, s, email, password);
    case _ =>
      OthersKeepCounters(cfg, s, e);
      SameKeepsCounted(s, Step(cfg, s, e));
  }

  lemma {:induction false} RunKeepsCounted(cfg: Config, s: State, es: seq<Event>)
    requires Counted(s)
    ensures Counted(Run(cfg, s, es))
    decreases |es|
  {
    if es != [] {
      StepKeepsCounted(cfg, s, es[0]);
      RunKeepsCounted(cfg, Step(cfg, s, es[0]), es[1..]);
    }
  }

  // ---- Counting ----

  /** How many failures of one lifetime fall into the 900 seconds from `x`. */
  function CountIn(w: seq<int>, x: int): nat {
    if w == [] then 0
    else CountIn(w[..|w| - 1], x) + if x <= w[|w| - 1] < x + WINDOW then 1 else 0
  }

  /** How many failures of all lifetimes do. */
  function CountAll(ws: seq<seq<int>>, x: int): nat {
    if ws == [] then 0 else CountAll(ws[..|ws| - 1], x) + CountIn(ws[|ws| - 1], x)
  }

  lemma {:induction false} CountInBounds(w: seq<int>, x: int)
    ensures CountIn(w, x) <= |w|
    ensures (forall i :: 0 <= i < |w| ==> w[i] < x || w[i] >= x + WINDOW) ==> CountIn(w, x) == 0
    ensures w != [] && w[0] < x ==> CountIn(w, x) <= |w| - 1
  {
    if w != [] {
      var front := w[..|w| - 1];
      CountInBounds(front, x);
    }
  }

  lemma {:induction false} NoneBefore(ws: seq<seq<int>>, now: int, x: int)
    requires LifetimesFit(ws, now)
    requires forall i :: 0 <= i < |ws| ==> ws[i][0] + WINDOW <= x
    ensures CountAll(ws, x) == 0
  {
    if ws != [] {
      NoneBefore(ws[..|ws| - 1], now, x);
      assert LifetimeFits(ws[|ws| - 1], now);
      CountInBounds(ws[|ws| - 1], x);
    }
  }

  /** When the last lifetime began before `x`, only it can reach into the interval. */
  lemma LastReaches(ws: seq<seq<int>>, now: int, x: int)
    requires LifetimesFit(ws, now) && (ws != [] ==> ws[|ws| - 1][0] < x)
    ensures CountAll(ws, x) <= MAX_LOGIN_ATTEMPTS - 1
  {
    if ws != [] {
      var front, last := ws[..|ws| - 1], ws[|ws| - 1];
      assert LifetimeFits(last, now);
      NoneBefore(front, now, x);
      CountInBounds(last, x);
    }
  }

  /** At most nine failures of one lifetime and ten of the next fit. */
  lemma {:induction false} AtMostNineteen(ws: seq<seq<int>>, now: int, x: int)
    requires LifetimesFit(ws, now)
    ensures CountAll(ws, x) <= 2 * MAX_LOGIN_ATTEMPTS - 1
  {
    if ws != [] {
      var front, last := ws[..|ws| - 1], ws[|ws| - 1];
      assert LifetimeFits(last, now);
      CountInBounds(last, x);
      if last[0] >= x + WINDOW {
        AtMostNineteen(front, now, x);
      } else if last[0] < x {
        LastReaches(ws, now, x);
      } else {
        LastReaches(front, now, x);
      }
    }
  }

  ghost predicate NoFailuresYet(s: State) {
    s.attempts == map[] && s.failures == map[]
  }

  /** Since the last successful login for an address: one counter lifetime admits at most ten
      failed password checks, and any half-open 900 seconds, wherever they start, contain at most
      nineteen. */
  lemma LockoutBound(cfg: Config, s: State, es: seq<Event>, email: string, x: int)
    requires NoFailuresYet(s)
    ensures var ws := FailuresOf(Run(cfg, s, es), AttemptsKey(cfg, email));
      && (forall i :: 0 <= i < |ws| ==> |ws[i]| <= 10)
      && CountAll(ws, x) <= 19
  {
    var s' := Run(cfg, s, es);
    assert Counted(s) by {
      forall k ensures KeyFits(s, k) {
      }
    }
    RunKeepsCounted(cfg, s, es);
    var key := AttemptsKey(cfg, email);
    assert KeyFits(s', key);
    var ws := FailuresOf(s', key);
    forall i | 0 <= i < |ws| ensures |ws[i]| <= MAX_LOGIN_ATTEMPTS {
      assert LifetimeFits(ws[i], s'.now);
    }
    AtMostNineteen(ws, s'.now, x);
  }

  /** A locked address is refused without a password check until the counter expires, and the
      counter is not extended by trying. */
  lemma LockedOut(cfg: Config, s: State, email: string, password: string)
    requires Counted(s)
    ensures var key := AttemptsKey(cfg, email);
      var ws := FailuresOf(s, key);
      Login(cfg, s, email, password).1 == Err(AccountLocked) <==>
        ws != [] && |ws[|ws| - 1]| == MAX_LOGIN_ATTEMPTS && s.now < ws[|ws| - 1][0] + WINDOW
    ensures Login(cfg, s, email, password).1 == Err(AccountLocked) ==> Login(cfg, s, email, password).0 == s
  {
    var key := AttemptsKey(cfg, email);
    assert KeyFits(s, key);
    var ws := FailuresOf(s, key);
    if ws != [] {
      assert LifetimeFits(ws[|ws| - 1], s.now);
    }
  }

  // ---- The bound is reached ----

  function Repeat(e: Event, n: nat): seq<Event> {
    if n == 0 then [] else [e] + Repeat(e, n - 1)
  }

  function Copies(x: int, n: nat): seq<int> {
    if n == 0 then [] else [x] + Copies(x, n - 1)
  }

  lemma FailsWithoutAccounts(cfg: Config, s: State, email: string, password: string)
    requires s.users == map[] && GetAttempts(s, AttemptsKey(cfg, email)) < MAX_LOGIN_ATTEMPTS
    ensures Step(cfg, s, DoLogin(email, password)) == RecordFailure(s, AttemptsKey(cfg, email))
  {
    assert FindByEmail(s.users, email) == None by {
      assert forall u :: u !in s.users;
    }
  }

  /** `n` failed logins in a row while the counter lives. */
  lemma {:induction false} FailRepeatedly(cfg: Config, s: State, email: string, password: string, n: nat)
    requires s.users == map[]
    requires var key := AttemptsKey(cfg, email);
      CounterAlive(s, key) && FailuresOf(s, key) != [] && s.attempts[key].count + n <= MAX_LOGIN_ATTEMPTS
    ensures var key := AttemptsKey(cfg, email);
      var s' := Run(cfg, s, Repeat(DoLogin(email, password), n));
      var ws := FailuresOf(s, key);
      && s'.now == s.now && s'.users == map[]
      && key in s'.attempts && s'.attempts[key] == Attempts(s.attempts[key].count + n, s.attempts[key].expires)
      && FailuresOf(s', key) == ws[..|ws| - 1] + [ws[|ws| - 1] + Copies(s.now, n)]
    decreases n
  {
    var key := AttemptsKey(cfg, email);
    var ws := FailuresOf(s, key);
    if n == 0 {
      assert ws[|ws| - 1] + Copies(s.now, 0) == ws[|ws| - 1];
      assert ws == ws[..|ws| - 1] + [ws[|ws| - 1]];
    } else {
      var e := DoLogin(email, password);
      var s1 := RecordFailure(s, key);
      FailsWithoutAccounts(cfg, s, email, password);
      FailRepeatedly(cfg, s1, email, password, n - 1);
      var es := Repeat(e, n);
      assert es[0] == e && es[1..] == Repeat(e, n - 1);
      assert ws[|ws| - 1] + [s.now] + Copies(s.now, n - 1) == ws[|ws| - 1] + Copies(s.now, n);
      var ws1 := ws[..|ws| - 1] + [ws[|ws| - 1] + [s.now]];
      assert FailuresOf(s1, key) == ws1;
      assert ws1[..|ws1| - 1] == ws[..|ws| - 1];
    }
  }

  lemma {:induction false} RunAppend(cfg: Config, s: State, es: seq<Event>, fs: seq<Event>)
    ensures Run(cfg, s, es + fs) == Run(cfg, Run(cfg, s, es), fs)
    decreases |es|
  {
    if es == [] {
      assert es + fs == fs;
    } else {
      assert (es + fs)[1..] == es[1..] + fs;
      RunAppend(cfg, Step(cfg, s, es[0]), es[1..], fs);
    }
  }

  lemma {:induction false} CopiesCount(w: seq<int>, x: int, t: int, n: nat)
    requires x <= t < x + WINDOW
    ensures CountIn(w + Copies(t, n), x) == CountIn(w, x) + n
    decreases n
  {
    if n == 0 {
      assert w + [] == w;
    } else {
      assert w + Copies(t, n) == (w + [t]) + Copies(t, n - 1);
      CopiesCount(w + [t], x, t, n - 1);
      assert (w + [t])[..|w|] == w;
    }
  }

  /** Wait until `to`, then fail once: a counter that has expired by then is replaced. */
  lemma WaitAndFail(cfg: Config, s: State, to: int, email: string, password: string)
    requires s.users == map[] && to > s.now
    requires var key := AttemptsKey(cfg, email); key in s.attempts ==> s.attempts[key].expires <= to
    ensures var key := AttemptsKey(cfg, email);
      var s' := Run(cfg, s, [Tick(to), DoLogin(email, password)]);
      && s'.now == to && s'.users == map[]
      && key in s'.attempts && s'.attempts[key] == Attempts(1, to + WINDOW)
      && FailuresOf(s', key) == FailuresOf(s, key) + [[to]]
  {
    var e := DoLogin(email, password);
    var s1 := s.(now := to);
    FailsWithoutAccounts(cfg, s1, email, password);
    var es := [Tick(to), e];
    assert es[1..] == [e] && [e][1..] == [];
    assert Run(cfg, s1, [e]) == Run(cfg, Step(cfg, s1, e), []);
  }

  /** The bound is exact: from a fresh start there is a run with nineteen failed password checks
      in some 900 seconds. */
  lemma NineteenReached(cfg: Config, s: State, email: string, password: string) returns (es: seq<Event>, x: int)
    requires NoFailuresYet(s) && s.users == map[]
    ensures CountAll(FailuresOf(Run(cfg, s, es), AttemptsKey(cfg, email)), x) == 19
  {
    var key := AttemptsKey(cfg, email);
    var e := DoLogin(email, password);
    var t := s.now + 1;
    var u := t + WINDOW - 1;
    // One failure at t, nine just before the counter expires, then ten in the next lifetime.
    var es1 := [Tick(t), e];
    WaitAndFail(cfg, s, t, email, password);
    var s1 := Run(cfg, s, es1);
    assert FailuresOf(s1, key) == [[t]];
    var s2 := Step(cfg, s1, Tick(u));
    assert s2 == s1.(now := u);
    FailRepeatedly(cfg, s2, email, password, 9);
    var s3 := Run(cfg, s2, Repeat(e, 9));
    var es2 := [Tick(u)] + Repeat(e, 9);
    assert es2[1..] == Repeat(e, 9);
    assert s3 == Run(cfg, s1, es2);
    RunAppend(cfg, s, es1, es2);
    assert FailuresOf(s3, key) == [[t] + Copies(u, 9)];
    var es3 := [Tick(u + 1), e];
    WaitAndFail(cfg, s3, u + 1, email, password);
    var s4 := Run(cfg, s3, es3);
    RunAppend(cfg, s, es1 + es2, es3);
    FailRepeatedly(cfg, s4, email, password, 9);
    var s5 := Run(cfg, s4, Repeat(e, 9));
    RunAppend(cfg, s, es1 + es2 + es3, Repeat(e, 9));
    es := es1 + es2 + es3 + Repeat(e, 9);
    x := t + 1;
    CountNineteen(t, u, x);
    assert FailuresOf(s5, key) == [[t] + Copies(u, 9), [u + 1] + Copies(u + 1, 9)];
  }

  lemma CountNineteen(t: int, u: int, x: int)
    requires x == t + 1 && u == t + WINDOW - 1
    ensures CountAll([[t] + Copies(u, 9), [u + 1] + Copies(u + 1, 9)], x) == 19
  {
    var first, second := [t] + Copies(u, 9), [u + 1] + Copies(u + 1, 9);
    CopiesCount([t], x, u, 9);
    CopiesCount([u + 1], x, u + 1, 9);
    assert CountIn([t], x) == 0 && CountIn([u + 1], x) == 1;
    assert [first, second][..1] == [first] && [first][..0] == [];
    assert CountAll([first], x) == CountAll([], x) + CountIn(first, x);
  }
}
