/** The functions of app/core/security.py, the routes of app/auth/router.py and
    app/user/router.py and the auto-refresh middleware as methods on the stores they update. Each
    is proved against the request function of module AuthModel that the runs are built from, keeps
    the invariants of tokens and counters, and promises what follows from them for its caller. */
module AuthServer {
  import opened Prelude
  import opened AuthModel
  import opened AuthTokens
  import opened Lockout

  /** The failed checks of the last counter lifetime, while it lasts. */
  function LiveFailures(ws: seq<seq<int>>, now: int): nat {
    if ws == [] || ws[|ws| - 1] == [] || now >= ws[|ws| - 1][0] + WINDOW then 0 else |ws[|ws| - 1]|
  }

  lemma LifetimeOf(s: State, key: string)
    requires Counted(s)
    ensures GetAttempts(s, key) == LiveFailures(FailuresOf(s, key), s.now) <= MAX_LOGIN_ATTEMPTS
  {
    assert KeyFits(s, key);
    var ws := FailuresOf(s, key);
    if ws != [] {
      assert LifetimeFits(ws[|ws| - 1], s.now);
    }
  }

  /** Once the version of an account has gone up, no token issued before is accepted. */
  lemma OlderTokensRefused(s: State, s': State, u: UserId)
    requires Good(s) && Bumps(s, s', u)
    ensures forall t :: t in s.issued && t.sub == u ==> !Accepted(s', t)
  {
    forall t | t in s.issued && t.sub == u ensures !Accepted(s', t) {
      assert TokenFits(t, s.users, s.nextJti, s.now);
      if Accepted(s', t) {
        AcceptedIsCurrent(s', t);
      }
    }
  }

  /** What storing a row with a higher version does, before and after a pair is minted for it. */
  lemma VersionRaised(s: State, u: UserId, user: User)
    requires Good(s) && Counted(s) && u in s.users
    requires user.version > s.users[u].version && (user.active ==> s.users[u].active)
    ensures var s1 := s.(users := s.users[u := user]);
      var (s2, pair) := MintPair(s1, u, user.version);
      && Good(s1) && Counted(s1)
      && (forall t :: t in s.issued && t.sub == u ==> !Accepted(s1, t) && !Accepted(s2, t))
      && (user.active ==>
            && CurrentUser(s2, Some(Signed(pair.access))) == Ok(u)
            && RefreshTokens(s2, Some(Signed(pair.refresh))).1.Ok?)
  {
    var s1 := s.(users := s.users[u := user]);
    BumpKeepsGood(s, u, user);
    SameKeepsCounted(s, s1);
    MintPairOnlyMints(s1, u, user.version);
    OlderTokensRefused(s, s1, u);
    OlderTokensRefused(s, MintPair(s1, u, user.version).0, u);
    if user.active {
      FreshPairLives(s1, u, user.version);
    }
  }

  /** A recorded failure counts once, for its own address. */
  lemma FailureCounts(s: State, key: string)
    requires Good(s) && Counted(s)
    ensures var s' := RecordFailure(s, key);
      && Good(s') && GetAttempts(s', key) == GetAttempts(s, key) + 1
      && (forall k :: k != key ==> GetAttempts(s', k) == GetAttempts(s, k))
      && (GetAttempts(s, key) < MAX_LOGIN_ATTEMPTS ==> Counted(s'))
  {
    if GetAttempts(s, key) < MAX_LOGIN_ATTEMPTS {
      FailureKeepsCounted(s, key);
    }
  }

  /** The guard lets an auto-refreshed token through exactly when the refresh token behind it is of
      the current version of an active account. */
  lemma MintedIsJudged(s: State, access: Option<Cookie>, refresh: Option<Cookie>)
    requires Good(s) && AutoRefresh(s, access, refresh).1.Some?
    ensures var (s', a) := AutoRefresh(s, access, refresh);
      && a.value !in s.issued && refresh.Some? && refresh.value.Signed?
      && var t := refresh.value.token;
      && t.sub in s.users && Version(t) <= s.users[t.sub].version
      && (CurrentUser(s', Some(Signed(a.value))).Ok? <==>
            s.users[t.sub].active && Version(t) == s.users[t.sub].version)
  {
    var t := refresh.value.token;
    assert TokenFits(t, s.users, s.nextJti, s.now);
    MintKeepsGood(s, Access, t.sub, Version(t));
    assert s.now < (s.now / SECOND + 1) * SECOND;
  }

  /** A successful login resets its counter and hands out a pair that works. */
  lemma LoginHandsOutPair(cfg: Config, s: State, email: string, password: string)
    requires Good(s) && Login(cfg, s, email, password).1.Ok?
    ensures var (s', r) := Login(cfg, s, email, password);
      && FindByEmail(s.users, email).Some?
      && CurrentUser(s', Some(Signed(r.value.access))) == Ok(FindByEmail(s.users, email).value)
      && RefreshTokens(s', Some(Signed(r.value.refresh))).1.Ok?
  {
    var u := FindByEmail(s.users, email).value;
    FreshPairLives(s, u, s.users[u].version);
  }

  lemma DenylistKeepsInvariants(s: State, c: Cookie)
    requires Good(s) && Counted(s) && Presentable(s, Some(c))
    ensures Good(Denylist(s, c)) && Counted(Denylist(s, c)) && Denylisted(Denylist(s, c), c)
  {
    DenylistKeepsGood(s, c);
    SameKeepsCounted(s, Denylist(s, c));
  }

  /** What a refresh leaves behind: the presented token is spent and the new pair works. */
  lemma Rotates(s: State, t: Token)
    requires Good(s) && RefreshTokens(s, Some(Signed(t))).1.Ok?
    ensures var (s', r) := RefreshTokens(s, Some(Signed(t)));
      && RefreshTokens(s', Some(Signed(t))).1 == Err(TokenRevoked)
      && CurrentUser(s', Some(Signed(r.value.access))) == Ok(t.sub)
      && RefreshTokens(s', Some(Signed(r.value.refresh))).1.Ok?
  {
    var s1 := Denylist(s, Signed(t));
    DenylistKeepsGood(s, Signed(t));
    FreshPairLives(s1, t.sub, s.users[t.sub].version);
  }

  class Server {
    var now: int
    var users: map<UserId, User>
    ghost var issued: set<Token>
    var nextJti: nat
    var denylist: map<Cookie, int>
    var attempts: map<string, Attempts>
    ghost var origin: map<Token, Token>
    ghost var failures: map<string, seq<seq<int>>>

    ghost function View(): State
      reads this
    {
      State(now, users, issued, nextJti, denylist, attempts, origin, failures)
    }

    ghost predicate Valid()
      reads this
    {
      Good(View()) && Counted(View())
    }

    constructor (now: int, users: map<UserId, User>)
      ensures Valid()
      ensures View() == State(now, users, {}, 0, map[], map[], map[], map[])
    {
      this.now, this.users, this.nextJti := now, users, 0;
      this.issued, this.origin, this.failures := {}, map[], map[];
      this.denylist, this.attempts := map[], map[];
      new;
      InitialIsGood(View());
      forall key ensures KeyFits(View(), key) {
      }
    }

    // ---- Redis keys ----

    /** `blacklist_refresh_token`: the cookie is listed until `ttl` seconds have passed, and every
        other cookie stays as it was. */
    method BlacklistRefreshToken(c: Cookie, ttl: int)
      modifies `denylist
      ensures denylist == old(denylist)[c := now + ttl * SECOND]
      ensures forall t :: Denylisted(View().(now := t), c) <==> t < now + ttl * SECOND
      ensures forall d, t :: d != c ==>
        Denylisted(View().(now := t), d) == Denylisted(old(View()).(now := t), d)
    {
      denylist := denylist[c := now + ttl * SECOND];
    }

    /** `is_refresh_token_blacklisted`: a listed token is refused by refresh and mints nothing. */
    method IsRefreshTokenBlacklisted(c: Cookie) returns (listed: bool)
      ensures listed <==> Denylisted(View(), c)
      ensures listed ==> RefreshTokens(View(), Some(c)) == (View(), Err(TokenRevoked))
      ensures listed ==> forall access :: AutoRefresh(View(), access, Some(c)) == (View(), None)
    {
      listed := c in denylist && now < denylist[c];
    }

    /** `get_login_attempts`: the failed checks of the current counter lifetime. */
    method GetLoginAttempts(key: string) returns (count: nat)
      requires Valid()
      ensures count == GetAttempts(View(), key)
      ensures count == LiveFailures(FailuresOf(View(), key), now) <= MAX_LOGIN_ATTEMPTS
    {
      LifetimeOf(View(), key);
      count := 0;
      if key in attempts && now < attempts[key].expires {
        count := attempts[key].count;
      }
    }

    /** `record_failed_login`: increment, then set the expiry if this was the first failure. */
    method RecordFailedLogin(key: string) returns (count: nat)
      requires Valid()
      modifies `attempts, `failures
      ensures View() == RecordFailure(old(View()), key)
      ensures count == GetAttempts(View(), key) == old(GetAttempts(View(), key)) + 1
      ensures forall k :: k != key ==> GetAttempts(View(), k) == old(GetAttempts(View(), k))
      ensures old(GetAttempts(View(), key)) < MAX_LOGIN_ATTEMPTS ==> Valid()
    {
      assert KeyFits(View(), key);
      ghost var before, past := View(), FailuresOf(View(), key);
      if key in attempts && now < attempts[key].expires {
        count := attempts[key].count + 1;
        attempts := attempts[key := attempts[key].(count := count)];
        failures := failures[key := past[..|past| - 1] + [past[|past| - 1] + [now]]];
      } else {
        count := 1;
        failures := failures[key := past + [[now]]];
      }
      if count == 1 {
        attempts := attempts[key := Attempts(1, now + LOGIN_LOCKOUT_TTL * SECOND)];
      }
      assert View() == RecordFailure(before, key);
      FailureCounts(before, key);
    }

    /** `reset_login_attempts`. */
    method ResetLoginAttempts(key: string)
      requires Valid()
      modifies `attempts, `failures
      ensures Valid()
      ensures View() == ResetAttempts(old(View()), key)
      ensures GetAttempts(View(), key) == 0
      ensures forall k :: k != key ==> GetAttempts(View(), k) == old(GetAttempts(View(), k))
    {
      attempts := attempts - {key};
      failures := failures[key := []];
      ResetKeepsCounted(old(View()), key);
    }

    // ---- Tokens ----

    /** `jwt_service._create_token`: a token unlike any issued before, not on the denylist, that
        decodes to itself as its own kind and not as the other. */
    method CreateToken(kind: Kind, sub: UserId, version: nat) returns (t: Token)
      requires Valid()
      modifies `issued, `nextJti
      ensures (View(), t) == Mint(old(View()), kind, sub, version)
      ensures t !in old(issued) && Signed(t) !in denylist
      ensures Decode(View(), Signed(t), kind) == Ok(t)
      ensures forall other :: other != kind ==> Decode(View(), Signed(t), other) == Err(InvalidToken)
      ensures sub in users && version <= users[sub].version ==> Valid()
    {
      var issuedAt := now / SECOND;
      t := Token(kind, sub, Some(version), nextJti, issuedAt, issuedAt + Lifetime(kind));
      assert t !in issued by {
        forall o | o in issued ensures o.jti < nextJti {
          assert TokenFits(o, users, nextJti, now);
        }
      }
      issued := issued + {t};
      nextJti := nextJti + 1;
      assert now < (issuedAt + 1) * SECOND;
      if sub in users && version <= users[sub].version {
        MintKeepsGood(old(View()), kind, sub, version);
        SameKeepsCounted(old(View()), View());
      }
    }

    method CreatePair(sub: UserId, version: nat) returns (pair: Pair)
      requires Valid() && sub in users && version <= users[sub].version
      modifies `issued, `nextJti
      ensures Valid()
      ensures (View(), pair) == MintPair(old(View()), sub, version)
    {
      var access := CreateToken(Access, sub, version);
      var refresh := CreateToken(Refresh, sub, version);
      pair := Pair(access, refresh);
    }

    /** `jwt_service._decode`; `genuine` says whether the signature verifies. */
    method DecodeToken(c: Cookie, kind: Kind, genuine: bool) returns (r: Result<Token, Error>)
      requires genuine <==> c.Signed? && c.token in issued && c.token.kind == kind
      ensures r == Decode(View(), c, kind)
    {
      if !genuine {
        return Err(InvalidToken);
      }
      if c.token.exp * SECOND <= now {
        return Err(TokenExpired);
      }
      return Ok(c.token);
    }

    // ---- Routes ----

    /** `login`; `found` is the row selected by address. */
    method LogIn(cfg: Config, email: string, password: string, found: Option<UserId>)
      returns (r: Result<Pair, Error>)
      requires Valid() && found == FindByEmail(users, email)
      modifies this
      ensures Valid()
      ensures (View(), r) == Login(cfg, old(View()), email, password)
      ensures r.Ok? <==>
        && old(GetAttempts(View(), AttemptsKey(cfg, email))) < 10 && found.Some?
        && cfg.verify(password, old(users)[found.value].passwordHash) && old(users)[found.value].active
      ensures var key := AttemptsKey(cfg, email);
        match r
        case Ok(pair) =>
          && GetAttempts(View(), key) == 0 && found.Some?
          && CurrentUser(View(), Some(Signed(pair.access))) == Ok(found.value)
          && RefreshTokens(View(), Some(Signed(pair.refresh))).1.Ok?
        case Err(InvalidCredentials) =>
          GetAttempts(View(), key) == old(GetAttempts(View(), key)) + 1
        case Err(_) => View() == old(View())
    {
      var key := AttemptsKey(cfg, email);
      var count := GetLoginAttempts(key);
      if count >= MAX_LOGIN_ATTEMPTS {
        return Err(AccountLocked);
      }
      if found.None? || !cfg.verify(password, users[found.value].passwordHash) {
        var _ := RecordFailedLogin(key);
        return Err(InvalidCredentials);
      }
      if !users[found.value].active {
        return Err(UserInactive);
      }
      var pair := CreatePair(found.value, users[found.value].version);
      ResetLoginAttempts(key);
      LoginHandsOutPair(cfg, old(View()), email, password);
      return Ok(pair);
    }

    /** `refresh`. */
    method RotateTokens(cookie: Option<Cookie>, genuine: bool) returns (r: Result<Pair, Error>)
      requires genuine <==> cookie.Some? && cookie.value.Signed? && cookie.value.token in issued
                            && cookie.value.token.kind == Refresh
      requires Valid()
      modifies this
      ensures Valid()
      ensures (View(), r) == RefreshTokens(old(View()), cookie)
      ensures r.Ok? ==>
        && RefreshTokens(View(), cookie).1 == Err(TokenRevoked)
        && RefreshTokens(View(), Some(Signed(r.value.refresh))).1.Ok?
        && CurrentUser(View(), Some(Signed(r.value.access))) == Ok(cookie.value.token.sub)
    {
      if cookie.None? {
        return Err(RefreshTokenMissing);
      }
      var listed := IsRefreshTokenBlacklisted(cookie.value);
      if listed {
        return Err(TokenRevoked);
      }
      var decoded := DecodeToken(cookie.value, Refresh, genuine);
      if decoded.Err? {
        return Err(decoded.error);
      }
      var t := decoded.value;
      if t.sub !in users || !users[t.sub].active {
        return Err(TokenRevoked);
      }
      if Version(t) != users[t.sub].version {
        return Err(TokenRevoked);
      }
      BlacklistRefreshToken(cookie.value, REFRESH_LIFETIME);
      DenylistKeepsInvariants(old(View()), cookie.value);
      var pair := CreatePair(t.sub, users[t.sub].version);
      Rotates(old(View()), t);
      return Ok(pair);
    }

    /** `logout`. */
    method LogOut(cookie: Option<Cookie>)
      requires Valid() && Presentable(View(), cookie)
      modifies this
      ensures Valid()
      ensures View() == Logout(old(View()), cookie)
      ensures cookie.Some? ==>
        && RefreshTokens(View(), cookie) == (View(), Err(TokenRevoked))
        && forall access :: AutoRefresh(View(), access, cookie) == (View(), None)
    {
      if cookie.Some? {
        BlacklistRefreshToken(cookie.value, REFRESH_LIFETIME);
        DenylistKeepsInvariants(old(View()), cookie.value);
      }
    }

    /** `AutoRefreshMiddleware.dispatch` up to the call of the route; the new access token replaces
        the cookie of the request and is set on the response. */
    method Dispatch(access: Option<Cookie>, refresh: Option<Cookie>, accessGenuine: bool, refreshGenuine: bool)
      returns (newAccess: Option<Token>, forwarded: Option<Cookie>)
      requires access.Some? ==> (accessGenuine <==>
        access.value.Signed? && access.value.token in issued && access.value.token.kind == Access)
      requires refresh.Some? ==> (refreshGenuine <==>
        refresh.value.Signed? && refresh.value.token in issued && refresh.value.token.kind == Refresh)
      requires Valid()
      modifies this
      ensures Valid()
      ensures (View(), newAccess) == AutoRefresh(old(View()), access, refresh)
      ensures forwarded == if newAccess.Some? then Some(Signed(newAccess.value)) else access
      ensures newAccess.Some? ==>
        && newAccess.value !in old(issued) && refresh.Some? && refresh.value.Signed?
        && var t := refresh.value.token;
        && t.sub in users
        && (CurrentUser(View(), forwarded).Ok? <==>
              users[t.sub].active && Version(t) == users[t.sub].version)
    {
      newAccess, forwarded := None, access;
      if access.Some? {
        var verified := DecodeToken(access.value, Access, accessGenuine);
        if verified == Err(TokenExpired) && refresh.Some? {
          var listed := IsRefreshTokenBlacklisted(refresh.value);
          if !listed {
            var payload := DecodeToken(refresh.value, Refresh, refreshGenuine);
            if payload.Ok? {
              var t := CreateToken(Access, payload.value.sub, Version(payload.value));
              origin := origin[t := payload.value];
              AutoRefreshKeepsGood(old(View()), access, refresh);
              SameKeepsCounted(old(View()), View());
              MintedIsJudged(old(View()), access, refresh);
              newAccess, forwarded := Some(t), Some(Signed(t));
            }
          }
        }
      }
    }

    /** `change_password` for the user the guard has let through, and the pair handed out after. */
    method SetPassword(cfg: Config, u: UserId, current: string, next: string) returns (r: Result<Pair, Error>)
      requires Valid() && u in users
      modifies this
      ensures Valid()
      ensures r.Ok? ==> forall t :: t in old(issued) && t.sub == u ==> !Accepted(View(), t)
      ensures u in users
      ensures r.Ok? && users[u].active ==>
        && CurrentUser(View(), Some(Signed(r.value.access))) == Ok(u)
        && RefreshTokens(View(), Some(Signed(r.value.refresh))).1.Ok?
      ensures (View(), r) == StorePassword(cfg, old(View()), u, current, next)
      ensures r.Ok? <==> cfg.verify(current, old(users)[u].passwordHash)
      ensures r.Ok? ==> u in users && users[u].passwordHash == cfg.hash(next)
      ensures r.Err? ==> r == Err(InvalidCredentials) && View() == old(View())
    {
      if !cfg.verify(current, users[u].passwordHash) {
        return Err(InvalidCredentials);
      }
      var user := users[u];
      user := user.(passwordHash := cfg.hash(next));
      user := user.(version := user.version + 1);
      users := users[u := user];
      VersionRaised(old(View()), u, user);
      var pair := CreatePair(u, user.version);
      return Ok(pair);
    }

    /** `deactivate_account` for the user the guard has let through. */
    method DeactivateAccount(u: UserId)
      requires Valid() && u in users
      modifies this
      ensures Valid()
      ensures forall t :: t in issued && t.sub == u ==> !Accepted(View(), t)
      ensures forall access :: CurrentUser(old(View()), access) == Ok(u) ==>
        (View(), Ok(u)) == Deactivate(old(View()), access)
    {
      var user := users[u];
      user := user.(active := false);
      user := user.(version := user.version + 1);
      users := users[u := user];
      VersionRaised(old(View()), u, user);
    }
  }
}
