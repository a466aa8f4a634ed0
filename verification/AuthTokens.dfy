/** What tokens can and cannot do over whole runs of the authentication routes. */
module AuthTokens {
  import opened Prelude
  import opened AuthModel

  // ---- Invariant ----

  ghost predicate TokenFits(t: Token, users: map<UserId, User>, nextJti: nat, now: int) {
    && t.jti < nextJti && t.iat * SECOND <= now && t.exp == t.iat + Lifetime(t.kind)
    && t.sub in users && Version(t) <= users[t.sub].version
  }

  /** Tokens belong to accounts and never run ahead of their version. */
  ghost predicate IssuedFits(issued: set<Token>, users: map<UserId, User>, nextJti: nat, now: int) {
    forall t :: t in issued ==> TokenFits(t, users, nextJti, now)
  }

  /** A denylist entry outlives the token it names. */
  ghost predicate DenylistFits(denylist: map<Cookie, int>, issued: set<Token>, now: int) {
    && (forall c :: c in denylist ==> denylist[c] <= now + REFRESH_LIFETIME * SECOND)
    && (forall c :: c in denylist && c.Signed? ==>
          c.token in issued && denylist[c] >= c.token.exp * SECOND)
  }

  /** An auto-refreshed token carries the account and version of the refresh token behind it. */
  ghost predicate OriginFits(origin: map<Token, Token>, issued: set<Token>) {
    forall a :: a in origin ==>
      && a in issued && origin[a] in issued && a.sub == origin[a].sub
      && Version(a) == Version(origin[a]) && origin[a].jti < a.jti
  }

  ghost predicate Good(s: State) {
    && IssuedFits(s.issued, s.users, s.nextJti, s.now)
    && DenylistFits(s.denylist, s.issued, s.now)
    && OriginFits(s.origin, s.issued)
  }

  /** A deployment starts with accounts, legacy tokens without a version, and empty keys. */
  ghost predicate Initial(s: State) {
    && s.denylist == map[] && s.attempts == map[] && s.origin == map[] && s.failures == map[]
    && (forall t :: t in s.issued ==>
          && t.ver.None? && t.sub in s.users && t.jti < s.nextJti
          && t.iat * SECOND <= s.now && t.exp == t.iat + Lifetime(t.kind))
  }

  lemma InitialIsGood(s: State)
    requires Initial(s)
    ensures Good(s)
  {
  }

  /** What only ever grows: time, accounts, versions, issued tokens, denylist expiries, origins; and
      an account once deactivated stays so. */
  ghost predicate Grows(s: State, s': State) {
    && s.now <= s'.now && s.nextJti <= s'.nextJti && s.issued <= s'.issued
    && (forall u :: u in s.users ==> 
          && u in s'.users && s.users[u].version <= s'.users[u].version
          && (s'.users[u].active ==> s.users[u].active))
    && (forall c :: c in s.denylist ==> c in s'.denylist && s.denylist[c] <= s'.denylist[c])
    && (forall a :: a in s.origin ==> a in s'.origin && s'.origin[a] == s.origin[a])
  }

  lemma MintKeepsGood(s: State, kind: Kind, sub: UserId, version: nat)
    requires Good(s) && sub in s.users && version <= s.users[sub].version
    ensures var (s', t) := Mint(s, kind, sub, version);
      && Good(s') && Grows(s, s') && s'.users == s.users && s'.now == s.now
      && t in s'.issued && t !in s.issued && t.sub == sub && Version(t) == version && t.jti == s.nextJti
      && t.kind == kind && s'.denylist == s.denylist && s'.origin == s.origin && s'.nextJti == s.nextJti + 1
  {
    var t := NewToken(s, kind, sub, version);
    assert t.iat * SECOND <= s.now;
    forall o | o in s.issued ensures o.jti < s.nextJti {
      assert TokenFits(o, s.users, s.nextJti, s.now);
    }
    var s' := Mint(s, kind, sub, version).0;
    forall o | o in s'.issued ensures TokenFits(o, s'.users, s'.nextJti, s'.now) {
      if o != t { assert TokenFits(o, s.users, s.nextJti, s.now); }
    }
  }

  lemma MintPairKeepsGood(s: State, sub: UserId, version: nat)
    requires Good(s) && sub in s.users && version <= s.users[sub].version
    ensures var (s', p) := MintPair(s, sub, version);
      && Good(s') && Grows(s, s') && s'.users == s.users && s'.now == s.now && s'.denylist == s.denylist
      && p.access in s'.issued && p.refresh in s'.issued && p.access !in s.issued && p.refresh !in s.issued
      && p.access.sub == p.refresh.sub == sub && Version(p.access) == Version(p.refresh) == version
      && p.access.kind == Access && p.refresh.kind == Refresh
  {
    MintKeepsGood(s, Access, sub, version);
    MintKeepsGood(Mint(s, Access, sub, version).0, Refresh, sub, version);
  }

  lemma DenylistKeepsGood(s: State, c: Cookie)
    requires Good(s) && Presentable(s, Some(c))
    ensures Good(Denylist(s, c)) && Grows(s, Denylist(s, c)) && Denylisted(Denylist(s, c), c)
  {
    var s' := Denylist(s, c);
    if c.Signed? {
      assert TokenFits(c.token, s.users, s.nextJti, s.now);
      assert c.token.exp <= c.token.iat + REFRESH_LIFETIME;
    }
  }

  lemma LoginKeepsGood(cfg: Config, s: State, email: string, password: string)
    requires Good(s)
    ensures var s' := Login(cfg, s, email, password).0; Good(s') && Grows(s, s')
  {
    CounterKeepsGood(s, AttemptsKey(cfg, email));
    if Login(cfg, s, email, password).1.Ok? {
      var found := FindByEmail(s.users, email).value;
      MintPairKeepsGood(s, found, s.users[found].version);
      CounterKeepsGood(MintPair(s, found, s.users[found].version).0, AttemptsKey(cfg, email));
    }
  }

  /** The counter is no concern of the tokens. */
  lemma CounterKeepsGood(s: State, key: string)
    requires Good(s)
    ensures Good(RecordFailure(s, key)) && Grows(s, RecordFailure(s, key))
    ensures Good(ResetAttempts(s, key)) && forall s0 :: Grows(s0, s) ==> Grows(s0, ResetAttempts(s, key))
  {
  }

  lemma RegisterKeepsGood(cfg: Config, s: State, id: UserId, email: string, username: string, password: string)
    requires Good(s)
    ensures var s' := Register(cfg, s, id, email, username, password).0; Good(s') && Grows(s, s')
  {
    if id !in s.users {
      var s1 := s.(users := s.users[id := User(email, username, cfg.hash(password), true, 0)]);
      forall t | t in s1.issued ensures TokenFits(t, s1.users, s1.nextJti, s1.now) {
        assert TokenFits(t, s.users, s.nextJti, s.now);
      }
      MintPairKeepsGood(s1, id, 0);
    }
  }

  lemma RefreshKeepsGood(s: State, refresh: Option<Cookie>)
    requires Good(s) && Presentable(s, refresh)
    ensures var (s', r) := RefreshTokens(s, refresh);
      && Good(s') && Grows(s, s')
      && (r.Ok? ==> refresh.Some? && refresh.value in s'.denylist)
  {
    if RefreshTokens(s, refresh).1.Ok? {
      DenylistKeepsGood(s, refresh.value);
      var t := refresh.value.token;
      MintPairKeepsGood(Denylist(s, refresh.value), t.sub, s.users[t.sub].version);
    }
  }

  lemma AutoRefreshKeepsGood(s: State, access: Option<Cookie>, refresh: Option<Cookie>)
    requires Good(s)
    ensures var s' := AutoRefresh(s, access, refresh).0; Good(s') && Grows(s, s')
  {
    if AutoRefresh(s, access, refresh).1.Some? {
      var t := refresh.value.token;
      assert TokenFits(t, s.users, s.nextJti, s.now);
      MintKeepsGood(s, Access, t.sub, Version(t));
      var (s', a) := Mint(s, Access, t.sub, Version(t));
      assert a !in s.origin;
    }
  }

  /** Raising an account's version keeps every token at or below it. */
  lemma BumpKeepsGood(s: State, u: UserId, user: User)
    requires Good(s) && u in s.users && user.version > s.users[u].version
    requires user.active ==> s.users[u].active
    ensures var s' := s.(users := s.users[u := user]); Good(s') && Grows(s, s')
  {
    var s' := s.(users := s.users[u := user]);
    forall t | t in s'.issued ensures TokenFits(t, s'.users, s'.nextJti, s'.now) {
      assert TokenFits(t, s.users, s.nextJti, s.now);
    }
  }

  lemma ChangePasswordKeepsGood(cfg: Config, s: State, access: Option<Cookie>, current: string, next: string)
    requires Good(s)
    ensures var s' := ChangePassword(cfg, s, access, current, next).0; Good(s') && Grows(s, s')
  {
    if ChangePassword(cfg, s, access, current, next).1.Ok? {
      var u := CurrentUser(s, access).value;
      PasswordChangeMints(cfg, s, access, current, next);
      var user := s.users[u].(passwordHash := cfg.hash(next), version := s.users[u].version + 1);
      BumpKeepsGood(s, u, user);
      MintPairKeepsGood(s.(users := s.users[u := user]), u, user.version);
    }
  }

  lemma DeactivateKeepsGood(s: State, access: Option<Cookie>)
    requires Good(s)
    ensures var s' := Deactivate(s, access).0; Good(s') && Grows(s, s')
  {
    var r := CurrentUser(s, access);
    if r.Ok? {
      BumpKeepsGood(s, r.value, s.users[r.value].(active := false, version := s.users[r.value].version + 1));
    }
  }

  lemma StepKeepsGood(cfg: Config, s: State, e: Event)
    requires Good(s)
    ensures Good(Step(cfg, s, e)) && Grows(s, Step(cfg, s, e))
  {
    if Possible(s, e) {
      match e
      case Tick(to) => if to > s.now { TickKeepsGood(s, to); }
      case DoRegister(id, email, username, password) => RegisterKeepsGood(cfg, s, id, email, username, password);
      case DoLogin(email, password) => LoginKeepsGood(cfg, s, email, password);
      case DoRefresh(refresh) => RefreshKeepsGood(s, refresh);
      case DoLogout(refresh) => if refresh.Some? { DenylistKeepsGood(s, refresh.value); }
      case DoAutoRefresh(access, refresh) => AutoRefreshKeepsGood(s, access, refresh);
      case DoChangePassword(access, current, next) => ChangePasswordKeepsGood(cfg, s, access, current, next);
      case DoDeactivate(access) => DeactivateKeepsGood(s, access);
    }
  }

  lemma TickKeepsGood(s: State, to: int)
    requires Good(s) && to > s.now
    ensures Good(s.(now := to)) && Grows(s, s.(now := to))
  {
    forall t | t in s.issued ensures TokenFits(t, s.users, s.nextJti, to) {
      assert TokenFits(t, s.users, s.nextJti, s.now);
    }
  }

  lemma GrowsTransitive(a: State, b: State, c: State)
    requires Grows(a, b) && Grows(b, c)
    ensures Grows(a, c)
  {
  }

  lemma {:induction false} RunKeepsGood(cfg: Config, s: State, es: seq<Event>)
    requires Good(s)
    ensures Good(Run(cfg, s, es)) && Grows(s, Run(cfg, s, es))
    decreases |es|
  {
    if es != [] {
      var s' := Step(cfg, s, es[0]);
      StepKeepsGood(cfg, s, es[0]);
      RunKeepsGood(cfg, s', es[1..]);
      GrowsTransitive(s, s', Run(cfg, s', es[1..]));
    }
  }

  // ---- Revocation ----

  /** Some gate lets the token through: a protected route, an optional one, or a refresh. */
  predicate Accepted(s: State, t: Token) {
    || CurrentUser(s, Some(Signed(t))).Ok?
    || OptionalUser(s, Some(Signed(t))).Some?
    || RefreshTokens(s, Some(Signed(t))).1.Ok?
  }

  /** `a` is `t`, or was auto-refreshed from a token derived from `t`. */
  predicate Derived(s: State, a: Token, t: Token)
    decreases a.jti
  {
    || a == t
    || (a in s.origin && s.origin[a].jti < a.jti && Derived(s, s.origin[a], t))
  }

  /** Acceptance at any gate needs the account's current version and an active account. */
  lemma AcceptedIsCurrent(s: State, t: Token)
    requires Accepted(s, t)
    ensures t in s.issued && t.sub in s.users && s.users[t.sub].active
    ensures Version(t) == s.users[t.sub].version && s.now < t.exp * SECOND
  {
  }

  lemma {:induction false} DerivedKeepsVersion(s: State, a: Token, t: Token)
    requires Good(s) && Derived(s, a, t)
    ensures a.sub == t.sub && Version(a) == Version(t)
    decreases a.jti
  {
    if a != t {
      DerivedKeepsVersion(s, s.origin[a], t);
    }
  }

  /** The account was bumped: its version went up. */
  predicate Bumps(s: State, s': State, u: UserId) {
    u in s.users && u in s'.users && s'.users[u].version > s.users[u].version
  }

  /** After a password change or a deactivation, no token the account had before is ever accepted
      again at any gate, at any later time and after any requests, and neither is any token
      auto-refreshed from one of them, before or after. */
  lemma RevokedForever(cfg: Config, s: State, e: Event, es: seq<Event>, u: UserId, t: Token, a: Token)
    requires Good(s) && Bumps(s, Step(cfg, s, e), u)
    requires t in s.issued && t.sub == u
    requires Derived(Run(cfg, Step(cfg, s, e), es), a, t)
    ensures !Accepted(Run(cfg, Step(cfg, s, e), es), a)
  {
    var s1 := Step(cfg, s, e);
    var s2 := Run(cfg, s1, es);
    StepKeepsGood(cfg, s, e);
    RunKeepsGood(cfg, s1, es);
    assert TokenFits(t, s.users, s.nextJti, s.now);
    DerivedKeepsVersion(s2, a, t);
    if Accepted(s2, a) {
      AcceptedIsCurrent(s2, a);
    }
  }

  /** A successful password change bumps the caller and nobody else. */
  lemma PasswordChangeBumps(cfg: Config, s: State, access: Option<Cookie>, current: string, next: string)
    requires ChangePassword(cfg, s, access, current, next).1.Ok?
    ensures var s' := ChangePassword(cfg, s, access, current, next).0;
      var u := CurrentUser(s, access).value;
      && Bumps(s, s', u)
      && (forall o :: o in s.users && o != u ==> o in s'.users && s'.users[o] == s.users[o])
      && s'.users[u].passwordHash == cfg.hash(next)
  {
    var u := CurrentUser(s, access).value;
    var user := s.users[u].(passwordHash := cfg.hash(next), version := s.users[u].version + 1);
    PasswordChangeMints(cfg, s, access, current, next);
    MintPairOnlyMints(s.(users := s.users[u := user]), u, user.version);
  }

  /** The pair a password change hands out works at once, so its caller stays signed in. */
  lemma PasswordChangeKeepsCaller(cfg: Config, s: State, access: Option<Cookie>, current: string, next: string)
    requires Good(s) && ChangePassword(cfg, s, access, current, next).1.Ok?
    ensures var (s', r) := ChangePassword(cfg, s, access, current, next);
      && CurrentUser(s', Some(Signed(r.value.access))) == CurrentUser(s, access)
      && RefreshTokens(s', Some(Signed(r.value.refresh))).1.Ok?
  {
    StoredPasswordWorks(cfg, s, CurrentUser(s, access).value, current, next);
  }

  lemma StoredPasswordWorks(cfg: Config, s: State, u: UserId, current: string, next: string)
    requires Good(s) && u in s.users && s.users[u].active
    requires StorePassword(cfg, s, u, current, next).1.Ok?
    ensures var (s', r) := StorePassword(cfg, s, u, current, next);
      && CurrentUser(s', Some(Signed(r.value.access))) == Ok(u)
      && RefreshTokens(s', Some(Signed(r.value.refresh))).1.Ok?
  {
    var user := s.users[u].(passwordHash := cfg.hash(next), version := s.users[u].version + 1);
    BumpKeepsGood(s, u, user);
    FreshPairLives(s.(users := s.users[u := user]), u, user.version);
  }

  lemma PasswordChangeMints(cfg: Config, s: State, access: Option<Cookie>, current: string, next: string)
    requires ChangePassword(cfg, s, access, current, next).1.Ok?
    ensures CurrentUser(s, access).Ok? && CurrentUser(s, access).value in s.users
    ensures var u := CurrentUser(s, access).value;
      var user := s.users[u].(passwordHash := cfg.hash(next), version := s.users[u].version + 1);
      var (s', pair) := MintPair(s.(users := s.users[u := user]), u, user.version);
      ChangePassword(cfg, s, access, current, next) == (s', Ok(pair))
  {
  }

  lemma MintPairOnlyMints(s: State, u: UserId, version: nat)
    ensures MintPair(s, u, version).0.users == s.users
  {
  }

  lemma DeactivationBumps(s: State, access: Option<Cookie>)
    requires Deactivate(s, access).1.Ok?
    ensures var (s', r) := Deactivate(s, access);
      && CurrentUser(s, access) == Ok(r.value) && Bumps(s, s', r.value) && !s'.users[r.value].active
      && (forall o :: o in s.users && o != r.value ==> o in s'.users && s'.users[o] == s.users[o])
  {
  }

  /** A deactivated account is never accepted again, whatever tokens it holds or is given later. */
  lemma DeactivatedForever(cfg: Config, s: State, es: seq<Event>, u: UserId, t: Token)
    requires Good(s) && u in s.users && !s.users[u].active && t.sub == u
    ensures !Accepted(Run(cfg, s, es), t)
  {
    RunKeepsGood(cfg, s, es);
    if Accepted(Run(cfg, s, es), t) {
      AcceptedIsCurrent(Run(cfg, s, es), t);
    }
  }

  /** A successful deactivation is final: no token of the account, issued before or later, is ever
      accepted again. */
  lemma DeactivationIsFinal(cfg: Config, s: State, access: Option<Cookie>, es: seq<Event>, t: Token)
    requires Good(s) && Deactivate(s, access).1.Ok? && t.sub == Deactivate(s, access).1.value
    ensures !Accepted(Run(cfg, Deactivate(s, access).0, es), t)
  {
    DeactivationBumps(s, access);
    DeactivateKeepsGood(s, access);
    DeactivatedForever(cfg, Deactivate(s, access).0, es, t.sub, t);
  }

  // ---- Rotation ----

  /** A token that was rotated or logged out is refused by refresh and by auto-refresh at every
      later time: its denylist entry cannot expire before the token does. */
  lemma SpentForever(cfg: Config, s: State, es: seq<Event>, t: Token, access: Option<Cookie>)
    requires Good(s) && Signed(t) in s.denylist
    ensures var s' := Run(cfg, s, es);
      && RefreshTokens(s', Some(Signed(t))).1.Err?
      && RefreshTokens(s', Some(Signed(t))).0 == s'
      && AutoRefresh(s', access, Some(Signed(t))) == (s', None)
  {
    var s' := Run(cfg, s, es);
    RunKeepsGood(cfg, s, es);
    assert Signed(t) in s'.denylist && s'.denylist[Signed(t)] >= t.exp * SECOND;
    if !Denylisted(s', Signed(t)) {
      assert Decode(s', Signed(t), Refresh).Err?;
    }
  }

  /** A refresh spends the presented token, and so does a logout. */
  lemma RefreshSpends(s: State, t: Token)
    requires Good(s) && RefreshTokens(s, Some(Signed(t))).1.Ok?
    ensures Signed(t) in RefreshTokens(s, Some(Signed(t))).0.denylist
    ensures Signed(t) in Logout(s, Some(Signed(t))).denylist
  {
    RefreshKeepsGood(s, Some(Signed(t)));
  }

  /** A token presented to a logout is refused by refresh and by auto-refresh at every later time. */
  lemma LoggedOutForever(cfg: Config, s: State, es: seq<Event>, t: Token, access: Option<Cookie>)
    requires Good(s) && t in s.issued
    ensures var s' := Run(cfg, Logout(s, Some(Signed(t))), es);
      && RefreshTokens(s', Some(Signed(t))).1.Err?
      && AutoRefresh(s', access, Some(Signed(t))) == (s', None)
  {
    DenylistKeepsGood(s, Signed(t));
    SpentForever(cfg, Logout(s, Some(Signed(t))), es, t, access);
  }

  /** A refresh token is redeemed at most once in any run. */
  lemma RedeemedOnce(cfg: Config, s: State, es: seq<Event>, t: Token)
    requires Good(s) && RefreshTokens(s, Some(Signed(t))).1.Ok?
    ensures var s' := Run(cfg, RefreshTokens(s, Some(Signed(t))).0, es);
      RefreshTokens(s', Some(Signed(t))).1.Err?
  {
    RefreshKeepsGood(s, Some(Signed(t)));
    RefreshSpends(s, t);
    SpentForever(cfg, RefreshTokens(s, Some(Signed(t))).0, es, t, None);
  }

  /** A freshly minted pair is not denylisted and both tokens are accepted, as long as the account
      is active and the version is its current one. */
  lemma FreshPairLives(s: State, u: UserId, version: nat)
    requires Good(s) && u in s.users && s.users[u].active && s.users[u].version == version
    ensures var (s', p) := MintPair(s, u, version);
      && !Denylisted(s', Signed(p.access)) && !Denylisted(s', Signed(p.refresh))
      && CurrentUser(s', Some(Signed(p.access))) == Ok(u)
      && OptionalUser(s', Some(Signed(p.access))) == Some(u)
      && RefreshTokens(s', Some(Signed(p.refresh))).1.Ok?
  {
    MintPairKeepsGood(s, u, version);
    var (s', p) := MintPair(s, u, version);
    assert Signed(p.access) !in s.denylist && Signed(p.refresh) !in s.denylist;
    assert s.now < (s.now / SECOND + 1) * SECOND;
  }

  /** The two guards of routes agree: the optional one knows the user exactly when the required
      one lets it through, in every state. */
  lemma GuardsAgree(s: State, access: Option<Cookie>)
    ensures OptionalUser(s, access).Some? <==> CurrentUser(s, access).Ok?
    ensures CurrentUser(s, access).Ok? ==> OptionalUser(s, access).value == CurrentUser(s, access).value
  {
  }
}
