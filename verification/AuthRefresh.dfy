/** How often a refresh token can be used. The refresh route takes it once; the auto-refresh
    middleware does not take it at all. */
module AuthRefresh {
  import opened Prelude
  import opened AuthModel
  import opened AuthTokens

  /** The request puts `t` on the denylist: a successful refresh, or a logout. */
  predicate Spends(s: State, e: Event, t: Token) {
    || e == DoLogout(Some(Signed(t)))
    || (e == DoRefresh(Some(Signed(t))) && RefreshTokens(s, Some(Signed(t))).1.Ok?)
  }

  /** Some request of the run spends `t`. */
  ghost predicate SpentIn(cfg: Config, s: State, es: seq<Event>, t: Token)
    decreases |es|
  {
    es != [] && (Spends(s, es[0], t) || SpentIn(cfg, Step(cfg, s, es[0]), es[1..], t))
  }

  lemma LoginKeepsDenylist(cfg: Config, s: State, email: string, password: string)
    ensures Login(cfg, s, email, password).0.denylist == s.denylist
  {
  }

  lemma AccountRequestsKeepDenylist(cfg: Config, s: State, id: UserId, email: string, username: string,
                                    access: Option<Cookie>, refresh: Option<Cookie>, p: string, q: string)
    ensures Register(cfg, s, id, email, username, p).0.denylist == s.denylist
    ensures AutoRefresh(s, access, refresh).0.denylist == s.denylist
    ensures ChangePassword(cfg, s, access, p, q).0.denylist == s.denylist
    ensures Deactivate(s, access).0.denylist == s.denylist
  {
  }

  lemma RefreshDenylists(s: State, refresh: Option<Cookie>)
    ensures RefreshTokens(s, refresh).0.denylist.Keys
         == s.denylist.Keys + if RefreshTokens(s, refresh).1.Ok? then {refresh.value} else {}
  {
  }

  lemma AccountEventsKeepDenylist(cfg: Config, s: State, e: Event)
    requires e.Tick? || e.DoRegister? || e.DoLogin? || e.DoAutoRefresh? || e.DoChangePassword? || e.DoDeactivate?
    ensures Step(cfg, s, e).denylist == s.denylist
  {
    match e
    case Tick(_) =>
    case DoRegister(id, email, username, p) =>
      AccountRequestsKeepDenylist(cfg, s, id, email, username, None, None, p, p);
    case DoLogin(email, password) => LoginKeepsDenylist(cfg, s, email, password);
    case DoAutoRefresh(access, refresh) =>
      AccountRequestsKeepDenylist(cfg, s, 0, "", "", access, refresh, "", "");
    case DoChangePassword(access, p, q) =>
      AccountRequestsKeepDenylist(cfg, s, 0, "", "", access, None, p, q);
    case DoDeactivate(access) =>
      AccountRequestsKeepDenylist(cfg, s, 0, "", "", access, None, "", "");
  }

  lemma StepDenylists(cfg: Config, s: State, e: Event, t: Token)
    requires t in s.issued
    ensures Signed(t) in Step(cfg, s, e).denylist <==> Signed(t) in s.denylist || Spends(s, e, t)
  {
    match e
    case DoRefresh(refresh) => RefreshDenylists(s, refresh);
    case DoLogout(_) =>
    case _ => AccountEventsKeepDenylist(cfg, s, e);
  }

  lemma {:induction false} RunDenylists(cfg: Config, s: State, es: seq<Event>, t: Token)
    requires Good(s) && t in s.issued
    ensures Signed(t) in Run(cfg, s, es).denylist <==> Signed(t) in s.denylist || SpentIn(cfg, s, es, t)
    decreases |es|
  {
    if es != [] {
      StepDenylists(cfg, s, es[0], t);
      StepKeepsGood(cfg, s, es[0]);
      RunDenylists(cfg, Step(cfg, s, es[0]), es[1..], t);
    }
  }

  /** After any requests and until it expires, a refresh token that was live at the start still
      mints a new access token of its own account and version for a client whose access token has
      expired, if and only if no refresh and no logout has spent it in between. */
  lemma MintsUntilSpent(cfg: Config, s: State, es: seq<Event>, t: Token, access: Cookie)
    requires Good(s) && t in s.issued && t.kind == Refresh && Signed(t) !in s.denylist
    requires Run(cfg, s, es).now < t.exp * SECOND
    requires Decode(Run(cfg, s, es), access, Access) == Err(TokenExpired)
    ensures var s' := Run(cfg, s, es);
      var minted := AutoRefresh(s', Some(access), Some(Signed(t))).1;
      && (minted.Some? <==> !SpentIn(cfg, s, es, t))
      && (minted.Some? ==>
            minted.value !in s'.issued && minted.value.sub == t.sub && Version(minted.value) == Version(t))
  {
    var s' := Run(cfg, s, es);
    RunKeepsGood(cfg, s, es);
    RunDenylists(cfg, s, es, t);
    assert Signed(t) in s'.denylist ==> s'.denylist[Signed(t)] >= t.exp * SECOND;
    forall o | o in s'.issued ensures o.jti < s'.nextJti {
      assert TokenFits(o, s'.users, s'.nextJti, s'.now);
    }
  }

  const NO_ACCOUNTS := State(0, map[], {}, 0, map[], map[], map[], map[])

  /** A reachable example: an hour after registering, two requests with the same expired access
      token and the same refresh token are each given an access token, and the two differ. */
  lemma OneTokenMintsTwice(cfg: Config) returns (es: seq<Event>, access: Cookie, refresh: Cookie)
    ensures Initial(NO_ACCOUNTS)
    ensures var s := Run(cfg, NO_ACCOUNTS, es);
      var (s1, first) := AutoRefresh(s, Some(access), Some(refresh));
      var (s2, second) := AutoRefresh(s1, Some(access), Some(refresh));
      && first.Some? && second.Some? && first != second
      && CurrentUser(s2, Some(Signed(first.value))).Ok? && CurrentUser(s2, Some(Signed(second.value))).Ok?
      && s1 == Step(cfg, s, DoAutoRefresh(Some(access), Some(refresh)))
      && s2 == Step(cfg, s1, DoAutoRefresh(Some(access), Some(refresh)))
  {
    access, refresh, es := RegisteredAnHourAgo(cfg);
    var s := Run(cfg, NO_ACCOUNTS, es);
    MintsTwice(s, access.token, refresh.token);
    StepAutoRefreshes(cfg, s, access.token, refresh.token);
    StepAutoRefreshes(cfg, AutoRefresh(s, Some(access), Some(refresh)).0, access.token, refresh.token);
  }

  /** A session whose access token has just expired. */
  ghost predicate Expired(s: State, access: Token, refresh: Token) {
    && access in s.issued && access.kind == Access && access.exp * SECOND <= s.now
    && refresh in s.issued && refresh.kind == Refresh && s.now < refresh.exp * SECOND
    && Signed(refresh) !in s.denylist
    && refresh.sub in s.users && s.users[refresh.sub].active && s.users[refresh.sub].version == Version(refresh)
  }

  lemma MintsTwice(s: State, access: Token, refresh: Token)
    requires Good(s) && Expired(s, access, refresh)
    ensures var (s1, first) := AutoRefresh(s, Some(Signed(access)), Some(Signed(refresh)));
      var (s2, second) := AutoRefresh(s1, Some(Signed(access)), Some(Signed(refresh)));
      && first.Some? && second.Some? && first != second
      && Expired(s1, access, refresh)
      && CurrentUser(s2, Some(Signed(first.value))).Ok? && CurrentUser(s2, Some(Signed(second.value))).Ok?
  {
    var (s1, first) := AutoRefresh(s, Some(Signed(access)), Some(Signed(refresh)));
    MintsOnce(s, access, refresh);
    var (s2, second) := AutoRefresh(s1, Some(Signed(access)), Some(Signed(refresh)));
    MintsOnce(s1, access, refresh);
    LiveIsAccepted(s2, first.value);
    LiveIsAccepted(s2, second.value);
  }

  lemma LiveIsAccepted(s: State, t: Token)
    requires t in s.issued && t.kind == Access && s.now < t.exp * SECOND
    requires t.sub in s.users && s.users[t.sub].active && s.users[t.sub].version == Version(t)
    ensures CurrentUser(s, Some(Signed(t))) == Ok(t.sub)
  {
  }

  lemma StepAutoRefreshes(cfg: Config, s: State, access: Token, refresh: Token)
    requires access in s.issued && refresh in s.issued
    ensures Step(cfg, s, DoAutoRefresh(Some(Signed(access)), Some(Signed(refresh))))
      == AutoRefresh(s, Some(Signed(access)), Some(Signed(refresh))).0
  {
  }

  lemma MintsOnce(s: State, access: Token, refresh: Token)
    requires Good(s) && Expired(s, access, refresh)
    ensures var (s', a) := AutoRefresh(s, Some(Signed(access)), Some(Signed(refresh)));
      && Good(s') && Expired(s', access, refresh) && s'.now == s.now && s'.users == s.users && s.issued <= s'.issued
      && a.Some? && a.value == NewToken(s, Access, refresh.sub, Version(refresh)) && s'.nextJti == s.nextJti + 1
      && a.value in s'.issued && s.now < a.value.exp * SECOND
  {
    AutoRefreshKeepsGood(s, Some(Signed(access)), Some(Signed(refresh)));
    assert s.now < (s.now / SECOND + 1) * SECOND;
  }

  lemma RegisteredAnHourAgo(cfg: Config) returns (access: Cookie, refresh: Cookie, es: seq<Event>)
    ensures access.Signed? && refresh.Signed? && Good(Run(cfg, NO_ACCOUNTS, es))
    ensures Expired(Run(cfg, NO_ACCOUNTS, es), access.token, refresh.token)
  {
    var register := DoRegister(1, "ann@example.org", "ann", "secret");
    es := [register, Tick(ACCESS_LIFETIME * SECOND)];
    var (s1, r) := Register(cfg, NO_ACCOUNTS, 1, "ann@example.org", "ann", "secret");
    assert Step(cfg, NO_ACCOUNTS, register) == s1;
    var s2 := s1.(now := ACCESS_LIFETIME * SECOND);
    assert Step(cfg, s1, es[1]) == s2;
    assert es[1..][1..] == [] && es[1..][0] == es[1];
    assert Run(cfg, s1, es[1..]) == Run(cfg, s2, []);
    access, refresh := Signed(r.value.access), Signed(r.value.refresh);
    InitialIsGood(NO_ACCOUNTS);
    RunKeepsGood(cfg, NO_ACCOUNTS, es);
  }
}
